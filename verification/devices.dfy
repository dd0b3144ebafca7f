/**
 * The device-billing panel's values: the six fixed devices, the per-device
 * session record, the tick's split of elapsed time into hours, minutes and
 * seconds, the hourly cost and the hh:mm:ss display.
 */
module Devices {
  import opened Values

  /** The six devices the panel creates at start-up: three rooms and three consoles. */
  datatype DeviceKey = Room1 | Room2 | Room3 | Ps1 | Ps2 | Ps3

  /** The keys in the order the panel declares them (and `Object.values` visits them). */
  const AllKeys: seq<DeviceKey> := [Room1, Room2, Room3, Ps1, Ps2, Ps3]

  datatype Timer = Timer(hours: int, minutes: int, seconds: int)

  /** One device's session record. `startTime` is `None` where the source holds `null`. */
  datatype Device = Device(
    name: string,
    isRoom: bool,
    usageType: string,
    controllerType: string,
    airConditioner: string,
    price: Entry,
    timer: Timer,
    isRunning: bool,
    startTime: Option<int>,
    totalCost: real,
    canCalculate: bool,
    showPaymentModal: bool,
    discount: Entry,
    paidAmount: Entry,
    remaining: real)

  /** The "no" answer of the air-conditioner select. */
  const NoAirConditioner: string := "لا"

  /** `getInitialDeviceState()` with the device's name and kind. */
  function InitialDevice(name: string, isRoom: bool): (d: Device)
    ensures d.name == name && d.isRoom == isRoom
    ensures !d.isRunning && d.startTime.None? && !d.canCalculate && !d.showPaymentModal
    ensures d.price.Blank? && d.timer == Timer(0, 0, 0) && d.totalCost == 0.0
    ensures d.airConditioner == NoAirConditioner && d.usageType == "" && d.controllerType == ""
    ensures d.discount.Blank? && d.paidAmount.Blank? && d.remaining == 0.0
  {
    Device(name, isRoom, "", "", NoAirConditioner, Blank, Timer(0, 0, 0), false, None,
           0.0, false, false, Blank, Blank, 0.0)
  }

  function TotalSeconds(t: Timer): int
  {
    t.hours * 3600 + t.minutes * 60 + t.seconds
  }

  /** JavaScript's `%`, which truncates toward zero (Dafny's `%` never goes negative). */
  function JsRem(a: int, b: int): (r: int)
    requires b > 0
    ensures a >= 0 ==> r == a % b
    ensures a < 0 ==> -b < r <= 0
    ensures (a - r) % b == 0
  {
    RemainderGap(if a >= 0 then a else -a, b);
    if a >= 0 then a % b else -((-a) % b)
  }

  /** Taking the remainder away from `n`, or adding it to `-n`, leaves a multiple of `b`. */
  lemma RemainderGap(n: int, b: int)
    requires n >= 0 && b > 0
    ensures (n - n % b) % b == 0
    ensures (-n + n % b) % b == 0
  {
    var q := n / b;
    assert n - n % b == b * q;
    assert -n + n % b == b * -q;
    MultipleMod(b, q);
    MultipleMod(b, -q);
  }

  /** A multiple of `b` leaves no remainder. */
  lemma MultipleMod(b: int, k: int)
    requires b > 0
    ensures (b * k) % b == 0
  {
    var d, m := (b * k) / b, (b * k) % b;
    var j := k - d;
    assert b * k == b * d + m;
    assert b * j == b * k - b * d;
    if j > 0 {
      MulGrows(b, j);
    } else if j < 0 {
      MulGrows(b, -j);
    }
  }

  lemma {:induction false} MulGrows(b: int, j: int)
    requires b > 0 && j >= 1
    ensures b * j >= b
    decreases j
  {
    if j > 1 {
      MulGrows(b, j - 1);
      assert b * j == b * (j - 1) + b;
    }
  }

  /**
   * The tick's timer for `elapsedMs` milliseconds since the start:
   * `Math.floor` of a division by a positive number is Dafny's `/`, and the
   * two remainders are JavaScript's.
   */
  function TimerOf(elapsedMs: int): Timer
  {
    var secs := elapsedMs / 1000;
    Timer(secs / 3600, JsRem(secs, 3600) / 60, JsRem(secs, 60))
  }

  /** For a non-negative elapsed time the tick's timer is a proper h:m:s split of the whole seconds. */
  lemma TimerOfSplitsSeconds(elapsedMs: int)
    requires elapsedMs >= 0
    ensures var t := TimerOf(elapsedMs);
      TotalSeconds(t) == elapsedMs / 1000 &&
      t.hours >= 0 && 0 <= t.minutes < 60 && 0 <= t.seconds < 60
  {
    var secs := elapsedMs / 1000;
    var r := secs % 3600;
    assert secs == 3600 * (secs / 3600) + r;
    assert r == 60 * (r / 60) + r % 60;
    assert r % 60 == secs % 60 by {
      assert secs == 60 * (60 * (secs / 3600) + r / 60) + r % 60;
    }
  }

  /** The timer's length in hours, as a fraction (`totalSeconds / 3600`). */
  function HoursOf(t: Timer): real
  {
    TotalSeconds(t) as real / 3600.0
  }

  /** `calculateCost`: the timer's hours times the rate (`rate || 0`). */
  function CalculateCost(t: Timer, rate: Entry): real
  {
    HoursOf(t) * OrZero(rate)
  }

  /** A device with no price entered costs nothing, however long it runs. */
  lemma BlankRateCostsNothing(t: Timer)
    ensures CalculateCost(t, Blank) == 0.0
  {
  }

  /** The hours a tick records are the whole seconds elapsed, divided by 3600. */
  lemma TickHours(elapsedMs: int)
    requires elapsedMs >= 0
    ensures HoursOf(TimerOf(elapsedMs)) == (elapsedMs / 1000) as real / 3600.0
  {
    TimerOfSplitsSeconds(elapsedMs);
  }

  /** The cost a tick records never goes down as time goes on, for a non-negative rate. */
  lemma TickCostMonotone(e1: int, e2: int, rate: Entry)
    requires 0 <= e1 <= e2
    requires OrZero(rate) >= 0.0
    ensures 0.0 <= CalculateCost(TimerOf(e1), rate) <= CalculateCost(TimerOf(e2), rate)
  {
    TickHours(e1);
    TickHours(e2);
    SecondsMonotone(e1, e2);
    HoursMonotone(e1 / 1000, e2 / 1000);
    CostMonotone(TimerOf(e1), TimerOf(e2), rate);
  }

  /** A longer timer costs at least as much at the same non-negative rate. */
  lemma CostMonotone(t1: Timer, t2: Timer, rate: Entry)
    requires 0.0 <= HoursOf(t1) <= HoursOf(t2)
    requires OrZero(rate) >= 0.0
    ensures 0.0 <= CalculateCost(t1, rate) <= CalculateCost(t2, rate)
  {
    var x, y, c := HoursOf(t1), HoursOf(t2), OrZero(rate);
    assert y * c - x * c == (y - x) * c;
  }

  lemma SecondsMonotone(e1: int, e2: int)
    requires 0 <= e1 <= e2
    ensures 0 <= e1 / 1000 <= e2 / 1000
  {
  }

  lemma HoursMonotone(a: int, b: int)
    requires 0 <= a <= b
    ensures 0.0 <= a as real / 3600.0 <= b as real / 3600.0
  {
  }

  // ---- hh:mm:ss display ----

  function DigitChar(d: int): char
    requires 0 <= d < 10
  {
    "0123456789"[d]
  }

  /** `String(n)` for a non-negative integer: its decimal digits, most significant first. */
  function Digits(n: nat): (s: string)
    ensures |s| >= 1
    ensures forall i :: 0 <= i < |s| ==> '0' <= s[i] <= '9'
    ensures n < 10 <==> |s| == 1
    ensures n >= 10 ==> s[0] != '0'
  {
    if n < 10 then [DigitChar(n)] else Digits(n / 10) + [DigitChar(n % 10)]
  }

  /** `String(n)` for any integer: a minus sign exactly for negatives, then the digits of the magnitude. */
  function IntToString(n: int): (r: string)
    ensures |r| >= 1
    ensures r[0] == '-' <==> n < 0
    ensures forall i :: (if n < 0 then 1 else 0) <= i < |r| ==> '0' <= r[i] <= '9'
    ensures n < 0 ==> |r| >= 2
    ensures r[if n < 0 then 1 else 0] == '0' ==> n == 0
  {
    if n < 0 then "-" + Digits(-n) else Digits(n)
  }

  /** Reading a sign and then the digits back from `IntToString` gives the number. */
  lemma IntToStringRoundTrip(n: int)
    ensures var r := IntToString(n);
      var digits := if n < 0 then r[1..] else r;
      (forall i :: 0 <= i < |digits| ==> '0' <= digits[i] <= '9') &&
      DecimalValue(digits) == if n < 0 then -n else n
  {
    var m := if n < 0 then -n else n;
    var d := Digits(m);
    if n < 0 {
      assert IntToString(n) == "-" + d;
      assert ("-" + d)[1..] == d;
    }
    DigitsRoundTrip(m);
  }

  /** `s.padStart(2, '0')` */
  function PadTwo(s: string): (r: string)
    ensures |r| == if |s| >= 2 then |s| else 2
    ensures r[|r| - |s|..] == s
    ensures forall i :: 0 <= i < |r| - |s| ==> r[i] == '0'
  {
    if |s| >= 2 then s else seq(2 - |s|, _ => '0') + s
  }

  /** `formatTime`: the three fields, each padded to two digits, joined by colons. */
  function FormatTime(t: Timer): string
  {
    PadTwo(IntToString(t.hours)) + ":" + PadTwo(IntToString(t.minutes)) + ":" + PadTwo(IntToString(t.seconds))
  }

  /** The value of a string of decimal digits (the reading a clock display is meant for). */
  function DecimalValue(s: string): nat
    requires forall i :: 0 <= i < |s| ==> '0' <= s[i] <= '9'
  {
    if s == [] then 0 else DecimalValue(s[..|s| - 1]) * 10 + ((s[|s| - 1] as int) - ('0' as int))
  }

  /** Reading back what `Digits` writes gives the number. */
  lemma {:induction false} DigitsRoundTrip(n: nat)
    ensures DecimalValue(Digits(n)) == n
  {
    var s := Digits(n);
    if n >= 10 {
      DigitsRoundTrip(n / 10);
      assert s[..|s| - 1] == Digits(n / 10);
    }
  }

  /** A two-character display field of decimal digits that reads as `n`. */
  predicate ShowsTwoDigits(s: string, n: nat)
  {
    |s| == 2 && '0' <= s[0] <= '9' && '0' <= s[1] <= '9' && DecimalValue(s) == n
  }

  /** A field below 100 is shown as exactly two digits that read back as the field. */
  lemma {:induction false} PadTwoRoundTrip(n: nat)
    requires n < 100
    ensures ShowsTwoDigits(PadTwo(IntToString(n)), n)
  {
    assert IntToString(n) == Digits(n);
    if n >= 10 {
      TwoDigits(n);
    } else {
      OneDigitPadded(n);
    }
  }

  lemma {:induction false} TwoDigits(n: nat)
    requires 10 <= n < 100
    ensures ShowsTwoDigits(PadTwo(Digits(n)), n)
  {
    assert n / 10 < 10;
    assert |Digits(n / 10)| == 1;
    assert PadTwo(Digits(n)) == Digits(n);
    DigitsRoundTrip(n);
  }

  lemma {:induction false} OneDigitPadded(n: nat)
    requires n < 10
    ensures ShowsTwoDigits(PadTwo(Digits(n)), n)
  {
    var c := DigitChar(n);
    assert Digits(n) == [c];
    assert seq(1, _ => '0') == ['0'];
    assert PadTwo(Digits(n)) == ['0', c];
    DigitsRoundTrip(n);
    assert DecimalValue([c]) == (c as int) - ('0' as int) by {
      assert [c][..0] == [];
    }
    assert ['0', c][..1] == ['0'];
    assert ['0'][..0] == [];
  }

  /** Reads an "hh:mm:ss" display back into a timer. */
  function ParseClock(s: string): Option<Timer>
  {
    if |s| == 8 && s[2] == ':' && s[5] == ':' &&
       (forall i :: 0 <= i < 8 && i != 2 && i != 5 ==> '0' <= s[i] <= '9')
    then Some(Timer(DecimalValue(s[0..2]), DecimalValue(s[3..5]), DecimalValue(s[6..8])))
    else None
  }

  /**
   * Every timer a tick produces in its first hundred hours is displayed as
   * eight characters "hh:mm:ss" that read back as that timer.
   */
  lemma FormatTimeRoundTrip(t: Timer)
    requires 0 <= t.hours < 100 && 0 <= t.minutes < 60 && 0 <= t.seconds < 60
    ensures ParseClock(FormatTime(t)) == Some(t)
  {
    PadTwoRoundTrip(t.hours);
    PadTwoRoundTrip(t.minutes);
    PadTwoRoundTrip(t.seconds);
    ParseJoined(PadTwo(IntToString(t.hours)), PadTwo(IntToString(t.minutes)), PadTwo(IntToString(t.seconds)),
                t.hours, t.minutes, t.seconds);
  }

  lemma ParseJoined(h: string, m: string, s: string, hv: nat, mv: nat, sv: nat)
    requires ShowsTwoDigits(h, hv) && ShowsTwoDigits(m, mv) && ShowsTwoDigits(s, sv)
    ensures ParseClock(h + ":" + m + ":" + s) == Some(Timer(hv, mv, sv))
  {
    var f := h + ":" + m + ":" + s;
    assert f[0..2] == h && f[3..5] == m && f[6..8] == s;
    assert f[2] == ':' && f[5] == ':';
    assert forall i :: 0 <= i < 8 && i != 2 && i != 5 ==> '0' <= f[i] <= '9' by {
      forall i | 0 <= i < 8 && i != 2 && i != 5 ensures '0' <= f[i] <= '9' {
        if i < 2 { assert f[i] == h[i]; }
        else if i < 5 { assert f[i] == m[i - 3]; }
        else { assert f[i] == s[i - 6]; }
      }
    }
  }

  /** Past 99 hours the hour field grows instead of wrapping: padding never truncates. */
  lemma LongSessionsWiden(t: Timer)
    requires t.hours >= 100 && 0 <= t.minutes < 60 && 0 <= t.seconds < 60
    ensures |FormatTime(t)| == |Digits(t.hours)| + 6 && |FormatTime(t)| > 8
  {
    var h := PadTwo(IntToString(t.hours));
    assert IntToString(t.hours) == Digits(t.hours);
    Hundreds(t.hours);
    assert |h| == |Digits(t.hours)|;
    ClockFieldWidth(t.minutes);
    ClockFieldWidth(t.seconds);
    assert FormatTime(t) == h + ":" + PadTwo(IntToString(t.minutes)) + ":" + PadTwo(IntToString(t.seconds));
  }

  /** A minutes or seconds field always takes two characters. */
  lemma ClockFieldWidth(n: int)
    requires 0 <= n < 60
    ensures |PadTwo(IntToString(n))| == 2
  {
    assert IntToString(n) == Digits(n);
    if n >= 10 {
      assert Digits(n) == Digits(n / 10) + [DigitChar(n % 10)];
    }
  }

  lemma Hundreds(n: nat)
    requires n >= 100
    ensures |Digits(n)| >= 3
  {
    assert n / 10 >= 10;
  }
}
