/**
 * The settings screen: the rule for changing the shared passcode, and the
 * day's summary aggregated over the devices, customers, withdrawals and debts.
 */
module Settings {
  import opened Values
  import opened Devices
  import opened Cafe
  import opened Withdrawals

  /** The passcode the screen starts with. */
  const DefaultPassword: string := "1234"

  /** The currency the screens show amounts in, Egyptian pounds. */
  const DefaultCurrency: string := "ج.م"

  /** The outcome of a passcode change, in the order the screen checks: old passcode, confirmation, length. */
  datatype PasswordChange = Changed | WrongOldPassword | Mismatch | TooShort

  function CheckPasswordChange(current: string, oldPassword: string, newPassword: string, confirm: string): (r: PasswordChange)
    ensures r == Changed <==> oldPassword == current && newPassword == confirm && |newPassword| >= 4
    ensures r == WrongOldPassword <==> oldPassword != current
    ensures r == Mismatch <==> oldPassword == current && newPassword != confirm
    ensures r == TooShort <==> oldPassword == current && newPassword == confirm && |newPassword| < 4
  {
    if oldPassword != current then WrongOldPassword
    else if newPassword != confirm then Mismatch
    else if |newPassword| < 4 then TooShort
    else Changed
  }

  /** A change is accepted only from the current passcode, so a second change needs the new one. */
  lemma ChangeNeedsCurrentPassword(current: string, newPassword: string, oldPassword: string, again: string)
    requires CheckPasswordChange(current, current, newPassword, newPassword) == Changed
    requires oldPassword != newPassword
    ensures CheckPasswordChange(newPassword, oldPassword, again, again) == WrongOldPassword
  {
  }

  datatype DailySummary = DailySummary(
    deviceEarnings: real,
    cafeEarnings: real,
    totalWithdrawals: real,
    totalCollections: real,
    expectedDrawerAmount: real,
    totalDebts: real)

  /** What one device adds to the day: its current cost while its `canCalculate` flag is set (a stop sets it, only a reset clears it), nothing otherwise. */
  function Earned(d: Device): real
  {
    if d.canCalculate then d.totalCost else 0.0
  }

  /** The share of the device under key `k`, nothing for a missing key. */
  function Share(devices: map<DeviceKey, Device>, k: DeviceKey): real
  {
    if k in devices then Earned(devices[k]) else 0.0
  }

  /** `Object.values(devices).reduce(...)` over the keys from index `i` on: finished sessions only. */
  function DeviceEarningsFrom(devices: map<DeviceKey, Device>, i: nat): real
    requires i <= |AllKeys|
    decreases |AllKeys| - i
  {
    if i == |AllKeys| then 0.0 else Share(devices, AllKeys[i]) + DeviceEarningsFrom(devices, i + 1)
  }

  function DeviceEarnings(devices: map<DeviceKey, Device>): real
  {
    DeviceEarningsFrom(devices, 0)
  }

  /** The device earnings are the shares of the six devices, each counted once. */
  lemma DeviceEarningsShares(devices: map<DeviceKey, Device>)
    ensures DeviceEarnings(devices) ==
      Share(devices, Room1) + Share(devices, Room2) + Share(devices, Room3) +
      Share(devices, Ps1) + Share(devices, Ps2) + Share(devices, Ps3)
  {
    assert DeviceEarningsFrom(devices, 5) == Share(devices, Ps3);
    assert DeviceEarningsFrom(devices, 4) == Share(devices, Ps2) + Share(devices, Ps3);
    assert DeviceEarningsFrom(devices, 3) == Share(devices, Ps1) + DeviceEarningsFrom(devices, 4);
    assert DeviceEarningsFrom(devices, 2) == Share(devices, Room3) + DeviceEarningsFrom(devices, 3);
    assert DeviceEarningsFrom(devices, 1) == Share(devices, Room2) + DeviceEarningsFrom(devices, 2);
  }

  /** Changing one device moves the earnings by the difference between its new and old share. */
  lemma DeviceEarningsUpdate(devices: map<DeviceKey, Device>, k: DeviceKey, d: Device)
    requires k in devices
    ensures DeviceEarnings(devices[k := d]) == DeviceEarnings(devices) - Earned(devices[k]) + Earned(d)
  {
    DeviceEarningsShares(devices);
    DeviceEarningsShares(devices[k := d]);
  }

  /** Stopping a session that was not yet billable adds its cost to the day. */
  lemma StopCountsSession(devices: map<DeviceKey, Device>, k: DeviceKey)
    requires k in devices && !devices[k].canCalculate
    ensures DeviceEarnings(devices[k := devices[k].(isRunning := false, canCalculate := true)]) ==
      DeviceEarnings(devices) + devices[k].totalCost
  {
    DeviceEarningsUpdate(devices, k, devices[k].(isRunning := false, canCalculate := true));
  }

  /** Resetting a billable session (the payment form's confirm button) takes its cost back out of the day. */
  lemma ResetDropsSession(devices: map<DeviceKey, Device>, k: DeviceKey)
    requires k in devices && devices[k].canCalculate
    ensures DeviceEarnings(devices[k := devices[k].(timer := Timer(0, 0, 0), isRunning := false, startTime := None,
                                                    totalCost := 0.0, canCalculate := false)]) ==
      DeviceEarnings(devices) - devices[k].totalCost
  {
    DeviceEarningsUpdate(devices, k, devices[k].(timer := Timer(0, 0, 0), isRunning := false, startTime := None,
                                                 totalCost := 0.0, canCalculate := false));
  }

  /** `customers.reduce((total, c) => total + c.paidAmount, 0)` */
  function CafeEarnings(cs: seq<Customer>): real
  {
    if cs == [] then 0.0 else cs[0].paidAmount + CafeEarnings(cs[1..])
  }

  /** The café earnings of two lists are the sum of their earnings. */
  lemma {:induction false} CafeEarningsAppend(a: seq<Customer>, b: seq<Customer>)
    ensures CafeEarnings(a + b) == CafeEarnings(a) + CafeEarnings(b)
    decreases |a|
  {
    if a == [] {
      assert a + b == b;
    } else {
      assert (a + b)[1..] == a[1..] + b;
      CafeEarningsAppend(a[1..], b);
    }
  }

  /** Changing one customer record moves the earnings by the difference between its new and old payment. */
  lemma {:induction false} CafeEarningsUpdate(cs: seq<Customer>, j: nat, c: Customer)
    requires j < |cs|
    ensures CafeEarnings(cs[j := c]) == CafeEarnings(cs) - cs[j].paidAmount + c.paidAmount
    decreases j
  {
    if j == 0 {
      assert cs[j := c][1..] == cs[1..];
    } else {
      assert cs[j := c][1..] == cs[1..][j - 1 := c];
      CafeEarningsUpdate(cs[1..], j - 1, c);
    }
  }

  /** Deleting the only customer with an id takes exactly its payment out of the earnings. */
  lemma {:induction false} CafeEarningsWithout(cs: seq<Customer>, j: nat)
    requires j < |cs| && OnlyOneWithId(cs, j)
    ensures CafeEarnings(WithoutCustomer(cs, cs[j].id)) == CafeEarnings(cs) - cs[j].paidAmount
    decreases j
  {
    var id := cs[j].id;
    if j == 0 {
      WithoutCustomerAbsent(cs[1..], id);
    } else {
      assert OnlyOneWithId(cs[1..], j - 1);
      CafeEarningsWithout(cs[1..], j - 1);
      assert WithoutCustomer(cs, id) == [cs[0]] + WithoutCustomer(cs[1..], id);
      assert ([cs[0]] + WithoutCustomer(cs[1..], id))[1..] == WithoutCustomer(cs[1..], id);
    }
  }

  /**
   * A bill that leaves something to pay replaces the customer's recorded
   * payment by the new one.
   */
  lemma OpenBillEarnings(cs: seq<Customer>, j: nat, updated: Customer)
    requires j < |cs| && OnlyOneWithId(cs, j)
    ensures CafeEarnings(ReplaceCustomer(cs, cs[j].id, updated)) ==
      CafeEarnings(cs) - cs[j].paidAmount + updated.paidAmount
  {
    ReplaceOnlyOne(cs, j, updated);
    CafeEarningsUpdate(cs, j, updated);
  }

  /**
   * A bill paid in full closes the customer, and its payment leaves the
   * café earnings together with it.
   */
  lemma ClosedBillEarnings(cs: seq<Customer>, j: nat, updated: Customer)
    requires j < |cs| && OnlyOneWithId(cs, j) && updated.id == cs[j].id
    ensures CafeEarnings(WithoutCustomer(ReplaceCustomer(cs, cs[j].id, updated), cs[j].id)) ==
      CafeEarnings(cs) - cs[j].paidAmount
  {
    WithoutReplaced(cs, cs[j].id, updated);
    CafeEarningsWithout(cs, j);
  }

  /** `calculateDailySummary` */
  function CalculateDailySummary(devices: map<DeviceKey, Device>, customers: seq<Customer>,
                                 withdrawals: seq<Withdrawal>, debts: seq<DebtRecord>,
                                 withdrawalDebts: seq<DebtRecord>): (s: DailySummary)
    ensures s.deviceEarnings == DeviceEarnings(devices) && s.cafeEarnings == CafeEarnings(customers)
    ensures s.totalCollections - s.totalWithdrawals == NetMovement(withdrawals)
    ensures s.totalCollections + s.totalWithdrawals == SumAmounts(withdrawals)
    ensures s.expectedDrawerAmount == s.deviceEarnings + s.cafeEarnings + NetMovement(withdrawals)
    ensures s.totalDebts == SumDebts(debts) + SumDebts(withdrawalDebts)
  {
    var device := DeviceEarnings(devices);
    var cafe := CafeEarnings(customers);
    var out := SumAmounts(Expenses(withdrawals));
    var inn := SumAmounts(Collections(withdrawals));
    TotalsPartition(withdrawals);
    DailySummary(device, cafe, out, inn, device + cafe + inn - out,
                 SumDebts(debts) + SumDebts(withdrawalDebts))
  }

  /** A device counts towards the day only while its `canCalculate` flag is set; with no flag set, nothing is earned. */
  lemma {:induction false} DeviceEarningsOnlyFinished(devices: map<DeviceKey, Device>, i: nat)
    requires i <= |AllKeys|
    requires forall k :: k in devices ==> !devices[k].canCalculate
    ensures DeviceEarningsFrom(devices, i) == 0.0
    decreases |AllKeys| - i
  {
    if i < |AllKeys| {
      DeviceEarningsOnlyFinished(devices, i + 1);
    }
  }

  /** With non-negative session costs, the day's device earnings are never negative. */
  lemma {:induction false} DeviceEarningsNonNegative(devices: map<DeviceKey, Device>, i: nat)
    requires i <= |AllKeys|
    requires forall k :: k in devices ==> devices[k].totalCost >= 0.0
    ensures DeviceEarningsFrom(devices, i) >= 0.0
    decreases |AllKeys| - i
  {
    if i < |AllKeys| {
      DeviceEarningsNonNegative(devices, i + 1);
    }
  }

  /**
   * Recording a movement moves the expected drawer by its amount, in for a
   * collection and out for anything else; an advance also adds its amount to
   * the outstanding debts.
   */
  lemma SummaryAfterWithdrawal(devices: map<DeviceKey, Device>, customers: seq<Customer>,
                               ws: seq<Withdrawal>, debts: seq<DebtRecord>, wds: seq<DebtRecord>, w: Withdrawal)
    ensures var before := CalculateDailySummary(devices, customers, ws, debts, wds);
      var wds' := if w.kind == Advance then wds + [AdvanceDebt(w)] else wds;
      var after := CalculateDailySummary(devices, customers, ws + [w], debts, wds');
      after.expectedDrawerAmount ==
        before.expectedDrawerAmount + (if w.kind == Collection then w.amount else -w.amount) &&
      after.totalDebts == before.totalDebts + (if w.kind == Advance then w.amount else 0.0)
  {
    AppendEntryTotals(ws, w);
    if w.kind == Advance {
      SumDebtsAppend(wds, [AdvanceDebt(w)]);
      assert SumDebts([AdvanceDebt(w)]) == SumDebts([]) + w.amount;
    }
  }
}
