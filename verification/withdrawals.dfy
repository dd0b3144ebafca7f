/**
 * The withdrawals ledger's values: cash movements of four kinds, the debts
 * that advances create, and the page's filter/reduce totals.
 */
module Withdrawals {
  import opened Values
  import opened Cafe

  /** The four choices of the movement-type select: debt, collection, advance, other. */
  datatype WithdrawalType = Debt | Collection | Advance | Other

  datatype Withdrawal = Withdrawal(id: string, amount: real, description: string, kind: WithdrawalType, createdAt: int)

  /** The name prefix ("advance ") given to an advance's debt when its description is empty. */
  const AdvancePrefix: string := "سلفة "

  /** The debt record an advance creates: same id and amount, named after its description. */
  function AdvanceDebt(w: Withdrawal): (d: DebtRecord)
    ensures d.id == w.id && d.customerId == w.id && d.amount == w.amount && d.kind == WithdrawalDebt
    ensures d.customerName != []
    ensures w.description != [] ==> d.customerName == w.description
    ensures w.description == [] ==> d.customerName == AdvancePrefix + w.id
  {
    DebtRecord(w.id, w.id, if w.description == [] then AdvancePrefix + w.id else w.description, WithdrawalDebt, w.amount)
  }

  /** `withdrawals.filter(w => w.id !== id)` */
  function WithoutWithdrawal(ws: seq<Withdrawal>, id: string): (r: seq<Withdrawal>)
    ensures forall x :: x in r <==> x in ws && x.id != id
    ensures |r| <= |ws|
  {
    if ws == [] then []
    else if ws[0].id == id then WithoutWithdrawal(ws[1..], id)
    else [ws[0]] + WithoutWithdrawal(ws[1..], id)
  }

  /** Filtering distributes over concatenation, so the survivors keep their order. */
  lemma {:induction false} WithoutWithdrawalAppend(a: seq<Withdrawal>, b: seq<Withdrawal>, id: string)
    ensures WithoutWithdrawal(a + b, id) == WithoutWithdrawal(a, id) + WithoutWithdrawal(b, id)
    decreases |a|
  {
    if a != [] {
      assert (a + b)[1..] == a[1..] + b;
      assert (a + b)[0] == a[0];
      WithoutWithdrawalAppend(a[1..], b, id);
    } else {
      assert a + b == b;
    }
  }

  // ---- paying an advance back ----

  /** What a payment of `paid` leaves of one debt: nothing once it is covered. */
  function Settle(d: DebtRecord, paid: real): seq<DebtRecord>
  {
    if d.amount - paid <= 0.0 then [] else [d.(amount := d.amount - paid)]
  }

  /**
   * `debts.map(d => d.id === id ? (covered ? null : reduced) : d).filter(d => d !== null)`:
   * every debt with the id is reduced by `paid` and dropped once covered.
   */
  function PayDebt(debts: seq<DebtRecord>, id: string, paid: real): seq<DebtRecord>
  {
    if debts == [] then []
    else (if debts[0].id == id then Settle(debts[0], paid) else [debts[0]]) + PayDebt(debts[1..], id, paid)
  }

  lemma {:induction false} PayDebtAppend(a: seq<DebtRecord>, b: seq<DebtRecord>, id: string, paid: real)
    ensures PayDebt(a + b, id, paid) == PayDebt(a, id, paid) + PayDebt(b, id, paid)
    decreases |a|
  {
    if a != [] {
      assert (a + b)[1..] == a[1..] + b;
      assert (a + b)[0] == a[0];
      PayDebtAppend(a[1..], b, id, paid);
    } else {
      assert a + b == b;
    }
  }

  /** A payment against an id no debt carries changes nothing. */
  lemma {:induction false} PayDebtUnmatched(debts: seq<DebtRecord>, id: string, paid: real)
    requires forall i :: 0 <= i < |debts| ==> debts[i].id != id
    ensures PayDebt(debts, id, paid) == debts
    decreases |debts|
  {
    if debts != [] {
      PayDebtUnmatched(debts[1..], id, paid);
      assert [debts[0]] + debts[1..] == debts;
    }
  }

  /**
   * Paying the one debt with the id reduces that debt in place, or removes it
   * once the payment covers it; every other debt stays as it was, in order.
   */
  lemma PayDebtOne(pre: seq<DebtRecord>, d: DebtRecord, post: seq<DebtRecord>, paid: real)
    requires forall i :: 0 <= i < |pre| ==> pre[i].id != d.id
    requires forall i :: 0 <= i < |post| ==> post[i].id != d.id
    ensures PayDebt(pre + [d] + post, d.id, paid) ==
            pre + (if d.amount - paid <= 0.0 then [] else [d.(amount := d.amount - paid)]) + post
  {
    PayDebtAppend(pre + [d], post, d.id, paid);
    PayDebtAppend(pre, [d], d.id, paid);
    PayDebtUnmatched(pre, d.id, paid);
    PayDebtUnmatched(post, d.id, paid);
    assert PayDebt([d], d.id, paid) == Settle(d, paid) + PayDebt([], d.id, paid);
  }

  /** The outstanding total falls by the payment, or by the whole debt when the payment covers it. */
  lemma PayDebtTotal(pre: seq<DebtRecord>, d: DebtRecord, post: seq<DebtRecord>, paid: real)
    requires forall i :: 0 <= i < |pre| ==> pre[i].id != d.id
    requires forall i :: 0 <= i < |post| ==> post[i].id != d.id
    ensures SumDebts(PayDebt(pre + [d] + post, d.id, paid)) ==
            SumDebts(pre + [d] + post) - (if paid < d.amount then paid else d.amount)
  {
    PayDebtOne(pre, d, post, paid);
    var kept := if d.amount - paid <= 0.0 then [] else [d.(amount := d.amount - paid)];
    SumDebtsAppend(pre + kept, post);
    SumDebtsAppend(pre, kept);
    SumDebtsAppend(pre + [d], post);
    SumDebtsAppend(pre, [d]);
    assert SumDebts([d]) == SumDebts([]) + d.amount;
    if kept != [] {
      assert SumDebts(kept) == SumDebts([]) + (d.amount - paid);
    }
  }

  // ---- totals ----

  /** `withdrawals.filter(w => w.type === 'collection')` */
  function Collections(ws: seq<Withdrawal>): (r: seq<Withdrawal>)
    ensures forall x :: x in r <==> x in ws && x.kind == Collection
  {
    if ws == [] then []
    else Collections(ws[..|ws| - 1]) + (if ws[|ws| - 1].kind == Collection then [ws[|ws| - 1]] else [])
  }

  /** `withdrawals.filter(w => w.type !== 'collection')` */
  function Expenses(ws: seq<Withdrawal>): (r: seq<Withdrawal>)
    ensures forall x :: x in r <==> x in ws && x.kind != Collection
  {
    if ws == [] then []
    else Expenses(ws[..|ws| - 1]) + (if ws[|ws| - 1].kind != Collection then [ws[|ws| - 1]] else [])
  }

  /** `.reduce((sum, w) => sum + w.amount, 0)` */
  function SumAmounts(ws: seq<Withdrawal>): real
  {
    if ws == [] then 0.0 else SumAmounts(ws[..|ws| - 1]) + ws[|ws| - 1].amount
  }

  /** The drawer's movement read entry by entry: collections come in, everything else goes out. */
  function NetMovement(ws: seq<Withdrawal>): real
  {
    if ws == [] then 0.0
    else NetMovement(ws[..|ws| - 1]) + (if ws[|ws| - 1].kind == Collection then ws[|ws| - 1].amount else -ws[|ws| - 1].amount)
  }

  lemma {:induction false} SumAmountsAppend(a: seq<Withdrawal>, b: seq<Withdrawal>)
    ensures SumAmounts(a + b) == SumAmounts(a) + SumAmounts(b)
    decreases |b|
  {
    if b != [] {
      assert (a + b)[..|a + b| - 1] == a + b[..|b| - 1];
      assert (a + b)[|a + b| - 1] == b[|b| - 1];
      SumAmountsAppend(a, b[..|b| - 1]);
    } else {
      assert a + b == a;
    }
  }

  /**
   * The page's "net movement" (collections minus the rest) agrees with reading
   * the ledger entry by entry, and every entry is counted in exactly one of the
   * two totals.
   */
  lemma {:induction false} TotalsPartition(ws: seq<Withdrawal>)
    ensures SumAmounts(Collections(ws)) - SumAmounts(Expenses(ws)) == NetMovement(ws)
    ensures SumAmounts(Collections(ws)) + SumAmounts(Expenses(ws)) == SumAmounts(ws)
    decreases |ws|
  {
    if ws != [] {
      var init, w := ws[..|ws| - 1], ws[|ws| - 1];
      TotalsPartition(init);
      SumAmountsAppend(Collections(init), if w.kind == Collection then [w] else []);
      SumAmountsAppend(Expenses(init), if w.kind != Collection then [w] else []);
      assert SumAmounts([w]) == SumAmounts([]) + w.amount;
    }
  }

  /** A new entry raises exactly one of the two totals, by its amount. */
  lemma AppendEntryTotals(ws: seq<Withdrawal>, w: Withdrawal)
    ensures SumAmounts(Collections(ws + [w])) ==
            SumAmounts(Collections(ws)) + (if w.kind == Collection then w.amount else 0.0)
    ensures SumAmounts(Expenses(ws + [w])) ==
            SumAmounts(Expenses(ws)) + (if w.kind != Collection then w.amount else 0.0)
  {
    assert (ws + [w])[..|ws + [w]| - 1] == ws;
    SumAmountsAppend(Collections(ws), if w.kind == Collection then [w] else []);
    SumAmountsAppend(Expenses(ws), if w.kind != Collection then [w] else []);
    assert SumAmounts([w]) == SumAmounts([]) + w.amount;
  }
}
