/**
 * The café ledger's values: inventory items, customers with their invoice
 * lines, and debt records. Every list operation the café and inventory
 * screens apply (find, findIndex, map, filter, reduce) is a function here;
 * the screens' handlers in module PointOfSale assign their results.
 */
module Cafe {
  import opened Values

  datatype InventoryItem = InventoryItem(id: string, name: string, price: real)

  /** One invoice line: the item's id, name and price when first added, how many, and their cost. */
  datatype InvoiceLine = InvoiceLine(id: string, name: string, price: real, quantity: int, totalPrice: real)

  datatype Customer = Customer(
    id: string,
    name: string,
    invoice: seq<InvoiceLine>,
    totalAmount: real,
    discount: real,
    paidAmount: real,
    remainingAmount: real)

  /** Debts owed by café customers (`Cafe`) or created by advances (`Withdrawal`). */
  datatype DebtType = CafeDebt | WithdrawalDebt

  datatype DebtRecord = DebtRecord(id: string, customerId: string, customerName: string, kind: DebtType, amount: real)

  // ---- inventory ----

  /** `inventory.find(inv => inv.id === id)`: the first item with that id, if any. */
  function FindItem(items: seq<InventoryItem>, id: string): (r: Option<InventoryItem>)
    ensures r.None? <==> forall i :: 0 <= i < |items| ==> items[i].id != id
    ensures r.Some? ==> exists i :: 0 <= i < |items| && items[i] == r.value && r.value.id == id &&
                                   forall j :: 0 <= j < i ==> items[j].id != id
  {
    if items == [] then None
    else if items[0].id == id then Some(items[0])
    else
      var r := FindItem(items[1..], id);
      assert r.Some? ==> exists i :: 1 <= i < |items| && items[i] == r.value && r.value.id == id &&
                                     forall j :: 0 <= j < i ==> items[j].id != id by {
        if r.Some? {
          var k :| 0 <= k < |items[1..]| && items[1..][k] == r.value && r.value.id == id &&
                   forall j :: 0 <= j < k ==> items[1..][j].id != id;
          assert items[k + 1] == r.value;
          assert forall j :: 0 <= j < k + 1 ==> items[j].id != id by {
            forall j | 0 <= j < k + 1 ensures items[j].id != id {
              if j > 0 { assert items[j] == items[1..][j - 1]; }
            }
          }
        }
      }
      r
  }

  /** `items.filter(item => item.id !== id)` */
  function WithoutItem(items: seq<InventoryItem>, id: string): (r: seq<InventoryItem>)
    ensures forall x :: x in r <==> x in items && x.id != id
    ensures |r| <= |items|
  {
    if items == [] then []
    else if items[0].id == id then WithoutItem(items[1..], id)
    else [items[0]] + WithoutItem(items[1..], id)
  }

  /** Filtering distributes over concatenation, so the survivors keep their order. */
  lemma {:induction false} WithoutItemAppend(a: seq<InventoryItem>, b: seq<InventoryItem>, id: string)
    ensures WithoutItem(a + b, id) == WithoutItem(a, id) + WithoutItem(b, id)
    decreases |a|
  {
    if a != [] {
      assert (a + b)[1..] == a[1..] + b;
      assert (a + b)[0] == a[0];
      WithoutItemAppend(a[1..], b, id);
    } else {
      assert a + b == b;
    }
  }

  /** `items.map(item => item.id === edited.id ? edited : item)` */
  function ReplaceItem(items: seq<InventoryItem>, edited: InventoryItem): (r: seq<InventoryItem>)
    ensures |r| == |items|
    ensures forall i :: 0 <= i < |items| ==> r[i] == if items[i].id == edited.id then edited else items[i]
  {
    if items == [] then []
    else [if items[0].id == edited.id then edited else items[0]] + ReplaceItem(items[1..], edited)
  }

  // ---- invoice lines ----

  /** `invoice.reduce((sum, line) => sum + line.totalPrice, 0)`, folded from the left. */
  function SumLines(lines: seq<InvoiceLine>): real
  {
    if lines == [] then 0.0 else SumLines(lines[..|lines| - 1]) + lines[|lines| - 1].totalPrice
  }

  /** How many of item `id` an invoice holds, over all its lines. */
  function QuantityOf(lines: seq<InvoiceLine>, id: string): int
  {
    if lines == [] then 0
    else QuantityOf(lines[..|lines| - 1], id) + (if lines[|lines| - 1].id == id then lines[|lines| - 1].quantity else 0)
  }

  /** At most one line per item id. */
  ghost predicate UniqueLineIds(lines: seq<InvoiceLine>)
  {
    forall i, j :: 0 <= i < j < |lines| ==> lines[i].id != lines[j].id
  }

  /** `invoice.findIndex(line => line.id === id)`: the first such index, or -1. */
  function LineIndex(lines: seq<InvoiceLine>, id: string): (r: int)
    ensures -1 <= r < |lines|
    ensures r == -1 <==> forall i :: 0 <= i < |lines| ==> lines[i].id != id
    ensures r >= 0 ==> lines[r].id == id && forall i :: 0 <= i < r ==> lines[i].id != id
  {
    if lines == [] then -1
    else if lines[0].id == id then 0
    else
      var k := LineIndex(lines[1..], id);
      if k == -1 then -1 else k + 1
  }

  /** `invoice.filter(line => line.id !== id)` */
  function RemoveLines(lines: seq<InvoiceLine>, id: string): (r: seq<InvoiceLine>)
    ensures |r| <= |lines|
    ensures forall x :: x in r <==> x in lines && x.id != id
  {
    if lines == [] then []
    else if lines[|lines| - 1].id == id then RemoveLines(lines[..|lines| - 1], id)
    else RemoveLines(lines[..|lines| - 1], id) + [lines[|lines| - 1]]
  }

  /** A customer whose derived amounts agree with the invoice and the payments. */
  predicate Consistent(c: Customer)
  {
    c.totalAmount == SumLines(c.invoice) &&
    c.remainingAmount == c.totalAmount - c.discount - c.paidAmount
  }

  /** One more of a line's item at the item's current price (`quantity += 1`, `totalPrice = quantity * price`). */
  function Bump(line: InvoiceLine, price: real): InvoiceLine
  {
    var q := line.quantity + 1;
    InvoiceLine(line.id, line.name, line.price, q, q as real * price)
  }

  /** The invoice after one more `item`: the existing line is bumped, or a new line is appended. */
  function AddToLines(lines: seq<InvoiceLine>, item: InventoryItem): seq<InvoiceLine>
  {
    var k := LineIndex(lines, item.id);
    if k >= 0 then
      lines[k := Bump(lines[k], item.price)]
    else
      lines + [InvoiceLine(item.id, item.name, item.price, 1, item.price)]
  }

  /** The customer after `addItemToInvoice` with an item found in inventory. */
  function AddItem(c: Customer, item: InventoryItem): (r: Customer)
    ensures Consistent(r)
    ensures r.id == c.id && r.name == c.name && r.discount == c.discount && r.paidAmount == c.paidAmount
  {
    var lines := AddToLines(c.invoice, item);
    var total := SumLines(lines);
    c.(invoice := lines, totalAmount := total, remainingAmount := total - c.discount - c.paidAmount)
  }

  /** The customer after `removeItemFromInvoice`. */
  function RemoveItem(c: Customer, id: string): (r: Customer)
    ensures Consistent(r)
    ensures r.id == c.id && r.name == c.name && r.discount == c.discount && r.paidAmount == c.paidAmount
    ensures r.invoice == RemoveLines(c.invoice, id)
  {
    var lines := RemoveLines(c.invoice, id);
    var total := SumLines(lines);
    c.(invoice := lines, totalAmount := total, remainingAmount := total - c.discount - c.paidAmount)
  }

  lemma {:induction false} SumLinesAppend(a: seq<InvoiceLine>, b: seq<InvoiceLine>)
    ensures SumLines(a + b) == SumLines(a) + SumLines(b)
    decreases |b|
  {
    if b != [] {
      assert (a + b)[..|a + b| - 1] == a + b[..|b| - 1];
      assert (a + b)[|a + b| - 1] == b[|b| - 1];
      SumLinesAppend(a, b[..|b| - 1]);
    } else {
      assert a + b == a;
    }
  }

  lemma {:induction false} QuantityOfAppend(a: seq<InvoiceLine>, b: seq<InvoiceLine>, id: string)
    ensures QuantityOf(a + b, id) == QuantityOf(a, id) + QuantityOf(b, id)
    decreases |b|
  {
    if b != [] {
      assert (a + b)[..|a + b| - 1] == a + b[..|b| - 1];
      assert (a + b)[|a + b| - 1] == b[|b| - 1];
      QuantityOfAppend(a, b[..|b| - 1], id);
    } else {
      assert a + b == a;
    }
  }

  /** Replacing one line changes the sum by the difference of the two line prices. */
  lemma SumLinesUpdate(lines: seq<InvoiceLine>, k: int, x: InvoiceLine)
    requires 0 <= k < |lines|
    ensures SumLines(lines[k := x]) == SumLines(lines) - lines[k].totalPrice + x.totalPrice
  {
    var pre, post := lines[..k], lines[k + 1..];
    assert lines == pre + [lines[k]] + post;
    assert lines[k := x] == pre + [x] + post;
    SumLinesAppend(pre + [lines[k]], post);
    SumLinesAppend(pre + [x], post);
    SumLinesAppend(pre, [lines[k]]);
    SumLinesAppend(pre, [x]);
  }

  /** Replacing one line changes the item counts by the difference of the two lines. */
  lemma QuantityOfUpdate(lines: seq<InvoiceLine>, k: int, x: InvoiceLine, id: string)
    requires 0 <= k < |lines| && x.id == lines[k].id
    ensures QuantityOf(lines[k := x], id) ==
            QuantityOf(lines, id) + (if x.id == id then x.quantity - lines[k].quantity else 0)
  {
    var pre, post := lines[..k], lines[k + 1..];
    assert lines == pre + [lines[k]] + post;
    assert lines[k := x] == pre + [x] + post;
    QuantityOfAppend(pre + [lines[k]], post, id);
    QuantityOfAppend(pre + [x], post, id);
    QuantityOfAppend(pre, [lines[k]], id);
    QuantityOfAppend(pre, [x], id);
  }

  /** Adding an item raises that item's count by one and leaves every other item's count alone. */
  lemma AddItemCounts(c: Customer, item: InventoryItem, id: string)
    ensures QuantityOf(AddItem(c, item).invoice, id) == QuantityOf(c.invoice, id) + (if id == item.id then 1 else 0)
  {
    var lines := c.invoice;
    var k := LineIndex(lines, item.id);
    if k >= 0 {
      QuantityOfUpdate(lines, k, Bump(lines[k], item.price), id);
    } else {
      var line := InvoiceLine(item.id, item.name, item.price, 1, item.price);
      QuantityOfAppend(lines, [line], id);
      assert QuantityOf([line], id) == QuantityOf([], id) + (if line.id == id then 1 else 0);
    }
  }

  /** Adding an item keeps one line per item id. */
  lemma AddItemKeepsUnique(c: Customer, item: InventoryItem)
    requires UniqueLineIds(c.invoice)
    ensures UniqueLineIds(AddItem(c, item).invoice)
  {
    var lines := c.invoice;
    var r := AddItem(c, item).invoice;
    var k := LineIndex(lines, item.id);
    if k >= 0 {
      assert forall i :: 0 <= i < |r| ==> r[i].id == lines[i].id;
    } else {
      assert forall i :: 0 <= i < |lines| ==> r[i] == lines[i];
    }
  }

  /**
   * An item already on the invoice is bumped in its own slot: one more of it,
   * priced at the item's current price, with every other line unchanged. A new
   * item is appended as one unit at its price.
   */
  lemma AddItemInPlace(c: Customer, item: InventoryItem)
    ensures var lines, r := c.invoice, AddItem(c, item).invoice;
      var k := LineIndex(lines, item.id);
      if k >= 0 then
        |r| == |lines| &&
        r[k].id == lines[k].id && r[k].name == lines[k].name && r[k].price == lines[k].price &&
        r[k].quantity == lines[k].quantity + 1 &&
        r[k].totalPrice == r[k].quantity as real * item.price &&
        forall i :: 0 <= i < |lines| && i != k ==> r[i] == lines[i]
      else
        r == lines + [InvoiceLine(item.id, item.name, item.price, 1, item.price)]
  {
  }

  /** The total an addition records grows by exactly the added item's share of the lines. */
  lemma AddItemTotal(c: Customer, item: InventoryItem)
    requires Consistent(c)
    ensures var r := AddItem(c, item);
      var k := LineIndex(c.invoice, item.id);
      r.totalAmount == c.totalAmount +
        (if k >= 0 then (c.invoice[k].quantity + 1) as real * item.price - c.invoice[k].totalPrice
         else item.price)
  {
    var lines := c.invoice;
    var k := LineIndex(lines, item.id);
    if k >= 0 {
      SumLinesUpdate(lines, k, Bump(lines[k], item.price));
    } else {
      SumLinesAppend(lines, [InvoiceLine(item.id, item.name, item.price, 1, item.price)]);
      assert SumLines([InvoiceLine(item.id, item.name, item.price, 1, item.price)]) == item.price;
    }
  }

  /** Filtering distributes over concatenation, so the kept lines stay in their order. */
  lemma {:induction false} RemoveLinesAppend(a: seq<InvoiceLine>, b: seq<InvoiceLine>, id: string)
    ensures RemoveLines(a + b, id) == RemoveLines(a, id) + RemoveLines(b, id)
    decreases |b|
  {
    if b != [] {
      assert (a + b)[..|a + b| - 1] == a + b[..|b| - 1];
      assert (a + b)[|a + b| - 1] == b[|b| - 1];
      RemoveLinesAppend(a, b[..|b| - 1], id);
    } else {
      assert a + b == a;
    }
  }

  /** Lines of other items are kept as they are when none carries the removed id. */
  lemma {:induction false} RemoveLinesAbsent(lines: seq<InvoiceLine>, id: string)
    requires forall i :: 0 <= i < |lines| ==> lines[i].id != id
    ensures RemoveLines(lines, id) == lines
    decreases |lines|
  {
    if lines != [] {
      RemoveLinesAbsent(lines[..|lines| - 1], id);
      assert lines[..|lines| - 1] + [lines[|lines| - 1]] == lines;
    }
  }

  /** Removing an item takes all of it off the invoice and no other item's count changes. */
  lemma {:induction false} RemoveLinesCounts(lines: seq<InvoiceLine>, id: string, other: string)
    ensures QuantityOf(RemoveLines(lines, id), other) == if other == id then 0 else QuantityOf(lines, other)
    decreases |lines|
  {
    if lines != [] {
      var init, last := lines[..|lines| - 1], lines[|lines| - 1];
      RemoveLinesCounts(init, id, other);
      if last.id != id {
        QuantityOfAppend(RemoveLines(init, id), [last], other);
        assert QuantityOf([last], other) == QuantityOf([], other) + (if last.id == other then last.quantity else 0);
      }
    }
  }

  /** Removing an item keeps one line per item id. */
  lemma {:induction false} RemoveKeepsUnique(lines: seq<InvoiceLine>, id: string)
    requires UniqueLineIds(lines)
    ensures UniqueLineIds(RemoveLines(lines, id))
    decreases |lines|
  {
    if lines != [] {
      var init, last := lines[..|lines| - 1], lines[|lines| - 1];
      RemoveKeepsUnique(init, id);
      if last.id != id {
        var r := RemoveLines(init, id);
        forall i | 0 <= i < |r| ensures r[i].id != last.id {
          assert r[i] in init;
          var j :| 0 <= j < |init| && init[j] == r[i];
          assert lines[j] == init[j];
        }
      }
    }
  }

  /** Adding an item that was not on the invoice and then removing it gives back the same customer. */
  lemma AddThenRemove(c: Customer, item: InventoryItem)
    requires Consistent(c)
    requires forall i :: 0 <= i < |c.invoice| ==> c.invoice[i].id != item.id
    ensures RemoveItem(AddItem(c, item), item.id) == c
  {
    var line := InvoiceLine(item.id, item.name, item.price, 1, item.price);
    assert AddItem(c, item).invoice == c.invoice + [line];
    RemoveLinesAppend(c.invoice, [line], item.id);
    RemoveLinesAbsent(c.invoice, item.id);
    assert RemoveLines([line], item.id) == RemoveLines([], item.id);
  }

  // ---- customers and their debts ----

  /** `customers.filter(c => c.id !== id)` */
  function WithoutCustomer(cs: seq<Customer>, id: string): (r: seq<Customer>)
    ensures forall x :: x in r <==> x in cs && x.id != id
    ensures |r| <= |cs|
  {
    if cs == [] then []
    else if cs[0].id == id then WithoutCustomer(cs[1..], id)
    else [cs[0]] + WithoutCustomer(cs[1..], id)
  }

  /** A list without the id is left as it is. */
  lemma {:induction false} WithoutCustomerAbsent(cs: seq<Customer>, id: string)
    requires forall i :: 0 <= i < |cs| ==> cs[i].id != id
    ensures WithoutCustomer(cs, id) == cs
    decreases |cs|
  {
    if cs != [] {
      WithoutCustomerAbsent(cs[1..], id);
      assert [cs[0]] + cs[1..] == cs;
    }
  }

  /** `customers.map(c => c.id === id ? updated : c)` */
  function ReplaceCustomer(cs: seq<Customer>, id: string, u: Customer): (r: seq<Customer>)
    ensures |r| == |cs|
    ensures forall i :: 0 <= i < |cs| ==> r[i] == if cs[i].id == id then u else cs[i]
  {
    seq(|cs|, i requires 0 <= i < |cs| => if cs[i].id == id then u else cs[i])
  }

  /** Every customer's invoice has one line per item, and its amounts agree with its lines. */
  ghost predicate AllConsistent(cs: seq<Customer>)
  {
    forall i :: 0 <= i < |cs| ==> Consistent(cs[i]) && UniqueLineIds(cs[i].invoice)
  }

  /** Replacing records by a consistent one keeps every customer consistent. */
  lemma ReplaceKeepsConsistent(cs: seq<Customer>, id: string, u: Customer)
    requires AllConsistent(cs) && Consistent(u) && UniqueLineIds(u.invoice)
    ensures AllConsistent(ReplaceCustomer(cs, id, u))
  {
  }

  /** Deleting customers keeps the others consistent. */
  lemma {:induction false} WithoutCustomerKeepsConsistent(cs: seq<Customer>, id: string)
    requires AllConsistent(cs)
    ensures AllConsistent(WithoutCustomer(cs, id))
    decreases |cs|
  {
    if cs != [] {
      var rest := WithoutCustomer(cs[1..], id);
      WithoutCustomerKeepsConsistent(cs[1..], id);
      if cs[0].id != id {
        assert forall i :: 1 <= i < |rest| + 1 ==> ([cs[0]] + rest)[i] == rest[i - 1];
      }
    }
  }

  /** The customer at `j` is the only one with its id. */
  predicate OnlyOneWithId(cs: seq<Customer>, j: int)
    requires 0 <= j < |cs|
  {
    forall i :: 0 <= i < |cs| && i != j ==> cs[i].id != cs[j].id
  }

  /** Replacing the only customer with an id is an update of its one slot. */
  lemma ReplaceOnlyOne(cs: seq<Customer>, j: int, u: Customer)
    requires 0 <= j < |cs| && OnlyOneWithId(cs, j)
    ensures ReplaceCustomer(cs, cs[j].id, u) == cs[j := u]
  {
  }

  /**
   * Updating records and then filtering out that id leaves the same list as
   * filtering alone: what a closed bill recorded on the customer disappears
   * with it.
   */
  lemma {:induction false} WithoutReplaced(cs: seq<Customer>, id: string, u: Customer)
    requires u.id == id
    ensures WithoutCustomer(ReplaceCustomer(cs, id, u), id) == WithoutCustomer(cs, id)
    decreases |cs|
  {
    if cs != [] {
      var r := ReplaceCustomer(cs, id, u);
      assert r[1..] == ReplaceCustomer(cs[1..], id, u);
      WithoutReplaced(cs[1..], id, u);
    }
  }

  /** Filtering distributes over concatenation, so the survivors keep their order. */
  lemma {:induction false} WithoutCustomerAppend(a: seq<Customer>, b: seq<Customer>, id: string)
    ensures WithoutCustomer(a + b, id) == WithoutCustomer(a, id) + WithoutCustomer(b, id)
    decreases |a|
  {
    if a != [] {
      assert (a + b)[1..] == a[1..] + b;
      assert (a + b)[0] == a[0];
      WithoutCustomerAppend(a[1..], b, id);
    } else {
      assert a + b == b;
    }
  }

  /** `debts.filter(debt => debt.customerId !== id)` */
  function WithoutDebtsOf(debts: seq<DebtRecord>, id: string): (r: seq<DebtRecord>)
    ensures forall x :: x in r <==> x in debts && x.customerId != id
    ensures |r| <= |debts|
  {
    if debts == [] then []
    else if debts[0].customerId == id then WithoutDebtsOf(debts[1..], id)
    else [debts[0]] + WithoutDebtsOf(debts[1..], id)
  }

  /** Filtering distributes over concatenation, so the survivors keep their order. */
  lemma {:induction false} WithoutDebtsOfAppend(a: seq<DebtRecord>, b: seq<DebtRecord>, id: string)
    ensures WithoutDebtsOf(a + b, id) == WithoutDebtsOf(a, id) + WithoutDebtsOf(b, id)
    decreases |a|
  {
    if a != [] {
      assert (a + b)[1..] == a[1..] + b;
      assert (a + b)[0] == a[0];
      WithoutDebtsOfAppend(a[1..], b, id);
    } else {
      assert a + b == b;
    }
  }

  /** How many café debts a customer has on the list. */
  function CafeDebtCount(debts: seq<DebtRecord>, id: string): nat
  {
    if debts == [] then 0
    else CafeDebtCount(debts[1..], id) + (if debts[0].customerId == id && debts[0].kind == CafeDebt then 1 else 0)
  }

  /** At most one café debt per customer. */
  ghost predicate OneCafeDebtEach(debts: seq<DebtRecord>)
  {
    forall id :: CafeDebtCount(debts, id) <= 1
  }

  /** `debts.findIndex(d => d.customerId === id && d.type === 'cafe')`: the first such index, or -1. */
  function CafeDebtIndex(debts: seq<DebtRecord>, id: string): (r: int)
    ensures -1 <= r < |debts|
    ensures r == -1 <==> CafeDebtCount(debts, id) == 0
    ensures r >= 0 ==> debts[r].customerId == id && debts[r].kind == CafeDebt
    ensures r >= 0 ==> forall i :: 0 <= i < r ==> !(debts[i].customerId == id && debts[i].kind == CafeDebt)
  {
    if debts == [] then -1
    else if debts[0].customerId == id && debts[0].kind == CafeDebt then 0
    else
      var k := CafeDebtIndex(debts[1..], id);
      if k == -1 then -1 else k + 1
  }

  /** The debt list after a partial café payment: the customer's café debt is replaced in place, or appended. */
  function UpsertCafeDebt(debts: seq<DebtRecord>, rec: DebtRecord): seq<DebtRecord>
  {
    var k := CafeDebtIndex(debts, rec.customerId);
    if k >= 0 then debts[k := rec] else debts + [rec]
  }

  lemma {:induction false} CafeDebtCountAppend(a: seq<DebtRecord>, b: seq<DebtRecord>, id: string)
    ensures CafeDebtCount(a + b, id) == CafeDebtCount(a, id) + CafeDebtCount(b, id)
    decreases |a|
  {
    if a != [] {
      assert (a + b)[1..] == a[1..] + b;
      assert (a + b)[0] == a[0];
      CafeDebtCountAppend(a[1..], b, id);
    } else {
      assert a + b == b;
    }
  }

  lemma CafeDebtCountUpdate(debts: seq<DebtRecord>, k: int, x: DebtRecord, id: string)
    requires 0 <= k < |debts|
    ensures CafeDebtCount(debts[k := x], id) ==
            CafeDebtCount(debts, id) - CafeDebtCount([debts[k]], id) + CafeDebtCount([x], id)
  {
    var pre, post := debts[..k], debts[k + 1..];
    assert debts == pre + [debts[k]] + post;
    assert debts[k := x] == pre + [x] + post;
    CafeDebtCountAppend(pre + [debts[k]], post, id);
    CafeDebtCountAppend(pre + [x], post, id);
    CafeDebtCountAppend(pre, [debts[k]], id);
    CafeDebtCountAppend(pre, [x], id);
  }

  /**
   * After the upsert the customer has exactly one café debt, and it is the new
   * record; every other customer keeps as many café debts as before.
   */
  lemma UpsertCafeDebtCounts(debts: seq<DebtRecord>, rec: DebtRecord, other: string)
    requires rec.kind == CafeDebt
    requires CafeDebtCount(debts, rec.customerId) <= 1
    ensures var r := UpsertCafeDebt(debts, rec);
      rec in r &&
      CafeDebtCount(r, other) == if other == rec.customerId then 1 else CafeDebtCount(debts, other)
  {
    var k := CafeDebtIndex(debts, rec.customerId);
    if k >= 0 {
      assert UpsertCafeDebt(debts, rec)[k] == rec;
      CafeDebtCountUpdate(debts, k, rec, other);
      assert CafeDebtCount([debts[k]], other) == CafeDebtCount([], other) + (if debts[k].customerId == other then 1 else 0);
      assert CafeDebtCount([rec], other) == CafeDebtCount([], other) + (if rec.customerId == other then 1 else 0);
    } else {
      CafeDebtCountAppend(debts, [rec], other);
      assert CafeDebtCount([rec], other) == CafeDebtCount([], other) + (if rec.customerId == other then 1 else 0);
    }
  }

  /** A café debt of the customer at index `i` is counted. */
  lemma {:induction false} CafeDebtCountPositive(debts: seq<DebtRecord>, i: int, id: string)
    requires 0 <= i < |debts| && debts[i].customerId == id && debts[i].kind == CafeDebt
    ensures CafeDebtCount(debts, id) >= 1
    decreases i
  {
    if i > 0 {
      CafeDebtCountPositive(debts[1..], i - 1, id);
    }
  }

  /** Two café debts of the same customer make a count of at least two. */
  lemma CafeDebtCountTwo(debts: seq<DebtRecord>, i: int, j: int, id: string)
    requires 0 <= i < j < |debts|
    requires debts[i].customerId == id && debts[i].kind == CafeDebt
    requires debts[j].customerId == id && debts[j].kind == CafeDebt
    ensures CafeDebtCount(debts, id) >= 2
  {
    assert debts == debts[..j] + debts[j..];
    CafeDebtCountAppend(debts[..j], debts[j..], id);
    CafeDebtCountPositive(debts[..j], i, id);
    CafeDebtCountPositive(debts[j..], 0, id);
  }

  /**
   * Where the customer already had its one café debt, the new record takes
   * that slot and every other debt keeps its place; otherwise the record is
   * appended after all existing debts.
   */
  lemma UpsertCafeDebtInPlace(debts: seq<DebtRecord>, rec: DebtRecord)
    requires CafeDebtCount(debts, rec.customerId) <= 1
    ensures var r := UpsertCafeDebt(debts, rec);
      if CafeDebtCount(debts, rec.customerId) == 1 then
        |r| == |debts| &&
        forall i :: 0 <= i < |debts| ==>
          r[i] == if debts[i].customerId == rec.customerId && debts[i].kind == CafeDebt then rec else debts[i]
      else
        r == debts + [rec]
  {
    var k := CafeDebtIndex(debts, rec.customerId);
    if k >= 0 {
      forall i | 0 <= i < |debts| && i != k && debts[i].customerId == rec.customerId && debts[i].kind == CafeDebt
        ensures false
      {
        if i < k { CafeDebtCountTwo(debts, i, k, rec.customerId); }
        else { CafeDebtCountTwo(debts, k, i, rec.customerId); }
      }
    }
  }

  /** The upsert keeps at most one café debt per customer. */
  lemma UpsertKeepsOneCafeDebtEach(debts: seq<DebtRecord>, rec: DebtRecord)
    requires rec.kind == CafeDebt
    requires OneCafeDebtEach(debts)
    ensures OneCafeDebtEach(UpsertCafeDebt(debts, rec))
  {
    forall id ensures CafeDebtCount(UpsertCafeDebt(debts, rec), id) <= 1 {
      UpsertCafeDebtCounts(debts, rec, id);
    }
  }

  /** Dropping a customer's debts leaves it no café debt and other customers as they were. */
  lemma {:induction false} WithoutDebtsOfCounts(debts: seq<DebtRecord>, id: string, other: string)
    ensures CafeDebtCount(WithoutDebtsOf(debts, id), other) == if other == id then 0 else CafeDebtCount(debts, other)
    decreases |debts|
  {
    if debts != [] {
      WithoutDebtsOfCounts(debts[1..], id, other);
    }
  }

  lemma WithoutDebtsOfKeepsOneCafeDebtEach(debts: seq<DebtRecord>, id: string)
    requires OneCafeDebtEach(debts)
    ensures OneCafeDebtEach(WithoutDebtsOf(debts, id))
  {
    forall other ensures CafeDebtCount(WithoutDebtsOf(debts, id), other) <= 1 {
      WithoutDebtsOfCounts(debts, id, other);
    }
  }

  /** `debts.reduce((sum, debt) => sum + debt.amount, 0)` */
  function SumDebts(debts: seq<DebtRecord>): real
  {
    if debts == [] then 0.0 else SumDebts(debts[..|debts| - 1]) + debts[|debts| - 1].amount
  }

  lemma {:induction false} SumDebtsAppend(a: seq<DebtRecord>, b: seq<DebtRecord>)
    ensures SumDebts(a + b) == SumDebts(a) + SumDebts(b)
    decreases |b|
  {
    if b != [] {
      assert (a + b)[..|a + b| - 1] == a + b[..|b| - 1];
      assert (a + b)[|a + b| - 1] == b[|b| - 1];
      SumDebtsAppend(a, b[..|b| - 1]);
    } else {
      assert a + b == a;
    }
  }
}
