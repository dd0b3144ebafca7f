/**
 * The point-of-sale component's state and its event handlers. Each handler
 * is a method that updates the fields the source's state setters update;
 * clocks and generated ids are parameters, alerts are the methods' results.
 */
module PointOfSale {
  import opened Values
  import opened Devices
  import opened Cafe
  import opened Withdrawals
  import opened Settings

  /** What the pending password prompt will do once the passcode is confirmed. */
  datatype PromptAction =
    | DeleteItem(itemId: string)
    | EditItem(item: InventoryItem)
    | DeleteCustomer(customerId: string)
    | DeleteWithdrawal(withdrawalId: string)

  datatype PasswordPrompt = Hidden | Shown(action: PromptAction)

  /** The device fields the panel's inputs change through `updateDeviceField`. */
  datatype DeviceField =
    | UsageType(usage: string)
    | ControllerType(controller: string)
    | AirConditioner(airConditioner: string)
    | Price(price: Entry)
    | ShowPaymentModal(show: bool)
    | Discount(discount: Entry)
    | PaidAmount(paid: Entry)
    | Remaining(remaining: real)

  /** A usage type that takes game controllers. */
  predicate IsConsoleUsage(usage: string)
  {
    usage == "PS4" || usage == "PS5"
  }

  /**
   * One device record after `updateDeviceField`: only the named field
   * changes, except that a usage other than PS4/PS5 also clears the
   * controller choice, and a new discount or payment recomputes what is left
   * to pay from the session's cost.
   */
  function WithField(d: Device, f: DeviceField): (r: Device)
    ensures r.name == d.name && r.isRoom == d.isRoom && r.timer == d.timer && r.isRunning == d.isRunning &&
      r.startTime == d.startTime && r.totalCost == d.totalCost && r.canCalculate == d.canCalculate
    ensures r.usageType == (if f.UsageType? then f.usage else d.usageType)
    ensures r.controllerType == (if f.UsageType? && !IsConsoleUsage(f.usage) then ""
                                 else if f.ControllerType? then f.controller else d.controllerType)
    ensures r.airConditioner == (if f.AirConditioner? then f.airConditioner else d.airConditioner)
    ensures r.price == (if f.Price? then f.price else d.price)
    ensures r.showPaymentModal == (if f.ShowPaymentModal? then f.show else d.showPaymentModal)
    ensures r.discount == (if f.Discount? then f.discount else d.discount)
    ensures r.paidAmount == (if f.PaidAmount? then f.paid else d.paidAmount)
    ensures r.remaining == (if f.Discount? || f.PaidAmount? then d.totalCost - OrZero(r.discount) - OrZero(r.paidAmount)
                            else if f.Remaining? then f.remaining else d.remaining)
  {
    var written := (match f
      case UsageType(u) => d.(usageType := u)
      case ControllerType(c) => d.(controllerType := c)
      case AirConditioner(a) => d.(airConditioner := a)
      case Price(p) => d.(price := p)
      case ShowPaymentModal(s) => d.(showPaymentModal := s)
      case Discount(x) => d.(discount := x)
      case PaidAmount(x) => d.(paidAmount := x)
      case Remaining(x) => d.(remaining := x));
    var cleared := if f.UsageType? && !IsConsoleUsage(f.usage) then written.(controllerType := "") else written;
    if f.Discount? || f.PaidAmount? then
      cleared.(remaining := cleared.totalCost - OrZero(cleared.discount) - OrZero(cleared.paidAmount))
    else cleared
  }

  class App {
    var devices: map<DeviceKey, Device>
    var inventory: seq<InventoryItem>
    var customers: seq<Customer>
    var debts: seq<DebtRecord>
    var withdrawals: seq<Withdrawal>
    var withdrawalDebts: seq<DebtRecord>
    var deletePassword: string
    var currency: string
    var prompt: PasswordPrompt
    var editingItem: Option<InventoryItem>

    /** All six devices exist, and a running device has a start time. */
    ghost predicate DevicesValid()
      reads this
    {
      (forall k: DeviceKey :: k in devices) &&
      (forall k :: k in devices && devices[k].isRunning ==> devices[k].startTime.Some?)
    }

    /** Every customer's invoice has one line per item, and its amounts agree with its lines. */
    ghost predicate CustomersValid()
      reads this
    {
      AllConsistent(customers)
    }

    ghost predicate Valid()
      reads this
    {
      DevicesValid() && CustomersValid() && OneCafeDebtEach(debts)
    }

    constructor ()
      ensures Valid()
      ensures devices == map[Room1 := InitialDevice("Room 1", true), Room2 := InitialDevice("Room 2", true),
                             Room3 := InitialDevice("Room 3", true), Ps1 := InitialDevice("PS 1", false),
                             Ps2 := InitialDevice("PS 2", false), Ps3 := InitialDevice("PS 3", false)]
      ensures inventory == [] && customers == [] && debts == [] && withdrawals == [] && withdrawalDebts == []
      ensures deletePassword == DefaultPassword && currency == DefaultCurrency
      ensures prompt == Hidden && editingItem == None
    {
      devices := map[Room1 := InitialDevice("Room 1", true), Room2 := InitialDevice("Room 2", true),
                     Room3 := InitialDevice("Room 3", true), Ps1 := InitialDevice("PS 1", false),
                     Ps2 := InitialDevice("PS 2", false), Ps3 := InitialDevice("PS 3", false)];
      inventory, customers, debts := [], [], [];
      withdrawals, withdrawalDebts := [], [];
      deletePassword, currency := DefaultPassword, DefaultCurrency;
      prompt, editingItem := Hidden, None;
      new;
      forall k: DeviceKey ensures k in devices {
        match k
        case Room1 => case Room2 => case Room3 => case Ps1 => case Ps2 => case Ps3 =>
      }
    }

    // ---- devices ----

    /** `startTimer`: refused while no price is entered; otherwise the device runs from `now`. */
    method StartTimer(k: DeviceKey, now: int) returns (started: bool)
      requires Valid()
      modifies this`devices
      ensures Valid()
      ensures started <==> old(devices[k]).price.Entered?
      ensures started ==> devices == old(devices)[k := old(devices[k]).(isRunning := true, startTime := Some(now))]
      ensures !started ==> devices == old(devices)
    {
      var d := devices[k];
      if d.price.Blank? {
        return false;
      }
      devices := devices[k := d.(isRunning := true, startTime := Some(now))];
      return true;
    }

    /** One interval tick at time `now`: a stopped device is left alone, a running one gets its timer and cost. */
    method Tick(k: DeviceKey, now: int)
      requires Valid()
      modifies this`devices
      ensures Valid()
      ensures !old(devices[k]).isRunning ==> devices == old(devices)
      ensures old(devices[k]).isRunning ==>
        var d := old(devices[k]);
        var t := TimerOf(now - d.startTime.value);
        devices == old(devices)[k := d.(timer := t, totalCost := CalculateCost(t, d.price))]
    {
      var d := devices[k];
      if !d.isRunning {
        return;
      }
      var origin := if d.startTime.Some? then d.startTime.value else 0;
      var timer := TimerOf(now - origin);
      devices := devices[k := d.(timer := timer, totalCost := CalculateCost(timer, d.price))];
    }

    /** `stopTimer`: the session stops and may now be billed. */
    method StopTimer(k: DeviceKey)
      requires Valid()
      modifies this`devices
      ensures Valid()
      ensures devices == old(devices)[k := old(devices[k]).(isRunning := false, canCalculate := true)]
      ensures DeviceEarnings(devices) == old(DeviceEarnings(devices)) - Earned(old(devices[k])) + old(devices[k]).totalCost
    {
      DeviceEarningsUpdate(devices, k, devices[k].(isRunning := false, canCalculate := true));
      devices := devices[k := devices[k].(isRunning := false, canCalculate := true)];
    }

    /** `resetTimer`: the session goes back to zero, stopped and not billable. */
    method ResetTimer(k: DeviceKey)
      requires Valid()
      modifies this`devices
      ensures Valid()
      ensures devices == old(devices)[k := old(devices[k]).(timer := Timer(0, 0, 0), isRunning := false,
                                                           startTime := None, totalCost := 0.0, canCalculate := false)]
      ensures DeviceEarnings(devices) == old(DeviceEarnings(devices)) - Earned(old(devices[k]))
    {
      DeviceEarningsUpdate(devices, k, devices[k].(timer := Timer(0, 0, 0), isRunning := false, startTime := None,
                                                   totalCost := 0.0, canCalculate := false));
      devices := devices[k := devices[k].(timer := Timer(0, 0, 0), isRunning := false, startTime := None,
                                          totalCost := 0.0, canCalculate := false)];
    }

    /** `updateDeviceField`: the device under `k` gets the field, every other device is untouched. */
    method UpdateDeviceField(k: DeviceKey, f: DeviceField)
      requires Valid()
      modifies this`devices
      ensures Valid()
      ensures devices == old(devices)[k := WithField(old(devices[k]), f)]
    {
      devices := devices[k := WithField(devices[k], f)];
    }

    // ---- café ----

    /** `addCustomer`: a blank name is refused; otherwise a customer with an empty invoice is appended. */
    method AddCustomer(name: string, id: string) returns (added: bool)
      requires Valid()
      modifies this`customers
      ensures Valid()
      ensures added <==> Trim(name) != []
      ensures added ==> customers == old(customers) + [Customer(id, Trim(name), [], 0.0, 0.0, 0.0, 0.0)]
      ensures !added ==> customers == old(customers)
    {
      var trimmed := Trim(name);
      if trimmed == [] {
        return false;
      }
      customers := customers + [Customer(id, trimmed, [], 0.0, 0.0, 0.0, 0.0)];
      return true;
    }

    /**
     * `addItemToInvoice`: an id missing from the inventory changes nothing;
     * otherwise every customer with `customerId` gets one more of the item.
     */
    method AddItemToInvoice(customerId: string, itemId: string)
      requires Valid()
      modifies this`customers
      ensures Valid()
      ensures FindItem(inventory, itemId).None? ==> customers == old(customers)
      ensures FindItem(inventory, itemId).Some? ==>
        |customers| == |old(customers)| &&
        forall i :: 0 <= i < |customers| ==>
          customers[i] == if old(customers[i]).id == customerId then AddItem(old(customers[i]), FindItem(inventory, itemId).value)
                          else old(customers[i])
    {
      var found := FindItem(inventory, itemId);
      if found.None? {
        return;
      }
      var item := found.value;
      var cs := customers;
      forall i | 0 <= i < |cs| && cs[i].id == customerId
        ensures Consistent(AddItem(cs[i], item)) && UniqueLineIds(AddItem(cs[i], item).invoice)
      {
        AddItemKeepsUnique(cs[i], item);
      }
      customers := seq(|cs|, i requires 0 <= i < |cs| => if cs[i].id == customerId then AddItem(cs[i], item) else cs[i]);
    }

    /** `removeItemFromInvoice`: every customer with `customerId` loses all lines of the item. */
    method RemoveItemFromInvoice(customerId: string, itemId: string)
      requires Valid()
      modifies this`customers
      ensures Valid()
      ensures |customers| == |old(customers)|
      ensures forall i :: 0 <= i < |customers| ==>
        customers[i] == if old(customers[i]).id == customerId then RemoveItem(old(customers[i]), itemId)
                        else old(customers[i])
    {
      var cs := customers;
      forall i | 0 <= i < |cs| && cs[i].id == customerId
        ensures UniqueLineIds(RemoveItem(cs[i], itemId).invoice)
      {
        RemoveKeepsUnique(cs[i].invoice, itemId);
      }
      customers := seq(|cs|, i requires 0 <= i < |cs| => if cs[i].id == customerId then RemoveItem(cs[i], itemId) else cs[i]);
    }

    /**
     * `calculateCustomerBill` on the customer record the payment form was
     * opened with: records the discount and payment; a bill paid in full
     * closes the customer and drops all its debts, otherwise the remainder
     * becomes the customer's one café debt.
     */
    method CalculateCustomerBill(customer: Customer, discount: Entry, paid: Entry) returns (closed: bool)
      requires Valid()
      modifies this`customers, this`debts
      ensures DevicesValid() && OneCafeDebtEach(debts)
      ensures (old(CustomersValid()) && customer.totalAmount == SumLines(customer.invoice) &&
               UniqueLineIds(customer.invoice)) ==> CustomersValid()
      ensures var remaining := customer.totalAmount - OrZero(discount) - OrZero(paid);
        var updated := customer.(discount := OrZero(discount), paidAmount := OrZero(paid), remainingAmount := remaining);
        var replaced := ReplaceCustomer(old(customers), customer.id, updated);
        (closed <==> remaining <= 0.0) &&
        (closed ==> customers == WithoutCustomer(replaced, customer.id) &&
                    debts == WithoutDebtsOf(old(debts), customer.id)) &&
        (!closed ==> customers == replaced &&
                     debts == UpsertCafeDebt(old(debts), DebtRecord(customer.id, customer.id, customer.name, CafeDebt, remaining)))
    {
      var remaining := customer.totalAmount - OrZero(discount) - OrZero(paid);
      var updated := customer.(discount := OrZero(discount), paidAmount := OrZero(paid), remainingAmount := remaining);
      ghost var fits := CustomersValid() && customer.totalAmount == SumLines(customer.invoice) &&
                        UniqueLineIds(customer.invoice);
      if fits {
        assert Consistent(updated) && UniqueLineIds(updated.invoice);
        ReplaceKeepsConsistent(customers, customer.id, updated);
      }
      customers := ReplaceCustomer(customers, customer.id, updated);
      if remaining <= 0.0 {
        if fits {
          WithoutCustomerKeepsConsistent(customers, customer.id);
        }
        customers := WithoutCustomer(customers, customer.id);
        WithoutDebtsOfKeepsOneCafeDebtEach(debts, customer.id);
        debts := WithoutDebtsOf(debts, customer.id);
        return true;
      }
      UpsertKeepsOneCafeDebtEach(debts, DebtRecord(customer.id, customer.id, customer.name, CafeDebt, remaining));
      debts := UpsertCafeDebt(debts, DebtRecord(customer.id, customer.id, customer.name, CafeDebt, remaining));
      return false;
    }

    // ---- passcode-guarded actions ----

    /** The delete/edit buttons: open the passcode prompt for an action. */
    method ShowPrompt(action: PromptAction)
      modifies this`prompt
      ensures prompt == Shown(action)
    {
      prompt := Shown(action);
    }

    /** A prompt's cancel button. */
    method ClosePrompt()
      modifies this`prompt
      ensures prompt == Hidden
    {
      prompt := Hidden;
    }

    /**
     * `handleCustomerPasswordAction`: a wrong passcode changes nothing and
     * keeps the prompt open; the right one deletes the pending customer with
     * all its debts, and closes the prompt.
     */
    method HandleCustomerPasswordAction(entered: string) returns (accepted: bool)
      requires Valid()
      modifies this`customers, this`debts, this`prompt
      ensures Valid()
      ensures accepted <==> entered == deletePassword
      ensures !accepted ==> customers == old(customers) && debts == old(debts) && prompt == old(prompt)
      ensures accepted ==> prompt == Hidden
      ensures accepted && old(prompt).Shown? && old(prompt).action.DeleteCustomer? ==>
        var id := old(prompt).action.customerId;
        customers == WithoutCustomer(old(customers), id) && debts == WithoutDebtsOf(old(debts), id)
      ensures accepted && !(old(prompt).Shown? && old(prompt).action.DeleteCustomer?) ==>
        customers == old(customers) && debts == old(debts)
    {
      if entered != deletePassword {
        return false;
      }
      if prompt.Shown? && prompt.action.DeleteCustomer? {
        var id := prompt.action.customerId;
        WithoutCustomerKeepsConsistent(customers, id);
        customers := WithoutCustomer(customers, id);
        WithoutDebtsOfKeepsOneCafeDebtEach(debts, id);
        debts := WithoutDebtsOf(debts, id);
      }
      prompt := Hidden;
      return true;
    }

    /** `addInventoryItem`: a blank name or price is refused; otherwise the item is appended. */
    method AddInventoryItem(name: string, price: Entry, id: string) returns (added: bool)
      modifies this`inventory
      ensures added <==> Trim(name) != [] && price.Entered?
      ensures added ==> inventory == old(inventory) + [InventoryItem(id, Trim(name), price.value)]
      ensures !added ==> inventory == old(inventory)
    {
      var trimmed := Trim(name);
      if trimmed == [] || price.Blank? {
        return false;
      }
      inventory := inventory + [InventoryItem(id, trimmed, price.value)];
      return true;
    }

    /**
     * `handlePasswordAction` (inventory): a wrong passcode changes nothing and
     * keeps the prompt open; the right one deletes the pending item or opens
     * it for editing, and closes the prompt.
     */
    method HandlePasswordAction(entered: string) returns (accepted: bool)
      modifies this`inventory, this`editingItem, this`prompt
      ensures accepted <==> entered == deletePassword
      ensures !accepted ==> inventory == old(inventory) && editingItem == old(editingItem) && prompt == old(prompt)
      ensures accepted ==> prompt == Hidden
      ensures accepted && old(prompt).Shown? && old(prompt).action.DeleteItem? ==>
        inventory == WithoutItem(old(inventory), old(prompt).action.itemId) && editingItem == old(editingItem)
      ensures accepted && old(prompt).Shown? && old(prompt).action.EditItem? ==>
        inventory == old(inventory) && editingItem == Some(old(prompt).action.item)
      ensures accepted && !(old(prompt).Shown? && (old(prompt).action.DeleteItem? || old(prompt).action.EditItem?)) ==>
        inventory == old(inventory) && editingItem == old(editingItem)
    {
      if entered != deletePassword {
        return false;
      }
      if prompt.Shown? {
        match prompt.action {
          case DeleteItem(id) => inventory := WithoutItem(inventory, id);
          case EditItem(item) => editingItem := Some(item);
          case DeleteCustomer(_) =>
          case DeleteWithdrawal(_) =>
        }
      }
      prompt := Hidden;
      return true;
    }

    /** The edit form's name input. */
    method RenameEditingItem(name: string)
      requires editingItem.Some?
      modifies this`editingItem
      ensures editingItem == Some(old(editingItem).value.(name := name))
    {
      editingItem := Some(editingItem.value.(name := name));
    }

    /** The edit form's price input: `parseFloat(value) || 0`. */
    method RepriceEditingItem(price: Entry)
      requires editingItem.Some?
      modifies this`editingItem
      ensures editingItem == Some(old(editingItem).value.(price := OrZero(price)))
    {
      editingItem := Some(editingItem.value.(price := OrZero(price)));
    }

    /** The edit form's cancel button. */
    method CancelEditing()
      modifies this`editingItem
      ensures editingItem == None
    {
      editingItem := None;
    }

    /**
     * `updateInventoryItem`: a blank name or a zero price (a number, so 0 is
     * false) is refused; otherwise every item with the edited id is replaced
     * and the edit form closes.
     */
    method UpdateInventoryItem() returns (saved: bool)
      requires editingItem.Some?
      modifies this`inventory, this`editingItem
      ensures saved <==> Trim(old(editingItem).value.name) != [] && old(editingItem).value.price != 0.0
      ensures saved ==> inventory == ReplaceItem(old(inventory), old(editingItem).value) && editingItem == None
      ensures !saved ==> inventory == old(inventory) && editingItem == old(editingItem)
    {
      var edited := editingItem.value;
      if Trim(edited.name) == [] || edited.price == 0.0 {
        return false;
      }
      inventory := ReplaceItem(inventory, edited);
      editingItem := None;
      return true;
    }

    // ---- withdrawals ----

    /**
     * `addWithdrawal`: a blank amount or no type is refused; otherwise the
     * movement is appended, and an advance also becomes a debt.
     */
    method AddWithdrawal(amount: Entry, description: string, kind: Option<WithdrawalType>, id: string, now: int)
      returns (added: bool)
      modifies this`withdrawals, this`withdrawalDebts
      ensures added <==> amount.Entered? && kind.Some?
      ensures !added ==> withdrawals == old(withdrawals) && withdrawalDebts == old(withdrawalDebts)
      ensures added ==>
        var w := Withdrawal(id, amount.value, Trim(description), kind.value, now);
        withdrawals == old(withdrawals) + [w] &&
        withdrawalDebts == if kind.value == Advance then old(withdrawalDebts) + [AdvanceDebt(w)] else old(withdrawalDebts)
    {
      if amount.Blank? || kind.None? {
        return false;
      }
      var w := Withdrawal(id, amount.value, Trim(description), kind.value, now);
      withdrawals := withdrawals + [w];
      if kind.value == Advance {
        withdrawalDebts := withdrawalDebts + [AdvanceDebt(w)];
      }
      return true;
    }

    /** `payWithdrawalDebt`: reduces the debt with the id by the payment, dropping it once covered. */
    method PayWithdrawalDebt(debtId: string, paid: Entry)
      modifies this`withdrawalDebts
      ensures withdrawalDebts == PayDebt(old(withdrawalDebts), debtId, OrZero(paid))
    {
      withdrawalDebts := PayDebt(withdrawalDebts, debtId, OrZero(paid));
    }

    /**
     * The withdrawal prompt's confirm button: the right passcode deletes the
     * movement (its advance debt stays); the prompt closes either way.
     */
    method ConfirmWithdrawalDeletion(entered: string) returns (deleted: bool)
      requires prompt.Shown? && prompt.action.DeleteWithdrawal?
      modifies this`withdrawals, this`prompt
      ensures deleted <==> entered == deletePassword
      ensures deleted ==> withdrawals == WithoutWithdrawal(old(withdrawals), old(prompt).action.withdrawalId)
      ensures !deleted ==> withdrawals == old(withdrawals)
      ensures prompt == Hidden
    {
      deleted := entered == deletePassword;
      if deleted {
        withdrawals := WithoutWithdrawal(withdrawals, prompt.action.withdrawalId);
      }
      prompt := Hidden;
    }

    // ---- settings ----

    /**
     * `changePassword`: the passcode changes only when all three checks pass.
     * The settings screen's own change-passcode dialog is local to that screen,
     * so the shared prompt is left as it was.
     */
    method ChangePassword(oldPassword: string, newPassword: string, confirm: string) returns (outcome: PasswordChange)
      modifies this`deletePassword
      ensures outcome == CheckPasswordChange(old(deletePassword), oldPassword, newPassword, confirm)
      ensures deletePassword == if outcome == Changed then newPassword else old(deletePassword)
    {
      outcome := CheckPasswordChange(deletePassword, oldPassword, newPassword, confirm);
      if outcome == Changed {
        deletePassword := newPassword;
      }
    }

    /** The settings screen's summary of the current state. */
    function Summary(): (s: DailySummary)
      reads this
      ensures s.deviceEarnings == DeviceEarnings(devices) && s.cafeEarnings == CafeEarnings(customers)
      ensures s.totalCollections - s.totalWithdrawals == NetMovement(withdrawals)
      ensures s.totalCollections + s.totalWithdrawals == SumAmounts(withdrawals)
      ensures s.expectedDrawerAmount == DeviceEarnings(devices) + CafeEarnings(customers) + NetMovement(withdrawals)
      ensures s.totalDebts == SumDebts(debts) + SumDebts(withdrawalDebts)
    {
      CalculateDailySummary(devices, customers, withdrawals, debts, withdrawalDebts)
    }
  }
}
