# Café and PlayStation point of sale — a Dafny model

This project models the business logic of a single-page point-of-sale screen
for a café that also rents gaming rooms and PlayStation consoles by the hour.
The whole screen lives in one React component, `frontend/src/App.js`. It keeps
six devices (three rooms, three consoles), each with an hourly rate and a
running timer. It also keeps a café inventory, customers with running
invoices, the customers' outstanding ("café") debts, a ledger of cash
movements (withdrawals, collections, advances), the debts that advances
create, and a shared passcode that guards deletions and edits.

The model is split by area:

- `values.dfy` (`Values`): optional values, and `Entry`, a numeric text
  field seen through JavaScript truthiness. The empty text is false; any
  other text, even `"0"`, is true. The file also holds `parseFloat(x || 0)`
  and `String.prototype.trim`.
- `devices.dfy` (`Devices`): the device record, the one-second tick's split
  of elapsed milliseconds into hours, minutes and seconds (with JavaScript's
  truncating `%`), the hourly cost, and the `hh:mm:ss` display.
- `cafe.dfy` (`Cafe`): inventory lookups and edits, invoice lines and their
  totals, adding and removing an item, and the per-customer café debt.
- `withdrawals.dfy` (`Withdrawals`): cash movements, the debt an advance
  creates, paying that debt back, and the ledger page's totals.
- `settings.dfy` (`Settings`): the passcode-change rule and the daily summary.
- `pos.dfy` (`PointOfSale`): the class `App`. It holds the component's state
  as fields. Its event handlers are methods that update exactly the fields
  the component's state setters update. Clocks and generated ids are
  parameters, and alerts become the methods' boolean or enum results.

The class invariant `App.Valid` says three things. All six devices exist,
and a running device has a start time. Every customer's invoice has at most
one line per item, with totals that agree with its lines. There is at most
one café debt per customer. Every handler that touches these fields
preserves the invariant, with one exception. `App.CalculateCustomerBill` keeps
the invoice part of it only when the customer record it is given is itself
consistent (see "Left out").

## Model

| member | source | states |
|---|---|---|
| Values.TrimStart | frontend/src/App.js:402 | the result is a suffix of the input; every dropped character is white space; the result is empty or starts with a non-space |
| Values.TrimEnd | frontend/src/App.js:402 | the result is a prefix of the input; every dropped character is white space; the result is empty or ends with a non-space |
| Values.Trim | frontend/src/App.js:402 | `trim`: stated by `Values.TrimStart`, `Values.TrimEnd`, `Values.TrimEmptyIffBlank` and `Values.TrimKeepsInner` |
| Values.OrZero | frontend/src/App.js:73 | `parseFloat` of a field with zero as its default: a blank field reads as zero, any entered text as its number |
| Values.TrimEmptyIffBlank | frontend/src/App.js:402-405 | a name is refused exactly when every character of it is white space (both directions) |
| Values.TrimKeepsInner | frontend/src/App.js:409 | a name with no white space at either end is stored unchanged |
| Devices.JsRem | frontend/src/App.js:103-104 | JavaScript's `%`: agrees with the mathematical remainder on non-negative operands, lies in (-b, 0] for negative ones, and always differs from the dividend by a multiple of the divisor (together: the remainder truncated toward zero) |
| Devices.InitialDevice | frontend/src/App.js:47-63 | a fresh device is idle and unbilled: stopped, no start time, no rate entered, zero timer and cost, not billable, air conditioning "no" |
| Devices.TimerOf | frontend/src/App.js:100-104 | the tick's timer for an elapsed time; its meaning is stated by `Devices.TimerOfSplitsSeconds` and `Devices.TickHours` |
| Devices.TimerOfSplitsSeconds | frontend/src/App.js:100-104 | for a non-negative elapsed time, the tick's timer holds exactly the whole seconds elapsed, with minutes and seconds in 0..59 |
| Devices.TickHours | frontend/src/App.js:70-73 | the hours a tick charges for are the whole elapsed seconds divided by 3600 |
| Devices.CostMonotone | frontend/src/App.js:70-74 | at a non-negative rate, a longer timer never costs less, and no cost is negative |
| Devices.TickCostMonotone | frontend/src/App.js:100-107 | the cost successive ticks record never decreases as time goes on, and starts non-negative |
| Devices.CalculateCost | frontend/src/App.js:70-74 | the timer's hours times the rate, zero when no rate is entered; its properties are stated by `Devices.CostMonotone`, `Devices.TickCostMonotone` and `Devices.BlankRateCostsNothing` |
| Devices.BlankRateCostsNothing | frontend/src/App.js:73 | with no rate entered, a session costs nothing however long it runs |
| Devices.Digits | frontend/src/App.js:67 | `String(n)` of a natural number is a non-empty string of decimal digits, one digit exactly when n < 10, with no leading zero from 10 on |
| Devices.DigitsRoundTrip | frontend/src/App.js:67 | reading the digits back gives the number |
| Devices.IntToString | frontend/src/App.js:67 | `String(n)` of any integer: non-empty, starting with a minus sign exactly when n is negative, and decimal digits everywhere after that sign; the first digit is a zero only for n = 0 |
| Devices.IntToStringRoundTrip | frontend/src/App.js:67 | reading back the digits after the optional minus sign gives the magnitude of n |
| Devices.PadTwo | frontend/src/App.js:67 | `padStart(2, '0')` adds only zeros in front, never truncates, and yields at least two characters |
| Devices.PadTwoRoundTrip | frontend/src/App.js:67 | a field below 100 is shown as exactly two digits that read back as the field |
| Devices.FormatTime | frontend/src/App.js:66-68 | the `hh:mm:ss` display; stated by `Devices.FormatTimeRoundTrip` and `Devices.LongSessionsWiden` |
| Devices.FormatTimeRoundTrip | frontend/src/App.js:66-68 | every timer below 100 hours with proper minutes and seconds is displayed as `hh:mm:ss` and parses back to the same timer |
| Devices.LongSessionsWiden | frontend/src/App.js:66-68 | from 100 hours on, the hour field widens, so the display is longer than eight characters |
| Cafe.FindItem | frontend/src/App.js:425-426 | `find` by id: nothing exactly when no item has the id, otherwise the first item with it |
| Cafe.WithoutItem | frontend/src/App.js:966 | deleting an item keeps exactly the items with other ids |
| Cafe.WithoutItemAppend | frontend/src/App.js:966 | the kept items stay in their order |
| Cafe.ReplaceItem | frontend/src/App.js:982-984 | saving an edit replaces every item with the edited id, position by position, and keeps the rest |
| Cafe.LineIndex | frontend/src/App.js:430 | `findIndex`: -1 exactly when no line has the id, otherwise the first line with it |
| Cafe.RemoveLines | frontend/src/App.js:485 | removing an item from an invoice keeps exactly the lines of other items |
| Cafe.RemoveLinesAppend | frontend/src/App.js:485 | the kept lines stay in their order |
| Cafe.SumLines | frontend/src/App.js:438 | the invoice total as a fold over the lines; additive over concatenation (`Cafe.SumLinesAppend`) and exact under one-line updates (`Cafe.SumLinesUpdate`) |
| Cafe.Bump | frontend/src/App.js:434-436 | one more unit of a line at the item's current price; stated by `Cafe.AddItemInPlace` |
| Cafe.AddToLines | frontend/src/App.js:430-459 | the invoice after one more of an item; stated by `Cafe.AddItemInPlace`, `Cafe.AddItemCounts` and `Cafe.AddItemKeepsUnique` |
| Cafe.AddItem | frontend/src/App.js:424-470 | after adding an item, the invoice total is the sum of its lines, and the remainder is total − discount − paid; the customer's id, name, discount and payment are unchanged |
| Cafe.RemoveItem | frontend/src/App.js:482-496 | the customer keeps its id, name, discount and payment; its invoice becomes the lines of other items (`Cafe.RemoveLines`), and its amounts agree with those lines |
| Cafe.AddItemCounts | frontend/src/App.js:432-459 | adding an item raises that item's quantity on the invoice by one, and no other item's |
| Cafe.AddItemKeepsUnique | frontend/src/App.js:430-459 | an invoice with one line per item keeps one line per item after an addition |
| Cafe.AddItemInPlace | frontend/src/App.js:430-459 | an item already on the invoice is bumped in its own slot (same id, name and unit price, one more unit, line total = new quantity × the item's current price) with every other line unchanged; a new item is appended as one unit at its price |
| Cafe.AddItemTotal | frontend/src/App.js:432-459 | for a consistent customer, an addition raises the total by the item's price for a new line, or, for an existing line, by the line's new quantity times the item's current price minus the line's old total |
| Cafe.RemoveLinesAbsent | frontend/src/App.js:485 | removing an item the invoice does not hold changes nothing |
| Cafe.RemoveLinesCounts | frontend/src/App.js:485 | removing an item takes all of it off the invoice and leaves every other item's quantity |
| Cafe.RemoveKeepsUnique | frontend/src/App.js:485 | removal keeps one line per item |
| Cafe.AddThenRemove | frontend/src/App.js:424-496 | adding an item the invoice did not hold and then removing it gives back the customer exactly |
| Cafe.WithoutCustomer | frontend/src/App.js:526 | deleting a customer keeps exactly the customers with other ids |
| Cafe.WithoutCustomerAppend | frontend/src/App.js:526 | the kept customers stay in their order |
| Cafe.WithoutCustomerAbsent | frontend/src/App.js:526 | deleting an id no customer carries changes nothing |
| Cafe.ReplaceCustomer | frontend/src/App.js:519-521 | the customer list after a bill: same length, every customer with the id replaced by the updated record, every other customer unchanged |
| Cafe.ReplaceOnlyOne | frontend/src/App.js:519-521 | when one customer carries the id, the bill updates only that customer's slot |
| Cafe.ReplaceKeepsConsistent | frontend/src/App.js:519-521 | a bill with a consistent updated record keeps every customer's invoice consistent |
| Cafe.WithoutCustomerKeepsConsistent | frontend/src/App.js:526 | deleting customers keeps the remaining invoices consistent |
| Cafe.WithoutReplaced | frontend/src/App.js:519-526 | a bill paid in full leaves the same customer list as deleting the customer outright: what it recorded on the customer goes with it |
| Cafe.WithoutDebtsOf | frontend/src/App.js:527 | deleting a customer's debts keeps exactly the other customers' debts |
| Cafe.WithoutDebtsOfAppend | frontend/src/App.js:527 | the kept debts stay in their order |
| Cafe.WithoutDebtsOfCounts | frontend/src/App.js:527 | afterwards the customer has no café debt, and every other customer's count is unchanged |
| Cafe.WithoutDebtsOfKeepsOneCafeDebtEach | frontend/src/App.js:527 | deleting debts keeps at most one café debt per customer |
| Cafe.CafeDebtIndex | frontend/src/App.js:542 | `findIndex` for the customer's café debt: -1 exactly when there is none, otherwise the first index holding one |
| Cafe.UpsertCafeDebt | frontend/src/App.js:541-550 | the debt list after a partial payment; stated by `Cafe.UpsertCafeDebtInPlace`, `Cafe.UpsertCafeDebtCounts` and `Cafe.UpsertKeepsOneCafeDebtEach` |
| Cafe.UpsertCafeDebtCounts | frontend/src/App.js:533-550 | after a partial payment, the new record is on the list, the customer has exactly one café debt, and no other customer's count changes |
| Cafe.UpsertCafeDebtInPlace | frontend/src/App.js:542-550 | an existing café debt is overwritten in its slot and every other debt keeps its place; without one, the record is appended |
| Cafe.UpsertKeepsOneCafeDebtEach | frontend/src/App.js:542-550 | the upsert keeps at most one café debt per customer |
| Cafe.SumDebts | frontend/src/App.js:1663 | the total of the debts' amounts; stated by `Cafe.SumDebtsAppend`, `Withdrawals.PayDebtTotal` and `Settings.SummaryAfterWithdrawal` |
| Cafe.SumDebtsAppend | frontend/src/App.js:1663 | the debt total of two lists is the sum of their totals |
| Withdrawals.AdvanceDebt | frontend/src/App.js:1220-1230 | an advance's debt carries the movement's id as both id and customer id, and its amount; it is a withdrawal debt named after the movement's description, or "سلفة " followed by the id when the description is empty |
| Withdrawals.WithoutWithdrawal | frontend/src/App.js:1478 | deleting a movement keeps exactly the movements with other ids |
| Withdrawals.WithoutWithdrawalAppend | frontend/src/App.js:1478 | the kept movements stay in their order |
| Withdrawals.Settle | frontend/src/App.js:1245-1249 | what a payment leaves of one debt: nothing once covered, otherwise the debt reduced by the payment; stated by `Withdrawals.PayDebtOne` |
| Withdrawals.PayDebt | frontend/src/App.js:1243-1252 | the debt list after a payment; stated by `Withdrawals.PayDebtOne`, `Withdrawals.PayDebtUnmatched` and `Withdrawals.PayDebtTotal` |
| Withdrawals.PayDebtAppend | frontend/src/App.js:1243-1252 | paying debts distributes over concatenation of the list |
| Withdrawals.PayDebtUnmatched | frontend/src/App.js:1243-1252 | a payment against an id no debt carries changes nothing |
| Withdrawals.PayDebtOne | frontend/src/App.js:1243-1252 | paying the one debt with the id reduces it in place by the payment, or removes it once covered; all other debts keep their values and order |
| Withdrawals.PayDebtTotal | frontend/src/App.js:1243-1252 | the outstanding total drops by the payment, or by the whole debt when the payment covers it |
| Withdrawals.Collections | frontend/src/App.js:1652 | the collections are exactly the movements of type collection |
| Withdrawals.Expenses | frontend/src/App.js:1651 | the expenses are exactly the movements of any other type |
| Withdrawals.SumAmounts | frontend/src/App.js:1651-1652 | the total of the movements' amounts; stated by `Withdrawals.SumAmountsAppend` and `Withdrawals.TotalsPartition` |
| Withdrawals.SumAmountsAppend | frontend/src/App.js:1651-1652 | the amount total of two lists is the sum of their totals |
| Withdrawals.TotalsPartition | frontend/src/App.js:1651-1655 | collections minus expenses equals the ledger read entry by entry (in for a collection, out otherwise); collections plus expenses is the total of all movements |
| Withdrawals.AppendEntryTotals | frontend/src/App.js:1202-1218 | a new movement raises exactly one of the two totals, by its amount |
| Settings.CheckPasswordChange | frontend/src/App.js:1614-1630 | a change is accepted exactly when the old passcode matches, the new one equals its confirmation and has at least four characters; each refusal is named by the first check that fails |
| Settings.ChangeNeedsCurrentPassword | frontend/src/App.js:1614-1630 | after a change, the old passcode no longer unlocks a further change |
| Settings.CalculateDailySummary | frontend/src/App.js:1639-1665 | the summary reports the device and café earnings of the given state; collections minus withdrawals is the ledger read entry by entry, and collections plus withdrawals cover every movement; the expected drawer is device earnings plus café earnings plus that net movement; the outstanding debts are the customers' debts plus the advances' debts |
| Settings.DeviceEarnings | frontend/src/App.js:1641-1643 | the costs of every device whose `canCalculate` flag is set, over all six devices; stated by `Settings.DeviceEarningsShares`, `Settings.DeviceEarningsUpdate`, `Settings.DeviceEarningsOnlyFinished` and `Settings.DeviceEarningsNonNegative` |
| Settings.DeviceEarningsShares | frontend/src/App.js:1641-1643 | the device earnings are the six devices' shares, each device counted once, a device whose `canCalculate` flag is set by its current cost and any other by nothing; the flag is set by a stop and cleared only by a reset, so a device restarted after a stop is counted while it runs, at its growing cost |
| Settings.DeviceEarningsUpdate | frontend/src/App.js:1641-1643 | changing one device moves the device earnings by its new share minus its old share |
| Settings.StopCountsSession | frontend/src/App.js:121-130 | stopping a session that was not yet billable raises the day's device earnings by exactly its cost |
| Settings.ResetDropsSession | frontend/src/App.js:132-144 | resetting a billable session, as the payment form's confirm button does, lowers the day's device earnings by exactly its cost |
| Settings.CafeEarnings | frontend/src/App.js:1646-1648 | the sum of the customers' recorded payments; stated by `Settings.CafeEarningsAppend`, `Settings.CafeEarningsUpdate` and `Settings.CafeEarningsWithout` |
| Settings.CafeEarningsAppend | frontend/src/App.js:1646-1648 | the café earnings of two customer lists are the sum of their earnings |
| Settings.CafeEarningsUpdate | frontend/src/App.js:1646-1648 | changing one customer record moves the café earnings by its new payment minus its old payment |
| Settings.CafeEarningsWithout | frontend/src/App.js:1646-1648 | deleting the only customer with an id lowers the café earnings by exactly that customer's payment |
| Settings.OpenBillEarnings | frontend/src/App.js:519-521 | a bill that leaves a remainder replaces the customer's recorded payment in the café earnings by the new payment |
| Settings.ClosedBillEarnings | frontend/src/App.js:519-526 | a bill paid in full removes the customer, so the café earnings lose that customer's payment and gain nothing from the new one |
| Settings.DeviceEarningsOnlyFinished | frontend/src/App.js:1641-1643 | while no device has its `canCalculate` flag set, the devices have earned nothing |
| Settings.DeviceEarningsNonNegative | frontend/src/App.js:1641-1643 | with non-negative session costs, device earnings are non-negative |
| Settings.SummaryAfterWithdrawal | frontend/src/App.js:1651-1663 | recording a movement moves the expected drawer by its amount (in for a collection, out otherwise); an advance also raises the outstanding debts by its amount |
| PointOfSale.App.constructor | frontend/src/App.js:15-35 | six idle devices with empty rates, "no" air conditioning and zeroed timers; empty lists; passcode "1234"; amounts shown in Egyptian pounds ("ج.م"); no prompt, no item being edited |
| PointOfSale.App.StartTimer | frontend/src/App.js:76-92 | a device starts exactly when a rate has been entered (even "0"); it then runs from the given time, and nothing else changes |
| PointOfSale.App.Tick | frontend/src/App.js:95-117 | a stopped device is left alone; a running one gets the timer for the time since its start and the cost of that timer at its rate; other devices are untouched |
| PointOfSale.App.StopTimer | frontend/src/App.js:121-130 | the device stops and becomes billable, nothing else changes, and the day's device earnings now count its cost once |
| PointOfSale.App.ResetTimer | frontend/src/App.js:132-144 | the device returns to a zero timer, no start time, no cost, stopped and not billable; the day's device earnings lose whatever it had contributed |
| PointOfSale.WithField | frontend/src/App.js:146-173 | one device record after a field update: only the named field changes, except that a usage other than PS4/PS5 clears the controller, and a new discount or payment recomputes the remainder from the cost; timer, run state, cost and billability are untouched |
| PointOfSale.App.UpdateDeviceField | frontend/src/App.js:146-173 | only the one device changes, as `PointOfSale.WithField` states; every other device is untouched and the invariant holds |
| PointOfSale.App.AddCustomer | frontend/src/App.js:401-421 | a blank name is refused; otherwise a customer with the trimmed name, an empty invoice and zero amounts is appended |
| PointOfSale.App.AddItemToInvoice | frontend/src/App.js:424-470 | an item id missing from the inventory changes nothing; otherwise exactly the customers with the id get the item added, and the invariant holds |
| PointOfSale.App.RemoveItemFromInvoice | frontend/src/App.js:482-497 | exactly the customers with the id lose the item's lines; the invariant holds |
| PointOfSale.App.CalculateCustomerBill | frontend/src/App.js:509-555 | the bill closes exactly when nothing remains; closing drops the customer and all their debts; otherwise the remainder becomes the customer's single café debt |
| PointOfSale.App.ShowPrompt | frontend/src/App.js:941-956 | the delete and edit buttons open the passcode prompt for their action |
| PointOfSale.App.ClosePrompt | frontend/src/App.js:1129 | cancelling closes the prompt |
| PointOfSale.App.HandleCustomerPasswordAction | frontend/src/App.js:566-582 | a wrong passcode changes nothing and keeps the prompt; the right one deletes the pending customer with all their debts and closes the prompt |
| PointOfSale.App.AddInventoryItem | frontend/src/App.js:922-938 | an item is added exactly when the trimmed name is non-empty and a price was entered |
| PointOfSale.App.HandlePasswordAction | frontend/src/App.js:959-973 | a wrong passcode changes nothing; the right one deletes the pending item or opens it for editing, and closes the prompt |
| PointOfSale.App.RenameEditingItem | frontend/src/App.js:1150 | the edit form's name input changes only the edited item's name |
| PointOfSale.App.RepriceEditingItem | frontend/src/App.js:1161 | the edit form's price input stores the parsed price, zero when blank |
| PointOfSale.App.CancelEditing | frontend/src/App.js:1174 | cancelling discards the edit |
| PointOfSale.App.UpdateInventoryItem | frontend/src/App.js:976-987 | a blank name or a zero price is refused; otherwise every item with the edited id is replaced and the form closes |
| PointOfSale.App.AddWithdrawal | frontend/src/App.js:1202-1240 | a movement is recorded exactly when an amount and a type were given; an advance also adds its debt |
| PointOfSale.App.PayWithdrawalDebt | frontend/src/App.js:1242-1253 | the debt list after paying (a blank payment counts as zero) |
| PointOfSale.App.ConfirmWithdrawalDeletion | frontend/src/App.js:1445-1483 | the movement is deleted exactly when the passcode is right; the prompt closes either way |
| PointOfSale.App.Summary | frontend/src/App.js:1667 | the settings screen's summary reports the current devices' and customers' earnings, the ledger's net movement, collections plus withdrawals equal to the total of all movements (so both displayed totals are fixed), an expected drawer that adds the earnings and the net movement, and the outstanding customer and advance debts |
| PointOfSale.App.ChangePassword | frontend/src/App.js:1614-1636 | the passcode changes exactly when all three checks pass; the shared passcode prompt is untouched, since the settings screen's dialog state is its own |

## Left out

- Alerts, the JSX layout and the input fields' own state are left out. Of the modal visibility flags, the model keeps the passcode prompt and each device's `showPaymentModal` field (set through `PointOfSale.App.UpdateDeviceField`); the pages' other local modal flags are left out. The handlers' boolean or enum results stand for the alerts.
- `selectedCustomer` (the customer panel's snapshot) is left out. `PointOfSale.App.CalculateCustomerBill` takes the record the payment form was opened with as a parameter, which may be stale, as in the component. Its invariant ensures therefore holds only when that record is itself consistent.
- `setInterval` and `clearInterval` are left out. `PointOfSale.App.Tick` is one interval callback, with the current time as a parameter.
- `Date.now()` and generated ids are parameters: the tick's current time, a timer's start time and a movement's `createdAt`. Ids are not assumed unique, and the contracts hold for duplicate ids too.
- The `new Date()` timestamps are not part of this model. These are a customer's and an inventory item's `createdAt`, the `date` of a café debt and of an advance's debt, and a movement's `date`. No operation reads them back.
- `Devices.TimerOfSplitsSeconds`: proved only for a non-negative elapsed time. For a clock that goes backwards, the tick yields negative fields, because JavaScript's `%` truncates; `Devices.JsRem` models that.
- Floating point is modelled as exact reals, and `NaN` (for example `parseFloat` of text that is not a number) is not modelled. An `Entry` is the number its text parses to.
- `Values.Trim`: covers only the common white-space characters, not every Unicode space. String lengths count characters rather than UTF-16 code units.
- `PointOfSale.App.AddItemToInvoice`: the component bumps an existing line by mutating the shared line object (`quantity += 1`). The model updates it as a value, so aliasing between the old and new state is not captured.
- `Devices.FormatTime` is stated for non-negative fields. Negative fields would print a minus sign inside the padding; that case is not given a property.
- PDF reports, backup and restore, and the backend (`backend/server.py`) are not part of this model.
- The payment modal's confirm and close buttons on a device card (a sequence of `updateDeviceField` calls batched by React) are left out. Each single `updateDeviceField` is modelled.
- Deleting a withdrawal does not remove the advance debt it created, as in the component. The model keeps that behaviour and states no property about it.
