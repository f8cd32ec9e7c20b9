# Order ledger, menu cache, provisioning and printing: a verified model

The back end of a restaurant point of sale keeps each order as a row, its line rows and its payment rows. Payments,
refunds, adjustments, tab appends and course fires are separate transactions on those rows; an advisory lock per order
and client keys are all that keeps them apart. This project models that ledger and the state machines beside it, and
proves what they promise for every input, every run and every interleaving.

- **Tender and cart.** `Money`, `Tender` and `Cart`: half-up rounding of exact quotients, discounts, proportional tax
  exemption, service charge and redemption; cart validation and pricing, with the service's loops and mutable counts
  proved against definitions stated without them; stock. `CartRules` says what a line costs and what a refusal means.
- **The ledger.** `Orders` says, step by step, what each transaction decides from what it has read and what it then
  writes; a throw leaves everything as it was. `OrderRecords.OrderRecord` is the same as a class: one method per
  service step, updating the order in place, each proved to carry out exactly that decision. `Settlement` and
  `Repricing` say when each step is accepted and what it leaves on the order, without naming the decisions;
  `LedgerSafety` and `LedgerRuns` prove the invariants of all runs; `Sales` rings in new orders and establishes them,
  and `SaleRuns` follows them through later refunds, adjustments and appends; `TabGrowth`, `Retries` and `Courses`
  prove appends, client keys and fires; `Printing` says which steps enqueue which documents.
- **Concurrency.** `Concurrency` interleaves transactions of one order statement by statement: the lock guards its own
  acquisition and nothing else, every SELECT sees what is committed when it executes, transactions commit, throw or
  crash, and adjustments read their discount and label before they have the lock. Every such run is shown to be a
  serial one. `Races` draws the consequences; `StaleReads` says when the early reads matter. `Tickets` does the same
  for ticket numbers under the location lock.
- **State machines beside it.** `MenuCache`, `SharedStamps` and `CacheKeys` (the version-stamped menu cache),
  `Provisioning`, `ProvisioningRepairs` and `ProvisioningRunner` (the resumable workflow, what single-step repairs and
  late sweeps do to it, and its job loop), `OfflineBuffer` (the bounded MQTT buffer), `Csv` (the order export and the
  reader that inverts it).

Amounts are integers in cents, as in the columns. JavaScript numbers are taken as exact, `Math.round(x)` as floor(x +
1/2). Clocks, upstream ids, outcomes of upstream calls and the manager PIN check are parameters.

Where the code falls short of what its comments promise, the code is modelled as it is and a lemma says exactly when
the promise holds:

- A partial refund of a split check is refused by the payments table, although the comment at
  `apps/backend/src/orders/order-payment.service.ts:420-421` expects only the balance to limit it
  (`LedgerRuns.PartialRefundAcceptedIff`).
- An adjustment that would give money back on a check it saw as split is refused whole, for the same reason
  (`LedgerRuns.AdjustmentAcceptedIff`).
- A sale charged at creation is paid but has no payment rows. Payments and refunds of it are refused until an
  adjustment leaves a positive total; that un-pays it, and the next payment takes all of the total although the guest
  was charged before. The bound "paid at most the total" counts payment rows, so it does not see that first charge
  (`SaleRuns.ChargedSaleTakesMoneyIff`, `SaleRuns.ReopenedOrderIsChargedAgain`).
- An unpaid order that holds payments and is re-priced to no more than they cover stays unpaid with nothing left to
  pay (`LedgerRuns.PaidIsCoveredUnlessStranded`, `LedgerRuns.StrandedOrderIsStuck`).
- An order with nothing to pay takes no payment without a tip and is never marked paid
  (`LedgerRuns.TipFreePaymentAcceptedIff`, `SaleRuns.FreeSaleNeverPaid`).
- Appends, updates and adjustments drop service charge and redemption from the total but leave both columns
  (`LedgerRuns.RepricedRowAddsUpIff`), and drop the tax exemption (`Tender.ExemptionIsLostIff`,
  `SaleRuns.AppendDropsExemption`, and both at once in `SaleRuns.SmallSaleThenAppend`).
- An adjustment redoes its math against the locked row except for two things it read before the lock: the discount,
  and the payment label its refund row takes its method from (`StaleReads.StaleReadsHarmlessIff`,
  `StaleReads.StaleDiscountKept`).
- The comment at `apps/backend/src/menus/menus.service.ts:296-298` says old entries fall out of reach at once. Two
  invalidations in one millisecond share a stamp and do not do that (`SharedStamps.SharedStampServesStaleIff`); the
  main theorem assumes stamps differ and a read is shorter than the gap between the two lifetimes.
- Retrying or skipping a single step writes its row whatever it holds and whatever job is live. A retry can undo
  completed work, break the completed prefix and let a location go active unfinished; a skip can leave a hole and can
  be undone (`ProvisioningRepairs.RetryOneUndoesActive`, `ProvisioningRepairs.RetryOneKeepsOrderIff`,
  `ProvisioningRepairs.SkipKeepsOrderIff`, `ProvisioningRepairs.SkipLastsIff`).
- The nightly sweep writes the steps it selected by id alone; one that has completed meanwhile is failed
  (`ProvisioningRepairs.WorkIsKeptIffSweepsAreTimely`, `ProvisioningRepairs.LateMarkUndoesActive`).
- `publish` answers false for messages it has kept and will resend, and true for messages it may lose when it resends
  them (`OfflineBuffer.FalseAnswerLosesIff`, `OfflineBuffer.AnsweredMessageLostIff`).
- A menu request for a location named `all` shares its cache key with one for no location
  (`CacheKeys.MenuKeyInjective`).

`dafny verify dfyconfig.toml` checks the whole project.

## Model

| member | source | states |
|---|---|---|
| `Cart.PriceCartItems` | apps/backend/src/orders/order-pricing.service.ts:151-239 | The pricing loop returns `PriceCart`: the priced lines and subtotal, or the refusal of the first line that is not allowed; `Cart.PriceCartAccepts`, `CartRules.AcceptedLineCosts` and `CartRules.OptionRaisesPrice` say what that function means |
| `Cart.CheckLine` | apps/backend/src/orders/order-pricing.service.ts:160-209 | The mutable selection counts refuse a line exactly as the true number of occurrences of each group would, with the first error in the order the checks run |
| `Cart.LineErrorSound` | apps/backend/src/orders/order-pricing.service.ts:153-209 | A line passes the checks exactly when its item is sold, each chosen option belongs to a group attached to that item, and every attached group meets its required, single and maximum rule |
| `Cart.PriceCartAccepts` | apps/backend/src/orders/order-pricing.service.ts:151-239 | A cart is priced exactly when every line is allowed; then line i is priced from cart line i, in order, and the subtotal is the sum of price times quantity |
| `Cart.AdjustmentsCountOccurrences` | apps/backend/src/orders/order-pricing.service.ts:215-219 | Summed over a list of options, one occurrence more anywhere adds its adjustment exactly once more; what that does to the price of a line is `CartRules.OptionRaisesPrice` |
| `CartRules.AcceptedLineCosts` | apps/backend/src/orders/order-pricing.service.ts:215-235 | Each line of an accepted cart keeps its item, quantity, options and course and is taxed as the menu says; with an override it costs the override whatever its options, and without override and options the menu price |
| `CartRules.OptionRaisesPrice` | apps/backend/src/orders/order-pricing.service.ts:215-220 | Choosing an option once more, at any position of any line, raises the price of that line by exactly the adjustment of the option (by nothing under an override), leaves every other line, and moves the subtotal by that times the quantity |
| `CartRules.AcceptedLineMeetsRules` | apps/backend/src/orders/order-pricing.service.ts:188-208 | In an accepted cart the number of positions at which options of an attached group are chosen meets the required, single and maximum rule of the group |
| `CartRules.RefusalNamesFirstBadLine` | apps/backend/src/orders/order-pricing.service.ts:152-209 | A refused cart is refused for its first line that is not allowed, and the error states what is wrong with that line: the item or option missing, the option not attached, or the rule its count of selections breaks |
| `CartRules.TaxableIsTaxedLines` | apps/backend/src/orders/order-pricing.service.ts:245-250 | The taxable part is what the lines that are not exempt cost by themselves |
| `CartRules.OneLineSold` | apps/backend/src/orders/order-pricing.service.ts:261-273 | Selling a line takes its quantity off its own counted item, down to zero at most, and touches no other |
| `Cart.TaxableWithinSubtotal` | apps/backend/src/orders/order-pricing.service.ts:245-250 | The taxable part lies between zero and the subtotal, and is all of it when no line is exempt |
| `Cart.DecrementStock` | apps/backend/src/orders/order-pricing.service.ts:257-274 | Flooring at zero after every line leaves the stock that flooring once after all lines would |
| `Cart.StockAfterTwoSales` | apps/backend/src/orders/order-pricing.service.ts:257-274 | Two sales take from stock what one sale of all their lines takes: flooring in between loses nothing |
| `Tender.DiscountWithinSubtotal` | apps/backend/src/orders/order-pricing.service.ts:323-333 | For every discount kind and value, the discount is between zero and the subtotal exactly when the subtotal is not negative |
| `Tender.PercentDiscountGrows` | apps/backend/src/orders/order-pricing.service.ts:328-332 | A percent discount never takes less off a larger bill |
| `Tender.DiscountTakes` | apps/backend/src/orders/order-pricing.service.ts:327-332 | A fixed discount takes its value and a percent one its share to the half cent, each held between nothing and the whole subtotal; no discount takes nothing |
| `Tender.DiscountedTaxableBounds` | apps/backend/src/orders/orders.service.ts:1031-1035 | Spreading a discount proportionally leaves a taxable part between zero and the discounted subtotal, equal to it when nothing is exempt |
| `Tender.ExactTaxIsUnrounded` | apps/backend/src/orders/orders.service.ts:1031-1044 | The unrounded tax of the code is the rate on the kept share of the taxable lines plus the service charge |
| `Tender.SaleTenderBounds` | apps/backend/src/orders/orders.service.ts:1028-1051 | Service charge within half a cent of its rate on the discounted bill; tax within half a cent of that exact tax and never above the tax with nothing exempt; nothing negative; the total is its parts; points are used up unless the total reaches zero |
| `Tender.TotalFallsWithDiscount` | apps/backend/src/orders/orders.service.ts:1024-1051 | A larger discount never raises the service charge, the tax or the total |
| `Tender.AllTaxableSaleIsTab` | apps/backend/src/orders/orders.service.ts:1028-1051 | With nothing exempt, no service charge and no points, a sale owes what the append and update formula bills |
| `Tender.TabIgnoresExemption` | apps/backend/src/orders/orders.service.ts:1457-1459 | A result about the code: re-pricing a mixed cart by the append formula raises the tax by what the exempt lines should be spared, to within a cent, and never lowers it |
| `Tender.ExemptionIsLostIff` | apps/backend/src/orders/orders.service.ts:1029-1044 | The exact taxes of the two formulas agree exactly when nothing is exempt, everything is discounted, or the rate is zero |
| `Tender.ExemptionLostOnMixedCart` | apps/backend/src/orders/orders.service.ts:1457-1459 | The concrete cart: 20.00 of which 10.00 is exempt, at ten percent, owes 1.00 of tax as a sale and 2.00 as a tab |
| `Sales.SaleIsSound` | apps/backend/src/orders/orders.service.ts:1069-1126 | A new sale adds up, has nothing negative and carries no payment rows, even when it is marked paid because a method was given |
| `Sales.SaleOwes` | apps/backend/src/orders/orders.service.ts:1018-1101 | The new row: service charge, if it applies, and tax exact to the half cent at the two rates of its own location, tip as asked, no more points than asked for and all of them unless the total is zero |
| `Sales.SaleAcceptedIff` | apps/backend/src/orders/orders.service.ts:956-1023 | A sale creates an order exactly with something in its cart, a key not used before, a known location, a customer who can redeem what is asked, and a cart and a discount that are good; under a used key it is answered with the order of that key |
| `Sales.SaleRecordsRequest` | apps/backend/src/orders/orders.service.ts:1077-1126 | The new row names the discount found and what it takes off, the method and moment of its payment; its lines are the cart in order at the accepted prices, and on a coursed order exactly course 1 is fired |
| `Sales.SaleIsStored` | apps/backend/src/orders/orders.service.ts:1077-1128 | A sale adds one order, under its key, behind the others and takes its lines from stock |
| `Sales.SaleTicketIsNext` | apps/backend/src/orders/order-pricing.service.ts:402-410 | Its ticket number is 1 or one above a number already used at its location |
| `Sales.SaleTicketIsNew` | apps/backend/src/orders/order-pricing.service.ts:402-410 | Its ticket number is above every number used at the location |
| `Sales.LoyaltyIsConserved` | apps/backend/src/orders/orders.service.ts:1065-1141 | The customer balance moves by exactly earned less redeemed, earned being a point for each whole dollar of a sale paid at creation and none otherwise; the floor at zero never bites, and nobody else is touched |
| `Sales.ChargedSaleCannotBeRefunded` | apps/backend/src/orders/orders.service.ts:1100-1101 | A result about the code: a sale charged at creation is paid, yet refused a full refund (no refundable balance), a partial one (exceeds the balance) and a payment (already paid) |
| `SaleRuns.ChargedSaleRefusesMoney` | apps/backend/src/orders/order-payment.service.ts:284-301 | Over any run in which no adjustment leaves a positive total, such a sale gets no payment rows and every payment and refund of it is refused |
| `SaleRuns.ChargedSaleTakesMoneyIff` | apps/backend/src/orders/order-payment.service.ts:543-558 | Over any run without status edits, some payment or refund becomes acceptable exactly when an adjustment leaves a positive total |
| `SaleRuns.ReopenedOrderIsChargedAgain` | apps/backend/src/orders/order-payment.service.ts:543-558 | A result about the code: any accepted adjustment that leaves a positive total un-pays the sale, and the next payment takes the whole total a second time |
| `SaleRuns.SaleIsRefundableIff` | apps/backend/src/orders/order-payment.service.ts:284-309 | After any run whatever, refunds and adjustments included, a sale can be refunded in full exactly when its payments sum to more than zero and it is not cancelled, and the refund gives all of it back |
| `SaleRuns.UnpaidSaleIsRefundableIff` | apps/backend/src/orders/order-payment.service.ts:284-309 | A sale created unpaid is, over any run of payments and edits, fully refundable exactly when money is on it and it is not cancelled; paid means exactly its total is on it |
| `SaleRuns.SmallSaleReopened` | apps/backend/src/orders/order-payment.service.ts:543-558 | The concrete sale: 22.10 charged to a card, adjusted to one meal, and 11.00 taken again |
| `SaleRuns.AppendDropsExemption` | apps/backend/src/orders/orders.service.ts:1432-1459 | A sale followed by an append owes, to within a cent, the tax its exempt lines should be spared on top of what ringing everything in at once would owe; none of it exactly when nothing is exempt, all is discounted or the rate is zero |
| `SaleRuns.SmallSaleThenAppend` | apps/backend/src/orders/orders.service.ts:1457-1479 | The concrete sale of a meal and a gift with a service charge: after one more meal its tax charges the gift too, and its total no longer holds the charge its column still shows |
| `Sales.FindByKeyFinds` | apps/backend/src/orders/orders.service.ts:1772-1784 | The lookup by client key finds an order exactly when one was created under that key, and finds one that was |
| `OrderRecords.ReversePayments` | apps/backend/src/orders/order-payment.service.ts:296-333 | The refund loop pushes the rows `RefundRows` defines, whose meaning `LedgerSafety.RefundRowsExhaust` proves |
| `OrderRecords.OrderRecord.RecordPayment` | apps/backend/src/orders/order-payment.service.ts:124-208 | The statements of the method, in place on the order, carry out the decided payment in full or throw with nothing changed; what is decided is `Settlement.PaymentAcceptedIff` and `Settlement.PaymentTakesWhatWasAsked` |
| `OrderRecords.OrderRecord.WritePayment` | apps/backend/src/orders/order-payment.service.ts:163-198 | The payment is appended; tip, total and label are set; the order is marked paid and a pending one confirmed only when covered |
| `OrderRecords.OrderRecord.RefundPaidOrder` | apps/backend/src/orders/order-payment.service.ts:280-350 | The full refund with its loop, in place on the order, is carried out as decided or throws with nothing changed; what is decided is `Settlement.FullRefundReverses` |
| `OrderRecords.OrderRecord.RefundPartialOrder` | apps/backend/src/orders/order-payment.service.ts:408-448 | A partial refund, in place, is carried out as decided or throws with nothing changed, a row the method constraint refuses included |
| `OrderRecords.OrderRecord.AdjustOrderItems` | apps/backend/src/orders/order-payment.service.ts:494-617 | An adjustment that read its discount and label before the lock, in place, is carried out as decided or throws with nothing changed; what is decided is `LedgerRuns.AdjustmentAcceptedIff` and `Repricing.AdjustmentReplacesLines` |
| `OrderRecords.OrderRecord.PriceEdit` | apps/backend/src/orders/orders.service.ts:1432-1459 | The re-pricing shared by append and update: price, resolve the discount, bill the sum; `Repricing.AppendBillsAll` and `Repricing.UpdateReplacesLines` say what that comes to |
| `OrderRecords.OrderRecord.AppendOrderItems` | apps/backend/src/orders/orders.service.ts:1375-1488 | An append, in place, is carried out as decided or throws with nothing changed: claim the key or replay, refuse paid, advanced or partly paid tabs, add the lines, re-price the sum, and take the added lines from stock |
| `OrderRecords.OrderRecord.UpdateOrderItems` | apps/backend/src/orders/orders.service.ts:1226-1318 | Replacing the lines, taken as one atomic step, is carried out as decided or throws with nothing changed; what is decided is `Repricing.UpdateAcceptedIff` and `Repricing.UpdateReplacesLines` |
| `OrderRecords.OrderRecord.FireCourse` | apps/backend/src/orders/orders.service.ts:1529-1586 | Firing a course, in place, is carried out as decided or throws with nothing changed: the loop stamps exactly the waiting lines of that course and reports whether there were any |
| `OrderRecords.OrderRecord.ServeAll` | apps/backend/src/orders/order-payment.service.ts:122-617 | Serving any sequence of requests through the methods leaves the record as the run of steps does, so a sound order stays sound; every theorem about runs is one about the methods |
| `LedgerSafety.RefundRowsExhaust` | apps/backend/src/orders/order-payment.service.ts:296-333 | For payments in any order, the rows give back exactly the balance; each is non-zero and mirrors one payment for at most its own amount |
| `LedgerSafety.FullRefundNetsToZero` | apps/backend/src/orders/order-payment.service.ts:280-350 | After a full refund the payments sum to exactly zero and the order is cancelled, whatever was refunded before |
| `LedgerSafety.MirrorBalances` | apps/backend/src/orders/order-payment.service.ts:318-331 | A mirror row keeps received minus change equal to its amount; its change figure is present exactly when the payment was whole and gave change |
| `LedgerSafety.PayKeepsSound` | apps/backend/src/orders/order-payment.service.ts:127-198 | A payment keeps 0 <= paid <= total, the bill adding up, and every cash row balanced |
| `LedgerSafety.RefundPartKeepsSound` | apps/backend/src/orders/order-payment.service.ts:413-438 | A partial refund keeps 0 <= paid <= total, the bill adding up, and every cash row balanced |
| `LedgerSafety.AdjustKeepsSound` | apps/backend/src/orders/order-payment.service.ts:538-594 | An adjustment, even of a cancelled order and with a stale discount, keeps 0 <= paid <= total and cash rows balanced, and leaves total = subtotal - discount + tax + tip |
| `LedgerSafety.AppendResult` | apps/backend/src/orders/orders.service.ts:1432-1486 | An append keeps the lines and their prices, adds the new ones behind them and bills the sum under the order's own discount; no other column moves |
| `LedgerSafety.UpdateKeepsSound` | apps/backend/src/orders/orders.service.ts:1249-1308 | Replacing the lines keeps 0 <= paid <= total and cash rows balanced, and leaves total = subtotal - discount + tax + tip |
| `LedgerSafety.StepKeepsSound` | apps/backend/src/orders/order-payment.service.ts:124-617 | Every ledger step keeps the order sound |
| `LedgerSafety.RunKeepsSound` | apps/backend/src/orders/order-payment.service.ts:57-64 | In every state any run of steps reaches, 0 <= sum of payments <= total and the subtotal is the sum of the lines |
| `LedgerRuns.RefundsNeverExceedPayments` | apps/backend/src/orders/order-payment.service.ts:420-427 | Over any run, cumulative refunds never exceed cumulative payments, and what is kept never exceeds the total |
| `LedgerRuns.BillIdentity` | apps/backend/src/orders/orders.service.ts:1453-1459 | Over any run the subtotal is the sum of the lines and the total is subtotal - discount + tax + tip, with charge and redemption part of it until the first re-pricing and never after |
| `LedgerRuns.RepricedRowAddsUpIff` | apps/backend/src/orders/orders.service.ts:1457-1459 | A result about the code: once re-priced, a row agrees with its own charge and redemption columns exactly when the two are equal |
| `LedgerRuns.PaymentMovesBalance` | apps/backend/src/orders/order-payment.service.ts:134-206 | An accepted payment applies at least a cent, moves total and tips by its tip, never overshoots, strictly lowers the balance when tip-free, and marks the order paid exactly when nothing remains |
| `Settlement.PaymentAcceptedIff` | apps/backend/src/orders/order-payment.service.ts:127-160 | A payment is accepted exactly on an order that is unpaid, not cancelled and owes something with the tip on it, for a positive amount, with enough cash if cash is counted; each refusal says which of these failed first |
| `Settlement.PaymentTakesWhatWasAsked` | apps/backend/src/orders/order-payment.service.ts:134-206 | An accepted payment adds one row of exactly the amount named if that much is owed, else of the whole balance, in the method named, with its tip, cash and change; the order is stamped paid, and a pending one confirmed, exactly when that covers it, and nothing else of it moves |
| `Settlement.FullRefundReverses` | apps/backend/src/orders/order-payment.service.ts:280-335 | A full refund is accepted exactly with the PIN, on an order not cancelled, marked or labelled as paid, and holding money; it reverses the payments oldest first, each by what the earlier ones leave, in its own method and with its tip and cash if it is whole, and cancels the order |
| `Settlement.RefundRowsFrom` | apps/backend/src/orders/order-payment.service.ts:296-333 | What the refund loop has left at each payment is what the payments before it do not cover |
| `Settlement.PartialRefundGivesBack` | apps/backend/src/orders/order-payment.service.ts:408-438 | A partial refund is accepted exactly with the PIN, on a paid order not cancelled, within its balance and not split; it adds one negative row in the method of the order and changes nothing else |
| `Settlement.StatusEditSetsStatus` | apps/backend/src/orders/orders.service.ts:1641-1647 | A status edit the transition table lets through sets the status and touches no other column, no line and no payment |
| `Repricing.RepricedAtOwnRate` | apps/backend/src/orders/order-pricing.service.ts:494-502 | After any accepted append, update or adjustment the tax is within half a cent of the tax rate the table has for the location of the order, on the discounted bill, and zero where the table has none |
| `Repricing.TaxIsOfLastRepricing` | apps/backend/src/orders/orders.service.ts:1256-1270 | After any run with a re-pricing, the tax is the one at the rates in force at the last re-pricing, whatever was paid, fired or refunded since |
| `Repricing.DiscountFoundIff` | apps/backend/src/orders/order-pricing.service.ts:281-320 | A named discount is found exactly when its row is there and, if it wants a manager, the caller is one; each refusal says which failed |
| `Repricing.AppendAcceptedIff` | apps/backend/src/orders/orders.service.ts:1375-1430 | An append takes effect exactly with something in its cart, under an unclaimed key, on an unpaid order not past confirmation and without money, if the cart can be sold and the discount of the order is still there for this caller; under a claimed key it is a replay |
| `Repricing.AppendAddsCart` | apps/backend/src/orders/orders.service.ts:1432-1486 | It keeps the lines and adds the cart behind them, line by line with item, quantity, price and course, unfired; payments and all columns but the bill stay |
| `Repricing.AppendBillsAll` | apps/backend/src/orders/orders.service.ts:1453-1459 | It bills the sum of all lines: what the discount of the order takes off, the tax at its own rate, the total of the parts |
| `Repricing.UpdateAcceptedIff` | apps/backend/src/orders/orders.service.ts:1226-1254 | An update is accepted exactly with something in its cart, on an open order, if the cart can be sold and the discount it names may be used |
| `Repricing.UpdateReplacesLines` | apps/backend/src/orders/orders.service.ts:1249-1308 | It puts the cart in place of the lines and bills it under the discount it names, which the row then names too |
| `Repricing.EditRefusals` | apps/backend/src/orders/orders.service.ts:1397-1430 | An append or update that is no replay is refused as empty, already paid, past confirmation or carrying payments, in that order |
| `Repricing.AdjustmentReplacesLines` | apps/backend/src/orders/order-payment.service.ts:515-617 | An adjustment puts the cart in place of the lines without courses, keeps the discount it saw within the new subtotal, taxes at the own rate of the location, un-pays when more is owed, and otherwise gives back the difference in one row by the method it saw |
| `LedgerRuns.LabelMeans` | apps/backend/src/orders/order-payment.service.ts:175-182 | The label is `split` exactly when two payments differ in method, and otherwise names the one method |
| `LedgerRuns.PaidExactlyWhenCovered` | apps/backend/src/orders/order-payment.service.ts:96-102 | In runs without refunds and adjustments, however a check is split and whatever was appended before the first payment, it is paid exactly when it holds payments and they equal the total, which carries exactly the tips paid |
| `LedgerRuns.PaidIsCoveredUnlessStranded` | apps/backend/src/orders/order-payment.service.ts:538-560 | In runs with adjustments too (no refunds), an order is paid exactly when it holds payments that equal its total, at every point, if and only if no re-pricing brings an unpaid order that holds payments down to what it holds |
| `LedgerRuns.StrandedOrderIsStuck` | apps/backend/src/orders/order-payment.service.ts:137-140 | A result about the code: such an order refuses every tip-free payment and every partial refund |
| `LedgerRuns.HalfPaidThenHalved` | apps/backend/src/orders/order-payment.service.ts:543-558 | The concrete check: half of a dollar paid, then adjusted to half a dollar |
| `LedgerRuns.AdjustmentAcceptedIff` | apps/backend/src/orders/order-payment.service.ts:583-594 | A result about the code: an adjustment of a valid cart goes through exactly when the check was not seen as split or nothing is to be given back |
| `LedgerRuns.SplitCheckRefusesAdjustment` | apps/backend/src/orders/order-payment.service.ts:583-594 | The concrete check, half cash and half card, that cannot be adjusted down to half |
| `LedgerRuns.TipFreePaymentAcceptedIff` | apps/backend/src/orders/order-payment.service.ts:137-140 | A result about the code: an unpaid order can take a payment without a tip exactly when its payments are below its total, so one with nothing to pay is never marked paid |
| `SaleRuns.FreeSaleNeverPaid` | apps/backend/src/orders/orders.service.ts:1100-1101 | The concrete sale of a free item: it owes nothing, is not paid, and over any run short of a tip or a re-pricing never is |
| `LedgerRuns.NonPaymentKeepsSettlement` | apps/backend/src/orders/orders.service.ts:1418-1429 | Every other non-refunding step leaves a settled check settled, because re-pricing is refused once money is on it |
| `LedgerRuns.CancelledRunKeepsPayments` | apps/backend/src/orders/order-payment.service.ts:127-132 | No run without status edits adds a payment row to a cancelled order whose payments sum to zero, though adjusting has no cancelled guard |
| `LedgerRuns.RefundedStaysAtZero` | apps/backend/src/orders/order-payment.service.ts:284-309 | After a full refund, and while the order stays cancelled, no later run writes another payment row: the sum stays zero |
| `LedgerRuns.AdjustmentSettlesBalance` | apps/backend/src/orders/order-payment.service.ts:538-594 | An adjustment leaves the order holding the smaller of paid and new total, keeps tip, status and (as far as the subtotal allows) discount, and un-pays exactly when more is owed |
| `LedgerRuns.PartialRefundAcceptedIff` | apps/backend/src/database/schema.ts:835-838 | A result about the code: a partial refund within the balance of a paid order goes through exactly when the check was not split |
| `LedgerRuns.SplitCheckRefusesPartialRefund` | apps/backend/src/orders/order-payment.service.ts:430-438 | The concrete check, half cash and half card, whose one-cent refund is refused while its full refund is accepted |
| `Concurrency.BehaviorKeepsInv` | apps/backend/src/orders/order-payment.service.ts:65-94 | In every interleaving of statements, a lock holder's reads equal the committed state and at most one transaction is past the lock |
| `Concurrency.InterleavingsAreSerial` | apps/backend/src/orders/order-payment.service.ts:57-72 | Every interleaving of payments, refunds, adjustments, appends and fires, crashes included, leaves the state of the committed ones run one at a time in lock order; every caller answered is in that order and was answered as that run answers |
| `Races.InterleavingsKeepSound` | apps/backend/src/orders/order-payment.service.ts:122-208 | Under every interleaving 0 <= sum of payments <= total |
| `Races.InterleavingsKeepRefundedAtZero` | apps/backend/src/orders/order-payment.service.ts:277-350 | From any moment of any interleaving at which an order is cancelled with no money on it, no request writes another payment row, in-flight ones and adjustments that read earlier included |
| `Races.KeysTakeEffectOnce` | apps/backend/src/orders/orders.service.ts:1380-1395 | However retries race, of two transactions committed under one client key at least one was answered as a replay |
| `Races.UnlockedPaymentsOvercharge` | apps/backend/src/orders/order-payment.service.ts:58-62 | Two payments decided from the same reads and both written always over-charge: what the lock is for |
| `StaleReads.StaleReadsHarmlessIff` | apps/backend/src/orders/order-payment.service.ts:515-594 | A result about the code: an adjustment that read discount and label before the lock acts as one reading them under it exactly when both are refused, or both keep the same discount and, if money is given back, by the same method |
| `StaleReads.StaleDiscountHarmlessIff` | apps/backend/src/orders/order-payment.service.ts:515-522 | The same for the discount alone: both refused, or the discounts agree once held between zero and the new subtotal |
| `StaleReads.StaleLabelHarmlessIff` | apps/backend/src/orders/order-payment.service.ts:583-594 | The same for the label alone: refused for the cart, nothing to give back, or the same refund method |
| `StaleReads.StaleDiscountKept` | apps/backend/src/orders/order-payment.service.ts:515-549 | A whole interleaving in which an append moves the discount from 10 to 20 while an adjustment waits for the lock, and the adjustment leaves 10 where reading under the lock leaves 20 |
| `StaleReads.StaleLabelActedOn` | apps/backend/src/orders/order-payment.service.ts:583-594 | A whole interleaving in which a card payment turns the label to split while an adjustment waits, and the adjustment gives money back in cash where reading under the lock refuses it |
| `StaleReads.AdjustmentsReadAtArrival` | apps/backend/src/orders/order-payment.service.ts:515-522 | In every interleaving an adjustment past its arrival works with the discount and the label the order had when it arrived |
| `TabGrowth.GrownTabIsPricedAtOnce` | apps/backend/src/orders/orders.service.ts:1432-1486 | After any sequence of appends, menus changing in between, no line is lost and the row is the one pricing all lines at once gives: rounding never accumulates |
| `TabGrowth.OrderOfAppendsDoesNotMatter` | apps/backend/src/orders/orders.service.ts:1432-1486 | Two ways of splitting and ordering the same lines over appends end with the same row and the same lines |
| `TabGrowth.GrownTabMatchesUpdate` | apps/backend/src/orders/orders.service.ts:1253-1272 | Replacing the lines by a cart of the same prices and quantities, fired lines included, under the order's own discount gives exactly the row the appends grew |
| `Retries.RetriesAreExactlyOnce` | apps/backend/src/orders/orders.service.ts:961-966 | Any run of sales, appends, fires and other steps with retries leaves the orders, lines, totals, claims, stock and loyalty of the run keeping each key's first success, and no key is kept twice |
| `Retries.NoEffectNoChange` | apps/backend/src/orders/orders.service.ts:1164-1178 | A refused or replayed request changes nothing at all, its key included |
| `Retries.RetryAfterSuccessIsNoOp` | apps/backend/src/orders/orders.service.ts:1380-1395 | Once a keyed request has succeeded, any request under its key, at any later time, changes nothing |
| `Retries.FailedAttemptReleasesKey` | apps/backend/src/orders/orders.service.ts:1534-1546 | After a failed attempt a retry is decided, and acts, as if the first had never been made |
| `Retries.ServeTouchesOneOrder` | apps/backend/src/orders/orders.service.ts:1461-1486 | A request on one order steps that order, leaves every other order and the loyalty balances alone, and takes from stock only what an append that takes effect rings in |
| `Courses.StampsNeverChange` | apps/backend/src/orders/orders.service.ts:1573-1583 | Over any run that does not replace the lines, no line is lost or altered and a fired stamp never changes |
| `Courses.TicketsNeverExceedLines` | apps/backend/src/orders/orders.service.ts:1573-1591 | Over any run, tickets issued for a course plus its waiting lines never exceed the lines ever rung in for it |
| `Courses.SecondFireIsSilent` | apps/backend/src/orders/orders.service.ts:1585-1591 | Firing a course again straight after issues no ticket, with or without a key |
| `Courses.FireStampsItsCourse` | apps/backend/src/orders/orders.service.ts:1535-1586 | A fire goes through exactly as a replay or on an unpaid order not past confirmation; it stamps exactly the unfired lines of its course with the moment of the call, says whether there were any, and changes nothing else |
| `Printing.PrintForEvents` | apps/backend/src/orders/order-print.service.ts:151-186 | The nested loops enqueue kitchen then receipt, each document once per configured copy however many of its events fire together |
| `Printing.CopiesClamped` | apps/backend/src/orders/order-print.service.ts:55-56 | Whatever is stored as a copy count, between one and five copies print: the nearest whole number in those bounds, and one for what is no number |
| `Printing.EventsPrintEachOnce` | apps/backend/src/orders/order-print.service.ts:71-102 | By the matrix row or the legacy switches of its document, a set of events prints its copies once or not at all, and of a coursed order no kitchen ticket |
| `Printing.EmptyCoursePrintsNothing` | apps/backend/src/orders/order-print.service.ts:202-214 | Firing a course prints exactly when the order has a line in it |
| `Printing.FiredTicketPrints` | apps/backend/src/orders/order-print.service.ts:202-214 | A ticket the fire step issues always has lines of its course, so exactly the configured copies print |
| `Printing.HoldOnlyDelaysKitchen` | apps/backend/src/orders/order-print.service.ts:88-101 | Under the legacy switches a held kitchen ticket prints as often over saving and paying as one that is not held |
| `Printing.CoursedKitchenOnlyByFire` | apps/backend/src/orders/order-print.service.ts:161-167 | No event ever enqueues the kitchen ticket of a coursed order |
| `Tickets.TicketsAreConsecutive` | apps/backend/src/orders/order-pricing.service.ts:386-411 | In every interleaving of creations, the numbers committed at each location are, in commit order, the next ones with no gap, and no client key commits twice |
| `Tickets.TicketsFromOne` | apps/backend/src/orders/order-pricing.service.ts:397-410 | From an empty table the committed numbers at a location are exactly 1..n |
| `Tickets.CommitKeepsInv` | apps/backend/src/orders/orders.service.ts:1072-1106 | A commit under the location lock extends the sequence by one, and unique-key losers cannot commit |
| `Tickets.UnlockedReadsCollide` | apps/backend/src/orders/order-pricing.service.ts:390-395 | A run from the empty table without the lock in which two creations read the same maximum and both commit as number 1 |
| `MenuCache.BehaviorKeepsInv` | apps/backend/src/menus/menus.service.ts:284-306 | In every interleaving of readers, edits, invalidations, both lifetimes and early eviction of menus, a menu under a stamp shows everything settled when the stamp was set, and one under no stamp everything that falls due while it lives |
| `MenuCache.ReadsShowSettledEdits` | apps/backend/src/menus/menus.service.ts:106-116 | For every read, from its beginning to its return, at any positions of any run: the menu returned shows each edit whose invalidation had finished when the read began |
| `MenuCache.LookOwesSettled` | apps/backend/src/menus/menus.service.ts:109-116 | What a read must show is fixed by the state it begins in and carried unchanged through every interleaving until it returns |
| `MenuCache.MissedReadsAreFresh` | apps/backend/src/menus/menus.service.ts:113-118 | From a miss on, through every interleaving, a read shows every edit committed before the miss, its invalidation finished or not |
| `MenuCache.StampLastsAWeek` | apps/backend/src/menus/menus.service.ts:287-306 | Until another invalidation, a read that begins within seven days of one looks under the stamp it set, and a later one under none |
| `MenuCache.MenuLastsAnHour` | apps/backend/src/menus/menus.service.ts:281-282 | A stored menu is served as stored, while not replaced or evicted, for an hour, and is a miss from then on |
| `SharedStamps.SharedStampServesStaleIff` | apps/backend/src/menus/menus.service.ts:302-306 | A result about the code: after any reachable state's stamp is set, new or used before, a read that begins afterwards can be served a menu older than what was settled exactly when a live menu under that stamp is older, or a reader already past its queries under it can still store one |
| `SharedStamps.SharedStampServesStaleMenu` | apps/backend/src/menus/menus.service.ts:302-306 | A whole run: two invalidations in one millisecond share a stamp, and a read beginning after both is served the menu of the first |
| `CacheKeys.MenuKeyInjective` | apps/backend/src/menus/menus.service.ts:110-111 | Two requests share a cache key exactly when organization, version, scope, location text (any text, `all` standing for none), offset and limit agree; organization ids hold no colon |
| `CacheKeys.KeysRead` | apps/backend/src/menus/menus.service.ts:110-111 | The menu key and the version key as they read, a missing or empty location as `all` |
| `CacheKeys.MenuKeyIsNoVersionKey` | apps/backend/src/menus/menus.service.ts:291 | No menu key is ever a version key |
| `Csv.ExportReadsBack` | apps/backend/src/orders/orders.controller.ts:135-167 | A reader of quoted fields (section 2 of RFC 4180, LF as line break) recovers exactly the guarded table, for all cell contents |
| `Csv.GuardConfusesOnlyFormulas` | apps/backend/src/orders/orders.controller.ts:132-143 | A cell is quoted exactly when it begins with one of the six formula characters, no exported cell begins with one, and two cells export alike exactly when they are equal or one is the other with the quote that guards it |
| `OfflineBuffer.MqttService.Publish` | apps/backend/src/printers/mqtt.service.ts:209-256 | The method, in place on its queue, makes exactly the modelled publish step; in what order the messages come out is `OfflineBuffer.ReconnectSendsInOrder` and `OfflineBuffer.PublishedOnlineSentInOrder` |
| `OfflineBuffer.MqttService.FlushOfflineQueue` | apps/backend/src/printers/mqtt.service.ts:185-207 | The loop hands over the whole buffer in buffering order |
| `OfflineBuffer.MqttService.OnConnect` | apps/backend/src/printers/mqtt.service.ts:70-88 | Connecting flushes |
| `OfflineBuffer.MqttService.OnSent` | apps/backend/src/printers/mqtt.service.ts:192-205 | A failed send is buffered again if there is room and lost if not; a successful one is delivered |
| `OfflineBuffer.RunsStayValid` | apps/backend/src/printers/mqtt.service.ts:185-256 | In every run the buffer holds at most 200 messages and every submitted message is in exactly one of buffered, in flight, delivered and dropped |
| `OfflineBuffer.FlushKeepsOrder` | apps/backend/src/printers/mqtt.service.ts:190-192 | A flush sends in buffering order and leaves nothing behind; that the buffer is in arrival order is `OfflineBuffer.OfflineRunBuffersInOrder` |
| `OfflineBuffer.OfflineRunBuffersInOrder` | apps/backend/src/printers/mqtt.service.ts:222-249 | Over any run while offline, publishes and failed sends mixed, the buffer is what was in it followed by the new and the failed messages in the order they came, the first 200 of all that; the rest is dropped and nothing is sent |
| `OfflineBuffer.ReconnectSendsInOrder` | apps/backend/src/printers/mqtt.service.ts:185-207 | Connecting after any such run sends exactly those, in that order, behind all that was sent before |
| `OfflineBuffer.PublishedOfflineSentInOrder` | apps/backend/src/printers/mqtt.service.ts:222-235 | New messages published while offline with room for them are sent on connecting behind what was waiting, in the order of the calls |
| `OfflineBuffer.PublishedOnlineSentInOrder` | apps/backend/src/printers/mqtt.service.ts:237-239 | New messages published while connected are sent at once in the order of the calls |
| `OfflineBuffer.WireOnlyGrows` | apps/backend/src/printers/mqtt.service.ts:192-239 | Over any run what has been sent stays sent, in its order |
| `OfflineBuffer.LostIffBufferFull` | apps/backend/src/printers/mqtt.service.ts:222-248 | A message is lost exactly when it meets a full buffer, published offline or failed after being sent |
| `OfflineBuffer.FalseAnswerLosesIff` | apps/backend/src/printers/mqtt.service.ts:222-249 | A result about the code: a first answer of false means the message is lost exactly when the buffer is full; otherwise it is kept |
| `OfflineBuffer.TrueAnswerKeeps` | apps/backend/src/printers/mqtt.service.ts:230-252 | A first answer of true means the message is buffered or delivered, never lost in that step |
| `OfflineBuffer.AnsweredMessageLostIff` | apps/backend/src/printers/mqtt.service.ts:192-205 | A result about the code: a message already answered, true or false, is lost later exactly when a send of it fails into a full buffer |
| `OfflineBuffer.FalseAnswerYetDelivered` | apps/backend/src/printers/mqtt.service.ts:237-249 | A whole run: a message answered false is resent after a reconnect and delivered |
| `OfflineBuffer.TrueAnswerYetLost` | apps/backend/src/printers/mqtt.service.ts:192-199 | A whole run: a message buffered offline is answered true and lost when its flush fails with the buffer full again |
| `Provisioning.BothPathsAreNew` | apps/backend/src/provisioning/provisioning.service.ts:377-393 | Both creation paths, a new organization with or without a reused number and a location added later, start where the theorems below start |
| `Provisioning.StepListsAreInOrder` | apps/backend/src/provisioning/provisioning.service.ts:170-178 | Every list of steps is in the order the steps need of each other, each at most once; a number is bought unless one is reused, and only a new organization imports its menu, registers its webhook and invites its administrator |
| `Provisioning.RetryLeavesNoneStuck` | apps/backend/src/provisioning/provisioning.service.ts:584-623 | An accepted retry leaves every step either done as before or pending |
| `Provisioning.CompletedStaysCompleted` | apps/backend/src/provisioning/provisioning.processor.ts:72-127 | For any list of steps, over runs, failures, crashes anywhere, retries, and sweeps that write in time, a completed step stays completed |
| `Provisioning.CompletedIsPrefix` | apps/backend/src/provisioning/provisioning.processor.ts:72-161 | In every state of such runs the completed steps are a prefix, at most one step behind it is touched, and an active location has them all |
| `Provisioning.ActiveOnlyWhenDone` | apps/backend/src/provisioning/provisioning.service.ts:668-697 | In such runs, even with operators skipping steps under a running job, an active location has every step completed or skipped |
| `ProvisioningRepairs.SkipKeepsOrderIff` | apps/backend/src/provisioning/provisioning.service.ts:682-685 | A result about the code: after skipping a step the completed steps stay a prefix, whatever follows, exactly when everything before it is completed |
| `ProvisioningRepairs.SkipLeavesHole` | apps/backend/src/provisioning/provisioning.service.ts:682-685 | A whole run: the second step of a new location is skipped, the first still pending |
| `ProvisioningRepairs.SkipLastsIff` | apps/backend/src/provisioning/provisioning.service.ts:682-685 | A result about the code: a skipped step stays completed, whatever follows, exactly when no live job has yet to run it and no sweep has selected it |
| `ProvisioningRepairs.RetryOneUndoesActive` | apps/backend/src/provisioning/provisioning.service.ts:658-663 | A result about the code: after retrying one step, the location can never be active unfinished, whatever follows, exactly when it is not active now and any live job has yet to run the step; on an active one the call is refused too late, and a job past the step activates without it |
| `ProvisioningRepairs.RetryUnderLiveJob` | apps/backend/src/provisioning/provisioning.processor.ts:81-161 | A whole run: the first of two steps is retried while the job is at the second, and the location ends active with the first pending |
| `ProvisioningRepairs.RetryOneKeepsOrderIff` | apps/backend/src/provisioning/provisioning.service.ts:658-663 | After retrying one step, the completed steps stay a prefix, whatever follows, exactly when nothing behind it has been touched or selected by a sweep and it is the last step or any live job has yet to run it |
| `ProvisioningRepairs.RetryOneKeepsWorkIff` | apps/backend/src/provisioning/provisioning.service.ts:658-663 | Retrying one step undoes completed work exactly when that step was completed |
| `Provisioning.IdsAreNeverBoughtAgain` | apps/backend/src/provisioning/provisioning.processor.ts:216-303 | For any list of steps, under every provisioning action modelled, late sweeps and every crash, once the location holds an assistant or number id it never changes and nothing is cloned or ordered again |
| `ProvisioningRunner.LocationRows.HandleProvisionOrganization` | apps/backend/src/provisioning/provisioning.processor.ts:53-161 | The loop, in place on the rows, moves only by the modelled runner steps; it finishes, activating the location, exactly when each step not done at the start works; otherwise everything before the first that does not is through, that step is failed (or in progress, if the worker died on it), and nothing behind it is touched |
| `ProvisioningRunner.HistoryKeepsWork` | apps/backend/src/provisioning/provisioning.processor.ts:72-161 | Whatever the job did to the rows, completed steps stayed completed, the prefix stayed, and no id was changed or bought again |
| `ProvisioningRunner.LocationRows.CallUpstreamOnce` | apps/backend/src/provisioning/provisioning.processor.ts:227-303 | The upstream is called exactly when the step clones or orders and the row holds no id for it, and once |
| `ProvisioningRunner.LocationRows.RetryProvisioning` | apps/backend/src/provisioning/provisioning.service.ts:584-623 | Refused on an active location; otherwise failed and stranded steps go back to pending and nothing else changes |
| `Provisioning.SweepKeepsOrder` | apps/backend/src/cron/cron.service.ts:62-86 | A sweep that selects a step in progress, even one a live job is on, and writes it before it completes undoes nothing and keeps the prefix |
| `ProvisioningRepairs.WorkIsKeptIffSweepsAreTimely` | apps/backend/src/cron/cron.service.ts:62-77 | A result about the code: over any run, completed work is kept at every step exactly when no sweep writes a step that has completed since it was selected |
| `ProvisioningRepairs.LateMarkUndoesActive` | apps/backend/src/cron/cron.service.ts:73-86 | After such a late write the location can never be active unfinished, whatever follows, exactly when it is not active and no live job is past the step |
| `ProvisioningRepairs.LateSweepFailsActiveStep` | apps/backend/src/cron/cron.service.ts:73-86 | A whole run: a step selected while the job is on it is written once the job is done, leaving an active location with a failed step |

## Left out

- Unlocked writers under interleaving: `updateOrderItems` and status edits check without the order lock, so they
  appear as atomic steps in the runs of `LedgerRuns` and `Retries` but not in `Concurrency`.
- The status transition table is not part of this model; a status edit may set any status, and the claims about
  cancelled orders are for runs without one.
- Concurrency.InterleavingsAreSerial: menu, discounts, rates and role are fixed per request, as its `Env`; a request
  that straddles an edit of the menu is not interleaved with that edit. Two orders whose ids hash to the same lock
  only wait for each other, which the model does not show.
- MenuCache.ReadsShowSettledEdits: a menu read is dated by the first of its queries, later ones only see more; early
  eviction of the version stamp itself is not modelled, only of menu entries. Menu content and paging are not
  modelled.
- Retries.RetriesAreExactlyOnce: requests are atomic here; racing mutations of one order under one key are in
  `Races.KeysTakeEffectOnce`, racing sales under one key in `Tickets`. Orders are numbered by creation instead of by
  random id. A key is assumed to be presented within one organization.
- The Idempotency-Key store of partial refunds is not part of this model; a partial refund carries no key here.
- Sales.LoyaltyIsConserved: for sales one at a time; the balance is read outside the transaction, so the floor can
  bite under concurrency.
- Sales.SaleIsSound: customers found or created by phone number, tables, order types, names, notes, audit and events
  are not modelled, nor are fractional tips and amounts, which the code rounds on arrival.
- Courses.StampsNeverChange: an update or an adjustment replaces the lines and so their stamps; the ticket bound
  covers those runs too.
- Missing, soft-deleted and foreign orders (404) and locations: the ledger is that of one order its caller may see.
- The range of the integer columns: amounts are unbounded.
- Orders from marketplaces and from the voice agent: their amounts are taken as given; `Tickets` covers their ticket
  numbers and client keys, which go through the same allocation.
- Upstream effects inside provisioning steps, the metadata handed between steps, attempts and dates. A worker that
  dies between an upstream call and the save can repeat that call, as in the code; the claims start once the id is
  saved. More than one live job per location is not modelled.
- Provisioning.IdsAreNeverBoughtAgain: writers of the location row outside provisioning are not modelled: editing a
  location by hand can set its ids and activate it (`apps/backend/src/locations/locations.service.ts:107-109`), and
  publishing a menu can replace its assistant (`apps/backend/src/menus/menus.service.ts:1296-1304`).
- ProvisioningRepairs.RetryOneUndoesActive: a single-step call is its own row write; the retry it then asks for, which
  in the code acts on the organization's first location, is a separate step that may follow or not.
- MQTT topics, subscriptions, payload encoding and reconnect timing; a message is its identity.
- How cells are made from numbers and dates before they are quoted, and the contents of print payloads.
- Concurrency, tickets, cache and provisioning interleavings are step relations on values, since several parties act
  on one state; the single-party code of the ledger, the buffer and the runner is in classes refining them.
