/**
 What becomes of a register sale afterwards: refunds, adjustments and appends on top of the row it was created with.
 */
module SaleRuns {
  import opened LedgerRuns
  import opened LedgerSafety
  import opened Orders
  import opened Sales
  import opened Wrappers
  import Cart
  import Money
  import Tender

  // ----- a sale charged at creation

  /** Marked paid without a payment row. */
  predicate Charged(o: Order) { o.payments == [] && o.row.paidAt.Some? }

  predicate MovesMoney(op: Op) { op.Pay? || op.RefundAll? || op.RefundPart? }

  /** Some payment or refund would go through. */
  ghost predicate MoneyAccepted(db: Db) { exists env, op :: MovesMoney(op) && DecideOn(env, op, db).Ok? }

  /** An accepted adjustment with something left to pay. */
  predicate LeavesTotal(env: Env, op: Op, db: Db) {
    && op.Adjust? && DecideOn(env, op, db).Ok?
    && RepricedTotal(env, op, db).Some? && 0 < RepricedTotal(env, op, db).value
  }

  /** Whether some adjustment of the run left a positive total. */
  predicate Reopened(calls: seq<Call>, db: Db) {
    calls != [] &&
    var front, last := calls[..|calls| - 1], calls[|calls| - 1];
    Reopened(front, db) || LeavesTotal(last.env, last.op, Run(front, db))
  }

  lemma ChargedRefusesMoney(env: Env, op: Op, db: Db)
    requires Charged(db.order) && MovesMoney(op)
    ensures DecideOn(env, op, db).Err?
  {
  }

  lemma AdjustedChargedOrder(env: Env, op: Op, db: Db)
    requires Sound(db.order) && SaneEnv(env) && Charged(db.order) && op.Adjust? && DecideOn(env, op, db).Ok?
    ensures var o := Step(env, op, db).order;
      && o.payments == [] && RepricedTotal(env, op, db) == Some(o.row.total) && 0 <= o.row.total
      && (o.row.paidAt.Some? <==> o.row.total == 0)
  {
    RepricedTotalIs(env, op, db);
    AdjustKeepsSound(env, op, db);
    AdjustmentSettlesBalance(env, op, db);
    PaidNothing(Step(env, op, db).order.payments);
  }

  lemma PaidNothing(payments: seq<Payment>)
    requires |payments| <= 1 && CashSound(payments)
    ensures Paid(payments) == 0 <==> payments == []
  {
    if payments != [] {
      assert payments == [] + [payments[0]] && payments[0] in payments;
      PaidPlusOne([], payments[0]);
    }
  }

  /** A charged order stays one until an adjustment leaves something to pay. */
  lemma ChargedStep(env: Env, op: Op, db: Db)
    requires Sound(db.order) && SaneEnv(env) && Charged(db.order)
    ensures Step(env, op, db).order.payments == []
    ensures Charged(Step(env, op, db).order) <==> !LeavesTotal(env, op, db)
    ensures !op.EditStatus? ==> Step(env, op, db).order.row.status == db.order.row.status
  {
    StepKeepsSound(env, op, db);
    if op.Adjust? && DecideOn(env, op, db).Ok? {
      AdjustedChargedOrder(env, op, db);
    } else if MovesMoney(op) {
      ChargedRefusesMoney(env, op, db);
    } else {
      assert db.order.payments + [] == [];
    }
  }

  lemma OpenStep(env: Env, op: Op, db: Db)
    requires !Charged(db.order)
    ensures !Charged(Step(env, op, db).order)
  {
  }

  /** Over any run, an order charged at creation loses that state exactly when an adjustment leaves a positive total. */
  lemma {:induction false} ChargedUntilReopened(calls: seq<Call>, db: Db)
    requires Sound(db.order) && SaneCalls(calls) && Charged(db.order)
    ensures Charged(Run(calls, db).order) <==> !Reopened(calls, db)
    ensures !Reopened(calls, db) && NoStatusEdit(calls) ==> Run(calls, db).order.row.status == db.order.row.status
  {
    if calls != [] {
      var front, last := calls[..|calls| - 1], calls[|calls| - 1];
      assert last in calls;
      ChargedUntilReopened(front, db);
      RunKeepsSound(front, db);
      if Charged(Run(front, db).order) {
        ChargedStep(last.env, last.op, Run(front, db));
      } else {
        OpenStep(last.env, last.op, Run(front, db));
      }
    }
  }

  /**
   Until an adjustment leaves a positive total, the sale has no payment rows and every payment and refund of it is
   refused.
   */
  lemma {:induction false} ChargedSaleRefusesMoney(env: Env, req: SaleRequest, s: Store, claims: set<Key>,
      calls: seq<Call>)
    requires SaneEnv(env) && SaneCalls(calls) && req.tender.Some?
    requires DecideSale(env, req, s).Ok? && DecideSale(env, req, s).value.Created?
    requires !Reopened(calls, Db(DecideSale(env, req, s).value.order, claims))
    ensures var db := Run(calls, Db(DecideSale(env, req, s).value.order, claims));
      db.order.payments == [] && !MoneyAccepted(db)
  {
    SaleIsSound(env, req, s);
    var db := Db(DecideSale(env, req, s).value.order, claims);
    ChargedUntilReopened(calls, db);
    forall later, op | MovesMoney(op) ensures DecideOn(later, op, Run(calls, db)).Err? {
      ChargedRefusesMoney(later, op, Run(calls, db));
    }
  }

  /**
   Once an adjustment has left a positive total, paying the order takes all of it, although the guest was charged
   before.
   */
  lemma ReopenedOrderIsChargedAgain(env: Env, op: Op, db: Db, later: Env, tender: Method, now: Time)
    requires Sound(db.order) && SaneEnv(env) && Charged(db.order) && db.order.row.status != Cancelled
    requires LeavesTotal(env, op, db)
    ensures var open := Step(env, op, db);
      var again := Step(later, Pay(tender, None, None, None, now), open);
      && DecideOn(later, Pay(tender, None, None, None, now), open).Ok?
      && Paid(again.order.payments) == open.order.row.total == again.order.row.total
      && again.order.row.paidAt.Some?
  {
    AdjustedChargedOrder(env, op, db);
    StepKeepsSound(env, op, db);
    ChargedStep(env, op, db);
    PaymentMovesBalance(later, Pay(tender, None, None, None, now), Step(env, op, db));
  }

  /**
   Over any run without status edits, money is accepted at some point exactly when an adjustment left a positive
   total.
   */
  lemma {:induction false} ChargedOrderTakesMoneyIff(calls: seq<Call>, db: Db)
    requires Sound(db.order) && SaneCalls(calls) && NoStatusEdit(calls)
    requires Charged(db.order) && db.order.row.status != Cancelled
    ensures (exists k | 0 <= k <= |calls| :: MoneyAccepted(Run(calls[..k], db))) <==> Reopened(calls, db)
  {
    if Reopened(calls, db) {
      var k := ReopenedTakesMoney(calls, db);
    } else {
      forall k | 0 <= k <= |calls| ensures !MoneyAccepted(Run(calls[..k], db)) {
        ReopenedGrows(calls, k, db);
        ChargedUntilReopened(calls[..k], db);
        forall env, op | MovesMoney(op) ensures DecideOn(env, op, Run(calls[..k], db)).Err? {
          ChargedRefusesMoney(env, op, Run(calls[..k], db));
        }
      }
    }
  }

  lemma {:induction false} ReopenedGrows(calls: seq<Call>, k: nat, db: Db)
    requires k <= |calls| && !Reopened(calls, db)
    ensures !Reopened(calls[..k], db)
  {
    if k < |calls| {
      ReopenedGrows(calls[..|calls| - 1], k, db);
      assert calls[..|calls| - 1][..k] == calls[..k];
    } else {
      assert calls[..k] == calls;
    }
  }

  lemma {:induction false} ReopenedTakesMoney(calls: seq<Call>, db: Db) returns (k: nat)
    requires Sound(db.order) && SaneCalls(calls) && NoStatusEdit(calls) && Reopened(calls, db)
    requires Charged(db.order) && db.order.row.status != Cancelled
    ensures k <= |calls| && MoneyAccepted(Run(calls[..k], db))
  {
    var front, last := calls[..|calls| - 1], calls[|calls| - 1];
    assert last in calls;
    if Reopened(front, db) {
      k := ReopenedTakesMoney(front, db);
      assert front[..k] == calls[..k];
    } else {
      k := |calls|;
      assert calls[..k] == calls;
      RunKeepsSound(front, db);
      ChargedUntilReopened(front, db);
      ReopenedOrderIsChargedAgain(last.env, last.op, Run(front, db), last.env, Cash, 0);
      assert MovesMoney(Pay(Cash, None, None, None, 0));
    }
  }

  /**
   The same from the register: a sale charged at creation takes money again exactly when an adjustment leaves a
   positive total.
   */
  lemma {:induction false} ChargedSaleTakesMoneyIff(env: Env, req: SaleRequest, s: Store, claims: set<Key>,
      calls: seq<Call>)
    requires SaneEnv(env) && SaneCalls(calls) && NoStatusEdit(calls) && req.tender.Some?
    requires DecideSale(env, req, s).Ok? && DecideSale(env, req, s).value.Created?
    ensures var db := Db(DecideSale(env, req, s).value.order, claims);
      (exists k | 0 <= k <= |calls| :: MoneyAccepted(Run(calls[..k], db))) <==> Reopened(calls, db)
  {
    SaleIsSound(env, req, s);
    SaleOwes(env, req, s);
    ChargedOrderTakesMoneyIff(calls, Db(DecideSale(env, req, s).value.order, claims));
  }

  // ----- full refunds

  /** Money on an order has labelled it. */
  ghost predicate Labelled(o: Order) { o.payments != [] ==> o.row.paidBy != Unlabelled }

  lemma StepKeepsLabelled(env: Env, op: Op, db: Db)
    requires Sound(db.order) && SaneEnv(env) && Labelled(db.order)
    ensures Labelled(Step(env, op, db).order)
  {
    if op.Adjust? && DecideOn(env, op, db).Ok? && db.order.payments == [] {
      AdjustedEmptyOrder(env, op, db);
    } else if op.RefundAll? && DecideOn(env, op, db).Ok? {
      assert db.order.payments != [];
    } else if op.RefundPart? && DecideOn(env, op, db).Ok? {
      assert db.order.payments != [];
    } else if !op.Pay? {
      assert db.order.payments + [] == db.order.payments;
    }
  }

  lemma {:induction false} RunKeepsLabelled(calls: seq<Call>, db: Db)
    requires Sound(db.order) && SaneCalls(calls) && Labelled(db.order)
    ensures Labelled(Run(calls, db).order)
  {
    if calls != [] {
      var front, last := calls[..|calls| - 1], calls[|calls| - 1];
      assert last in calls;
      RunKeepsLabelled(front, db);
      RunKeepsSound(front, db);
      StepKeepsLabelled(last.env, last.op, Run(front, db));
    }
  }

  lemma RefundableIff(env: Env, db: Db)
    requires Labelled(db.order)
    ensures DecideOn(env, RefundAll(true), db).Ok? <==> 0 < Paid(db.order.payments) && db.order.row.status != Cancelled
    ensures DecideOn(env, RefundAll(true), db).Ok? ==> Paid(Step(env, RefundAll(true), db).order.payments) == 0
  {
    if DecideOn(env, RefundAll(true), db).Ok? { FullRefundNetsToZero(env, RefundAll(true), db); }
  }

  /**
   After any run whatever, a sale can be refunded in full exactly when there is money on its payment rows and it is not
   cancelled, and the refund gives all of that back.
   */
  lemma {:induction false} SaleIsRefundableIff(env: Env, req: SaleRequest, s: Store, claims: set<Key>,
      calls: seq<Call>, later: Env)
    requires SaneEnv(env) && SaneCalls(calls)
    requires DecideSale(env, req, s).Ok? && DecideSale(env, req, s).value.Created?
    ensures var db := Run(calls, Db(DecideSale(env, req, s).value.order, claims));
      && (DecideOn(later, RefundAll(true), db).Ok?
          <==> 0 < Paid(db.order.payments) && db.order.row.status != Cancelled)
      && (DecideOn(later, RefundAll(true), db).Ok? ==> Paid(Step(later, RefundAll(true), db).order.payments) == 0)
  {
    SaleIsSound(env, req, s);
    var start := Db(DecideSale(env, req, s).value.order, claims);
    RunKeepsLabelled(calls, start);
    RefundableIff(later, Run(calls, start));
  }

  /**
   A sale created unpaid, then paid in whatever parts: it is refundable exactly when any money is on it and it is not
   cancelled.
   */
  lemma {:induction false} UnpaidSaleIsRefundableIff(env: Env, req: SaleRequest, s: Store, claims: set<Key>,
      calls: seq<Call>, later: Env)
    requires SaneEnv(env) && SaneCalls(calls) && OnlySells(calls) && req.tender.None?
    requires DecideSale(env, req, s).Ok? && DecideSale(env, req, s).value.Created?
    ensures var db := Run(calls, Db(DecideSale(env, req, s).value.order, claims));
      && (DecideOn(later, RefundAll(true), db).Ok? <==> db.order.payments != [] && db.order.row.status != Cancelled)
      && (db.order.row.paidAt.Some? ==> db.order.payments != [] && Paid(db.order.payments) == db.order.row.total)
  {
    SaleIsSound(env, req, s);
    var start := Db(DecideSale(env, req, s).value.order, claims);
    PaidExactlyWhenCovered(calls, start);
    PositiveRowsSum(Run(calls, start).order.payments);
    SaleIsRefundableIff(env, req, s, claims, calls, later);
  }

  // ----- sales with nothing to pay

  ghost predicate TipFree(calls: seq<Call>, db: Db) {
    forall k | 0 <= k < |calls| ::
      && (calls[k].op.Pay? ==> calls[k].op.tipAmount.GetOr(0) <= 0)
      && !Reprices(calls[k].env, calls[k].op, Run(calls[..k], db))
  }

  /**
   An order that owes nothing and holds nothing never becomes paid, whatever is tried short of a tip or a re-pricing.
   */
  lemma {:induction false} NothingOwedNeverPaid(calls: seq<Call>, db: Db)
    requires db.order.row.total == 0 && db.order.payments == [] && db.order.row.paidAt.None? && TipFree(calls, db)
    ensures var o := Run(calls, db).order; o.row.total == 0 && o.payments == [] && o.row.paidAt.None?
  {
    if calls != [] {
      var front, last := calls[..|calls| - 1], calls[|calls| - 1];
      forall k | 0 <= k < |front| ensures front[..k] == calls[..k] {}
      NothingOwedNeverPaid(front, db);
      NothingOwedStep(last.env, last.op, Run(front, db));
    }
  }

  lemma NothingOwedStep(env: Env, op: Op, db: Db)
    requires db.order.row.total == 0 && db.order.payments == [] && db.order.row.paidAt.None?
    requires (op.Pay? ==> op.tipAmount.GetOr(0) <= 0) && !Reprices(env, op, db)
    ensures var o := Step(env, op, db).order; o.row.total == 0 && o.payments == [] && o.row.paidAt.None?
  {
    assert db.order.payments + [] == [];
  }

  // ----- a sale, then an append

  /** The taxable part of what a sale and an append on it ring in. */
  function TaxableOfBoth(env: Env, req: SaleRequest, later: Env, op: Op): int
    requires op.Append? && Cart.PriceCart(env.menu, req.cart).Ok? && Cart.PriceCart(later.menu, op.cart).Ok?
  {
    Cart.TaxableTotal(Cart.PriceCart(env.menu, req.cart).value.lines)
    + Cart.TaxableTotal(Cart.PriceCart(later.menu, op.cart).value.lines)
  }

  /** An append bills the subtotal of both carts, all of it as taxable. */
  lemma {:induction false} AppendedBill(env: Env, req: SaleRequest, s: Store, later: Env, op: Op, db: Db)
    requires SaneEnv(env) && DecideSale(env, req, s).Ok? && DecideSale(env, req, s).value.Created?
    requires SaneEnv(later) && db.order == DecideSale(env, req, s).value.order && Appends(later, op, db)
    ensures Cart.PriceCart(env.menu, req.cart).Ok? && Cart.PriceCart(later.menu, op.cart).Ok?
    ensures var row := Step(later, op, db).order.row;
      && 0 <= TaxableOfBoth(env, req, later, op) <= row.subtotal && 0 <= row.discount <= row.subtotal && 0 <= row.tip
      && row.tax == Tender.TabTender(row.subtotal, row.discount, TaxBps(later, req.location), row.tip).tax
      && row.serviceCharge == db.order.row.serviceCharge && row.redeemed == db.order.row.redeemed
  {
    var priced, found, bill := SaleMade(env, req, s);
    SaleIsSound(env, req, s);
    SaleLinesHold(priced, req.byCourse, req.now);
    Cart.TaxableWithinSubtotal(priced.lines);
    var added, discount := AppendResult(later, op, db);
    var more := Cart.PriceCart(later.menu, op.cart).value;
    Cart.PriceCartAccepts(later.menu, op.cart);
    InsertablePrices(more.lines, true);
    LinesOfTotal(more.lines, true);
    Cart.TaxableWithinSubtotal(more.lines);
    LineTotalAppend(db.order.lines, added);
    AppendKeepsSound(later, op, db);
  }

  /**
   A mixed cart rung in and appended to owes, to within a cent, the tax its exempt lines should be spared on top of what
   ringing everything in at once would owe; the exact taxes agree only if nothing is exempt, all is discounted, or the
   rate is zero.
   */
  lemma {:induction false} AppendDropsExemption(env: Env, req: SaleRequest, s: Store, later: Env, op: Op, db: Db)
    requires SaneEnv(env) && DecideSale(env, req, s).Ok? && DecideSale(env, req, s).value.Created?
    requires SaneEnv(later) && db.order == DecideSale(env, req, s).value.order && Appends(later, op, db)
    ensures Cart.PriceCart(env.menu, req.cart).Ok? && Cart.PriceCart(later.menu, op.cart).Ok?
    ensures var row, bps := Step(later, op, db).order.row, TaxBps(later, req.location);
      var taxable := TaxableOfBoth(env, req, later, op);
      var atOnce := Tender.SaleTender(row.subtotal, taxable, row.discount, 0, bps, row.tip, 0).tax;
      && atOnce <= row.tax
      && -1.0 < (row.tax - atOnce) as real - Tender.SparedTax(row.subtotal, taxable, row.discount, bps) < 1.0
      && (0 < row.subtotal ==>
            (Tender.SparedTax(row.subtotal, taxable, row.discount, bps) == 0.0
             <==> taxable == row.subtotal || row.discount == row.subtotal || bps == 0))
  {
    AppendedBill(env, req, s, later, op, db);
    var row, bps := Step(later, op, db).order.row, TaxBps(later, req.location);
    var taxable := TaxableOfBoth(env, req, later, op);
    Tender.TabIgnoresExemption(row.subtotal, taxable, row.discount, bps, row.tip);
    if 0 < row.subtotal { Tender.ExemptionIsLostIff(row.subtotal, taxable, row.discount, bps); }
  }

  // ----- a concrete sale and append

  const MEAL := Cart.CartLine("meal", 1, [], None, None)
  const GIFT := Cart.CartLine("gift", 1, [], None, None)

  const PRICED_MEAL := Cart.PricedLine("meal", 1, 1000, [], None, false)
  const PRICED_GIFT := Cart.PricedLine("gift", 1, 1000, [], None, true)

  /** Meals are taxed and gifts are not, ten dollars each; tax is ten percent and the service charge five. */
  ghost predicate SmallShop(env: Env) {
    && env.menu == Cart.Menu(map["meal" := Cart.MenuItem(1000, false), "gift" := Cart.MenuItem(1000, true)], map[], [])
    && env.rates == map["main" := Rates(1000, 500)]
  }

  lemma CartsPriced(env: Env)
    requires SmallShop(env)
    ensures Cart.PriceCart(env.menu, [MEAL]) == Ok(Cart.PricedCart([PRICED_MEAL], 1000))
    ensures Cart.PriceCart(env.menu, [MEAL, GIFT]) == Ok(Cart.PricedCart([PRICED_MEAL, PRICED_GIFT], 2000))
  {
    Cart.PlainLinePriced(env.menu, [], MEAL, Cart.PricedCart([], 0));
    assert [] + [MEAL] == [MEAL] && [] + [PRICED_MEAL] == [PRICED_MEAL];
    Cart.PlainLinePriced(env.menu, [MEAL], GIFT, Cart.PricedCart([PRICED_MEAL], 1000));
    assert [MEAL] + [GIFT] == [MEAL, GIFT] && [PRICED_MEAL] + [PRICED_GIFT] == [PRICED_MEAL, PRICED_GIFT];
  }

  lemma BothPriced()
    ensures Cart.PricedTotal([PRICED_MEAL, PRICED_GIFT]) == 2000
    ensures Cart.TaxableTotal([PRICED_MEAL, PRICED_GIFT]) == 1000
  {
    var both := [PRICED_MEAL, PRICED_GIFT];
    assert both[..|both| - 1] == [PRICED_MEAL] && [PRICED_MEAL][..0] == [];
    assert Cart.PricedTotal([PRICED_MEAL]) == 1000 && Cart.TaxableTotal([PRICED_MEAL]) == 1000;
  }

  /** What the sale owes: 20.00 and a charge of 1.00, tax on the meal and the charge. */
  lemma SmallSaleBill(rates: Rates, req: SaleRequest)
    requires rates == Rates(1000, 500) && req.applyService && req.tip.None? && req.redeem.None?
    ensures SaleBill(req, rates, Cart.PricedCart([PRICED_MEAL, PRICED_GIFT], 2000), None)
      == Tender.Tender(2000, 0, 100, 110, 0, 0, 2210)
  {
    BothPriced();
    assert Tender.DiscountedTaxable(2000, 1000, 0) == 1000.0;
    assert Money.BasisPoints(2000.0, 500) == 100 && Money.BasisPoints(1100.0, 1000) == 110;
  }

  /** A meal and a gift with a service charge, charged to a method or left unpaid. */
  function SmallSale(tender: Option<Method>): SaleRequest {
    SaleRequest("main", None, tender, None, true, None, NoDiscount, None, false, [MEAL, GIFT], 0)
  }

  lemma SmallSaleMade(env: Env, s: Store, tender: Option<Method>)
    requires SmallShop(env)
    ensures DecideSale(env, SmallSale(tender), s).Ok? && DecideSale(env, SmallSale(tender), s).value.Created?
    ensures var o := DecideSale(env, SmallSale(tender), s).value.order;
      && o.row == SaleRow(
           SmallSale(tender), Tender.Tender(2000, 0, 100, 110, 0, 0, 2210), None, NextTicket(s.orders, "main"))
      && o.payments == [] && LineTotal(o.lines) == 2000
  {
    CartsPriced(env);
    var priced := [PRICED_MEAL, PRICED_GIFT];
    assert ResolveDiscount(env, NoDiscount) == Ok(None);
    var plain := LinesOf(priced, true);
    assert plain == [Line("meal", 1, 1000, None, None), Line("gift", 1, 1000, None, None)];
    LinesOfTotal(priced, true);
    BothPriced();
    SmallSaleBill(env.rates["main"], SmallSale(tender));
    assert Insertable(SaleLines(priced, false, 0));
  }

  /**
   Tax 1.10 at the sale; after one more meal it is 3.00 though 20.00 are taxable, and the charge of 1.00 is no longer
   in the total.
   */
  lemma SmallSaleThenAppend(env: Env, s: Store, claims: set<Key>)
    requires SmallShop(env)
    ensures DecideSale(env, SmallSale(None), s).Ok? && DecideSale(env, SmallSale(None), s).value.Created?
    ensures var db := Db(DecideSale(env, SmallSale(None), s).value.order, claims);
      var row := Step(env, Append(None, [MEAL]), db).order.row;
      && db.order.row.tax == 110 && db.order.row.total == 2210 && AddsUp(db.order.row)
      && row.subtotal == 3000 && row.tax == 300 && row.serviceCharge == 100 && row.total == 3300 && !AddsUp(row)
  {
    SmallSaleMade(env, s, None);
    CartsPriced(env);
    var o := DecideSale(env, SmallSale(None), s).value.order;
    MealAppended(env, Db(o, claims));
  }

  lemma MealAppended(env: Env, db: Db)
    requires SmallShop(env) && Editable(db.order.row.status) && db.order.row.paidAt.None? && db.order.payments == []
    requires db.order.row.location == "main" && db.order.row.discountId.None? && LineTotal(db.order.lines) == 2000
    requires db.order.row.tip == 0
    ensures var row := db.order.row;
      Step(env, Append(None, [MEAL]), db).order.row == row.(subtotal := 3000, discount := 0, tax := 300, total := 3300)
  {
    CartsPriced(env);
    assert LinesOf([PRICED_MEAL], true) == [Line("meal", 1, 1000, None, None)];
    assert Money.BasisPoints(3000.0, 1000) == 300;
  }

  /** The same sale charged to a card, then adjusted to the meal: 22.10 were charged, and 11.00 are taken again. */
  lemma SmallSaleReopened(env: Env, s: Store, claims: set<Key>)
    requires SmallShop(env)
    ensures DecideSale(env, SmallSale(Some(Card)), s).Ok? && DecideSale(env, SmallSale(Some(Card)), s).value.Created?
    ensures var db := Db(DecideSale(env, SmallSale(Some(Card)), s).value.order, claims);
      var open := Step(env, Adjust(true, [MEAL], 0, Single(Card)), db);
      var again := Step(env, Pay(Cash, None, None, None, 1), open);
      && db.order.row.total == 2210 && db.order.row.paidAt.Some?
      && open.order.row.total == 1100 && open.order.row.paidAt.None?
      && Paid(again.order.payments) == 1100 && again.order.row.paidAt.Some?
  {
    SmallSaleMade(env, s, Some(Card));
    SaleIsSound(env, SmallSale(Some(Card)), s);
    var db := Db(DecideSale(env, SmallSale(Some(Card)), s).value.order, claims);
    MealAdjusted(env, db);
    ReopenedOrderIsChargedAgain(env, Adjust(true, [MEAL], 0, Single(Card)), db, env, Cash, 1);
    AdjustedChargedOrder(env, Adjust(true, [MEAL], 0, Single(Card)), db);
  }

  lemma MealAdjusted(env: Env, db: Db)
    requires SmallShop(env) && db.order.payments == [] && db.order.row.location == "main" && db.order.row.tip == 0
    ensures DecideOn(env, Adjust(true, [MEAL], 0, Single(Card)), db).Ok?
    ensures RepricedTotal(env, Adjust(true, [MEAL], 0, Single(Card)), db) == Some(1100)
    ensures Step(env, Adjust(true, [MEAL], 0, Single(Card)), db).order.row.total == 1100
  {
    CartsPriced(env);
    assert LinesOf([PRICED_MEAL], false) == [Line("meal", 1, 1000, None, None)];
    assert Money.BasisPoints(1000.0, 1000) == 100;
    RepricedTotalIs(env, Adjust(true, [MEAL], 0, Single(Card)), db);
  }

  // ----- a concrete sale with nothing to pay

  const WATER := Cart.CartLine("water", 1, [], None, None)
  const FREE_SALE := SaleRequest("main", None, None, None, false, None, NoDiscount, None, false, [WATER], 0)

  /** Water costs nothing: the sale owes nothing and is not paid, and no payment without a tip ever makes it paid. */
  lemma {:induction false} FreeSaleNeverPaid(env: Env, s: Store, claims: set<Key>, calls: seq<Call>)
    requires env.menu == Cart.Menu(map["water" := Cart.MenuItem(0, false)], map[], [])
    requires env.rates == map["main" := Rates(1000, 500)]
    ensures DecideSale(env, FREE_SALE, s).Ok? && DecideSale(env, FREE_SALE, s).value.Created?
    ensures var db := Db(DecideSale(env, FREE_SALE, s).value.order, claims);
      db.order.row.total == 0 && (TipFree(calls, db) ==> Run(calls, db).order.row.paidAt.None?)
  {
    Cart.PlainLinePriced(env.menu, [], WATER, Cart.PricedCart([], 0));
    var water := Cart.PricedLine("water", 1, 0, [], None, false);
    assert [] + [WATER] == [WATER] && [] + [water] == [water];
    assert LinesOf([water], true) == [Line("water", 1, 0, None, None)];
    FreeBill(env.rates["main"], water);
    SaleDecided(env, FREE_SALE, s, Cart.PricedCart([water], 0), None);
    var db := Db(DecideSale(env, FREE_SALE, s).value.order, claims);
    if TipFree(calls, db) { NothingOwedNeverPaid(calls, db); }
  }

  lemma FreeBill(rates: Rates, water: Cart.PricedLine)
    requires water.price == 0 && rates == Rates(1000, 500)
    ensures SaleBill(FREE_SALE, rates, Cart.PricedCart([water], 0), None).total == 0
  {
    assert Tender.DiscountedTaxable(0, Cart.TaxableTotal([water]), 0) == 0.0;
    Tender.NoChargeWithoutRate(0);
    assert Money.BasisPoints(0.0, 1000) == 0;
  }
}
