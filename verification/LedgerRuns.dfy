/**
 Facts about whole runs of ledger steps: what the bill adds up to, when a check is settled, what a refund leaves
 behind.
 */
module LedgerRuns {
  import opened Money
  import opened Wrappers
  import opened Orders
  import opened LedgerSafety
  import Cart
  import Tender

  // ----- refunds never exceed payments

  function GivenBack(payments: seq<Payment>): int {
    if payments == [] then 0 else GivenBack(payments[1..]) + Max(0, -payments[0].amount)
  }

  lemma {:induction false} NetIsTakenInLessGivenBack(payments: seq<Payment>)
    ensures Paid(payments) == TakenIn(payments) - GivenBack(payments)
  {
    if payments != [] {
      NetIsTakenInLessGivenBack(payments[1..]);
      PaidAppend([payments[0]], payments[1..]);
      assert [payments[0]] + payments[1..] == payments;
      assert Paid([payments[0]]) == Paid([]) + payments[0].amount;
    }
  }

  /** Over any run, cumulative refunds never exceed cumulative payments. */
  lemma RefundsNeverExceedPayments(calls: seq<Call>, db: Db)
    requires Sound(db.order) && SaneCalls(calls)
    ensures var o := Run(calls, db).order;
      0 <= TakenIn(o.payments) - GivenBack(o.payments) <= o.row.total
  {
    RunKeepsSound(calls, db);
    NetIsTakenInLessGivenBack(Run(calls, db).order.payments);
  }

  // ----- what the total adds up to

  /** Whether a step put new lines on the order and so priced the bill again. */
  predicate Reprices(env: Env, op: Op, db: Db) {
    var r := DecideOn(env, op, db);
    (op.Append? || op.Update? || op.Adjust?) && r.Ok? && r.value.receipt == EditReceipt
  }

  predicate RepricedBy(calls: seq<Call>, db: Db) {
    calls != [] &&
    var front, last := calls[..|calls| - 1], calls[|calls| - 1];
    RepricedBy(front, db) || Reprices(last.env, last.op, Run(front, db))
  }

  lemma StepKeepsExtras(env: Env, op: Op, db: Db)
    ensures Step(env, op, db).order.row.serviceCharge == db.order.row.serviceCharge
    ensures Step(env, op, db).order.row.redeemed == db.order.row.redeemed
  {
  }

  lemma QuietStepKeepsBill(env: Env, op: Op, db: Db)
    requires !Reprices(env, op, db)
    ensures var a, b := db.order.row, Step(env, op, db).order.row;
      b.total - Plain(b) == a.total - Plain(a)
  {
  }

  /**
   The total is always subtotal - discount + tax + tip. Service charge and redemption are part of it until the
   order is first re-priced and never afterwards, although the row keeps both columns.
   */
  lemma {:induction false} BillIdentity(calls: seq<Call>, db: Db)
    requires Sound(db.order) && AddsUp(db.order.row) && SaneCalls(calls)
    ensures var row := Run(calls, db).order.row;
      && row.subtotal == LineTotal(Run(calls, db).order.lines)
      && row.serviceCharge == db.order.row.serviceCharge && row.redeemed == db.order.row.redeemed
      && (if RepricedBy(calls, db) then AddsUpPlain(row) else AddsUp(row))
  {
    RunKeepsSound(calls, db);
    if calls != [] {
      var front, last := calls[..|calls| - 1], calls[|calls| - 1];
      assert last in calls;
      BillIdentity(front, db);
      var mid := Run(front, db);
      RunKeepsSound(front, db);
      StepKeepsExtras(last.env, last.op, mid);
      if !Reprices(last.env, last.op, mid) {
        QuietStepKeepsBill(last.env, last.op, mid);
      } else if last.op.Append? {
        AppendKeepsSound(last.env, last.op, mid);
      } else if last.op.Update? {
        UpdateKeepsSound(last.env, last.op, mid);
      } else {
        AdjustKeepsSound(last.env, last.op, mid);
      }
    }
  }

  /** After any re-pricing the row agrees with its own columns exactly when charge and redemption cancel out. */
  lemma RepricedRowAddsUpIff(calls: seq<Call>, db: Db)
    requires Sound(db.order) && AddsUp(db.order.row) && SaneCalls(calls) && RepricedBy(calls, db)
    ensures AddsUp(Run(calls, db).order.row) <==> db.order.row.serviceCharge == db.order.row.redeemed
  {
    BillIdentity(calls, db);
  }

  // ----- splitting a check

  function Tips(payments: seq<Payment>): int {
    if payments == [] then 0 else Tips(payments[..|payments| - 1]) + payments[|payments| - 1].tip
  }

  /** One accepted payment: what it applies, and how the balance moves. */
  lemma PaymentMovesBalance(env: Env, op: Op, db: Db)
    requires op.Pay? && DecideOn(env, op, db).Ok? && Bounded(db.order)
    ensures var a, b, r := db.order, Step(env, op, db).order, DecideOn(env, op, db).value.receipt;
      var tip := Max(0, op.tipAmount.GetOr(0));
      && r.PaidReceipt? && 1 <= r.applied
      && Paid(b.payments) == Paid(a.payments) + r.applied
      && b.row.total == a.row.total + tip && b.row.tip == a.row.tip + tip && Tips(b.payments) == Tips(a.payments) + tip
      && r.remaining == b.row.total - Paid(b.payments) && 0 <= r.remaining
      && (tip == 0 ==> r.remaining < a.row.total - Paid(a.payments))
      && (b.row.paidAt.Some? <==> r.remaining == 0) && r.covered == b.row.paidAt.Some?
      && b.payments[..|a.payments|] == a.payments && |b.payments| == |a.payments| + 1
      && b.row.paidBy == LabelOf(b.payments)
  {
    var rows := DecideOn(env, op, db).value.writes.payments;
    assert rows == [rows[0]];
    PaidPlusOne(db.order.payments, rows[0]);
    assert (db.order.payments + rows)[..|db.order.payments|] == db.order.payments;
  }

  /** The label is `Split` exactly when two payments differ in method, and otherwise names the one method used. */
  lemma LabelMeans(payments: seq<Payment>)
    requires payments != []
    ensures LabelOf(payments) == Split <==> exists p, q :: p in payments && q in payments && p.tender != q.tender
    ensures forall m :: LabelOf(payments) == Single(m) <==> forall p | p in payments :: p.tender == m
  {
    assert payments[0] in payments;
  }

  ghost predicate OnlySells(calls: seq<Call>) {
    forall c | c in calls :: !c.op.RefundAll? && !c.op.RefundPart? && !c.op.Adjust?
  }

  lemma PaymentSettles(env: Env, op: Op, db: Db)
    requires op.Pay? && DecideOn(env, op, db).Ok? && Bounded(db.order)
    requires forall p | p in db.order.payments :: 0 < p.amount
    ensures var a, b := db.order, Step(env, op, db).order;
      && (b.row.paidAt.Some? <==> Paid(b.payments) == b.row.total) && b.payments != []
      && b.row.tip - a.row.tip == b.row.total - a.row.total == Tips(b.payments) - Tips(a.payments)
      && (forall p | p in b.payments :: 0 < p.amount) && b.row.paidBy == LabelOf(b.payments)
  {
    PaymentMovesBalance(env, op, db);
  }

  /**
   However a check is split, and whatever is appended or replaced before the first payment: the order is paid exactly
   when the applied payments equal the total, and the total carries exactly the tips of those payments.
   */
  lemma {:induction false} PaidExactlyWhenCovered(calls: seq<Call>, db: Db)
    requires Sound(db.order) && SaneCalls(calls) && OnlySells(calls)
    requires db.order.payments == [] && db.order.row.paidAt.None?
    ensures var o := Run(calls, db).order;
      && (o.row.paidAt.Some? <==> o.payments != [] && Paid(o.payments) == o.row.total)
      && o.row.tip == db.order.row.tip + Tips(o.payments)
      && (forall p | p in o.payments :: 0 < p.amount)
      && (o.payments != [] ==> o.row.paidBy == LabelOf(o.payments))
      && ((forall c | c in calls :: c.op.Pay?) ==> o.row.total == db.order.row.total + Tips(o.payments))
  {
    if calls != [] {
      var front, last := calls[..|calls| - 1], calls[|calls| - 1];
      assert last in calls;
      PaidExactlyWhenCovered(front, db);
      RunKeepsSound(front, db);
      var mid := Run(front, db);
      if last.op.Pay? && DecideOn(last.env, last.op, mid).Ok? {
        PaymentSettles(last.env, last.op, mid);
      } else {
        NonPaymentKeepsSettlement(last.env, last.op, mid);
      }
    }
  }

  lemma {:induction false} PositiveRowsSum(payments: seq<Payment>)
    requires forall p | p in payments :: 0 < p.amount
    ensures |payments| <= Paid(payments)
  {
    if payments != [] {
      PositiveRowsSum(payments[..|payments| - 1]);
      assert payments[|payments| - 1] in payments;
    }
  }

  /** Re-pricing is refused once money is on the order, so a settled check stays settled. */
  lemma NonPaymentKeepsSettlement(env: Env, op: Op, db: Db)
    requires op.Pay? ==> DecideOn(env, op, db).Err?
    requires !op.RefundAll? && !op.RefundPart? && !op.Adjust?
    requires forall p | p in db.order.payments :: 0 < p.amount
    requires db.order.row.paidAt.Some? <==> db.order.payments != [] && Paid(db.order.payments) == db.order.row.total
    ensures var a, b := db.order, Step(env, op, db).order;
      && b.payments == a.payments && b.row.tip == a.row.tip && b.row.paidBy == a.row.paidBy
      && (b.row.paidAt.Some? <==> b.payments != [] && Paid(b.payments) == b.row.total)
      && (op.Pay? ==> b.row.total == a.row.total)
  {
    PositiveRowsSum(db.order.payments);
    assert db.order.payments + [] == db.order.payments;
  }

  // ----- after a full refund

  ghost predicate NoStatusEdit(calls: seq<Call>) { forall c | c in calls :: !c.op.EditStatus? }

  lemma CancelledStepKeepsPayments(env: Env, op: Op, db: Db)
    requires Sound(db.order) && SaneEnv(env) && !op.EditStatus?
    requires db.order.row.status == Cancelled && Paid(db.order.payments) == 0
    ensures Step(env, op, db).order.row.status == Cancelled
    ensures Step(env, op, db).order.payments == db.order.payments
  {
    assert db.order.payments + [] == db.order.payments;
    if op.Adjust? {
      AdjustKeepsSound(env, op, db);
      var r := DecideOn(env, op, db);
      if r.Ok? {
        var priced := Cart.PriceCart(env.menu, op.cart).value;
        Cart.PriceCartAccepts(env.menu, op.cart);
        LinesOfTotal(priced.lines, false);
        LineTotalNonNegative(LinesOf(priced.lines, false));
        assert 0 <= Step(env, op, db).order.row.total;
      }
    }
  }

  /** A cancelled order without money on it never gets another payment row. */
  lemma {:induction false} CancelledRunKeepsPayments(calls: seq<Call>, db: Db)
    requires Sound(db.order) && SaneCalls(calls) && NoStatusEdit(calls)
    requires db.order.row.status == Cancelled && Paid(db.order.payments) == 0
    ensures var o := Run(calls, db).order;
      o.payments == db.order.payments && o.row.status == Cancelled
  {
    if calls != [] {
      var front, last := calls[..|calls| - 1], calls[|calls| - 1];
      assert last in calls;
      CancelledRunKeepsPayments(front, db);
      RunKeepsSound(front, db);
      CancelledStepKeepsPayments(last.env, last.op, Run(front, db));
    }
  }

  /** While a fully refunded order stays cancelled, no step writes another payment row: the money stays at zero. */
  lemma RefundedStaysAtZero(env: Env, refund: Op, db: Db, calls: seq<Call>)
    requires Sound(db.order) && SaneEnv(env) && SaneCalls(calls) && NoStatusEdit(calls)
    requires refund.RefundAll? && DecideOn(env, refund, db).Ok?
    ensures var refunded := Step(env, refund, db);
      var o := Run(calls, refunded).order;
      o.payments == refunded.order.payments && Paid(o.payments) == 0 && o.row.status == Cancelled
  {
    FullRefundNetsToZero(env, refund, db);
    StepKeepsSound(env, refund, db);
    CancelledRunKeepsPayments(calls, Step(env, refund, db));
  }

  // ----- adjustments

  /**
   An accepted adjustment gives back exactly what was paid beyond the new total: the order is left holding the smaller
   of the two, with its tip and status untouched and the discount it saw kept as far as the new subtotal allows.
   */
  lemma AdjustmentSettlesBalance(env: Env, op: Op, db: Db)
    requires op.Adjust? && DecideOn(env, op, db).Ok? && Sound(db.order) && SaneEnv(env)
    ensures var a, b := db.order, Step(env, op, db).order;
      && Paid(b.payments) == Min(Paid(a.payments), b.row.total)
      && a.payments <= b.payments && |b.payments| <= |a.payments| + 1
      && b.row.tip == a.row.tip && b.row.status == a.row.status
      && (0 <= op.discountSeen <= b.row.subtotal ==> b.row.discount == op.discountSeen)
      && (b.row.subtotal < op.discountSeen ==> b.row.discount == b.row.subtotal)
      && (b.row.paidAt.Some? <==> a.row.paidAt.Some? && b.row.total <= Paid(a.payments))
  {
    AdjustKeepsSound(env, op, db);
    var rows := DecideOn(env, op, db).value.writes.payments;
    if rows == [] {
      assert db.order.payments + rows == db.order.payments;
    } else {
      assert rows == [rows[0]];
      PaidPlusOne(db.order.payments, rows[0]);
    }
  }

  // ----- re-pricing a partly paid check can strand it

  /** Paid exactly when there is money on the order and it is the total. */
  ghost predicate PaidIsCovered(o: Order) {
    o.row.paidAt.Some? <==> o.payments != [] && Paid(o.payments) == o.row.total
  }

  /** The total an adjustment arrives at from the discount it saw. */
  function AdjustedTotal(env: Env, row: Row, priced: Cart.PricedCart, discountSeen: int): int {
    var base := priced.subtotal - KeptDiscount(discountSeen, priced.subtotal);
    Max(0, base) + BasisPoints(base as real, TaxBps(env, row.location)) + row.tip
  }

  /** The total a re-pricing would arrive at, worked out before it is asked for. */
  function RepricedTotal(env: Env, op: Op, db: Db): Option<int> {
    var row := db.order.row;
    match op
    case Adjust(_, cart, seen, _) =>
      var priced := Cart.PriceCart(env.menu, cart);
      if priced.Ok? then Some(AdjustedTotal(env, row, priced.value, seen)) else None
    case Append(_, cart) =>
      var r := Reprice(env, cart, LineTotal(db.order.lines), OwnDiscount(row), row);
      if r.Ok? then Some(r.value.bill.total) else None
    case Update(cart, ref) =>
      var r := Reprice(env, cart, 0, ref, row);
      if r.Ok? then Some(r.value.bill.total) else None
    case _ => None
  }

  lemma RepricedTotalIs(env: Env, op: Op, db: Db)
    requires Reprices(env, op, db)
    ensures RepricedTotal(env, op, db) == Some(Step(env, op, db).order.row.total)
  {
  }

  /** A re-pricing that brings an unpaid order with payments down to what is on it. */
  predicate Strands(env: Env, op: Op, db: Db) {
    && Reprices(env, op, db) && db.order.row.paidAt.None? && db.order.payments != []
    && RepricedTotal(env, op, db).Some? && RepricedTotal(env, op, db).value <= Paid(db.order.payments)
  }

  lemma RepricingKeepsCoveredIff(env: Env, op: Op, db: Db)
    requires Reprices(env, op, db) && Sound(db.order) && SaneEnv(env) && PaidIsCovered(db.order)
    ensures PaidIsCovered(Step(env, op, db).order) <==> !Strands(env, op, db)
  {
    RepricedTotalIs(env, op, db);
    StepKeepsSound(env, op, db);
    if op.Adjust? {
      AdjustmentSettlesBalance(env, op, db);
      if db.order.payments == [] { AdjustedEmptyOrder(env, op, db); }
    } else {
      assert db.order.payments + [] == db.order.payments;
    }
  }

  lemma AdjustedEmptyOrder(env: Env, op: Op, db: Db)
    requires op.Adjust? && DecideOn(env, op, db).Ok? && Sound(db.order) && SaneEnv(env) && db.order.payments == []
    ensures Step(env, op, db).order.payments == []
  {
    StepKeepsSound(env, op, db);
    assert db.order.payments + [] == [];
  }

  lemma OtherStepKeepsCovered(env: Env, op: Op, db: Db)
    requires !Reprices(env, op, db) && !op.RefundAll? && !op.RefundPart? && Bounded(db.order) && PaidIsCovered(db.order)
    ensures PaidIsCovered(Step(env, op, db).order)
  {
    if op.Pay? && DecideOn(env, op, db).Ok? {
      PaymentMovesBalance(env, op, db);
    } else {
      assert db.order.payments + [] == db.order.payments;
    }
  }

  ghost predicate NoRefunds(calls: seq<Call>) { forall c | c in calls :: !c.op.RefundAll? && !c.op.RefundPart? }

  ghost predicate CoveredThroughout(calls: seq<Call>, db: Db) {
    PaidIsCovered(Run(calls, db).order) && (calls == [] || CoveredThroughout(calls[..|calls| - 1], db))
  }

  predicate NeverStrands(calls: seq<Call>, db: Db) {
    calls == [] ||
    var front, last := calls[..|calls| - 1], calls[|calls| - 1];
    NeverStrands(front, db) && !Strands(last.env, last.op, Run(front, db))
  }

  /**
   In runs without refunds, an order is paid exactly when it is covered, all the way, if and only if no re-pricing
   strands it.
   */
  lemma {:induction false} PaidIsCoveredUnlessStranded(calls: seq<Call>, db: Db)
    requires Sound(db.order) && SaneCalls(calls) && NoRefunds(calls) && PaidIsCovered(db.order)
    ensures CoveredThroughout(calls, db) <==> NeverStrands(calls, db)
  {
    if calls != [] {
      var front, last := calls[..|calls| - 1], calls[|calls| - 1];
      assert last in calls;
      PaidIsCoveredUnlessStranded(front, db);
      RunKeepsSound(front, db);
      if CoveredThroughout(front, db) {
        CoveredAtEnd(front, db);
        if Reprices(last.env, last.op, Run(front, db)) {
          RepricingKeepsCoveredIff(last.env, last.op, Run(front, db));
        } else {
          OtherStepKeepsCovered(last.env, last.op, Run(front, db));
        }
      }
    }
  }

  lemma CoveredAtEnd(calls: seq<Call>, db: Db)
    requires CoveredThroughout(calls, db)
    ensures PaidIsCovered(Run(calls, db).order)
  {
  }

  /** A stranded order refuses every payment without a tip and every partial refund, although money is on it. */
  lemma StrandedOrderIsStuck(env: Env, op: Op, db: Db, later: Env, next: Op)
    requires Strands(env, op, db) && Sound(db.order) && SaneEnv(env)
    requires next.RefundPart? || (next.Pay? && next.tipAmount.GetOr(0) <= 0)
    ensures DecideOn(later, next, Step(env, op, db)).Err?
  {
    RepricedTotalIs(env, op, db);
    StepKeepsSound(env, op, db);
    if op.Adjust? {
      AdjustmentSettlesBalance(env, op, db);
    } else {
      assert db.order.payments + [] == db.order.payments;
    }
  }

  /**
   Half of a dollar is paid, then the dollar's worth is adjusted to half: nothing is owed and the order is not paid.
   */
  lemma HalfPaidThenHalved(env: Env, db: Db)
    requires env.menu == Cart.Menu(map["a" := Cart.MenuItem(50, false)], map[], []) && env.rates == map[]
    requires db.order.payments == [Payment(Cash, 50, 0, None, None)] && db.order.row.paidBy == Single(Cash)
    requires db.order.row.paidAt.None? && db.order.row.tip == 0 && db.order.row.status == Confirmed
    ensures var op := Adjust(true, [Cart.CartLine("a", 1, [], None, None)], 0, Single(Cash));
      var after := Step(env, op, db);
      && after.order.row.total == 50 == Paid(after.order.payments) && after.order.row.paidAt.None?
      && DecideOn(env, Pay(Cash, None, None, None, 0), after) == Err(NoRemainingBalance)
      && DecideOn(env, RefundPart(true, 1), after) == Err(NotPaid)
  {
    HalfDollarCart(env);
    assert db.order.payments == [] + [db.order.payments[0]];
    PaidPlusOne([], db.order.payments[0]);
    assert db.order.payments + [] == db.order.payments;
  }

  /**
   An adjustment of a valid cart goes through exactly when the check it saw was not split or nothing is to be given
   back.
   */
  lemma AdjustmentAcceptedIff(env: Env, op: Op, db: Db)
    requires op.Adjust?
    ensures DecideOn(env, op, db).Ok? <==>
      && op.pinOk && Cart.PriceCart(env.menu, op.cart).Ok?
      && var priced := Cart.PriceCart(env.menu, op.cart).value;
      && Insertable(LinesOf(priced.lines, false))
      && (op.labelSeen != Split || Paid(db.order.payments) <= AdjustedTotal(env, db.order.row, priced, op.discountSeen))
  {
  }

  /**
   An order can take a payment without a tip exactly when something is owed: one with nothing to pay never becomes
   paid.
   */
  lemma TipFreePaymentAcceptedIff(db: Db)
    requires db.order.row.paidAt.None? && db.order.row.status != Cancelled
    ensures (exists env, op: Op :: op.Pay? && op.tipAmount.GetOr(0) <= 0 && DecideOn(env, op, db).Ok?)
      <==> Paid(db.order.payments) < db.order.row.total
  {
    if Paid(db.order.payments) < db.order.row.total {
      var env := Env(Cart.Menu(map[], map[], []), map[], map[], map[], false);
      assert DecideOn(env, Pay(Card, None, None, None, 0), db).Ok?;
    }
  }

  // ----- refunds of split checks

  /** A partial refund within the balance of a paid order goes through exactly when the check was not split. */
  lemma PartialRefundAcceptedIff(env: Env, op: Op, db: Db)
    requires op.RefundPart? && op.pinOk && db.order.row.status != Cancelled && db.order.row.paidAt.Some?
    requires op.refund <= Paid(db.order.payments)
    ensures DecideOn(env, op, db).Ok? <==> db.order.row.paidBy != Split
    ensures DecideOn(env, op, db).Ok? ==> Paid(Step(env, op, db).order.payments) == Paid(db.order.payments) - op.refund
  {
    if DecideOn(env, op, db).Ok? {
      var rows := DecideOn(env, op, db).value.writes.payments;
      assert rows == [rows[0]];
      PaidPlusOne(db.order.payments, rows[0]);
    }
  }

  lemma HalfInCash(env: Env, db: Db)
    requires db.order.payments == [] && db.order.row.total == 100
    requires db.order.row.paidAt.None? && db.order.row.status == Confirmed
    ensures var o := Step(env, Pay(Cash, Some(50), None, None, 0), db).order;
      && o.payments == [Payment(Cash, 50, 0, None, None)] && o.row.total == 100
      && o.row.paidAt.None? && o.row.status == Confirmed
  {
  }

  lemma RestByCard(env: Env, db: Db)
    requires db.order.payments == [Payment(Cash, 50, 0, None, None)] && db.order.row.total == 100
    requires db.order.row.paidAt.None? && db.order.row.status == Confirmed
    ensures var o := Step(env, Pay(Card, None, None, None, 0), db).order;
      Paid(o.payments) == 100 && o.row.paidAt.Some? && o.row.status == Confirmed && o.row.paidBy == Split
  {
    var cash, card := Payment(Cash, 50, 0, None, None), Payment(Card, 50, 0, None, None);
    PaidPlusOne([], cash);
    PaidPlusOne([cash], card);
    assert [] + [cash] == [cash];
    assert LabelOf([cash] + [card]) == Split by { assert card in [cash] + [card] && ([cash] + [card])[0] == cash; }
    assert DecidePay(Pay(Card, None, None, None, 0), db.order.row, [cash])
        == Ok(Decision(PayWrites(db.order.row, Split, card, 100, true, 0), PaidReceipt(50, None, 0, true)));
  }

  /** Half in cash and half by card: the check is paid, one cent of it is refundable, and the refund is refused. */
  lemma SplitCheckRefusesPartialRefund(env: Env, db: Db)
    requires db.order.payments == [] && db.order.row.total == 100
    requires db.order.row.paidAt.None? && db.order.row.status == Confirmed
    ensures var cash := Step(env, Pay(Cash, Some(50), None, None, 0), db);
      var card := Step(env, Pay(Card, None, None, None, 0), cash);
      && Paid(card.order.payments) == 100 && card.order.row.paidAt.Some?
      && DecideOn(env, RefundPart(true, 1), card) == Err(ConstraintViolated)
      && DecideOn(env, RefundAll(true), card).Ok?
  {
    HalfInCash(env, db);
    RestByCard(env, Step(env, Pay(Cash, Some(50), None, None, 0), db));
  }

  /** The same check cannot be adjusted down to half: the row giving back the rest is refused, and all with it. */
  lemma SplitCheckRefusesAdjustment(env: Env, db: Db)
    requires env.menu == Cart.Menu(map["a" := Cart.MenuItem(50, false)], map[], []) && env.rates == map[]
    requires db.order.payments == [] && db.order.row.total == 100 && db.order.row.tip == 0
    requires db.order.row.paidAt.None? && db.order.row.status == Confirmed
    ensures var cash := Step(env, Pay(Cash, Some(50), None, None, 0), db);
      var card := Step(env, Pay(Card, None, None, None, 0), cash);
      var cart := [Cart.CartLine("a", 1, [], None, None)];
      && card.order.row.paidBy == Split && Paid(card.order.payments) == 100
      && DecideOn(env, Adjust(true, cart, 0, card.order.row.paidBy), card) == Err(ConstraintViolated)
      && DecideOn(env, Adjust(true, cart, 0, Single(Cash)), card).Ok?
  {
    var cash := Step(env, Pay(Cash, Some(50), None, None, 0), db);
    HalfInCash(env, db);
    RestByCard(env, cash);
    var card := Step(env, Pay(Card, None, None, None, 0), cash);
    var line := Cart.CartLine("a", 1, [], None, None);
    HalfDollarCart(env);
    AdjustmentAcceptedIff(env, Adjust(true, [line], 0, Split), card);
    AdjustmentAcceptedIff(env, Adjust(true, [line], 0, Single(Cash)), card);
    assert card.order.row.tip == 0;
  }

  lemma HalfDollarCart(env: Env)
    requires env.menu == Cart.Menu(map["a" := Cart.MenuItem(50, false)], map[], []) && env.rates == map[]
    ensures var priced := Cart.PricedCart([Cart.PricedLine("a", 1, 50, [], None, false)], 50);
      && Cart.PriceCart(env.menu, [Cart.CartLine("a", 1, [], None, None)]) == Ok(priced)
      && Insertable(LinesOf(priced.lines, false))
      && forall row: Row | row.tip == 0 :: AdjustedTotal(env, row, priced, 0) == 50
  {
    var line := Cart.CartLine("a", 1, [], None, None);
    Cart.PlainLinePriced(env.menu, [], line, Cart.PricedCart([], 0));
    var priced := Cart.PricedLine("a", 1, 50, [], None, false);
    assert [] + [line] == [line] && [] + [priced] == [priced];
    assert LinesOf([priced], false) == [Line("a", 1, 50, None, None)];
    Tender.NoChargeWithoutRate(50);
  }
}
