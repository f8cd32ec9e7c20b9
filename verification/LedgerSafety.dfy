/** What every step keeps true of an order's money, and what whole runs of steps therefore cannot do. */
module LedgerSafety {
  import opened Money
  import opened Wrappers
  import opened Orders
  import Cart
  import Tender

  /** Rates are validated as non-negative where locations are edited. */
  ghost predicate SaneEnv(env: Env) {
    forall l | l in env.rates :: 0 <= env.rates[l].taxBps && 0 <= env.rates[l].serviceBps
  }

  /** The bill is the sum of its lines, and its parts are in range. */
  ghost predicate BillSound(o: Order) {
    && Insertable(o.lines)
    && o.row.subtotal == LineTotal(o.lines)
    && 0 <= o.row.discount <= o.row.subtotal
    && 0 <= o.row.tax && 0 <= o.row.tip && 0 <= o.row.serviceCharge && 0 <= o.row.redeemed
  }

  function Plain(row: Row): int { row.subtotal - row.discount + row.tax + row.tip }

  /** The total is what the row's own columns add up to. */
  ghost predicate AddsUp(row: Row) { row.total == Plain(row) + row.serviceCharge - row.redeemed }

  /** The total is the bill without service charge and redemption. */
  ghost predicate AddsUpPlain(row: Row) { row.total == Plain(row) }

  /** The payments recorded, refunds taken off, never exceed the total and never go below zero. */
  ghost predicate Bounded(o: Order) { 0 <= Paid(o.payments) <= o.row.total }

  /** A row carrying cash accounts for it: received minus change is the amount, in refunds too. */
  ghost predicate CashBalances(p: Payment) {
    && p.amount != 0
    && (p.cashReceived.Some? ==> p.tender == Cash && p.cashReceived.value - p.changeGiven.GetOr(0) == p.amount)
    && (p.cashReceived.None? ==> p.changeGiven.None?)
    && (0 < p.amount && p.cashReceived.Some? ==> p.changeGiven.Some? && 0 <= p.changeGiven.value)
  }

  ghost predicate Sound(o: Order) {
    && BillSound(o)
    && (AddsUp(o.row) || AddsUpPlain(o.row))
    && Bounded(o)
    && CashSound(o.payments)
  }

  ghost predicate CashSound(payments: seq<Payment>) { forall p | p in payments :: CashBalances(p) }

  lemma CashSoundAppend(a: seq<Payment>, b: seq<Payment>)
    requires CashSound(a) && CashSound(b)
    ensures CashSound(a + b)
  {
  }

  lemma {:induction false} LinesOfTotal(priced: seq<Cart.PricedLine>, keepCourse: bool)
    ensures LineTotal(LinesOf(priced, keepCourse)) == Cart.PricedTotal(priced)
  {
    if priced != [] {
      var front := priced[..|priced| - 1];
      LinesOfTotal(front, keepCourse);
      assert LinesOf(priced, keepCourse)[..|front|] == LinesOf(front, keepCourse);
    }
  }

  lemma InsertablePrices(priced: seq<Cart.PricedLine>, keepCourse: bool)
    requires Insertable(LinesOf(priced, keepCourse))
    ensures forall l | l in priced :: 0 <= l.price && 0 < l.quantity
  {
    var lines := LinesOf(priced, keepCourse);
    forall l | l in priced ensures 0 <= l.price && 0 < l.quantity {
      var i :| 0 <= i < |priced| && priced[i] == l;
      assert lines[i] in lines;
    }
  }

  lemma {:induction false} LineTotalNonNegative(lines: seq<Line>)
    requires Insertable(lines)
    ensures 0 <= LineTotal(lines)
  {
    if lines != [] {
      LineTotalNonNegative(lines[..|lines| - 1]);
      assert lines[|lines| - 1] in lines;
      assert 0 <= lines[|lines| - 1].price * lines[|lines| - 1].quantity;
    }
  }

  lemma {:induction false} StampKeepsTotal(lines: seq<Line>, course: int, at: Time)
    ensures LineTotal(StampLines(lines, course, at)) == LineTotal(lines)
  {
    if lines != [] {
      var front, last := lines[..|lines| - 1], lines[|lines| - 1];
      StampKeepsTotal(front, course, at);
      var after := StampLines(lines, course, at);
      assert after[..|front|] == StampLines(front, course, at);
      assert after[|front|] == Stamped(last, course, at);
    }
  }

  lemma StampKeepsInsertable(lines: seq<Line>, course: int, at: Time)
    ensures Insertable(StampLines(lines, course, at)) <==> Insertable(lines)
  {
    var after := StampLines(lines, course, at);
    if Insertable(lines) {
      forall l | l in after ensures 0 <= l.price && 0 < l.quantity {
        var i :| 0 <= i < |after| && after[i] == l;
        assert lines[i] in lines;
      }
    }
    if Insertable(after) {
      forall l | l in lines ensures 0 <= l.price && 0 < l.quantity {
        var i :| 0 <= i < |lines| && lines[i] == l;
        assert after[i] in after;
      }
    }
  }

  // ----- the refund rows

  /** The payments taken in, leaving refunds out. */
  function TakenIn(payments: seq<Payment>): int {
    if payments == [] then 0 else TakenIn(payments[1..]) + Max(0, payments[0].amount)
  }

  lemma {:induction false} TakenInCoversNet(payments: seq<Payment>)
    ensures Paid(payments) <= TakenIn(payments) && 0 <= TakenIn(payments)
  {
    if payments != [] {
      TakenInCoversNet(payments[1..]);
      PaidAppend([payments[0]], payments[1..]);
      assert [payments[0]] + payments[1..] == payments;
      assert Paid([payments[0]]) == Paid([]) + payments[0].amount;
    }
  }

  /** A non-zero row that gives back one payment, or part of it. */
  ghost predicate Reverses(r: Payment, payments: seq<Payment>) {
    r.amount < 0 && exists p :: p in payments && -r.amount <= p.amount && r == Mirror(p, -r.amount)
  }

  lemma ReversesMore(r: Payment, payments: seq<Payment>)
    requires payments != [] && Reverses(r, payments[1..])
    ensures Reverses(r, payments)
  {
    var p :| p in payments[1..] && -r.amount <= p.amount && r == Mirror(p, -r.amount);
    assert p in payments;
  }

  lemma {:induction false} RefundRowsReverse(payments: seq<Payment>, remaining: int)
    ensures forall r | r in RefundRows(payments, remaining) :: Reverses(r, payments)
  {
    if payments != [] {
      var skip := payments[0].amount <= 0 || remaining <= 0;
      var left := if skip then remaining else remaining - Min(payments[0].amount, remaining);
      RefundRowsReverse(payments[1..], left);
      forall r | r in RefundRows(payments, remaining) ensures Reverses(r, payments) {
        if r in RefundRows(payments[1..], left) {
          ReversesMore(r, payments);
        } else {
          assert payments[0] in payments && r == Mirror(payments[0], Min(payments[0].amount, remaining));
        }
      }
    }
  }

  lemma {:induction false} RefundRowsSum(payments: seq<Payment>, remaining: int)
    requires 0 <= remaining <= TakenIn(payments)
    ensures Paid(RefundRows(payments, remaining)) == -remaining
  {
    if payments != [] {
      TakenInCoversNet(payments[1..]);
      if payments[0].amount <= 0 || remaining <= 0 {
        RefundRowsSum(payments[1..], remaining);
      } else {
        var amount := Min(payments[0].amount, remaining);
        RefundRowsSum(payments[1..], remaining - amount);
        var first := Mirror(payments[0], amount);
        PaidAppend([first], RefundRows(payments[1..], remaining - amount));
        PaidPlusOne([], first);
        assert [] + [first] == [first];
      }
    }
  }

  /** The rows exhaust the balance whenever the payments cover it; each is a true reversal of part of one payment. */
  lemma {:induction false} RefundRowsExhaust(payments: seq<Payment>, remaining: int)
    requires 0 <= remaining <= TakenIn(payments)
    ensures Paid(RefundRows(payments, remaining)) == -remaining
    ensures forall r | r in RefundRows(payments, remaining) :: Reverses(r, payments)
  {
    RefundRowsSum(payments, remaining);
    RefundRowsReverse(payments, remaining);
  }

  lemma RefundRowsBalanceCash(payments: seq<Payment>, remaining: int)
    requires 0 <= remaining <= TakenIn(payments) && CashSound(payments)
    ensures CashSound(RefundRows(payments, remaining))
  {
    RefundRowsExhaust(payments, remaining);
    forall r | r in RefundRows(payments, remaining) ensures CashBalances(r) {
      var p :| p in payments && -r.amount <= p.amount && r == Mirror(p, -r.amount);
      MirrorBalances(p, -r.amount);
    }
  }

  /** A full refund nets the ledger to exactly zero, whatever was refunded before it. */
  lemma FullRefundNetsToZero(env: Env, op: Op, db: Db)
    requires op.RefundAll? && DecideOn(env, op, db).Ok?
    ensures Paid(Step(env, op, db).order.payments) == 0
    ensures Step(env, op, db).order.row.status == Cancelled
    ensures var rows := DecideOn(env, op, db).value.writes.payments;
      rows != [] && forall r | r in rows :: Reverses(r, db.order.payments)
  {
    var payments := db.order.payments;
    TakenInCoversNet(payments);
    RefundRowsExhaust(payments, Paid(payments));
    PaidAppend(payments, RefundRows(payments, Paid(payments)));
  }

  /**
   A mirror row balances its cash; it keeps a change figure exactly when the payment was whole and gave change back.
   */
  lemma MirrorBalances(p: Payment, amount: int)
    requires CashBalances(p) && 0 < amount <= p.amount
    ensures CashBalances(Mirror(p, amount))
    ensures Mirror(p, amount).changeGiven.Some? <==>
      amount == p.amount && p.cashReceived.Some? && p.cashReceived.value != p.amount
  {
  }

  // ----- every step keeps the order sound

  /**
   Writes that leave bill and lines alone keep an order sound if total and tip move together and the rows fit under
   the total.
   */
  lemma PaymentWritesKeepSound(db: Db, w: Writes)
    requires Sound(db.order) && w.bill.None? && w.lines.KeepLines? && CashSound(w.payments)
    requires var row := db.order.row;
      && 0 <= w.tip.GetOr(row.tip) && w.total.GetOr(row.total) - row.total == w.tip.GetOr(row.tip) - row.tip
      && 0 <= Paid(db.order.payments + w.payments) <= w.total.GetOr(row.total)
    ensures Sound(Apply(db, w).order)
  {
    CashSoundAppend(db.order.payments, w.payments);
  }

  /** Writes of a new bill keep an order sound if the bill adds up and the rows fit under its total. */
  lemma BillWritesKeepSound(db: Db, w: Writes)
    requires Sound(db.order) && w.bill.Some? && w.total.Some? && w.tip.None? && CashSound(w.payments)
    requires var lines, bill := ApplyLines(db.order.lines, w.lines), w.bill.value;
      && Insertable(lines) && bill.subtotal == LineTotal(lines) && 0 <= bill.discount <= bill.subtotal && 0 <= bill.tax
      && w.total.value == bill.subtotal - bill.discount + bill.tax + db.order.row.tip
      && 0 <= Paid(db.order.payments + w.payments) <= w.total.value
    ensures Sound(Apply(db, w).order) && AddsUpPlain(Apply(db, w).order.row)
  {
    CashSoundAppend(db.order.payments, w.payments);
  }

  lemma PayKeepsSound(env: Env, op: Op, db: Db)
    requires op.Pay? && Sound(db.order)
    ensures Sound(Step(env, op, db).order)
  {
    if DecideOn(env, op, db).Ok? {
      var w := DecideOn(env, op, db).value.writes;
      assert w.payments == [w.payments[0]] && CashBalances(w.payments[0]);
      PaidPlusOne(db.order.payments, w.payments[0]);
      PaymentWritesKeepSound(db, w);
    }
  }

  lemma RefundAllKeepsSound(env: Env, op: Op, db: Db)
    requires op.RefundAll? && Sound(db.order)
    ensures Sound(Step(env, op, db).order)
  {
    if DecideOn(env, op, db).Ok? {
      var payments := db.order.payments;
      TakenInCoversNet(payments);
      RefundRowsBalanceCash(payments, Paid(payments));
      RefundRowsExhaust(payments, Paid(payments));
      PaidAppend(payments, RefundRows(payments, Paid(payments)));
      PaymentWritesKeepSound(db, DecideOn(env, op, db).value.writes);
    }
  }

  lemma RefundPartKeepsSound(env: Env, op: Op, db: Db)
    requires op.RefundPart? && Sound(db.order)
    ensures Sound(Step(env, op, db).order)
  {
    if DecideOn(env, op, db).Ok? {
      var w := DecideOn(env, op, db).value.writes;
      assert w.payments == [w.payments[0]] && CashBalances(w.payments[0]);
      PaidPlusOne(db.order.payments, w.payments[0]);
      PaymentWritesKeepSound(db, w);
    }
  }

  /** What an adjustment writes: a bill that adds up, and at most one row, giving back exactly what exceeds it. */
  lemma AdjustBill(env: Env, op: Op, row: Row, net: int, priced: Cart.PricedCart)
    requires op.Adjust? && AdjustWith(env, op, row, net, priced).Ok? && SaneEnv(env)
    requires 0 <= net && 0 <= row.tip && 0 <= priced.subtotal
    ensures var w := AdjustWith(env, op, row, net, priced).value.writes;
      && w.bill.Some? && w.total.Some? && w.tip.None? && w.lines == ReplaceLines(LinesOf(priced.lines, false))
      && Insertable(LinesOf(priced.lines, false))
      && var bill, total := w.bill.value, w.total.value;
      && bill.subtotal == priced.subtotal && 0 <= bill.discount <= bill.subtotal && 0 <= bill.tax
      && total == bill.subtotal - bill.discount + bill.tax + row.tip
      && (if net <= total then w.payments == []
          else |w.payments| == 1 && w.payments[0].amount == total - net && CashBalances(w.payments[0]))
  {
    var base := priced.subtotal - KeptDiscount(op.discountSeen, priced.subtotal);
    BasisPointsNonNegative(base as real, TaxBps(env, row.location));
  }

  lemma AdjustKeepsSound(env: Env, op: Op, db: Db)
    requires op.Adjust? && Sound(db.order) && SaneEnv(env)
    ensures Sound(Step(env, op, db).order)
    ensures DecideOn(env, op, db).Ok? ==> AddsUpPlain(Step(env, op, db).order.row)
  {
    if DecideOn(env, op, db).Ok? {
      var priced := Cart.PriceCart(env.menu, op.cart).value;
      Cart.PriceCartAccepts(env.menu, op.cart);
      LinesOfTotal(priced.lines, false);
      LineTotalNonNegative(LinesOf(priced.lines, false));
      AdjustBill(env, op, db.order.row, Paid(db.order.payments), priced);
      var w := DecideOn(env, op, db).value.writes;
      if w.payments == [] {
        assert db.order.payments + w.payments == db.order.payments;
      } else {
        assert w.payments == [w.payments[0]];
        PaidPlusOne(db.order.payments, w.payments[0]);
      }
      BillWritesKeepSound(db, w);
    }
  }

  /** Whether a step went through and did something new. */
  ghost predicate Appends(env: Env, op: Op, db: Db) {
    op.Append? && DecideOn(env, op, db).Ok? && DecideOn(env, op, db).value.receipt == EditReceipt
  }

  lemma AppendDecided(env: Env, op: Op, db: Db)
    requires Appends(env, op, db)
    ensures var edit := Reprice(env, op.cart, LineTotal(db.order.lines), OwnDiscount(db.order.row), db.order.row);
      && edit.Ok?
      && Step(env, op, db)
         == Apply(db, EditWrites(edit.value.bill, db.order.row.discountId, AddLines(edit.value.lines), op.key))
  {
  }

  lemma EditApplied(db: Db, bill: Tender.Tender, added: seq<Line>, key: Option<Key>)
    ensures var o := Apply(db, EditWrites(bill, db.order.row.discountId, AddLines(added), key)).order;
      && o.lines == db.order.lines + added && o.payments == db.order.payments
      && o.row == db.order.row.(
           subtotal := bill.subtotal, discount := bill.discount, tax := bill.tax, total := bill.total)
  {
    assert db.order.payments + [] == db.order.payments;
  }

  lemma RepricedCart(env: Env, cart: seq<Cart.CartLine>, existing: int, ref: DiscountRef, row: Row)
    requires Reprice(env, cart, existing, ref, row).Ok?
    ensures Cart.PriceCart(env.menu, cart).Ok? && ResolveDiscount(env, ref).Ok?
    ensures var r := Reprice(env, cart, existing, ref, row).value;
      && Insertable(r.lines) && r.lines == LinesOf(Cart.PriceCart(env.menu, cart).value.lines, true)
      && var subtotal, found := existing + LineTotal(r.lines), ResolveDiscount(env, ref).value;
      var discount := Tender.DiscountAmount(DiscountOf(found), subtotal);
      r.bill == Tender.TabTender(subtotal, discount, TaxBps(env, row.location), row.tip)
  {
    Cart.PriceCartAccepts(env.menu, cart);
    LinesOfTotal(Cart.PriceCart(env.menu, cart).value.lines, true);
  }

  /** An append keeps the existing lines, adds priced ones behind them, and re-prices their sum. */
  lemma {:induction false} AppendResult(env: Env, op: Op, db: Db) returns (added: seq<Line>, discount: int)
    requires Appends(env, op, db)
    ensures Insertable(added)
    ensures Cart.PriceCart(env.menu, op.cart).Ok?
    ensures added == LinesOf(Cart.PriceCart(env.menu, op.cart).value.lines, true)
    ensures var o, row := Step(env, op, db).order, db.order.row;
      var subtotal := LineTotal(db.order.lines + added);
      var t := Tender.TabTender(subtotal, discount, TaxBps(env, row.location), row.tip);
      && o.lines == db.order.lines + added && o.payments == db.order.payments
      && o.row == row.(subtotal := subtotal, discount := discount, tax := t.tax, total := t.total)
    ensures var found := ResolveDiscount(env, OwnDiscount(db.order.row));
      found.Ok? && discount == Tender.DiscountAmount(DiscountOf(found.value), LineTotal(db.order.lines + added))
  {
    var existing, ref := LineTotal(db.order.lines), OwnDiscount(db.order.row);
    AppendDecided(env, op, db);
    RepricedCart(env, op.cart, existing, ref, db.order.row);
    var edit := Reprice(env, op.cart, existing, ref, db.order.row).value;
    added, discount := edit.lines, edit.bill.discount;
    LineTotalAppend(db.order.lines, added);
    EditApplied(db, edit.bill, added, op.key);
  }

  lemma RepriceSound(env: Env, cart: seq<Cart.CartLine>, existing: int, ref: DiscountRef, row: Row)
    requires Reprice(env, cart, existing, ref, row).Ok? && SaneEnv(env) && 0 <= existing && 0 <= row.tip
    ensures var r := Reprice(env, cart, existing, ref, row).value;
      && Insertable(r.lines) && r.bill.subtotal == existing + LineTotal(r.lines)
      && 0 <= r.bill.discount <= r.bill.subtotal && 0 <= r.bill.tax && 0 <= r.bill.total
      && r.bill.total == r.bill.subtotal - r.bill.discount + r.bill.tax + row.tip
  {
    var r := Reprice(env, cart, existing, ref, row).value;
    Cart.PriceCartAccepts(env.menu, cart);
    LinesOfTotal(Cart.PriceCart(env.menu, cart).value.lines, true);
    LineTotalNonNegative(r.lines);
    Tender.TabTenderBounds(r.bill.subtotal, r.bill.discount, TaxBps(env, row.location), row.tip);
  }

  lemma AppendKeepsSound(env: Env, op: Op, db: Db)
    requires op.Append? && Sound(db.order) && SaneEnv(env)
    ensures Sound(Step(env, op, db).order)
    ensures Appends(env, op, db) ==> AddsUpPlain(Step(env, op, db).order.row)
  {
    var a := db.order;
    assert a.payments + [] == a.payments;
    var edit := Reprice(env, op.cart, LineTotal(a.lines), OwnDiscount(a.row), a.row);
    if Appends(env, op, db) {
      LineTotalNonNegative(a.lines);
      RepriceSound(env, op.cart, LineTotal(a.lines), OwnDiscount(a.row), a.row);
      LineTotalAppend(a.lines, edit.value.lines);
      BillWritesKeepSound(db, DecideOn(env, op, db).value.writes);
    }
  }

  lemma UpdateKeepsSound(env: Env, op: Op, db: Db)
    requires op.Update? && Sound(db.order) && SaneEnv(env)
    ensures Sound(Step(env, op, db).order)
    ensures DecideOn(env, op, db).Ok? ==> AddsUpPlain(Step(env, op, db).order.row)
  {
    var a := db.order;
    assert a.payments + [] == a.payments;
    if DecideOn(env, op, db).Ok? {
      RepriceSound(env, op.cart, 0, op.discountRef, a.row);
      BillWritesKeepSound(db, DecideOn(env, op, db).value.writes);
    }
  }

  lemma FireOrEditKeepsSound(env: Env, op: Op, db: Db)
    requires (op.Fire? || op.EditStatus?) && Sound(db.order)
    ensures Sound(Step(env, op, db).order)
  {
    if op.Fire? {
      StampKeepsTotal(db.order.lines, op.course, op.now);
      StampKeepsInsertable(db.order.lines, op.course, op.now);
    }
    assert db.order.payments + [] == db.order.payments;
  }

  lemma StepKeepsSound(env: Env, op: Op, db: Db)
    requires Sound(db.order) && SaneEnv(env)
    ensures Sound(Step(env, op, db).order)
  {
    match op
    case Pay(_, _, _, _, _) => PayKeepsSound(env, op, db);
    case RefundAll(_) => RefundAllKeepsSound(env, op, db);
    case RefundPart(_, _) => RefundPartKeepsSound(env, op, db);
    case Adjust(_, _, _, _) => AdjustKeepsSound(env, op, db);
    case Append(_, _) => AppendKeepsSound(env, op, db);
    case Update(_, _) => UpdateKeepsSound(env, op, db);
    case Fire(_, _, _) => FireOrEditKeepsSound(env, op, db);
    case EditStatus(_) => FireOrEditKeepsSound(env, op, db);
  }

  ghost predicate SaneCalls(calls: seq<Call>) { forall c | c in calls :: SaneEnv(c.env) }

  /** In every reachable state the payments recorded lie between zero and the total, and the bill is its lines. */
  lemma {:induction false} RunKeepsSound(calls: seq<Call>, db: Db)
    requires Sound(db.order) && SaneCalls(calls)
    ensures Sound(Run(calls, db).order)
  {
    if calls != [] {
      var last := calls[|calls| - 1];
      assert last in calls;
      RunKeepsSound(calls[..|calls| - 1], db);
      StepKeepsSound(last.env, last.op, Run(calls[..|calls| - 1], db));
    }
  }
}
