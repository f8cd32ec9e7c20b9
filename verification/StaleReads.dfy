/** Adjustments read an order's discount and payment label before they have its lock: when that matters. */
module StaleReads {
  import opened Concurrency
  import opened LedgerSafety
  import opened Orders
  import opened Wrappers
  import Cart
  import LedgerRuns
  import Money
  import Tender

  // ----- the reads outside the lock

  lemma NextKeepsCalls(s: Sys, s': Sys, t: Tid)
    requires Next(s, s') && t in s'.txs
    ensures t in s.txs
    ensures !s.txs[t].phase.Fresh? ==> s'.txs[t].call == s.txs[t].call && !s'.txs[t].phase.Fresh?
    ensures s.txs[t].phase.Fresh? && !s'.txs[t].phase.Fresh? ==> Arrive(s, s', t)
  {
    var u: Tid :| Arrive(s, s', u) || Acquire(s, s', u) || Read(s, s', u) || Issue(s, s', u) || Commit(s, s', u)
        || Crash(s, s', u);
    if Issue(s, s', u) && DecideFrom(s.txs[u].call, s.txs[u].phase).Ok? { assert s'.txs == s.txs[u := s'.txs[u]]; }
  }

  /**
   In every interleaving an adjustment works with the discount and the label the order had when it arrived, however long
   it has waited for the lock.
   */
  lemma {:induction false} AdjustmentsReadAtArrival(run: seq<Sys>, t: Tid) returns (k: nat)
    requires Behavior(run) && t in run[|run| - 1].txs
    requires run[|run| - 1].txs[t].call.op.Adjust? && !run[|run| - 1].txs[t].phase.Fresh?
    ensures k + 1 < |run| && Arrive(run[k], run[k + 1], t)
    ensures var op, seen := run[|run| - 1].txs[t].call.op, run[k].db.order.row;
      op.discountSeen == seen.discount && op.labelSeen == seen.paidBy
  {
    var n := |run| - 1;
    if n > 0 {
      NextKeepsCalls(run[n - 1], run[n], t);
      if run[n - 1].txs[t].phase.Fresh? {
        k := n - 1;
      } else {
        k := AdjustmentsReadAtArrival(run[..n], t);
      }
    }
  }

  /**
   Both adjustments are refused: for the cart, or because they saw a split check and money would have to be given
   back.
   */
  predicate BothRefused(env: Env, cart: seq<Cart.CartLine>, a: int, seenA: Label, b: int, seenB: Label, db: Db) {
    || Cart.PriceCart(env.menu, cart).Err?
    || (var priced, net := Cart.PriceCart(env.menu, cart).value, Paid(db.order.payments);
        || !Insertable(LinesOf(priced.lines, false))
        || (&& seenA == Split && LedgerRuns.AdjustedTotal(env, db.order.row, priced, a) < net
            && seenB == Split && LedgerRuns.AdjustedTotal(env, db.order.row, priced, b) < net))
  }

  /**
   What an adjustment does depends only on the discount it keeps and, if it gives money back, on the method it saw.
   */
  predicate SameAdjustment(env: Env, cart: seq<Cart.CartLine>, a: int, seenA: Label, b: int, seenB: Label, db: Db) {
    Cart.PriceCart(env.menu, cart).Ok? &&
    var priced, net := Cart.PriceCart(env.menu, cart).value, Paid(db.order.payments);
    && Money.Min(priced.subtotal, Money.Max(0, a)) == Money.Min(priced.subtotal, Money.Max(0, b))
    && (net <= LedgerRuns.AdjustedTotal(env, db.order.row, priced, a) || RefundMethod(seenA) == RefundMethod(seenB))
  }

  lemma KeptDiscountIs(seen: int, subtotal: int)
    requires 0 <= subtotal
    ensures KeptDiscount(seen, subtotal) == Money.Min(subtotal, Money.Max(0, seen))
  {
  }

  lemma InsertableSubtotal(env: Env, cart: seq<Cart.CartLine>)
    requires Cart.PriceCart(env.menu, cart).Ok?
    requires Insertable(LinesOf(Cart.PriceCart(env.menu, cart).value.lines, false))
    ensures 0 <= Cart.PriceCart(env.menu, cart).value.subtotal
  {
    Cart.PriceCartAccepts(env.menu, cart);
    LinesOfTotal(Cart.PriceCart(env.menu, cart).value.lines, false);
    LineTotalNonNegative(LinesOf(Cart.PriceCart(env.menu, cart).value.lines, false));
  }

  lemma AdjustWithAgreesIff(env: Env, x: Op, y: Op, row: Row, net: int, priced: Cart.PricedCart)
    requires x.Adjust? && y.Adjust? && Insertable(LinesOf(priced.lines, false)) && 0 <= priced.subtotal
    ensures var t := LedgerRuns.AdjustedTotal(env, row, priced, x.discountSeen);
      var u := LedgerRuns.AdjustedTotal(env, row, priced, y.discountSeen);
      AdjustWith(env, x, row, net, priced) == AdjustWith(env, y, row, net, priced) <==>
      || (x.labelSeen == Split && t < net && y.labelSeen == Split && u < net)
      || (&& KeptDiscount(x.discountSeen, priced.subtotal) == KeptDiscount(y.discountSeen, priced.subtotal)
          && (net <= t || RefundMethod(x.labelSeen) == RefundMethod(y.labelSeen)))
  {
    var r, q := AdjustWith(env, x, row, net, priced), AdjustWith(env, y, row, net, priced);
    if r.Ok? && q.Ok? {
      assert r.value.writes.bill.value.discount == KeptDiscount(x.discountSeen, priced.subtotal);
      assert q.value.writes.bill.value.discount == KeptDiscount(y.discountSeen, priced.subtotal);
      if net > LedgerRuns.AdjustedTotal(env, row, priced, x.discountSeen) {
        assert RefundMethod(x.labelSeen) == Ok(r.value.writes.payments[0].tender);
      }
      if net > LedgerRuns.AdjustedTotal(env, row, priced, y.discountSeen) {
        assert RefundMethod(y.labelSeen) == Ok(q.value.writes.payments[0].tender);
      }
    }
  }

  /**
   An adjustment that read discount and label before the lock does what one reading them under the lock would do exactly
   when both are refused, or both keep the same discount and, if money is given back, by the same method.
   */
  lemma StaleReadsHarmlessIff(env: Env, cart: seq<Cart.CartLine>, a: int, seenA: Label, b: int, seenB: Label, db: Db)
    ensures DecideOn(env, Adjust(true, cart, a, seenA), db) == DecideOn(env, Adjust(true, cart, b, seenB), db)
      <==> BothRefused(env, cart, a, seenA, b, seenB, db) || SameAdjustment(env, cart, a, seenA, b, seenB, db)
  {
    var x, y := Adjust(true, cart, a, seenA), Adjust(true, cart, b, seenB);
    if Cart.PriceCart(env.menu, cart).Ok? {
      var priced := Cart.PriceCart(env.menu, cart).value;
      if Insertable(LinesOf(priced.lines, false)) {
        InsertableSubtotal(env, cart);
        KeptDiscountIs(a, priced.subtotal);
        KeptDiscountIs(b, priced.subtotal);
        AdjustWithAgreesIff(env, x, y, db.order.row, Paid(db.order.payments), priced);
      }
    }
  }

  /**
   A stale discount alone is harmless exactly when both are refused or both discounts agree once held between zero and
   the new subtotal.
   */
  lemma StaleDiscountHarmlessIff(env: Env, cart: seq<Cart.CartLine>, before: int, after: int, seen: Label, db: Db)
    ensures (DecideOn(env, Adjust(true, cart, before, seen), db) == DecideOn(env, Adjust(true, cart, after, seen), db))
      <==>
      || BothRefused(env, cart, before, seen, after, seen, db)
      || Money.Min(Cart.PriceCart(env.menu, cart).value.subtotal, Money.Max(0, before))
         == Money.Min(Cart.PriceCart(env.menu, cart).value.subtotal, Money.Max(0, after))
  {
    StaleReadsHarmlessIff(env, cart, before, seen, after, seen, db);
  }

  /**
   A stale label alone matters exactly when money is given back by another method, or refused to one and given to the
   other.
   */
  lemma StaleLabelHarmlessIff(env: Env, cart: seq<Cart.CartLine>, seen: int, before: Label, after: Label, db: Db)
    ensures (DecideOn(env, Adjust(true, cart, seen, before), db) == DecideOn(env, Adjust(true, cart, seen, after), db))
      <==>
      || Cart.PriceCart(env.menu, cart).Err?
      || !Insertable(LinesOf(Cart.PriceCart(env.menu, cart).value.lines, false))
      || Paid(db.order.payments) <= LedgerRuns.AdjustedTotal(env, db.order.row, Cart.PriceCart(env.menu,
          cart).value, seen)
      || RefundMethod(before) == RefundMethod(after)
  {
    StaleReadsHarmlessIff(env, cart, seen, before, seen, after, db);
  }

  // ----- a run in which the discount moves while an adjustment waits

  lemma Extend(run: seq<Sys>, s: Sys) returns (longer: seq<Sys>)
    requires Behavior(run) && Next(run[|run| - 1], s)
    ensures Behavior(longer) && longer == run + [s] && longer[0] == run[0]
  {
    longer := run + [s];
    assert longer[..|longer| - 1] == run;
  }

  /** The waiting transaction takes the free lock and reads everything. */
  lemma ReadAll(run: seq<Sys>, t: Tid) returns (longer: seq<Sys>)
    requires Behavior(run) && run[|run| - 1].holder.None? && t in run[|run| - 1].txs
        && run[|run| - 1].txs[t].phase.Waiting?
    ensures Behavior(longer) && run <= longer
    ensures var s := run[|run| - 1];
      var o := s.db.order;
      longer[|longer| - 1] == s.(holder := Some(t), granted := s.granted + [t],
        txs := s.txs[t := Tx(s.txs[t].call, Reading(Some(o.row), Some(o.payments), Some(o.lines), Some(s.db.claims)))])
  {
    var s := run[|run| - 1];
    var c, o := s.txs[t].call, s.db.order;
    var unread := Tx(c, Reading(None, None, None, None));
    var held := s.(holder := Some(t), granted := s.granted + [t], txs := s.txs[t := unread]);
    assert Acquire(s, held, t);
    longer := Extend(run, held);
    longer := ExtendByRead(longer, s.txs, t, c, Reading(Some(o.row), None, None, None));
    longer := ExtendByRead(longer, s.txs, t, c, Reading(Some(o.row), Some(o.payments), None, None));
    longer := ExtendByRead(longer, s.txs, t, c, Reading(Some(o.row), Some(o.payments), Some(o.lines), None));
    var read := Reading(Some(o.row), Some(o.payments), Some(o.lines), Some(s.db.claims));
    longer := ExtendByRead(longer, s.txs, t, c, read);
  }

  lemma ExtendByRead(run: seq<Sys>, others: map<Tid, Tx>, t: Tid, c: Call, q: Phase) returns (longer: seq<Sys>)
    requires Behavior(run) && t in run[|run| - 1].txs && run[|run| - 1].txs[t].phase.Reading?
    requires run[|run| - 1].txs == others[t := Tx(c, run[|run| - 1].txs[t].phase)]
    requires var s := run[|run| - 1];
      var p, o := s.txs[t].phase, s.db.order;
      || q == p.(row := Some(o.row)) || q == p.(payments := Some(o.payments))
      || q == p.(lines := Some(o.lines)) || q == p.(claims := Some(s.db.claims))
    ensures Behavior(longer) && longer == run + [run[|run| - 1].(txs := others[t := Tx(c, q)])]
  {
    var s := run[|run| - 1];
    assert others[t := Tx(c, q)] == s.txs[t := s.txs[t].(phase := q)];
    assert Read(s, s.(txs := others[t := Tx(c, q)]), t);
    longer := Extend(run, s.(txs := others[t := Tx(c, q)]));
  }

  lemma ExtendByIssue(run: seq<Sys>, others: map<Tid, Tx>, t: Tid, c: Call, d: Decision) returns (longer: seq<Sys>)
    requires Behavior(run) && t in run[|run| - 1].txs
    requires var s := run[|run| - 1];
      var o := s.db.order;
      s.txs == others[t := Tx(c, Reading(Some(o.row), Some(o.payments), Some(o.lines), Some(s.db.claims)))]
    requires DecideOn(c.env, c.op, run[|run| - 1].db) == Ok(d)
    ensures Behavior(longer) && longer == run + [run[|run| - 1].(txs := others[t := Tx(c, Writing(d))])]
  {
    var s := run[|run| - 1];
    assert DecideFrom(c, s.txs[t].phase) == Ok(d);
    assert others[t := Tx(c, Writing(d))] == s.txs[t := s.txs[t].(phase := Writing(d))];
    assert Issue(s, s.(txs := others[t := Tx(c, Writing(d))]), t);
    longer := Extend(run, s.(txs := others[t := Tx(c, Writing(d))]));
  }

  lemma ExtendByCommit(run: seq<Sys>, others: map<Tid, Tx>, t: Tid, c: Call, d: Decision) returns (longer: seq<Sys>)
    requires Behavior(run) && run[|run| - 1].txs == others[t := Tx(c, Writing(d))]
    ensures Behavior(longer)
    ensures var s := run[|run| - 1];
      longer == run + [s.(db := Apply(s.db, d.writes), holder := None, txs := others[t := Tx(c, Committed(d.receipt))])]
  {
    var s := run[|run| - 1];
    var done := s.(db := Apply(s.db, d.writes), holder := None, txs := others[t := Tx(c, Committed(d.receipt))]);
    assert done.txs == s.txs[t := s.txs[t].(phase := Committed(d.receipt))];
    assert Commit(s, done, t);
    longer := Extend(run, done);
  }

  /** A waiting transaction that would be accepted can run by itself to its commit. */
  lemma RunsAlone(run: seq<Sys>, t: Tid, d: Decision) returns (longer: seq<Sys>)
    requires Behavior(run) && run[|run| - 1].holder.None?
    requires t in run[|run| - 1].txs && run[|run| - 1].txs[t].phase.Waiting?
    requires var s := run[|run| - 1]; DecideOn(s.txs[t].call.env, s.txs[t].call.op, s.db) == Ok(d)
    ensures Behavior(longer) && run <= longer
    ensures var s := run[|run| - 1];
      longer[|longer| - 1] == s.(db := Apply(s.db, d.writes), granted := s.granted + [t],
                                 txs := s.txs[t := Tx(s.txs[t].call, Committed(d.receipt))])
  {
    var s := run[|run| - 1];
    longer := ReadAll(run, t);
    longer := ExtendByIssue(longer, s.txs, t, s.txs[t].call, d);
    longer := ExtendByCommit(longer, s.txs, t, s.txs[t].call, d);
  }

  function Ordered(quantity: int): Cart.CartLine { Cart.CartLine("a", quantity, [], None, None) }

  /** One item at a dollar, no tax, and a tab of one of it under ten percent off. */
  ghost predicate TenPercentTab(env: Env, db: Db) {
    && env.menu == Cart.Menu(map["a" := Cart.MenuItem(100, false)], map[], []) && env.rates == map[]
    && env.discounts == map["d" := DiscountRow("d", Tender.Discount(Tender.PercentOff, 10), false)]
    && db.order.payments == [] && db.order.lines == [Line("a", 1, 100, None, None)]
    && db.order.row.discountId == Some("d") && db.order.row.discount == 10 && db.order.row.tip == 0
    && db.order.row.status == Confirmed && db.order.row.paidAt.None? && db.order.row.paidBy == Unlabelled
  }

  lemma Priced(env: Env, db: Db, quantity: int)
    requires TenPercentTab(env, db)
    ensures Cart.PriceCart(env.menu, [Ordered(quantity)])
         == Ok(Cart.PricedCart([Cart.PricedLine("a", quantity, 100, [], None, false)], 100 * quantity))
  {
    Cart.PlainLinePriced(env.menu, [], Ordered(quantity), Cart.PricedCart([], 0));
    assert [] + [Ordered(quantity)] == [Ordered(quantity)];
    var line := Cart.PricedLine("a", quantity, 100, [], None, false);
    assert [] + [line] == [line];
  }

  /** One more of the item brings the tab's discount to twenty cents. */
  lemma AppendDoublesDiscount(env: Env, db: Db)
    requires TenPercentTab(env, db)
    ensures DecideOn(env, Append(None, [Ordered(1)]), db).Ok?
    ensures var after := Apply(db, DecideOn(env, Append(None, [Ordered(1)]), db).value.writes);
      && after.order.row == db.order.row.(subtotal := 200, discount := 20, tax := 0, total := 180)
      && after.order.payments == []
  {
    Priced(env, db, 1);
    assert LinesOf([Cart.PricedLine("a", 1, 100, [], None, false)], true) == [Line("a", 1, 100, None, None)];
    assert db.order.lines[..0] == [];
    assert LineTotal(db.order.lines) == 100;
    assert Tender.DiscountAmount(Some(Tender.Discount(Tender.PercentOff, 10)), 200) == 20;
    Tender.NoChargeWithoutRate(180);
    assert db.order.payments + [] == [];
  }

  /** An adjustment to three of the item keeps whatever discount it saw. */
  lemma AdjustKeepsSeen(env: Env, tab: Db, db: Db, seen: int)
    requires TenPercentTab(env, tab) && db.order.payments == [] && db.order.row.tip == 0 && 0 <= seen <= 300
    ensures DecideOn(env, Adjust(true, [Ordered(3)], seen, Unlabelled), db).Ok?
    ensures var w := DecideOn(env, Adjust(true, [Ordered(3)], seen, Unlabelled), db).value.writes;
      Apply(db, w).order.row.subtotal == 300 && Apply(db, w).order.row.discount == seen
  {
    Priced(env, tab, 3);
    assert LinesOf([Cart.PricedLine("a", 3, 100, [], None, false)], false) == [Line("a", 3, 100, None, None)];
    Tender.NoChargeWithoutRate(300 - seen);
  }

  /** An adjustment and an append arrive; the append gets the lock first and moves the discount from 10 to 20. */
  lemma DiscountMovesMeanwhile(env: Env, db: Db) returns (run: seq<Sys>)
    requires TenPercentTab(env, db)
    ensures Behavior(run) && run[0].db == db
    ensures var s := run[|run| - 1];
      && s.holder.None? && 1 in s.txs && s.txs[1] == Tx(Call(env, Adjust(true, [Ordered(3)], 10, Unlabelled)), Waiting)
      && s.db.order.row.discount == 20 && s.db.order.row.tip == 0 && s.db.order.payments == []
  {
    var adjust, add := Call(env, Adjust(true, [Ordered(3)], 0, Unlabelled)), Call(env, Append(None, [Ordered(1)]));
    var seen := Call(env, Adjust(true, [Ordered(3)], 10, Unlabelled));
    var s0 := Sys(db, None, [], map[1 := Tx(adjust, Fresh), 2 := Tx(add, Fresh)]);
    var s1 := s0.(txs := s0.txs[1 := Tx(seen, Waiting)]);
    var s2 := s1.(txs := s1.txs[2 := Tx(add, Waiting)]);
    run := [s0];
    assert Arrive(s0, s1, 1);
    run := Extend(run, s1);
    assert Arrive(s1, s2, 2);
    run := Extend(run, s2);
    AppendDoublesDiscount(env, db);
    run := RunsAlone(run, 2, DecideOn(env, add.op, db).value);
  }

  /** At `k` an adjustment that saw a discount of 10 waits while the discount is 20; in the end it has left 10. */
  ghost predicate KeepsStaleDiscount(run: seq<Sys>, k: nat, c: Call, tid: Tid) {
    && Behavior(run) && k < |run|
    && run[0].db.order.row.discount == 10 && run[k].db.order.row.discount == 20
    && run[k].holder.None? && tid in run[k].txs && run[k].txs[tid] == Tx(c, Waiting)
    && tid in run[|run| - 1].txs && run[|run| - 1].txs[tid].phase.Committed?
    && run[|run| - 1].db.order.row.discount == 10
  }

  /**
   From any such tab there is a run in which the discount moves: the adjustment arrives when it is 10 cents and gets the
   lock when it is 20. It leaves 10; reading under the lock it would have left 20.
   */
  lemma {:induction false} StaleDiscountKept(env: Env, db: Db)
    requires TenPercentTab(env, db)
    ensures exists run: seq<Sys>, k: nat, c: Call, tid: Tid ::
      KeepsStaleDiscount(run, k, c, tid) && run[0].db == db && c.op.Adjust?
      && Step(env, c.op.(discountSeen := run[k].db.order.row.discount), run[k].db).order.row.discount == 20
  {
    var run := DiscountMovesMeanwhile(env, db);
    var k, s := |run| - 1, run[|run| - 1];
    var c := s.txs[1].call;
    AdjustKeepsSeen(env, db, s.db, 20);
    AdjustKeepsSeen(env, db, s.db, 10);
    var longer := RunsAlone(run, 1, DecideOn(env, c.op, s.db).value);
    assert longer[k] == s && longer[0] == run[0];
    assert KeepsStaleDiscount(longer, k, c, 1);
  }

  // ----- a run in which the payment label moves while an adjustment waits

  /** A dollar, half of it paid in cash. */
  ghost predicate HalfPaidTab(env: Env, db: Db) {
    && env.menu == Cart.Menu(map["a" := Cart.MenuItem(50, false)], map[], []) && env.rates == map[]
    && db.order.payments == [Payment(Cash, 50, 0, None, None)] && db.order.row.paidBy == Single(Cash)
    && db.order.row.total == 100 && db.order.row.tip == 0 && db.order.row.discount == 0
    && db.order.row.paidAt.None? && db.order.row.status == Confirmed
  }

  lemma CardPays(env: Env, db: Db)
    requires HalfPaidTab(env, db)
    ensures DecideOn(env, Pay(Card, None, None, None, 0), db).Ok?
    ensures var o := Apply(db, DecideOn(env, Pay(Card, None, None, None, 0), db).value.writes).order;
      Paid(o.payments) == 100 && o.row.paidBy == Split && o.row.tip == 0
  {
    LedgerRuns.RestByCard(env, db);
  }

  /** An adjustment and a card payment arrive; the card pays first and turns the label from cash to split. */
  lemma LabelMovesMeanwhile(env: Env, db: Db) returns (run: seq<Sys>)
    requires HalfPaidTab(env, db)
    ensures Behavior(run) && run[0].db == db
    ensures var s := run[|run| - 1];
      && s.holder.None? && 1 in s.txs && s.txs[1] == Tx(Call(env, Adjust(true, [Ordered(1)], 0, Single(Cash))), Waiting)
      && s.db.order.row.paidBy == Split && s.db.order.row.tip == 0 && Paid(s.db.order.payments) == 100
  {
    var adjust, pay := Call(env, Adjust(true, [Ordered(1)], 0, Split)), Call(env, Pay(Card, None, None, None, 0));
    var seen := Call(env, Adjust(true, [Ordered(1)], 0, Single(Cash)));
    var s0 := Sys(db, None, [], map[1 := Tx(adjust, Fresh), 2 := Tx(pay, Fresh)]);
    var s1 := s0.(txs := s0.txs[1 := Tx(seen, Waiting)]);
    var s2 := s1.(txs := s1.txs[2 := Tx(pay, Waiting)]);
    run := [s0];
    assert Arrive(s0, s1, 1);
    run := Extend(run, s1);
    assert Arrive(s1, s2, 2);
    run := Extend(run, s2);
    CardPays(env, db);
    run := RunsAlone(run, 2, DecideOn(env, pay.op, db).value);
  }

  /** At `k` an adjustment that saw a cash check waits while the check is split; in the end it has gone through. */
  ghost predicate ActsOnStaleLabel(run: seq<Sys>, k: nat, c: Call, tid: Tid) {
    && Behavior(run) && k < |run|
    && run[0].db.order.row.paidBy == Single(Cash) && run[k].db.order.row.paidBy == Split
    && run[k].holder.None? && tid in run[k].txs && run[k].txs[tid] == Tx(c, Waiting)
    && tid in run[|run| - 1].txs && run[|run| - 1].txs[tid].phase.Committed?
  }

  /**
   From any such tab there is a run in which reading the label under the lock would have refused what goes through.
   */
  lemma {:induction false} StaleLabelActedOn(env: Env, db: Db)
    requires HalfPaidTab(env, db)
    ensures exists run: seq<Sys>, k: nat, c: Call, tid: Tid ::
      ActsOnStaleLabel(run, k, c, tid) && run[0].db == db && c.op.Adjust?
      && DecideOn(env, c.op.(labelSeen := run[k].db.order.row.paidBy), run[k].db) == Err(ConstraintViolated)
  {
    var run := LabelMovesMeanwhile(env, db);
    var k, s := |run| - 1, run[|run| - 1];
    var c := s.txs[1].call;
    LedgerRuns.HalfDollarCart(env);
    LedgerRuns.AdjustmentAcceptedIff(env, c.op, s.db);
    var longer := RunsAlone(run, 1, DecideOn(env, c.op, s.db).value);
    assert longer[k] == s && longer[0] == run[0];
    assert ActsOnStaleLabel(longer, k, c, 1);
  }
}
