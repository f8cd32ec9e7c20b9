/** Growing a tab by appends: nothing is lost and rounding never accumulates. */
module TabGrowth {
  import opened Wrappers
  import opened Orders
  import opened LedgerSafety
  import Cart
  import Tender

  /** Every call is an append that goes through, new to the order. */
  ghost predicate Growing(calls: seq<Call>, db: Db) {
    calls == [] ||
    var front, last := calls[..|calls| - 1], calls[|calls| - 1];
    Growing(front, db) && Appends(last.env, last.op, Run(front, db))
  }

  /** The menu may change between appends; the tax rates and the discounts do not. */
  ghost predicate SameTerms(env: Env, calls: seq<Call>) {
    forall c | c in calls :: c.env.rates == env.rates && c.env.discounts == env.discounts
  }

  /** The lines a call rings in, at the prices of its own menu. */
  function LinesAdded(c: Call): seq<Line> {
    if c.op.Append? && Cart.PriceCart(c.env.menu, c.op.cart).Ok?
    then LinesOf(Cart.PriceCart(c.env.menu, c.op.cart).value.lines, true) else []
  }

  function RungIn(calls: seq<Call>): seq<Line> {
    if calls == [] then [] else RungIn(calls[..|calls| - 1]) + LinesAdded(calls[|calls| - 1])
  }

  /** The order's own discount, looked up without the role check. */
  function OwnTerms(env: Env, row: Row): Option<Tender.Discount> {
    if row.discountId.Some? && row.discountId.value in env.discounts
    then Some(env.discounts[row.discountId.value].discount) else None
  }

  /** The row an order has when all its lines are priced at once. */
  function BilledAtOnce(env: Env, row: Row, lines: seq<Line>): Row {
    var subtotal := LineTotal(lines);
    var discount := Tender.DiscountAmount(OwnTerms(env, row), subtotal);
    var t := Tender.TabTender(subtotal, discount, TaxBps(env, row.location), row.tip);
    row.(subtotal := t.subtotal, discount := t.discount, tax := t.tax, total := t.total)
  }

  lemma AppendBillsAtOnce(env: Env, c: Call, db: Db)
    requires Appends(c.env, c.op, db) && c.env.rates == env.rates && c.env.discounts == env.discounts
    ensures var o := Step(c.env, c.op, db).order;
      && o.lines == db.order.lines + LinesAdded(c) && o.payments == db.order.payments
      && o.row == BilledAtOnce(env, db.order.row, o.lines)
  {
    var added, discount := AppendResult(c.env, c.op, db);
  }

  /** The rows differ in nothing but the columns a bill sets. */
  ghost predicate SameTab(a: Row, b: Row) {
    b == a.(subtotal := b.subtotal, discount := b.discount, tax := b.tax, total := b.total)
  }

  /** Only the last bill counts. */
  lemma BilledAgain(env: Env, a: Row, b: Row, lines: seq<Line>)
    requires SameTab(a, b)
    ensures BilledAtOnce(env, b, lines) == BilledAtOnce(env, a, lines) && SameTab(a, BilledAtOnce(env, a, lines))
  {
  }

  lemma {:induction false} LastAppend(env: Env, calls: seq<Call>, db: Db)
    requires Growing(calls, db) && SameTerms(env, calls) && calls != []
    ensures var before, after := Run(calls[..|calls| - 1], db).order, Run(calls, db).order;
      && after.lines == before.lines + LinesAdded(calls[|calls| - 1]) && after.payments == before.payments
      && after.row == BilledAtOnce(env, before.row, after.lines)
  {
    var last := calls[|calls| - 1];
    assert last in calls;
    AppendBillsAtOnce(env, last, Run(calls[..|calls| - 1], db));
  }

  lemma {:induction false} GrowthBills(env: Env, calls: seq<Call>, db: Db)
    requires Growing(calls, db) && SameTerms(env, calls)
    ensures SameTab(db.order.row, Run(calls, db).order.row)
    ensures calls != [] ==> Run(calls, db).order.row == BilledAtOnce(env, db.order.row, Run(calls, db).order.lines)
  {
    if calls != [] {
      var front, last := calls[..|calls| - 1], calls[|calls| - 1];
      assert last in calls;
      GrowthBills(env, front, db);
      LastAppend(env, calls, db);
      BilledAgain(env, db.order.row, Run(front, db).order.row, Run(calls, db).order.lines);
    }
  }

  lemma Associate(a: seq<Line>, b: seq<Line>, c: seq<Line>)
    ensures a + b + c == a + (b + c)
  {
  }

  lemma {:induction false} GrowthKeepsLines(env: Env, calls: seq<Call>, db: Db)
    requires Growing(calls, db) && SameTerms(env, calls)
    ensures Run(calls, db).order.lines == db.order.lines + RungIn(calls)
    ensures Run(calls, db).order.payments == db.order.payments
  {
    if calls != [] {
      var front, last := calls[..|calls| - 1], calls[|calls| - 1];
      assert last in calls;
      GrowthKeepsLines(env, front, db);
      LastAppend(env, calls, db);
      Associate(db.order.lines, RungIn(front), LinesAdded(last));
    }
  }

  /**
   However the lines are split over appends, they are all there in order and the bill is that of pricing them at once.
   */
  lemma {:induction false} GrownTabIsPricedAtOnce(env: Env, calls: seq<Call>, db: Db)
    requires Growing(calls, db) && SameTerms(env, calls)
    ensures var o := Run(calls, db).order;
      && o.lines == db.order.lines + RungIn(calls)
      && o.payments == db.order.payments
      && (calls != [] ==> o.row == BilledAtOnce(env, db.order.row, o.lines))
  {
    GrowthBills(env, calls, db);
    GrowthKeepsLines(env, calls, db);
  }

  lemma LineTotalAround(a: seq<Line>, x: Line, c: seq<Line>)
    ensures LineTotal(a + [x] + c) == LineTotal(a + c) + x.price * x.quantity
    ensures multiset(a + [x] + c) == multiset(a + c) + multiset{x}
  {
    assert (a + [x])[..|a|] == a;
    LineTotalAppend(a + [x], c);
    LineTotalAppend(a, c);
  }

  lemma CancelOne(a: multiset<Line>, b: multiset<Line>, x: Line)
    requires a + multiset{x} == b + multiset{x}
    ensures a == b
  {
    assert a + multiset{x} - multiset{x} == a && b + multiset{x} - multiset{x} == b;
  }

  lemma SplitAt(lines: seq<Line>, x: Line) returns (a: seq<Line>, c: seq<Line>)
    requires x in lines
    ensures lines == a + [x] + c
  {
    var i :| 0 <= i < |lines| && lines[i] == x;
    a, c := lines[..i], lines[i + 1..];
  }

  lemma {:induction false} LineTotalOfPermutation(a: seq<Line>, b: seq<Line>)
    requires multiset(a) == multiset(b)
    ensures LineTotal(a) == LineTotal(b)
  {
    if a == [] {
      assert |b| == |multiset(b)| == 0;
    } else {
      var front, x := a[..|a| - 1], a[|a| - 1];
      assert a == front + [x] + [] && front + [] == front;
      assert x in a && x in multiset(a);
      var before, after := SplitAt(b, x);
      LineTotalAround(front, x, []);
      LineTotalAround(before, x, after);
      CancelOne(multiset(front), multiset(before + after), x);
      LineTotalOfPermutation(front, before + after);
    }
  }

  /** Two registers that ring in the same lines, in any split and any order, leave the same bill and the same lines. */
  lemma {:induction false} OrderOfAppendsDoesNotMatter(env: Env, ours: seq<Call>, theirs: seq<Call>, db: Db)
    requires Growing(ours, db) && Growing(theirs, db) && SameTerms(env, ours) && SameTerms(env, theirs)
    requires ours != [] && theirs != [] && multiset(RungIn(ours)) == multiset(RungIn(theirs))
    ensures Run(ours, db).order.row == Run(theirs, db).order.row
    ensures multiset(Run(ours, db).order.lines) == multiset(Run(theirs, db).order.lines)
  {
    GrownTabIsPricedAtOnce(env, ours, db);
    GrownTabIsPricedAtOnce(env, theirs, db);
    LineTotalOfPermutation(Run(ours, db).order.lines, Run(theirs, db).order.lines);
  }

  /** What a line adds to a bill, whatever it is of and whether or not it has been fired. */
  function Bare(line: Line): Line { Line("", line.quantity, line.price, None, None) }

  function Bared(lines: seq<Line>): seq<Line> { seq(|lines|, i requires 0 <= i < |lines| => Bare(lines[i])) }

  lemma {:induction false} BaredTotal(lines: seq<Line>)
    ensures LineTotal(Bared(lines)) == LineTotal(lines)
  {
    if lines != [] {
      var front := lines[..|lines| - 1];
      BaredTotal(front);
      assert Bared(lines)[..|front|] == Bared(front);
    }
  }

  lemma UpdateDecided(env: Env, update: Op, db: Db, edit: Repriced)
    requires update.Update? && DecideOn(env, update, db).Ok?
    requires Reprice(env, update.cart, 0, update.discountRef, db.order.row) == Ok(edit)
    ensures var id := if edit.discountRow.Some? then Some(edit.discountRow.value.id) else None;
      Step(env, update, db) == Apply(db, EditWrites(edit.bill, id, ReplaceLines(edit.lines), None))
  {
  }

  /** An order's own discount is found under its own id, or is none. */
  lemma OwnDiscountFound(env: Env, row: Row)
    requires ResolveDiscount(env, OwnDiscount(row)).Ok?
    requires forall id | id in env.discounts :: env.discounts[id].id == id
    ensures var found := ResolveDiscount(env, OwnDiscount(row)).value;
      && DiscountOf(found) == OwnTerms(env, row)
      && row.discountId == (if found.Some? then Some(found.value.id) else None)
  {
  }

  lemma UpdateBillsAtOnce(env: Env, update: Op, db: Db)
    requires update.Update? && DecideOn(env, update, db).Ok? && update.discountRef == OwnDiscount(db.order.row)
    requires forall id | id in env.discounts :: env.discounts[id].id == id
    ensures Step(env, update, db).order.row == BilledAtOnce(env, db.order.row, Step(env, update, db).order.lines)
  {
    var row := db.order.row;
    var edit := Reprice(env, update.cart, 0, update.discountRef, row).value;
    UpdateDecided(env, update, db, edit);
    RepricedCart(env, update.cart, 0, update.discountRef, row);
    OwnDiscountFound(env, row);
    assert edit.discountRow == ResolveDiscount(env, update.discountRef).value;
  }

  /**
   Replacing the lines by the whole cart at once, under the order's own discount, gives the grown tab's bill. The carts
   need only agree on prices and quantities; lines fired meanwhile count like any other.
   */
  lemma {:induction false} GrownTabMatchesUpdate(env: Env, calls: seq<Call>, update: Op, db: Db)
    requires Growing(calls, db) && SameTerms(env, calls) && calls != []
    requires update.Update? && DecideOn(env, update, db).Ok? && update.discountRef == OwnDiscount(db.order.row)
    requires forall id | id in env.discounts :: env.discounts[id].id == id
    requires multiset(Bared(Step(env, update, db).order.lines)) == multiset(Bared(db.order.lines + RungIn(calls)))
    ensures Step(env, update, db).order.row == Run(calls, db).order.row
  {
    GrownTabIsPricedAtOnce(env, calls, db);
    var ours, theirs := Step(env, update, db).order.lines, Run(calls, db).order.lines;
    LineTotalOfPermutation(Bared(ours), Bared(theirs));
    BaredTotal(ours);
    BaredTotal(theirs);
    UpdateBillsAtOnce(env, update, db);
  }
}
