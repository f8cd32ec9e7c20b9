/** What an append, an update or an adjustment leaves on an order: its lines, its discount, its tax, its refund. */
module Repricing {
  import opened Money
  import opened Wrappers
  import opened Orders
  import opened LedgerSafety
  import opened LedgerRuns
  import Cart
  import CartRules
  import Tender

  // ----- discounts

  /** The active row a request names. */
  ghost predicate Names(env: Env, ref: DiscountRef, d: DiscountRow) {
    match ref
    case NoDiscount => false
    case ById(id) => id in env.discounts && env.discounts[id] == d
    case ByCode(code) => code in env.codes && env.codes[code] == d
  }

  /** A named discount is found exactly when its row is there and, if the row wants a manager, the caller is one. */
  lemma DiscountFoundIff(env: Env, ref: DiscountRef)
    ensures ResolveDiscount(env, ref) == Ok(None) <==> ref.NoDiscount?
    ensures forall d ::
      (ResolveDiscount(env, ref) == Ok(Some(d)) <==> Names(env, ref, d) && (d.requiresManager ==> env.isManager))
    ensures ResolveDiscount(env, ref) == Err(ManagerRequired)
      <==> exists d :: Names(env, ref, d) && d.requiresManager && !env.isManager
    ensures ResolveDiscount(env, ref) == Err(DiscountNotFound)
      <==> !ref.NoDiscount? && !exists d :: Names(env, ref, d)
  {
    if ref.ById? && ref.id in env.discounts {
      assert Names(env, ref, env.discounts[ref.id]);
    } else if ref.ByCode? && ref.code in env.codes {
      assert Names(env, ref, env.codes[ref.code]);
    }
  }

  // ----- the bill

  /** Taxed on the discounted bill at the rate the table has for the order's location, and at none if it has none. */
  ghost predicate TaxedAtOwnRate(env: Env, row: Row) {
    && (row.location in env.rates ==>
          NearExact(row.tax, Tender.ExactShare(row.subtotal - row.discount, env.rates[row.location].taxBps)))
    && (row.location !in env.rates ==> row.tax == 0)
  }

  lemma TaxAtOwnRate(env: Env, row: Row)
    requires row.tax == BasisPoints((row.subtotal - row.discount) as real, TaxBps(env, row.location))
    ensures TaxedAtOwnRate(env, row)
  {
    var base := row.subtotal - row.discount;
    if row.location in env.rates {
      RoundIsNearest(base as real * env.rates[row.location].taxBps as real / 10000.0);
    } else {
      Tender.NoChargeWithoutRate(base);
    }
  }

  /** Every append, update and adjustment that goes through taxes the order at its location's own rate. */
  lemma RepricedAtOwnRate(env: Env, op: Op, db: Db)
    requires Reprices(env, op, db)
    ensures TaxedAtOwnRate(env, Step(env, op, db).order.row)
  {
    TaxIsRounded(env, op, db);
    TaxAtOwnRate(env, Step(env, op, db).order.row);
  }

  lemma TaxIsRounded(env: Env, op: Op, db: Db)
    requires Reprices(env, op, db)
    ensures var row := Step(env, op, db).order.row;
      row.tax == BasisPoints((row.subtotal - row.discount) as real, TaxBps(env, row.location))
  {
    if op.Append? {
      AppendTaxIsRounded(env, op, db);
    } else if op.Update? {
      UpdateTaxIsRounded(env, op, db);
    } else {
      AdjustmentWrites(env, op, db, Cart.PriceCart(env.menu, op.cart).value);
    }
  }

  lemma AppendTaxIsRounded(env: Env, op: Op, db: Db)
    requires Appends(env, op, db)
    ensures var row := Step(env, op, db).order.row;
      row.tax == BasisPoints((row.subtotal - row.discount) as real, TaxBps(env, row.location))
  {
    var added, discount := AppendResult(env, op, db);
  }

  lemma UpdateTaxIsRounded(env: Env, op: Op, db: Db)
    requires op.Update? && DecideOn(env, op, db).Ok?
    ensures var row := Step(env, op, db).order.row;
      row.tax == BasisPoints((row.subtotal - row.discount) as real, TaxBps(env, row.location))
  {
    var edit, after := UpdateOutcome(env, op, db);
  }

  lemma OtherStepKeepsTax(env: Env, op: Op, db: Db, earlier: Env)
    requires !Reprices(env, op, db) && TaxedAtOwnRate(earlier, db.order.row)
    ensures TaxedAtOwnRate(earlier, Step(env, op, db).order.row)
  {
  }

  /** No step of a run behind position `k` re-prices. */
  ghost predicate QuietSince(calls: seq<Call>, db: Db, k: nat) {
    forall j | k < j < |calls| :: !Reprices(calls[j].env, calls[j].op, Run(calls[..j], db))
  }

  lemma QuietLonger(calls: seq<Call>, db: Db, k: nat)
    requires calls != [] && QuietSince(calls[..|calls| - 1], db, k)
    requires var last := calls[|calls| - 1]; !Reprices(last.env, last.op, Run(calls[..|calls| - 1], db))
    ensures QuietSince(calls, db, k)
  {
    forall j | k < j < |calls| ensures !Reprices(calls[j].env, calls[j].op, Run(calls[..j], db)) {
      assert calls[..|calls| - 1][..j] == calls[..j];
    }
  }

  /** After any run, an order's tax is at the rate in force when it was last re-priced, whatever was paid since. */
  lemma {:induction false} TaxIsOfLastRepricing(calls: seq<Call>, db: Db) returns (k: nat)
    requires RepricedBy(calls, db)
    ensures k < |calls| && Reprices(calls[k].env, calls[k].op, Run(calls[..k], db)) && QuietSince(calls, db, k)
    ensures TaxedAtOwnRate(calls[k].env, Run(calls, db).order.row)
  {
    var front, last := calls[..|calls| - 1], calls[|calls| - 1];
    if Reprices(last.env, last.op, Run(front, db)) {
      k := |front|;
      RepricedAtOwnRate(last.env, last.op, Run(front, db));
    } else {
      k := TaxIsOfLastRepricing(front, db);
      assert front[..k] == calls[..k];
      QuietLonger(calls, db, k);
      OtherStepKeepsTax(last.env, last.op, Run(front, db), calls[k].env);
    }
  }

  // ----- what goes on the order

  /** Lines that stand for a cart: item, quantity and price of each in order, nothing fired yet. */
  ghost predicate LinesFrom(menu: Cart.Menu, cart: seq<Cart.CartLine>, keepCourse: bool, lines: seq<Line>) {
    var priced := Cart.PriceCart(menu, cart);
    && priced.Ok? && |lines| == |cart| == |priced.value.lines|
    && forall i | 0 <= i < |cart| ::
         && lines[i].item == cart[i].item && lines[i].quantity == cart[i].quantity
         && lines[i].price == priced.value.lines[i].price
         && lines[i].course == (if keepCourse then cart[i].course else None) && lines[i].firedAt.None?
  }

  lemma LinesOfCart(menu: Cart.Menu, cart: seq<Cart.CartLine>, keepCourse: bool)
    requires Cart.PriceCart(menu, cart).Ok?
    ensures LinesFrom(menu, cart, keepCourse, LinesOf(Cart.PriceCart(menu, cart).value.lines, keepCourse))
  {
    var priced := Cart.PriceCart(menu, cart).value;
    CartRules.AcceptedCart(menu, cart, priced);
    PricedLinesKept(priced.lines, keepCourse);
  }

  lemma PricedLinesKept(priced: seq<Cart.PricedLine>, keepCourse: bool)
    ensures |LinesOf(priced, keepCourse)| == |priced|
    ensures forall i | 0 <= i < |priced| ::
      LinesOf(priced, keepCourse)[i] == Line(
        priced[i].item, priced[i].quantity, priced[i].price, if keepCourse then priced[i].course else None, None)
  {
  }

  /** The bill of a re-priced row: the sum of its lines, what the discount takes off it, the tax, and the old tip. */
  ghost predicate Billed(env: Env, discount: Option<Tender.Discount>, o: Order) {
    && o.row.subtotal == LineTotal(o.lines) && Tender.TakesOff(discount, o.row.subtotal, o.row.discount)
    && TaxedAtOwnRate(env, o.row) && o.row.total == o.row.subtotal - o.row.discount + o.row.tax + o.row.tip
  }

  lemma BilledIs(env: Env, discount: Option<Tender.Discount>, o: Order)
    requires Insertable(o.lines) && o.row.subtotal == LineTotal(o.lines)
    requires o.row.discount == Tender.DiscountAmount(discount, o.row.subtotal)
    requires o.row.tax == BasisPoints((o.row.subtotal - o.row.discount) as real, TaxBps(env, o.row.location))
    requires o.row.total == o.row.subtotal - o.row.discount + o.row.tax + o.row.tip
    ensures Billed(env, discount, o)
  {
    LineTotalNonNegative(o.lines);
    Tender.DiscountTakes(discount, o.row.subtotal);
    TaxAtOwnRate(env, o.row);
  }

  lemma BilledAnew(env: Env, discount: Option<Tender.Discount>, o: Order, row: Row, t: Tender.Tender)
    requires Insertable(o.lines)
    requires t == Tender.TabTender(
      LineTotal(o.lines), Tender.DiscountAmount(discount, LineTotal(o.lines)), TaxBps(env, row.location), row.tip)
    requires o.row == row.(subtotal := t.subtotal, discount := t.discount, tax := t.tax, total := t.total)
    ensures Billed(env, discount, o)
  {
    BilledIs(env, discount, o);
  }

  /** The discount of an order's own row, and the right to use it. */
  ghost predicate OwnDiscountUsable(env: Env, row: Row) {
    row.discountId.Some? ==>
      && row.discountId.value in env.discounts
      && (env.discounts[row.discountId.value].requiresManager ==> env.isManager)
  }

  lemma OwnDiscountIs(env: Env, row: Row)
    ensures ResolveDiscount(env, OwnDiscount(row)).Ok? <==> OwnDiscountUsable(env, row)
    ensures OwnDiscountUsable(env, row) ==>
      DiscountOf(ResolveDiscount(env, OwnDiscount(row)).value)
      == if row.discountId.Some? then Some(env.discounts[row.discountId.value].discount) else None
  {
  }

  /** An order still open for editing: unpaid, not past confirmation, and without money on it. */
  ghost predicate Open(o: Order) {
    o.row.paidAt.None? && (o.row.status == Pending || o.row.status == Confirmed) && Paid(o.payments) <= 0
  }

  /** A cart that is priced, and whose prices and quantities the line table takes. */
  ghost predicate Sellable(menu: Cart.Menu, cart: seq<Cart.CartLine>) {
    Cart.PriceCart(menu, cart).Ok? &&
    forall p | p in Cart.PriceCart(menu, cart).value.lines :: 0 <= p.price && 0 < p.quantity
  }

  lemma InsertableIff(priced: seq<Cart.PricedLine>, keepCourse: bool)
    ensures Insertable(LinesOf(priced, keepCourse)) <==> forall p | p in priced :: 0 <= p.price && 0 < p.quantity
  {
    if Insertable(LinesOf(priced, keepCourse)) { InsertablePrices(priced, keepCourse); }
  }

  // ----- appends

  /**
   An append goes through exactly with something in its cart, under a key not claimed yet, on an open order, if the cart
   can be sold and the order's own discount is still there and may be used by the caller.
   */
  lemma AppendAcceptedIff(env: Env, op: Op, db: Db)
    requires op.Append?
    ensures Appends(env, op, db) <==>
      && op.cart != [] && !(op.key.Some? && op.key.value in db.claims) && Open(db.order)
      && Sellable(env.menu, op.cart) && OwnDiscountUsable(env, db.order.row)
    ensures DecideOn(env, op, db) == Ok(Decision(NO_WRITES, Replayed)) <==>
      op.cart != [] && op.key.Some? && op.key.value in db.claims
  {
    OwnDiscountIs(env, db.order.row);
    if Cart.PriceCart(env.menu, op.cart).Ok? {
      InsertableIff(Cart.PriceCart(env.menu, op.cart).value.lines, true);
    }
  }

  /** What an append bills: the sum of all lines under the order's own discount. */
  lemma {:induction false} AppendBillsAll(env: Env, op: Op, db: Db)
    requires Appends(env, op, db) && Sound(db.order)
    ensures OwnDiscountUsable(env, db.order.row)
    ensures var id := db.order.row.discountId;
      Billed(env, if id.Some? then Some(env.discounts[id.value].discount) else None, Step(env, op, db).order)
  {
    OwnDiscountIs(env, db.order.row);
    AppendBilled(env, op, db);
  }

  lemma {:induction false} AppendBilled(env: Env, op: Op, db: Db)
    requires Appends(env, op, db) && Insertable(db.order.lines)
    ensures ResolveDiscount(env, OwnDiscount(db.order.row)).Ok?
    ensures Billed(env, DiscountOf(ResolveDiscount(env, OwnDiscount(db.order.row)).value), Step(env, op, db).order)
  {
    var added, discount := AppendResult(env, op, db);
    var row, lines := db.order.row, db.order.lines + added;
    var t := Tender.TabTender(LineTotal(lines), discount, TaxBps(env, row.location), row.tip);
    BilledAnew(env, DiscountOf(ResolveDiscount(env, OwnDiscount(row)).value), Step(env, op, db).order, row, t);
  }

  /** It keeps the lines, adds the cart's behind them with their courses, and touches nothing else but the bill. */
  lemma {:induction false} AppendAddsCart(env: Env, op: Op, db: Db)
    requires Appends(env, op, db)
    ensures var a, b := db.order, Step(env, op, db).order;
      && a.lines <= b.lines && LinesFrom(env.menu, op.cart, true, b.lines[|a.lines|..])
      && b.payments == a.payments
      && b.row == a.row.(
           subtotal := b.row.subtotal, discount := b.row.discount, tax := b.row.tax, total := b.row.total)
  {
    var added, discount := AppendResult(env, op, db);
    LinesOfCart(env.menu, op.cart, true);
    assert Step(env, op, db).order.lines[|db.order.lines|..] == added;
  }

  lemma AppendClaimsKey(env: Env, op: Op, db: Db)
    requires Appends(env, op, db)
    ensures Step(env, op, db).claims == db.claims + (if op.key.Some? then {op.key.value} else {})
  {
    AppendDecided(env, op, db);
  }

  // ----- updates

  /** An update goes through exactly with something in its cart, on an open order, if cart and discount are good. */
  lemma UpdateAcceptedIff(env: Env, op: Op, db: Db)
    requires op.Update?
    ensures DecideOn(env, op, db).Ok? <==>
      && op.cart != [] && Open(db.order) && Sellable(env.menu, op.cart)
      && (op.discountRef.NoDiscount?
          || exists d :: Names(env, op.discountRef, d) && (d.requiresManager ==> env.isManager))
  {
    DiscountFoundIff(env, op.discountRef);
    if Cart.PriceCart(env.menu, op.cart).Ok? {
      InsertableIff(Cart.PriceCart(env.menu, op.cart).value.lines, true);
    }
  }

  lemma UpdateDecided(env: Env, op: Op, db: Db)
    requires op.Update? && DecideOn(env, op, db).Ok?
    ensures var edit := Reprice(env, op.cart, 0, op.discountRef, db.order.row);
      edit.Ok? &&
      var id := if edit.value.discountRow.Some? then Some(edit.value.discountRow.value.id) else None;
      && Step(env, op, db) == Apply(db, EditWrites(edit.value.bill, id, ReplaceLines(edit.value.lines), None))
      && Ok(edit.value.discountRow) == ResolveDiscount(env, op.discountRef)
  {
  }

  lemma ReplacementApplied(db: Db, bill: Tender.Tender, id: Option<DiscountId>, lines: seq<Line>)
    ensures var after := Apply(db, EditWrites(bill, id, ReplaceLines(lines), None));
      && after.order.lines == lines && after.order.payments == db.order.payments && after.claims == db.claims
      && after.order.row == db.order.row.(
           subtotal := bill.subtotal, discount := bill.discount, tax := bill.tax, total := bill.total,
           discountId := id)
  {
    assert db.order.payments + [] == db.order.payments;
  }

  /** An accepted update: what it priced and what it left. */
  lemma {:induction false} UpdateOutcome(env: Env, op: Op, db: Db) returns (edit: Repriced, after: Db)
    requires op.Update? && DecideOn(env, op, db).Ok?
    ensures after == Step(env, op, db) && ResolveDiscount(env, op.discountRef) == Ok(edit.discountRow)
    ensures after.order.lines == edit.lines && after.order.payments == db.order.payments && after.claims == db.claims
    ensures LinesFrom(env.menu, op.cart, true, edit.lines) && Insertable(edit.lines)
    ensures after.order.row == db.order.row.(
      subtotal := edit.bill.subtotal, discount := edit.bill.discount, tax := edit.bill.tax, total := edit.bill.total,
      discountId := if edit.discountRow.Some? then Some(edit.discountRow.value.id) else None)
    ensures edit.bill == Tender.TabTender(
      LineTotal(edit.lines), Tender.DiscountAmount(DiscountOf(edit.discountRow), LineTotal(edit.lines)),
      TaxBps(env, db.order.row.location), db.order.row.tip)
  {
    UpdateDecided(env, op, db);
    edit, after := Reprice(env, op.cart, 0, op.discountRef, db.order.row).value, Step(env, op, db);
    var id := if edit.discountRow.Some? then Some(edit.discountRow.value.id) else None;
    ReplacementApplied(db, edit.bill, id, edit.lines);
    RepricedCart(env, op.cart, 0, op.discountRef, db.order.row);
    LinesOfCart(env.menu, op.cart, true);
  }

  /** It puts the cart in place of the lines, bills it under the discount it names, and notes that discount. */
  lemma {:induction false} UpdateReplacesLines(env: Env, op: Op, db: Db)
    requires op.Update? && DecideOn(env, op, db).Ok?
    ensures var a, b := db.order, Step(env, op, db).order;
      && LinesFrom(env.menu, op.cart, true, b.lines) && b.payments == a.payments
      && b.row == a.row.(
           subtotal := b.row.subtotal, discount := b.row.discount, tax := b.row.tax, total := b.row.total,
           discountId := b.row.discountId)
      && (op.discountRef.NoDiscount? ==> b.row.discountId == None && Billed(env, None, b))
      && (!op.discountRef.NoDiscount? ==>
            exists d :: Names(env, op.discountRef, d) && (d.requiresManager ==> env.isManager)
              && b.row.discountId == Some(d.id) && Billed(env, Some(d.discount), b))
    ensures Step(env, op, db).claims == db.claims
  {
    var edit, after := UpdateOutcome(env, op, db);
    BilledIs(env, DiscountOf(edit.discountRow), after.order);
    DiscountFoundIff(env, op.discountRef);
    if edit.discountRow.Some? { assert Names(env, op.discountRef, edit.discountRow.value); }
  }

  /** Why an edit is refused: the first of these that holds, once a replay is ruled out. */
  lemma EditRefusals(env: Env, op: Op, db: Db)
    requires op.Append? || op.Update?
    requires MutationKeyOf(op).Some? ==> MutationKeyOf(op).value !in db.claims
    ensures var r, o := DecideOn(env, op, db), db.order;
      && (r == Err(EmptyCart) <==> op.cart == [])
      && (r == Err(AlreadyPaid) <==> op.cart != [] && o.row.paidAt.Some?)
      && (r == Err(NotEditable) <==>
            op.cart != [] && o.row.paidAt.None? && o.row.status != Pending && o.row.status != Confirmed)
      && (r == Err(HasPayments) <==>
            && op.cart != [] && o.row.paidAt.None? && (o.row.status == Pending || o.row.status == Confirmed)
            && 0 < Paid(o.payments))
  {
  }

  // ----- adjustments

  /** What an adjustment writes once its cart is priced. */
  lemma {:induction false} AdjustmentWrites(env: Env, op: Op, db: Db, priced: Cart.PricedCart)
    requires op.Adjust? && DecideOn(env, op, db).Ok? && Cart.PriceCart(env.menu, op.cart) == Ok(priced)
    ensures var a, b := db.order, Step(env, op, db).order;
      && b.lines == LinesOf(priced.lines, false) && Insertable(b.lines) && b.row.subtotal == priced.subtotal
      && b.row.discount == KeptDiscount(op.discountSeen, priced.subtotal)
      && b.row.tax == BasisPoints((b.row.subtotal - b.row.discount) as real, TaxBps(env, a.row.location))
      && b.row.total == Max(0, b.row.subtotal - b.row.discount) + b.row.tax + a.row.tip
      && b.row == a.row.(
           subtotal := b.row.subtotal, discount := b.row.discount, tax := b.row.tax, total := b.row.total,
           paidAt := if Paid(a.payments) < b.row.total then None else a.row.paidAt)
      && Step(env, op, db).claims == db.claims
  {
  }

  lemma AdjustmentGivesBack(env: Env, op: Op, db: Db)
    requires op.Adjust? && DecideOn(env, op, db).Ok?
    ensures var a, b := db.order, Step(env, op, db).order;
      b.payments == a.payments + (
        if Paid(a.payments) <= b.row.total then []
        else [Payment(if op.labelSeen.Single? then op.labelSeen.tender else Cash,
                      -Min(Paid(a.payments), Paid(a.payments) - b.row.total), 0, None, None)])
  {
  }

  lemma KeptDiscountIsFixed(seen: int, subtotal: int)
    requires 0 <= subtotal
    ensures KeptDiscount(seen, subtotal)
         == Tender.DiscountAmount(Some(Tender.Discount(Tender.FixedOff, seen)), subtotal)
  {
  }

  lemma {:induction false} AdjustmentBilled(env: Env, op: Op, db: Db, priced: Cart.PricedCart)
    requires op.Adjust? && DecideOn(env, op, db).Ok? && Cart.PriceCart(env.menu, op.cart) == Ok(priced)
    ensures Billed(env, Some(Tender.Discount(Tender.FixedOff, op.discountSeen)), Step(env, op, db).order)
  {
    var o := Step(env, op, db).order;
    AdjustmentWrites(env, op, db, priced);
    CartRules.AcceptedSubtotal(env.menu, op.cart, priced);
    LinesOfTotal(priced.lines, false);
    LineTotalNonNegative(o.lines);
    KeptDiscountIsFixed(op.discountSeen, priced.subtotal);
    BilledIs(env, Some(Tender.Discount(Tender.FixedOff, op.discountSeen)), o);
  }

  /**
   An adjustment puts the cart in place of the lines without courses, keeps what it saw of the discount as far as the
   new subtotal allows, bills the rest, and gives back what was paid beyond it by the method it saw.
   */
  lemma {:induction false} AdjustmentReplacesLines(env: Env, op: Op, db: Db)
    requires op.Adjust? && DecideOn(env, op, db).Ok? && SaneEnv(env) && Sound(db.order)
    ensures var a, b := db.order, Step(env, op, db).order;
      && LinesFrom(env.menu, op.cart, false, b.lines)
      && Billed(env, Some(Tender.Discount(Tender.FixedOff, op.discountSeen)), b)
      && b.row == a.row.(
           subtotal := b.row.subtotal, discount := b.row.discount, tax := b.row.tax, total := b.row.total,
           paidAt := if Paid(a.payments) < b.row.total then None else a.row.paidAt)
      && b.payments == a.payments + (
           if Paid(a.payments) <= b.row.total then []
           else [Payment(if op.labelSeen.Single? then op.labelSeen.tender else Cash,
                         b.row.total - Paid(a.payments), 0, None, None)])
    ensures Step(env, op, db).claims == db.claims
  {
    var priced := Cart.PriceCart(env.menu, op.cart).value;
    AdjustmentWrites(env, op, db, priced);
    AdjustmentGivesBack(env, op, db);
    AdjustKeepsSound(env, op, db);
    LinesOfCart(env.menu, op.cart, false);
    AdjustmentBilled(env, op, db, priced);
  }
}
