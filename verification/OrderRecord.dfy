/** The order service's steps as they run: one method a step, writing the rows in place. */
module OrderRecords {
  import opened LedgerSafety
  import opened Money
  import opened Orders
  import opened Wrappers
  import Cart
  import Tender

  /** A decision is carried out in full and acknowledged, or thrown with nothing changed. */
  ghost predicate CarriedOut(decided: Result<Decision, Error>, before: Db, after: Db, result: Result<Receipt, Error>) {
    match decided
    case Ok(d) => after == Apply(before, d.writes) && result == Ok(d.receipt)
    case Err(e) => after == before && result == Err(e)
  }

  lemma CarriedOutIsStep(env: Env, op: Op, before: Db, after: Db, result: Result<Receipt, Error>)
    requires CarriedOut(DecideOn(env, op, before), before, after, result)
    ensures after == Step(env, op, before)
  {
  }

  /** The refund loop: walk the payments, mirror what is left of the balance, never more than a payment's own amount. */
  method ReversePayments(payments: seq<Payment>, balance: int) returns (rows: seq<Payment>)
    ensures rows == RefundRows(payments, balance)
  {
    var remaining := balance;
    rows := [];
    for n := 0 to |payments|
      invariant rows + RefundRows(payments[n..], remaining) == RefundRows(payments, balance)
    {
      var p := payments[n];
      assert payments[n..][0] == p && payments[n..][1..] == payments[n + 1..];
      if p.amount <= 0 || remaining <= 0 {
        continue;
      }
      var amount := Min(p.amount, remaining);
      assert rows + ([Mirror(p, amount)] + RefundRows(payments[n + 1..], remaining - amount))
          == (rows + [Mirror(p, amount)]) + RefundRows(payments[n + 1..], remaining - amount);
      remaining := remaining - amount;
      rows := rows + [Mirror(p, amount)];
    }
    assert payments[|payments|..] == [];
  }

  /**
   One order in the tables: its row, its payment and line rows, and of the organization the claimed mutation keys and
   the counted stock.
   */
  class OrderRecord {
    var row: Row
    var payments: seq<Payment>
    var lines: seq<Line>
    var claims: set<Key>
    var stock: Cart.Stock

    ghost function State(): Db
      reads this
    {
      Db(Order(row, payments, lines), claims)
    }

    constructor (row: Row, lines: seq<Line>, claims: set<Key>, stock: Cart.Stock)
      ensures State() == Db(Order(row, [], lines), claims) && this.stock == stock
    {
      this.row := row;
      payments := [];
      this.lines := lines;
      this.claims := claims;
      this.stock := stock;
    }

    method RecordPayment(env: Env, tender: Method, amount: Option<int>, cash: Option<int>, tipAmount: Option<int>,
        now: Time)
      returns (result: Result<Receipt, Error>)
      modifies this`row, this`payments, this`lines, this`claims
      ensures CarriedOut(
        DecideOn(env, Pay(tender, amount, cash, tipAmount, now), old(State())), old(State()), State(), result)
    {
      if row.paidAt.Some? { return Err(AlreadyPaid); }
      if row.status == Cancelled { return Err(OrderCancelled); }
      var priorPaid := Paid(payments);
      var tip := Max(0, tipAmount.GetOr(0));
      var newTotal := row.total + tip;
      var remainingBefore := newTotal - priorPaid;
      if remainingBefore <= 0 { return Err(NoRemainingBalance); }
      var requested := if amount.Some? then amount.value else remainingBefore;
      if requested <= 0 { return Err(AmountNotPositive); }
      var applied := Min(requested, remainingBefore);
      var received, change, short := CountCash(tender, cash, applied);
      if short { return Err(CashShort); }
      var coversTotal := priorPaid + applied >= newTotal;
      var payment := Payment(tender, applied, tip, received, change);
      var receipt := PaidReceipt(applied, change, newTotal - priorPaid - applied, coversTotal);
      assert DecideOn(env, Pay(tender, amount, cash, tipAmount, now), State())
          == Ok(Decision(PayWrites(row, LabelOf(payments + [payment]), payment, newTotal, coversTotal, now), receipt));
      WritePayment(payment, newTotal, coversTotal, now);
      return Ok(receipt);
    }

    /** What was handed over and given back; only a cash payment says. */
    method CountCash(tender: Method, cash: Option<int>, applied: int)
      returns (received: Option<int>, change: Option<int>, short: bool)
      ensures received == if tender == Cash then cash else None
      ensures change == if received.Some? then Some(received.value - applied) else None
      ensures short <==> received.Some? && received.value < applied
    {
      received, change, short := None, None, false;
      if tender == Cash && cash.Some? {
        received, change, short := cash, Some(cash.value - applied), cash.value < applied;
      }
    }

    /** Insert the payment row, then set the order's tip, total and label, and mark it paid when covered. */
    method WritePayment(payment: Payment, newTotal: int, coversTotal: bool, now: Time)
      modifies this`row, this`payments
      ensures State() == Apply(old(State()),
        PayWrites(old(row), LabelOf(old(payments) + [payment]), payment, newTotal, coversTotal, now))
    {
      payments := payments + [payment];
      row := row.(tip := row.tip + payment.tip, total := newTotal, paidBy := LabelOf(payments));
      if coversTotal {
        row := row.(paidAt := Some(now), status := if row.status == Pending then Confirmed else row.status);
      }
    }

    method RefundPaidOrder(env: Env, pinOk: bool) returns (result: Result<Receipt, Error>)
      modifies this`row, this`payments, this`lines, this`claims
      ensures CarriedOut(DecideOn(env, RefundAll(pinOk), old(State())), old(State()), State(), result)
    {
      if !pinOk { return Err(BadPin); }
      if row.status == Cancelled { return Err(OrderCancelled); }
      if row.paidAt.None? && row.paidBy == Unlabelled { return Err(NotPaid); }
      var remaining := Paid(payments);
      if remaining <= 0 { return Err(NoRefundableBalance); }
      row := row.(status := Cancelled);
      var rows := ReversePayments(payments, remaining);
      payments := payments + rows;
      return Ok(RefundReceipt);
    }

    method RefundPartialOrder(env: Env, pinOk: bool, amount: Cents1) returns (result: Result<Receipt, Error>)
      modifies this`row, this`payments, this`lines, this`claims
      ensures CarriedOut(DecideOn(env, RefundPart(pinOk, amount), old(State())), old(State()), State(), result)
    {
      if !pinOk { return Err(BadPin); }
      if row.status == Cancelled { return Err(OrderCancelled); }
      if row.paidAt.None? { return Err(NotPaid); }
      var netPaid := Paid(payments);
      if amount > netPaid { return Err(RefundExceedsBalance); }
      match RefundMethod(row.paidBy) {
        case Err(e) => return Err(e);
        case Ok(tender) =>
          payments := payments + [Payment(tender, 0 - amount, 0, None, None)];
          return Ok(RefundReceipt);
      }
    }

    /** The discount and payment label are those read before the lock was taken. */
    method AdjustOrderItems(env: Env, pinOk: bool, cart: seq<Cart.CartLine>, discountSeen: int, labelSeen: Label)
      returns (result: Result<Receipt, Error>)
      modifies this`row, this`payments, this`lines, this`claims
      ensures CarriedOut(
        DecideOn(env, Adjust(pinOk, cart, discountSeen, labelSeen), old(State())), old(State()), State(), result)
    {
      if !pinOk { return Err(BadPin); }
      var priced := Cart.PriceCartItems(env.menu, cart);
      if priced.Err? { return Err(BadCart(priced.error)); }
      result := WriteAdjustment(env, Adjust(pinOk, cart, discountSeen, labelSeen), priced.value);
    }

    method WriteAdjustment(env: Env, op: Op, priced: Cart.PricedCart) returns (result: Result<Receipt, Error>)
      requires op.Adjust?
      modifies this`row, this`payments, this`lines, this`claims
      ensures CarriedOut(AdjustWith(env, op, old(row), Paid(old(payments)), priced), old(State()), State(), result)
    {
      var discount := KeptDiscount(op.discountSeen, priced.subtotal);
      var netPaid := Paid(payments);
      var base := priced.subtotal - discount;
      var tax := BasisPoints(base as real, TaxBps(env, row.location));
      var total := Max(0, base) + tax + row.tip;
      var newLines := LinesOf(priced.lines, false);
      if !Insertable(newLines) { return Err(ConstraintViolated); }
      if total < netPaid {
        var tender := RefundMethod(op.labelSeen);
        if tender.Err? { return Err(tender.error); }
        payments := payments + [Payment(tender.value, -Min(netPaid, netPaid - total), 0, None, None)];
      }
      row := row.(subtotal := priced.subtotal, discount := discount, tax := tax, total := total,
                  paidAt := if Max(0, total - netPaid) > 0 then None else row.paidAt);
      lines := newLines;
      return Ok(EditReceipt);
    }

    /** The re-pricing an append and an update share: price the cart, resolve the discount, bill everything. */
    method PriceEdit(env: Env, cart: seq<Cart.CartLine>, existing: int, ref: DiscountRef)
      returns (result: Result<Repriced, Error>, items: seq<Cart.PricedLine>)
      ensures result == Reprice(env, cart, existing, ref, row)
      ensures result.Ok? ==> Cart.PriceCart(env.menu, cart).Ok? && items == Cart.PriceCart(env.menu, cart).value.lines
      ensures result.Ok? ==> forall item | item in items :: 0 < item.quantity
    {
      items := [];
      var priced := Cart.PriceCartItems(env.menu, cart);
      if priced.Err? { return Err(BadCart(priced.error)), items; }
      items := priced.value.lines;
      var subtotal := existing + priced.value.subtotal;
      var found := ResolveDiscount(env, ref);
      if found.Err? { return Err(found.error), items; }
      var newLines := LinesOf(items, true);
      if !Insertable(newLines) { return Err(ConstraintViolated), items; }
      InsertablePrices(items, true);
      var discount := Tender.DiscountAmount(DiscountOf(found.value), subtotal);
      var base := subtotal - discount;
      var tax := BasisPoints(base as real, TaxBps(env, row.location));
      var bill := Tender.Tender(subtotal, discount, 0, tax, row.tip, 0, base + tax + row.tip);
      return Ok(Repriced(newLines, bill, found.value)), items;
    }

    /** Set the bill's columns, write the lines, claim the key. */
    method WriteEdit(bill: Tender.Tender, discountId: Option<DiscountId>, write: LineWrite, key: Option<Key>)
      modifies this`row, this`payments, this`lines, this`claims
      ensures State() == Apply(old(State()), EditWrites(bill, discountId, write, key))
    {
      assert payments + [] == payments;
      row := row.(subtotal := bill.subtotal, discount := bill.discount, tax := bill.tax, total := bill.total,
                  discountId := discountId);
      lines := ApplyLines(lines, write);
      if key.Some? { claims := claims + {key.value}; }
    }

    method AppendOrderItems(env: Env, key: Option<Key>, cart: seq<Cart.CartLine>)
      returns (result: Result<Receipt, Error>)
      modifies this
      ensures CarriedOut(DecideOn(env, Append(key, cart), old(State())), old(State()), State(), result)
      ensures stock == if result == Ok(EditReceipt) && Cart.PriceCart(env.menu, cart).Ok?
        then Cart.StockAfter(old(stock), Cart.PriceCart(env.menu, cart).value.lines) else old(stock)
    {
      if cart == [] { return Err(EmptyCart); }
      if key.Some? && key.value in claims { return Ok(Replayed); }
      if row.paidAt.Some? { return Err(AlreadyPaid); }
      if !Editable(row.status) { return Err(NotEditable); }
      if Paid(payments) > 0 { return Err(HasPayments); }
      var edit, items := PriceEdit(env, cart, LineTotal(lines), OwnDiscount(row));
      if edit.Err? { return Err(edit.error); }
      WriteEdit(edit.value.bill, row.discountId, AddLines(edit.value.lines), key);
      stock := Cart.DecrementStock(stock, items);
      return Ok(EditReceipt);
    }

    method UpdateOrderItems(env: Env, cart: seq<Cart.CartLine>, discountRef: DiscountRef)
      returns (result: Result<Receipt, Error>)
      modifies this`row, this`payments, this`lines, this`claims
      ensures CarriedOut(DecideOn(env, Update(cart, discountRef), old(State())), old(State()), State(), result)
    {
      if cart == [] { return Err(EmptyCart); }
      if row.paidAt.Some? { return Err(AlreadyPaid); }
      if !Editable(row.status) { return Err(NotEditable); }
      if Paid(payments) > 0 { return Err(HasPayments); }
      var edit, items := PriceEdit(env, cart, 0, discountRef);
      if edit.Err? { return Err(edit.error); }
      var discountRow := edit.value.discountRow;
      var discountId := if discountRow.Some? then Some(discountRow.value.id) else None;
      WriteEdit(edit.value.bill, discountId, ReplaceLines(edit.value.lines), None);
      return Ok(EditReceipt);
    }

    method FireCourse(env: Env, key: Option<Key>, course: int, now: Time) returns (result: Result<Receipt, Error>)
      modifies this`row, this`payments, this`lines, this`claims
      ensures CarriedOut(DecideOn(env, Fire(key, course, now), old(State())), old(State()), State(), result)
    {
      if key.Some? && key.value in claims { return Ok(Replayed); }
      if row.paidAt.Some? { return Err(AlreadyPaid); }
      if !Editable(row.status) { return Err(NotEditable); }
      var stamped := false;
      var done: seq<Line> := [];
      for n := 0 to |lines|
        invariant done == StampLines(lines[..n], course, now)
        invariant stamped <==> exists l | l in lines[..n] :: Waiting(l, course)
      {
        assert lines[..n + 1] == lines[..n] + [lines[n]];
        if Waiting(lines[n], course) { stamped := true; }
        done := done + [Stamped(lines[n], course, now)];
      }
      assert lines[..|lines|] == lines;
      lines := done;
      if key.Some? { claims := claims + {key.value}; }
      return Ok(FireReceipt(stamped));
    }

    /** Any status the transition table allows; the table itself is outside the model. */
    method UpdateOrderStatus(env: Env, status: Status) returns (result: Result<Receipt, Error>)
      modifies this`row, this`payments, this`lines, this`claims
      ensures CarriedOut(DecideOn(env, EditStatus(status), old(State())), old(State()), State(), result)
    {
      assert payments + [] == payments;
      row := row.(status := status);
      return Ok(EditReceipt);
    }

    /** One request, handed to the method that serves it. */
    method Serve(call: Call) returns (result: Result<Receipt, Error>)
      modifies this
      ensures CarriedOut(DecideOn(call.env, call.op, old(State())), old(State()), State(), result)
    {
      var env := call.env;
      match call.op {
        case Pay(tender, amount, cash, tip, now) => result := RecordPayment(env, tender, amount, cash, tip, now);
        case RefundAll(pinOk) => result := RefundPaidOrder(env, pinOk);
        case RefundPart(pinOk, refund) => result := RefundPartialOrder(env, pinOk, refund);
        case Adjust(pinOk, cart, discount, paidBy) => result := AdjustOrderItems(env, pinOk, cart, discount, paidBy);
        case Append(key, cart) => result := AppendOrderItems(env, key, cart);
        case Update(cart, discountRef) => result := UpdateOrderItems(env, cart, discountRef);
        case Fire(key, course, now) => result := FireCourse(env, key, course, now);
        case EditStatus(status) => result := UpdateOrderStatus(env, status);
      }
    }

    /** Any sequence of requests leaves the record as the run of steps does, so a sound order stays sound. */
    method ServeAll(calls: seq<Call>)
      modifies this
      ensures State() == Run(calls, old(State()))
      ensures Sound(old(State()).order) && SaneCalls(calls) ==> Sound(State().order)
    {
      for n := 0 to |calls|
        invariant State() == Run(calls[..n], old(State()))
      {
        assert calls[..n + 1][..n] == calls[..n];
        ghost var before := State();
        var result := Serve(calls[n]);
        CarriedOutIsStep(calls[n].env, calls[n].op, before, State(), result);
      }
      assert calls[..|calls|] == calls;
      if Sound(old(State()).order) && SaneCalls(calls) { RunKeepsSound(calls, old(State())); }
    }
  }
}
