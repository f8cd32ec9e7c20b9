/**
 One order as the database holds it, and what each service step decides to write. A step reads
 the order row, its payments, its lines and the claimed mutation keys, and either throws or
 produces the writes of its transaction; `Apply` carries the writes out.
 */
module Orders {
  import opened Money
  import opened Wrappers
  import Cart
  import Tender

  type Key = string
  type LocationId = string
  type DiscountId = string
  type Time = nat

  /** Amounts the request validators require to be at least one cent. */
  type Cents1 = amount: int | 1 <= amount witness 1

  datatype Status = Pending | Confirmed | Preparing | Ready | Completed | Cancelled | Refunded

  datatype Method = Cash | Card | GiftCard | StoreCredit | OtherTender

  /** The order row's own payment method column. `Split` is not a legal method of a payments row. */
  datatype Label = Unlabelled | Single(tender: Method) | Split

  datatype Payment = Payment(
    tender: Method, amount: int, tip: int, cashReceived: Option<int>, changeGiven: Option<int>)

  datatype Line = Line(item: Cart.ItemId, quantity: int, price: int, course: Option<int>, firedAt: Option<Time>)

  datatype Row = Row(
    location: LocationId, ticket: int, status: Status,
    subtotal: int, discount: int, tax: int, tip: int, serviceCharge: int, redeemed: int, total: int,
    discountId: Option<DiscountId>, paidBy: Label, paidAt: Option<Time>, byCourse: bool)

  datatype Order = Order(row: Row, payments: seq<Payment>, lines: seq<Line>)

  /** One order together with the organization's table of claimed mutation keys. */
  datatype Db = Db(order: Order, claims: set<Key>)

  datatype DiscountRow = DiscountRow(id: DiscountId, discount: Tender.Discount, requiresManager: bool)

  /** How a request names a discount; only active rows are in the tables. */
  datatype DiscountRef = NoDiscount | ById(id: DiscountId) | ByCode(code: string)

  datatype Rates = Rates(taxBps: int, serviceBps: int)

  /** What a request reads besides the order: menu, rates, discounts, and the caller's role. */
  datatype Env = Env(
    menu: Cart.Menu, rates: map<LocationId, Rates>,
    discounts: map<DiscountId, DiscountRow>, codes: map<string, DiscountRow>, isManager: bool)

  datatype Op =
    | Pay(tender: Method, amount: Option<int>, cashReceived: Option<int>, tipAmount: Option<int>, now: Time)
    | RefundAll(pinOk: bool)
    | RefundPart(pinOk: bool, refund: Cents1)
    | Adjust(pinOk: bool, cart: seq<Cart.CartLine>, discountSeen: int, labelSeen: Label)
    | Append(key: Option<Key>, cart: seq<Cart.CartLine>)
    | Update(cart: seq<Cart.CartLine>, discountRef: DiscountRef)
    | Fire(key: Option<Key>, course: int, now: Time)
    | EditStatus(status: Status)

  /** The client key a mutation is claimed under. */
  function MutationKeyOf(op: Op): Option<Key> {
    if op.Append? then op.key else if op.Fire? then op.key else None
  }

  datatype Error =
    | AlreadyPaid | OrderCancelled | NoRemainingBalance | AmountNotPositive | CashShort
    | BadPin | NotPaid | NoRefundableBalance | RefundExceedsBalance
    | NotEditable | HasPayments | EmptyCart | BadCart(error: Cart.CartError)
    | DiscountNotFound | ManagerRequired | ConstraintViolated

  datatype Receipt =
    | PaidReceipt(applied: int, change: Option<int>, remaining: int, covered: bool)
    | RefundReceipt
    | EditReceipt
    | FireReceipt(stamped: bool)
    | Replayed

  datatype LineWrite =
    | KeepLines
    | AddLines(added: seq<Line>)
    | ReplaceLines(lines: seq<Line>)
    | StampCourse(course: int, at: Time)

  /** The columns one transaction sets, the rows it inserts, and the key it claims. */
  datatype Writes = Writes(
    bill: Option<Bill>, tip: Option<int>, total: Option<int>, paidBy: Option<Label>,
    paidAt: Option<Option<Time>>, status: Option<Status>,
    payments: seq<Payment>, lines: LineWrite, claim: Option<Key>)

  datatype Bill = Bill(subtotal: int, discount: int, tax: int, discountId: Option<DiscountId>)

  const NO_WRITES := Writes(None, None, None, None, None, None, [], KeepLines, None)

  datatype Decision = Decision(writes: Writes, receipt: Receipt)

  // ----- sums

  /** `sum(payments.amount)`. */
  function Paid(payments: seq<Payment>): int {
    if payments == [] then 0 else Paid(payments[..|payments| - 1]) + payments[|payments| - 1].amount
  }

  function LineTotal(lines: seq<Line>): int {
    if lines == [] then 0
    else LineTotal(lines[..|lines| - 1]) + lines[|lines| - 1].price * lines[|lines| - 1].quantity
  }

  lemma {:induction false} PaidAppend(a: seq<Payment>, b: seq<Payment>)
    ensures Paid(a + b) == Paid(a) + Paid(b)
  {
    if b == [] {
      assert a + b == a;
    } else {
      PaidAppend(a, b[..|b| - 1]);
      assert (a + b)[..|a + b| - 1] == a + b[..|b| - 1];
    }
  }

  lemma PaidPlusOne(a: seq<Payment>, p: Payment)
    ensures Paid(a + [p]) == Paid(a) + p.amount
  {
    assert (a + [p])[..|a|] == a;
  }

  lemma {:induction false} LineTotalAppend(a: seq<Line>, b: seq<Line>)
    ensures LineTotal(a + b) == LineTotal(a) + LineTotal(b)
  {
    if b == [] {
      assert a + b == a;
    } else {
      LineTotalAppend(a, b[..|b| - 1]);
      assert (a + b)[..|a + b| - 1] == a + b[..|b| - 1];
    }
  }

  // ----- reading the environment

  function TaxBps(env: Env, location: LocationId): int {
    if location in env.rates then env.rates[location].taxBps else 0
  }

  function ResolveDiscount(env: Env, ref: DiscountRef): Result<Option<DiscountRow>, Error> {
    var found := match ref
      case NoDiscount => None
      case ById(id) => if id in env.discounts then Some(env.discounts[id]) else None
      case ByCode(code) => if code in env.codes then Some(env.codes[code]) else None;
    if ref == NoDiscount then Ok(None)
    else if found.None? then Err(DiscountNotFound)
    else if found.value.requiresManager && !env.isManager then Err(ManagerRequired)
    else Ok(found)
  }

  function DiscountOf(row: Option<DiscountRow>): Option<Tender.Discount> {
    if row.Some? then Some(row.value.discount) else None
  }

  /** Whether the line table's check constraints accept the rows. */
  predicate Insertable(lines: seq<Line>) {
    forall l | l in lines :: 0 <= l.price && 0 < l.quantity
  }

  function LinesOf(priced: seq<Cart.PricedLine>, keepCourse: bool): seq<Line> {
    seq(|priced|, i requires 0 <= i < |priced| =>
      Line(priced[i].item, priced[i].quantity, priced[i].price, if keepCourse then priced[i].course else None, None))
  }

  // ----- what each step decides

  function LabelOf(payments: seq<Payment>): Label {
    if payments == [] then Unlabelled
    else if forall p | p in payments :: p.tender == payments[0].tender then Single(payments[0].tender)
    else Split
  }

  predicate Editable(status: Status) { status == Pending || status == Confirmed }

  function DecidePay(op: Op, row: Row, payments: seq<Payment>): Result<Decision, Error>
    requires op.Pay?
  {
    var prior := Paid(payments);
    var tip := Max(0, op.tipAmount.GetOr(0));
    var newTotal := row.total + tip;
    var remaining := newTotal - prior;
    var requested := op.amount.GetOr(remaining);
    var applied := Min(requested, remaining);
    var received := if op.tender == Cash then op.cashReceived else None;
    var change := if received.Some? then Some(received.value - applied) else None;
    var covers := prior + applied >= newTotal;
    var payment := Payment(op.tender, applied, tip, received, change);
    if row.paidAt.Some? then Err(AlreadyPaid)
    else if row.status == Cancelled then Err(OrderCancelled)
    else if remaining <= 0 then Err(NoRemainingBalance)
    else if requested <= 0 then Err(AmountNotPositive)
    else if received.Some? && received.value < applied then Err(CashShort)
    else
      Ok(Decision(
        PayWrites(row, LabelOf(payments + [payment]), payment, newTotal, covers, op.now),
        PaidReceipt(applied, change, remaining - applied, covers)))
  }

  /** What a payment writes: its row, the tip and total with it, and the paid stamp once it covers the total. */
  function PayWrites(row: Row, paidBy: Label, payment: Payment, newTotal: int, covers: bool, now: Time): Writes {
    NO_WRITES.(
      tip := Some(row.tip + payment.tip), total := Some(newTotal), paidBy := Some(paidBy),
      paidAt := if covers then Some(Some(now)) else None,
      status := if covers then Some(if row.status == Pending then Confirmed else row.status) else None,
      payments := [payment])
  }

  /** The reversing row of a payment of which `amount` is given back; a zero cash figure is not mirrored. */
  function Mirror(p: Payment, amount: int): Payment {
    var whole := amount == p.amount;
    Payment(p.tender, -amount, if whole then -p.tip else 0,
            if whole then Negated(p.cashReceived) else None,
            if whole then Negated(p.changeGiven) else None)
  }

  function Negated(x: Option<int>): Option<int> {
    if x.Some? && x.value != 0 then Some(-x.value) else None
  }

  /** The refund rows for giving back `remaining`, taking payments in order. */
  function RefundRows(payments: seq<Payment>, remaining: int): seq<Payment> {
    if payments == [] then []
    else if payments[0].amount <= 0 || remaining <= 0 then RefundRows(payments[1..], remaining)
    else
      var amount := Min(payments[0].amount, remaining);
      [Mirror(payments[0], amount)] + RefundRows(payments[1..], remaining - amount)
  }

  function DecideRefundAll(op: Op, row: Row, payments: seq<Payment>): Result<Decision, Error>
    requires op.RefundAll?
  {
    if !op.pinOk then Err(BadPin)
    else if row.status == Cancelled then Err(OrderCancelled)
    else if row.paidAt.None? && row.paidBy == Unlabelled then Err(NotPaid)
    else if Paid(payments) <= 0 then Err(NoRefundableBalance)
    else
      Ok(Decision(
        NO_WRITES.(status := Some(Cancelled), payments := RefundRows(payments, Paid(payments))),
        RefundReceipt))
  }

  /** The method of a refund row written against an order, or a refused insert when the label is no legal method. */
  function RefundMethod(paidBy: Label): Result<Method, Error> {
    match paidBy
    case Unlabelled => Ok(Cash)
    case Single(m) => Ok(m)
    case Split => Err(ConstraintViolated)
  }

  function DecideRefundPart(op: Op, row: Row, payments: seq<Payment>): Result<Decision, Error>
    requires op.RefundPart?
  {
    if !op.pinOk then Err(BadPin)
    else if row.status == Cancelled then Err(OrderCancelled)
    else if row.paidAt.None? then Err(NotPaid)
    else if op.refund > Paid(payments) then Err(RefundExceedsBalance)
    else
      match RefundMethod(row.paidBy)
      case Err(e) => Err(e)
      case Ok(tender) =>
        Ok(Decision(NO_WRITES.(payments := [Payment(tender, 0 - op.refund, 0, None, None)]), RefundReceipt))
  }

  /** The discount an adjustment keeps: the amount it saw before it took the lock, capped by the new subtotal. */
  function KeptDiscount(seen: int, subtotal: int): int {
    Tender.DiscountAmount(if seen > 0 then Some(Tender.Discount(Tender.FixedOff, seen)) else None, subtotal)
  }

  /** What an adjustment writes once its cart is priced. */
  function AdjustWith(env: Env, op: Op, row: Row, net: int, priced: Cart.PricedCart): Result<Decision, Error>
    requires op.Adjust?
  {
    var lines := LinesOf(priced.lines, false);
    var subtotal := priced.subtotal;
    var discount := KeptDiscount(op.discountSeen, subtotal);
    var base := subtotal - discount;
    var tax := BasisPoints(base as real, TaxBps(env, row.location));
    var total := Max(0, base) + tax + row.tip;
    var writes := NO_WRITES.(
      bill := Some(Bill(subtotal, discount, tax, row.discountId)), total := Some(total),
      paidAt := Some(if Max(0, total - net) > 0 then None else row.paidAt),
      lines := ReplaceLines(lines));
    if !Insertable(lines) then Err(ConstraintViolated)
    else if total >= net then Ok(Decision(writes, EditReceipt))
    else
      match RefundMethod(op.labelSeen)
      case Err(e) => Err(e)
      case Ok(tender) =>
        Ok(Decision(writes.(payments := [Payment(tender, -Min(net, net - total), 0, None, None)]), EditReceipt))
  }

  function DecideAdjust(env: Env, op: Op, row: Row, payments: seq<Payment>): Result<Decision, Error>
    requires op.Adjust?
  {
    if !op.pinOk then Err(BadPin)
    else
      match Cart.PriceCart(env.menu, op.cart)
      case Err(e) => Err(BadCart(e))
      case Ok(priced) => AdjustWith(env, op, row, Paid(payments), priced)
  }

  /** Why a tab can no longer be edited: paid, past confirmation, or carrying money. */
  function EditRefusal(row: Row, payments: seq<Payment>): Option<Error> {
    if row.paidAt.Some? then Some(AlreadyPaid)
    else if !Editable(row.status) then Some(NotEditable)
    else if Paid(payments) > 0 then Some(HasPayments)
    else None
  }

  datatype Repriced = Repriced(lines: seq<Line>, bill: Tender.Tender, discountRow: Option<DiscountRow>)

  /** Price a cart on top of an existing subtotal: the new lines and the whole bill with them. */
  function Reprice(env: Env, cart: seq<Cart.CartLine>, existing: int, ref: DiscountRef, row: Row)
    : Result<Repriced, Error>
  {
    match Cart.PriceCart(env.menu, cart)
    case Err(e) => Err(BadCart(e))
    case Ok(priced) =>
      match ResolveDiscount(env, ref)
      case Err(e) => Err(e)
      case Ok(found) =>
        var lines := LinesOf(priced.lines, true);
        var subtotal := existing + priced.subtotal;
        var discount := Tender.DiscountAmount(DiscountOf(found), subtotal);
        if !Insertable(lines) then Err(ConstraintViolated)
        else Ok(Repriced(lines, Tender.TabTender(subtotal, discount, TaxBps(env, row.location), row.tip), found))
  }

  /** The discount an order already carries; an append resolves it again. */
  function OwnDiscount(row: Row): DiscountRef {
    if row.discountId.Some? then ById(row.discountId.value) else NoDiscount
  }

  /** What an append or an update writes: its bill, its lines, the claimed key. */
  function EditWrites(bill: Tender.Tender, discountId: Option<DiscountId>, lines: LineWrite,
      claim: Option<Key>): Writes {
    NO_WRITES.(
      bill := Some(Bill(bill.subtotal, bill.discount, bill.tax, discountId)), total := Some(bill.total),
      lines := lines, claim := claim)
  }

  function DecideAppend(env: Env, op: Op, row: Row, payments: seq<Payment>, lines: seq<Line>,
      claims: set<Key>): Result<Decision, Error>
    requires op.Append?
  {
    if op.cart == [] then Err(EmptyCart)
    else if op.key.Some? && op.key.value in claims then Ok(Decision(NO_WRITES, Replayed))
    else if EditRefusal(row, payments).Some? then Err(EditRefusal(row, payments).value)
    else
      match Reprice(env, op.cart, LineTotal(lines), OwnDiscount(row), row)
      case Err(e) => Err(e)
      case Ok(r) =>
        Ok(Decision(EditWrites(r.bill, row.discountId, AddLines(r.lines), op.key), EditReceipt))
  }

  function DecideUpdate(env: Env, op: Op, row: Row, payments: seq<Payment>): Result<Decision, Error>
    requires op.Update?
  {
    if op.cart == [] then Err(EmptyCart)
    else if EditRefusal(row, payments).Some? then Err(EditRefusal(row, payments).value)
    else
      match Reprice(env, op.cart, 0, op.discountRef, row)
      case Err(e) => Err(e)
      case Ok(r) =>
        var id := if r.discountRow.Some? then Some(r.discountRow.value.id) else None;
        Ok(Decision(EditWrites(r.bill, id, ReplaceLines(r.lines), None), EditReceipt))
  }

  predicate Waiting(line: Line, course: int) { line.course == Some(course) && line.firedAt.None? }

  function DecideFire(op: Op, row: Row, lines: seq<Line>, claims: set<Key>): Result<Decision, Error>
    requires op.Fire?
  {
    if op.key.Some? && op.key.value in claims then Ok(Decision(NO_WRITES, Replayed))
    else if row.paidAt.Some? then Err(AlreadyPaid)
    else if !Editable(row.status) then Err(NotEditable)
    else
      Ok(Decision(
        NO_WRITES.(lines := StampCourse(op.course, op.now), claim := op.key),
        FireReceipt(exists l | l in lines :: Waiting(l, op.course))))
  }

  /** What a step decides from what it has read. */
  function Decide(env: Env, op: Op, row: Row, payments: seq<Payment>, lines: seq<Line>,
      claims: set<Key>): Result<Decision, Error> {
    match op
    case Pay(_, _, _, _, _) => DecidePay(op, row, payments)
    case RefundAll(_) => DecideRefundAll(op, row, payments)
    case RefundPart(_, _) => DecideRefundPart(op, row, payments)
    case Adjust(_, _, _, _) => DecideAdjust(env, op, row, payments)
    case Append(_, _) => DecideAppend(env, op, row, payments, lines, claims)
    case Update(_, _) => DecideUpdate(env, op, row, payments)
    case Fire(_, _, _) => DecideFire(op, row, lines, claims)
    case EditStatus(status) => Ok(Decision(NO_WRITES.(status := Some(status)), EditReceipt))
  }

  // ----- carrying the writes out

  function Stamped(line: Line, course: int, at: Time): Line {
    if Waiting(line, course) then line.(firedAt := Some(at)) else line
  }

  function StampLines(lines: seq<Line>, course: int, at: Time): seq<Line> {
    seq(|lines|, i requires 0 <= i < |lines| => Stamped(lines[i], course, at))
  }

  function ApplyRow(row: Row, w: Writes): Row {
    var billed := if w.bill.Some? then
        row.(subtotal := w.bill.value.subtotal, discount := w.bill.value.discount, tax := w.bill.value.tax,
             discountId := w.bill.value.discountId)
      else row;
    billed.(tip := w.tip.GetOr(row.tip), total := w.total.GetOr(row.total), paidBy := w.paidBy.GetOr(row.paidBy),
            paidAt := w.paidAt.GetOr(row.paidAt), status := w.status.GetOr(row.status))
  }

  function ApplyLines(lines: seq<Line>, w: LineWrite): seq<Line> {
    match w
    case KeepLines => lines
    case AddLines(added) => lines + added
    case ReplaceLines(replacement) => replacement
    case StampCourse(course, at) => StampLines(lines, course, at)
  }

  function Apply(db: Db, w: Writes): Db {
    Db(Order(ApplyRow(db.order.row, w), db.order.payments + w.payments, ApplyLines(db.order.lines, w.lines)),
       if w.claim.Some? then db.claims + {w.claim.value} else db.claims)
  }

  function DecideOn(env: Env, op: Op, db: Db): Result<Decision, Error> {
    Decide(env, op, db.order.row, db.order.payments, db.order.lines, db.claims)
  }

  /** One whole step: a step that throws leaves everything as it was. */
  function Step(env: Env, op: Op, db: Db): Db {
    match DecideOn(env, op, db)
    case Ok(d) => Apply(db, d.writes)
    case Err(_) => db
  }

  /** A request and the menu, rates and role in force when it is served. */
  datatype Call = Call(env: Env, op: Op)

  function Run(calls: seq<Call>, db: Db): Db {
    if calls == [] then db
    else
      var last := calls[|calls| - 1];
      Step(last.env, last.op, Run(calls[..|calls| - 1], db))
  }
}
