/** Ringing in a register sale: what it owes, and what it does to stock, loyalty points and the order table. */
module Sales {
  import opened Money
  import opened Wrappers
  import opened Orders
  import opened LedgerSafety
  import Cart
  import CartRules
  import Repricing
  import Tender
  import Tickets

  type CustomerId = string

  datatype SaleRequest = SaleRequest(
    location: LocationId, customer: Option<CustomerId>, tender: Option<Method>, tip: Option<int>,
    applyService: bool, redeem: Option<int>, discountRef: DiscountRef, clientKey: Option<Key>,
    byCourse: bool, cart: seq<Cart.CartLine>, now: Time)

  datatype Entry = Entry(order: Order, clientKey: Option<Key>)

  /** The organization's orders in creation order, claimed mutation keys, counted stock and loyalty balances. */
  datatype Store = Store(orders: seq<Entry>, claims: set<Key>, stock: Cart.Stock, loyalty: map<CustomerId, int>)

  datatype SaleError =
    | SaleCartEmpty | LocationNotFound | CustomerNotFound | RedeemNeedsCustomer | NotEnoughPoints(balance: int)
    | SaleRefused(error: Error)

  datatype SaleOutcome = Existing(id: nat) | Created(order: Order, stock: Cart.Stock, loyalty: map<CustomerId, int>)

  // ----- replay and ticket lookups

  /** The order already created under a client key. */
  function FindByKey(orders: seq<Entry>, key: Key): Option<nat> {
    if orders == [] then None
    else if FindByKey(orders[..|orders| - 1], key).Some? then FindByKey(orders[..|orders| - 1], key)
    else if orders[|orders| - 1].clientKey == Some(key) then Some(|orders| - 1)
    else None
  }

  lemma {:induction false} FindByKeyFinds(orders: seq<Entry>, key: Key)
    ensures FindByKey(orders, key).Some? <==> exists e | e in orders :: e.clientKey == Some(key)
    ensures FindByKey(orders, key).Some? ==>
      var id := FindByKey(orders, key).value; id < |orders| && orders[id].clientKey == Some(key)
  {
    if orders != [] {
      var front := orders[..|orders| - 1];
      FindByKeyFinds(front, key);
      assert orders == front + [orders[|orders| - 1]];
    }
  }

  /** The orders as ticket allocation sees them. */
  function IssuedOf(orders: seq<Entry>): seq<Tickets.Issued> {
    seq(|orders|, i requires 0 <= i < |orders| =>
      Tickets.Issued(orders[i].order.row.location, orders[i].order.row.ticket, orders[i].clientKey))
  }

  function NextTicket(orders: seq<Entry>, location: LocationId): int {
    Tickets.MaxTicket(IssuedOf(orders), location) + 1
  }

  // ----- the sale

  function PointsAsked(req: SaleRequest): int { Max(0, req.redeem.GetOr(0)) }

  function RedeemError(req: SaleRequest, loyalty: map<CustomerId, int>): Option<SaleError> {
    if req.customer.Some? && req.customer.value !in loyalty then Some(CustomerNotFound)
    else if PointsAsked(req) > 0 && req.customer.None? then Some(RedeemNeedsCustomer)
    else if PointsAsked(req) > 0 && PointsAsked(req) > loyalty[req.customer.value] then
      Some(NotEnoughPoints(loyalty[req.customer.value]))
    else None
  }

  function SaleBill(req: SaleRequest, rates: Rates, priced: Cart.PricedCart,
      found: Option<DiscountRow>): Tender.Tender {
    var discount := Tender.DiscountAmount(DiscountOf(found), priced.subtotal);
    Tender.SaleTender(priced.subtotal, Cart.TaxableTotal(priced.lines), discount,
      if req.applyService then rates.serviceBps else 0, rates.taxBps, Max(0, req.tip.GetOr(0)), PointsAsked(req))
  }

  /** Course 1 of a coursed sale is stamped at once; everything else waits. */
  function SaleLines(priced: seq<Cart.PricedLine>, byCourse: bool, now: Time): seq<Line> {
    if byCourse then StampLines(LinesOf(priced, true), 1, now) else LinesOf(priced, true)
  }

  function SaleRow(req: SaleRequest, bill: Tender.Tender, found: Option<DiscountRow>, ticket: int): Row {
    Row(req.location, ticket, Confirmed,
        bill.subtotal, bill.discount, bill.tax, bill.tip, bill.serviceCharge, bill.redeemed, bill.total,
        if found.Some? then Some(found.value.id) else None,
        if req.tender.Some? then Single(req.tender.value) else Unlabelled,
        if req.tender.Some? then Some(req.now) else None, req.byCourse)
  }

  /** Points accrue only on sales paid at creation. */
  function PointsEarned(req: SaleRequest, total: int): int {
    if req.tender.Some? then total / 100 else 0
  }

  function LoyaltyAfter(req: SaleRequest, bill: Tender.Tender, loyalty: map<CustomerId, int>): map<CustomerId, int>
    requires req.customer.Some? ==> req.customer.value in loyalty
  {
    var earned := PointsEarned(req, bill.total);
    if req.customer.Some? && (bill.redeemed > 0 || earned > 0) then
      loyalty[req.customer.value := Max(loyalty[req.customer.value] - bill.redeemed + earned, 0)]
    else loyalty
  }

  function DecideSale(env: Env, req: SaleRequest, s: Store): Result<SaleOutcome, SaleError> {
    if req.cart == [] then Err(SaleCartEmpty)
    else if req.clientKey.Some? && FindByKey(s.orders, req.clientKey.value).Some? then
      Ok(Existing(FindByKey(s.orders, req.clientKey.value).value))
    else if req.location !in env.rates then Err(LocationNotFound)
    else if RedeemError(req, s.loyalty).Some? then Err(RedeemError(req, s.loyalty).value)
    else
      match Cart.PriceCart(env.menu, req.cart)
      case Err(e) => Err(SaleRefused(BadCart(e)))
      case Ok(priced) =>
        match ResolveDiscount(env, req.discountRef)
        case Err(e) => Err(SaleRefused(e))
        case Ok(found) =>
          var bill := SaleBill(req, env.rates[req.location], priced, found);
          var lines := SaleLines(priced.lines, req.byCourse, req.now);
          if !Insertable(lines) then Err(SaleRefused(ConstraintViolated))
          else
            Ok(Created(
              Order(SaleRow(req, bill, found, NextTicket(s.orders, req.location)), [], lines),
              Cart.StockAfter(s.stock, priced.lines),
              LoyaltyAfter(req, bill, s.loyalty)))
  }

  function Sell(env: Env, req: SaleRequest, s: Store): Store {
    match DecideSale(env, req, s)
    case Ok(Created(order, stock, loyalty)) => Store(s.orders + [Entry(order, req.clientKey)], s.claims, stock, loyalty)
    case _ => s
  }

  // ----- a new sale starts sound

  /** The service charge, when it applies, is the location's rate on the discounted bill to the half cent. */
  ghost predicate ServiceCharged(req: SaleRequest, rates: Rates, base: int, charge: int) {
    if req.applyService then NearExact(charge, Tender.ExactShare(base, rates.serviceBps)) else charge == 0
  }

  /** What a sale's bill promises: every part in range, the parts adding up, the tax exact to the half cent. */
  ghost predicate BillHolds(req: SaleRequest, rates: Rates, priced: Cart.PricedCart, bill: Tender.Tender) {
    && bill.subtotal == priced.subtotal && 0 <= bill.discount <= bill.subtotal
    && 0 <= bill.serviceCharge && 0 <= bill.tax && 0 <= bill.total
    && bill.tip == Max(0, req.tip.GetOr(0)) && 0 <= bill.redeemed <= PointsAsked(req)
    && bill.total == bill.subtotal - bill.discount + bill.serviceCharge + bill.tax + bill.tip - bill.redeemed
    && (bill.redeemed == PointsAsked(req) || bill.total == 0)
    && ServiceCharged(req, rates, bill.subtotal - bill.discount, bill.serviceCharge)
    && var taxable := Cart.TaxableTotal(priced.lines);
       NearExact(bill.tax, Tender.ExactTax(bill.subtotal, taxable, bill.discount, bill.serviceCharge, rates.taxBps))
  }

  lemma SaleBillHolds(req: SaleRequest, rates: Rates, priced: Cart.PricedCart, found: Option<DiscountRow>)
    requires 0 <= rates.taxBps && 0 <= rates.serviceBps && priced.subtotal == Cart.PricedTotal(priced.lines)
    requires forall l | l in priced.lines :: 0 <= l.price && 0 < l.quantity
    ensures BillHolds(req, rates, priced, SaleBill(req, rates, priced, found))
  {
    Cart.TaxableWithinSubtotal(priced.lines);
    Tender.DiscountBounds(DiscountOf(found), priced.subtotal);
    PricedBillHolds(req, rates, priced, Tender.DiscountAmount(DiscountOf(found), priced.subtotal));
  }

  lemma PricedBillHolds(req: SaleRequest, rates: Rates, priced: Cart.PricedCart, discount: int)
    requires 0 <= rates.taxBps && 0 <= rates.serviceBps && 0 <= discount <= priced.subtotal
    requires 0 <= Cart.TaxableTotal(priced.lines) <= priced.subtotal
    ensures var serviceBps := if req.applyService then rates.serviceBps else 0;
      BillHolds(req, rates, priced, Tender.SaleTender(priced.subtotal, Cart.TaxableTotal(priced.lines), discount,
        serviceBps, rates.taxBps, Max(0, req.tip.GetOr(0)), PointsAsked(req)))
  {
    Tender.SaleTenderBounds(priced.subtotal, Cart.TaxableTotal(priced.lines), discount,
      if req.applyService then rates.serviceBps else 0, rates.taxBps, Max(0, req.tip.GetOr(0)), PointsAsked(req));
    Tender.NoChargeWithoutRate(priced.subtotal - discount);
  }

  /** The lines of an accepted cart as they are inserted: they sum to its subtotal and pass the table's checks. */
  lemma SaleLinesHold(priced: Cart.PricedCart, byCourse: bool, now: Time)
    requires Insertable(SaleLines(priced.lines, byCourse, now))
    ensures LineTotal(SaleLines(priced.lines, byCourse, now)) == Cart.PricedTotal(priced.lines)
    ensures forall l | l in priced.lines :: 0 <= l.price && 0 < l.quantity
  {
    var plain := LinesOf(priced.lines, true);
    LinesOfTotal(priced.lines, true);
    StampKeepsTotal(plain, 1, now);
    StampKeepsInsertable(plain, 1, now);
    forall l | l in priced.lines ensures 0 <= l.price && 0 < l.quantity {
      var i :| 0 <= i < |priced.lines| && priced.lines[i] == l;
      assert plain[i] in plain;
    }
  }

  /** What an accepted sale was decided from. */
  lemma SaleDecided(env: Env, req: SaleRequest, s: Store, priced: Cart.PricedCart, found: Option<DiscountRow>)
    requires DecideSale(env, req, s).Ok? && DecideSale(env, req, s).value.Created?
    requires Cart.PriceCart(env.menu, req.cart) == Ok(priced) && ResolveDiscount(env, req.discountRef) == Ok(found)
    ensures req.location in env.rates && RedeemError(req, s.loyalty).None?
    ensures Insertable(SaleLines(priced.lines, req.byCourse, req.now))
    ensures var bill := SaleBill(req, env.rates[req.location], priced, found);
      var sale := DecideSale(env, req, s).value;
      && sale.order == Order(SaleRow(req, bill, found, NextTicket(s.orders, req.location)), [],
                             SaleLines(priced.lines, req.byCourse, req.now))
      && sale.loyalty == LoyaltyAfter(req, bill, s.loyalty)
  {
  }

  /** A sale that creates an order: the cart it priced, the discount it found and the bill its row holds. */
  lemma SaleMade(env: Env, req: SaleRequest, s: Store) returns (priced: Cart.PricedCart,
      found: Option<DiscountRow>, bill: Tender.Tender)
    requires SaneEnv(env) && DecideSale(env, req, s).Ok? && DecideSale(env, req, s).value.Created?
    ensures req.location in env.rates && Cart.PriceCart(env.menu, req.cart) == Ok(priced)
    ensures ResolveDiscount(env, req.discountRef) == Ok(found) && RedeemError(req, s.loyalty).None?
    ensures BillHolds(req, env.rates[req.location], priced, bill)
    ensures var sale := DecideSale(env, req, s).value;
      && sale.order == Order(SaleRow(req, bill, found, NextTicket(s.orders, req.location)), [],
                             SaleLines(priced.lines, req.byCourse, req.now))
      && sale.loyalty == LoyaltyAfter(req, bill, s.loyalty)
    ensures Insertable(SaleLines(priced.lines, req.byCourse, req.now))
    ensures LineTotal(SaleLines(priced.lines, req.byCourse, req.now)) == bill.subtotal
  {
    priced := Cart.PriceCart(env.menu, req.cart).value;
    found := ResolveDiscount(env, req.discountRef).value;
    var rates := env.rates[req.location];
    bill := SaleBill(req, rates, priced, found);
    SaleDecided(env, req, s, priced, found);
    Cart.PriceCartAccepts(env.menu, req.cart);
    SaleLinesHold(priced, req.byCourse, req.now);
    SaleBillHolds(req, rates, priced, found);
  }

  /**
   A new sale is sound: its columns add up, nothing is negative, and it has no payment rows even when it is marked
   paid.
   */
  lemma SaleIsSound(env: Env, req: SaleRequest, s: Store)
    requires SaneEnv(env) && DecideSale(env, req, s).Ok? && DecideSale(env, req, s).value.Created?
    ensures var o := DecideSale(env, req, s).value.order;
      Sound(o) && AddsUp(o.row) && o.payments == [] && (o.row.paidAt.Some? <==> req.tender.Some?)
  {
    var priced, found, bill := SaleMade(env, req, s);
  }

  /** The columns of a row that the sale's terms decide. */
  ghost predicate RowOwes(req: SaleRequest, rates: Rates, taxable: int, row: Row) {
    && row.location == req.location && row.status == Confirmed
    && NearExact(row.tax, Tender.ExactTax(row.subtotal, taxable, row.discount, row.serviceCharge, rates.taxBps))
    && ServiceCharged(req, rates, row.subtotal - row.discount, row.serviceCharge)
    && row.tip == Max(0, req.tip.GetOr(0)) && row.redeemed <= Max(0, req.redeem.GetOr(0))
    && (row.redeemed == Max(0, req.redeem.GetOr(0)) || row.total == 0)
  }

  lemma BillOwes(req: SaleRequest, rates: Rates, priced: Cart.PricedCart, bill: Tender.Tender,
      found: Option<DiscountRow>, ticket: int)
    requires BillHolds(req, rates, priced, bill)
    ensures RowOwes(req, rates, Cart.TaxableTotal(priced.lines), SaleRow(req, bill, found, ticket))
  {
  }

  /**
   The columns of a new sale: service charge and tax exact to the half cent at the location's own two rates, the tip
   asked for, no more points than asked for.
   */
  lemma SaleOwes(env: Env, req: SaleRequest, s: Store)
    requires SaneEnv(env) && DecideSale(env, req, s).Ok? && DecideSale(env, req, s).value.Created?
    ensures Cart.PriceCart(env.menu, req.cart).Ok? && req.location in env.rates
    ensures var row := DecideSale(env, req, s).value.order.row;
      RowOwes(req, env.rates[req.location], Cart.TaxableTotal(Cart.PriceCart(env.menu, req.cart).value.lines), row)
  {
    var priced, found, bill := SaleMade(env, req, s);
    BillOwes(req, env.rates[req.location], priced, bill, found, NextTicket(s.orders, req.location));
  }

  /** A client key under which an order was created before. */
  ghost predicate KnownKey(req: SaleRequest, s: Store) {
    req.clientKey.Some? && exists e | e in s.orders :: e.clientKey == req.clientKey
  }

  /** Points may be redeemed by a known customer whose balance covers them. */
  ghost predicate CustomerGood(req: SaleRequest, s: Store) {
    && (req.customer.Some? ==> req.customer.value in s.loyalty)
    && (0 < req.redeem.GetOr(0) ==> req.customer.Some? && req.redeem.value <= s.loyalty[req.customer.value])
  }

  /** The discount a sale names, if any, is there and may be used by the caller. */
  ghost predicate DiscountGood(env: Env, ref: DiscountRef) {
    ref.NoDiscount? || exists d :: Repricing.Names(env, ref, d) && (d.requiresManager ==> env.isManager)
  }

  /**
   A sale creates an order exactly with something in its cart, a key not used before, a location with rates, a customer
   who can redeem what is asked, and a cart and a discount that are good; under a used key it is answered with the order
   created then.
   */
  lemma {:induction false} SaleAcceptedIff(env: Env, req: SaleRequest, s: Store)
    ensures var r := DecideSale(env, req, s);
      && (r.Ok? && r.value.Created? <==>
            && req.cart != [] && !KnownKey(req, s) && req.location in env.rates && CustomerGood(req, s)
            && Repricing.Sellable(env.menu, req.cart) && DiscountGood(env, req.discountRef))
      && (r.Ok? && r.value.Existing? <==> req.cart != [] && KnownKey(req, s))
      && (r.Ok? && r.value.Existing? ==>
            r.value.id < |s.orders| && s.orders[r.value.id].clientKey == req.clientKey)
  {
    if req.clientKey.Some? { FindByKeyFinds(s.orders, req.clientKey.value); }
    if req.cart != [] && !KnownKey(req, s) { NewSaleAcceptedIff(env, req, s); }
  }

  lemma NewSaleAcceptedIff(env: Env, req: SaleRequest, s: Store)
    requires req.cart != []
    requires req.clientKey.Some? ==> FindByKey(s.orders, req.clientKey.value).None?
    ensures DecideSale(env, req, s).Ok? ==> DecideSale(env, req, s).value.Created?
    ensures DecideSale(env, req, s).Ok? <==>
      && req.location in env.rates && CustomerGood(req, s)
      && Repricing.Sellable(env.menu, req.cart) && DiscountGood(env, req.discountRef)
  {
    Repricing.DiscountFoundIff(env, req.discountRef);
    if Cart.PriceCart(env.menu, req.cart).Ok? {
      var priced := Cart.PriceCart(env.menu, req.cart).value.lines;
      Repricing.InsertableIff(priced, true);
      StampKeepsInsertable(LinesOf(priced, true), 1, req.now);
    }
  }

  /**
   What a new sale keeps of its request: the discount it names and what that takes off, the method and moment of its
   payment, its cart line by line, and on a coursed order the first course fired and nothing else.
   */
  lemma {:induction false} SaleRecordsRequest(env: Env, req: SaleRequest, s: Store)
    requires SaneEnv(env) && DecideSale(env, req, s).Ok? && DecideSale(env, req, s).value.Created?
    ensures var o := DecideSale(env, req, s).value.order;
      && o.row.paidBy == (if req.tender.Some? then Single(req.tender.value) else Unlabelled)
      && o.row.paidAt == (if req.tender.Some? then Some(req.now) else None) && o.row.byCourse == req.byCourse
      && (req.discountRef.NoDiscount? ==> o.row.discountId == None && o.row.discount == 0)
      && (!req.discountRef.NoDiscount? ==>
            exists d :: Repricing.Names(env, req.discountRef, d) && o.row.discountId == Some(d.id)
              && Tender.TakesOff(Some(d.discount), o.row.subtotal, o.row.discount))
      && FirstCourseFired(env.menu, req, o.lines)
  {
    var priced, found, bill := SaleMade(env, req, s);
    FirstCourseStamped(env.menu, req);
    SaleDecided(env, req, s, priced, found);
    Tender.DiscountTakes(DiscountOf(found), priced.subtotal);
    Repricing.DiscountFoundIff(env, req.discountRef);
    if found.Some? { assert Repricing.Names(env, req.discountRef, found.value); }
  }

  lemma FirstCourseStamped(menu: Cart.Menu, req: SaleRequest)
    requires Cart.PriceCart(menu, req.cart).Ok?
    ensures FirstCourseFired(menu, req, SaleLines(Cart.PriceCart(menu, req.cart).value.lines, req.byCourse, req.now))
  {
    CartRules.AcceptedCart(menu, req.cart, Cart.PriceCart(menu, req.cart).value);
  }

  /** The lines of a sale: item, quantity, price and course of each, stamped only in course 1 of a coursed order. */
  ghost predicate FirstCourseFired(menu: Cart.Menu, req: SaleRequest, lines: seq<Line>) {
    var priced := Cart.PriceCart(menu, req.cart);
    && priced.Ok? && |lines| == |req.cart| == |priced.value.lines|
    && forall i | 0 <= i < |lines| ::
         && lines[i].item == req.cart[i].item && lines[i].quantity == req.cart[i].quantity
         && lines[i].price == priced.value.lines[i].price && lines[i].course == req.cart[i].course
         && lines[i].firedAt == (if req.byCourse && req.cart[i].course == Some(1) then Some(req.now) else None)
  }

  /** What a new sale takes from stock and leaves in the table. */
  lemma SaleIsStored(env: Env, req: SaleRequest, s: Store)
    requires DecideSale(env, req, s).Ok? && DecideSale(env, req, s).value.Created?
    ensures Cart.PriceCart(env.menu, req.cart).Ok?
    ensures var s' := Sell(env, req, s);
      && |s'.orders| == |s.orders| + 1 && s.orders <= s'.orders && s'.claims == s.claims
      && s'.orders[|s.orders|] == Entry(DecideSale(env, req, s).value.order, req.clientKey)
      && s'.stock == Cart.StockAfter(s.stock, Cart.PriceCart(env.menu, req.cart).value.lines)
  {
  }

  /** A new sale's number is the next one at its location: 1, or one above a number already used there. */
  lemma SaleTicketIsNext(env: Env, req: SaleRequest, s: Store)
    requires DecideSale(env, req, s).Ok? && DecideSale(env, req, s).value.Created?
    ensures var ticket := DecideSale(env, req, s).value.order.row.ticket;
      ticket == 1
      || exists e :: (e in s.orders && e.order.row.location == req.location && e.order.row.ticket == ticket - 1)
  {
    var issued := IssuedOf(s.orders);
    if Tickets.MaxTicket(issued, req.location) != 0 {
      var i := Tickets.MaxTicketIsUsed(issued, req.location);
      assert s.orders[i] in s.orders;
    }
  }

  /** A new sale's ticket number is above every number already used at its location. */
  lemma SaleTicketIsNew(env: Env, req: SaleRequest, s: Store, e: Entry)
    requires DecideSale(env, req, s).Ok? && DecideSale(env, req, s).value.Created?
    requires e in s.orders && e.order.row.location == req.location
    ensures e.order.row.ticket < DecideSale(env, req, s).value.order.row.ticket
  {
    var i :| 0 <= i < |s.orders| && s.orders[i] == e;
    var issued := IssuedOf(s.orders);
    assert issued[i] in issued;
    Tickets.MaxTicketIsMax(issued, issued[i]);
  }

  lemma LoyaltyMoves(req: SaleRequest, bill: Tender.Tender, loyalty: map<CustomerId, int>)
    requires RedeemError(req, loyalty).None? && 0 <= bill.redeemed <= PointsAsked(req) && 0 <= bill.total
    requires forall c | c in loyalty :: 0 <= loyalty[c]
    ensures var after := LoyaltyAfter(req, bill, loyalty);
      && after.Keys == loyalty.Keys
      && (forall c | c in loyalty && req.customer != Some(c) :: after[c] == loyalty[c])
      && (req.customer.Some? ==>
            var c := req.customer.value;
            && c in loyalty && bill.redeemed <= loyalty[c]
            && after[c] == loyalty[c] - bill.redeemed + PointsEarned(req, bill.total))
  {
  }

  /**
   Loyalty is conserved: the balance moves by exactly what was earned less what was redeemed, a point for every whole
   dollar of a sale paid at creation, and the floor never bites.
   */
  lemma {:induction false} LoyaltyIsConserved(env: Env, req: SaleRequest, s: Store)
    requires SaneEnv(env) && DecideSale(env, req, s).Ok? && DecideSale(env, req, s).value.Created?
    requires forall c | c in s.loyalty :: 0 <= s.loyalty[c]
    ensures var sale := DecideSale(env, req, s).value;
      && sale.loyalty.Keys == s.loyalty.Keys
      && (forall c | c in s.loyalty && req.customer != Some(c) :: sale.loyalty[c] == s.loyalty[c])
      && (req.customer.Some? ==>
            var c, row := req.customer.value, sale.order.row;
            && c in s.loyalty && 0 <= sale.loyalty[c]
            && var earned := sale.loyalty[c] - s.loyalty[c] + row.redeemed;
            if req.tender.Some? then 100 * earned <= row.total < 100 * earned + 100 else earned == 0)
  {
    var priced, found, bill := SaleMade(env, req, s);
    LoyaltyMoves(req, bill, s.loyalty);
  }

  // ----- sales paid at creation carry no payment rows

  /** A sale charged at the register is paid but holds no money on its ledger: every refund of it is refused. */
  lemma ChargedSaleCannotBeRefunded(env: Env, req: SaleRequest, s: Store, claims: set<Key>, amount: Cents1)
    requires DecideSale(env, req, s).Ok? && DecideSale(env, req, s).value.Created? && req.tender.Some?
    ensures var db := Db(DecideSale(env, req, s).value.order, claims);
      && DecideOn(env, RefundAll(true), db) == Err(NoRefundableBalance)
      && DecideOn(env, RefundPart(true, amount), db) == Err(RefundExceedsBalance)
      && DecideOn(env, Pay(Cash, None, None, None, 0), db) == Err(AlreadyPaid)
  {
  }
}
