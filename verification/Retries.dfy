/** Requests repeated under their client keys take effect exactly once. */
module Retries {
  import opened Wrappers
  import opened Orders
  import opened Sales
  import Cart

  datatype Request = SellRequest(env: Env, sale: SaleRequest) | OnOrder(id: nat, call: Call)

  /** Sales and mutations keep their keys in different tables. */
  datatype RetryKey = SaleKey(key: Key) | MutationKey(key: Key)

  function KeyOf(r: Request): Option<RetryKey> {
    match r
    case SellRequest(_, sale) => if sale.clientKey.Some? then Some(SaleKey(sale.clientKey.value)) else None
    case OnOrder(_, call) =>
      var key := MutationKeyOf(call.op);
      if key.Some? then Some(MutationKey(key.value)) else None
  }

  function DbOf(s: Store, id: nat): Db
    requires id < |s.orders|
  {
    Db(s.orders[id].order, s.claims)
  }

  /** Whether a request does something: accepted, and not answered from an earlier one. */
  predicate TakesEffect(r: Request, s: Store) {
    match r
    case SellRequest(env, sale) => DecideSale(env, sale, s).Ok? && DecideSale(env, sale, s).value.Created?
    case OnOrder(id, call) =>
      id < |s.orders| && DecideOn(call.env, call.op, DbOf(s, id)).Ok?
      && DecideOn(call.env, call.op, DbOf(s, id)).value.receipt != Replayed
  }

  /** One request served: its order's rows, and for an append the stock its lines take. */
  function Serve(r: Request, s: Store): Store {
    match r
    case SellRequest(env, sale) => Sell(env, sale, s)
    case OnOrder(id, call) =>
      if id >= |s.orders| then s
      else
        var after := Step(call.env, call.op, DbOf(s, id));
        var stock := if call.op.Append? && TakesEffect(r, s) && Cart.PriceCart(call.env.menu, call.op.cart).Ok?
          then Cart.StockAfter(s.stock, Cart.PriceCart(call.env.menu, call.op.cart).value.lines) else s.stock;
        Store(s.orders[id := s.orders[id].(order := after.order)], after.claims, stock, s.loyalty)
  }

  function ServeAll(requests: seq<Request>, s: Store): Store {
    if requests == [] then s else Serve(requests[|requests| - 1], ServeAll(requests[..|requests| - 1], s))
  }

  /** A request leaves every other order alone, and an append takes its lines from stock when it takes effect. */
  lemma ServeTouchesOneOrder(id: nat, call: Call, s: Store)
    requires id < |s.orders|
    ensures var s' := Serve(OnOrder(id, call), s);
      && |s'.orders| == |s.orders| && (forall j | 0 <= j < |s.orders| && j != id :: s'.orders[j] == s.orders[j])
      && s'.orders[id].clientKey == s.orders[id].clientKey && s'.loyalty == s.loyalty
      && Db(s'.orders[id].order, s'.claims) == Step(call.env, call.op, Db(s.orders[id].order, s.claims))
    ensures !call.op.Append? ==> Serve(OnOrder(id, call), s).stock == s.stock
    ensures call.op.Append? && TakesEffect(OnOrder(id, call), s) ==>
      && Cart.PriceCart(call.env.menu, call.op.cart).Ok?
      && Serve(OnOrder(id, call), s).stock
         == Cart.StockAfter(s.stock, Cart.PriceCart(call.env.menu, call.op.cart).value.lines)
  {
  }

  /** The requests that took effect, in order: of each key, the first one that succeeded. */
  function Kept(requests: seq<Request>, s: Store): seq<Request> {
    if requests == [] then []
    else
      var front, last := requests[..|requests| - 1], requests[|requests| - 1];
      Kept(front, s) + (if TakesEffect(last, ServeAll(front, s)) then [last] else [])
  }

  predicate Used(key: RetryKey, s: Store) {
    match key
    case SaleKey(k) => exists e | e in s.orders :: e.clientKey == Some(k)
    case MutationKey(k) => k in s.claims
  }

  lemma NoEffectOnOrder(call: Call, db: Db)
    requires DecideOn(call.env, call.op, db).Ok? ==> DecideOn(call.env, call.op, db).value.receipt == Replayed
    ensures Step(call.env, call.op, db) == db
  {
    assert db.order.payments + [] == db.order.payments;
  }

  /** A refused or replayed request changes nothing at all, its key included. */
  lemma NoEffectNoChange(r: Request, s: Store)
    requires !TakesEffect(r, s)
    ensures Serve(r, s) == s
  {
    if r.OnOrder? && r.id < |s.orders| {
      NoEffectOnOrder(r.call, DbOf(s, r.id));
      assert s.orders[r.id := s.orders[r.id]] == s.orders;
    }
  }

  lemma UsedKeyHasNoEffect(r: Request, s: Store)
    requires KeyOf(r).Some? && Used(KeyOf(r).value, s)
    ensures !TakesEffect(r, s)
  {
    if r.SellRequest? { FindByKeyFinds(s.orders, r.sale.clientKey.value); }
  }

  lemma EffectUsesKey(r: Request, s: Store)
    requires TakesEffect(r, s) && KeyOf(r).Some?
    ensures Used(KeyOf(r).value, Serve(r, s))
  {
    if r.SellRequest? {
      var s' := Serve(r, s);
      assert s'.orders[|s.orders|] in s'.orders;
    }
  }

  lemma UsedStaysUsed(key: RetryKey, r: Request, s: Store)
    requires Used(key, s)
    ensures Used(key, Serve(r, s))
  {
    var s' := Serve(r, s);
    if key.SaleKey? {
      var e :| e in s.orders && e.clientKey == Some(key.key);
      var i :| 0 <= i < |s.orders| && s.orders[i] == e;
      assert s'.orders[i].clientKey == Some(key.key) && s'.orders[i] in s'.orders;
    }
  }

  lemma {:induction false} KeptKeysAreUsed(requests: seq<Request>, s: Store, r: Request)
    requires r in Kept(requests, s) && KeyOf(r).Some?
    ensures Used(KeyOf(r).value, ServeAll(requests, s))
  {
    var front, last := requests[..|requests| - 1], requests[|requests| - 1];
    if r in Kept(front, s) {
      KeptKeysAreUsed(front, s, r);
      UsedStaysUsed(KeyOf(r).value, last, ServeAll(front, s));
    } else {
      EffectUsesKey(last, ServeAll(front, s));
    }
  }

  lemma ServeLast(requests: seq<Request>, r: Request, s: Store)
    ensures ServeAll(requests + [r], s) == Serve(r, ServeAll(requests, s))
  {
    assert (requests + [r])[..|requests|] == requests;
  }

  /**
   A run with retries leaves exactly the orders, lines, totals, claims, stock and loyalty of the run that keeps only
   each key's first success, and no key is kept twice.
   */
  lemma {:induction false} RetriesAreExactlyOnce(requests: seq<Request>, s: Store)
    ensures ServeAll(Kept(requests, s), s) == ServeAll(requests, s)
    ensures var kept := Kept(requests, s);
      forall i, j | 0 <= i < j < |kept| && KeyOf(kept[i]).Some? :: KeyOf(kept[i]) != KeyOf(kept[j])
  {
    if requests != [] {
      var front, last := requests[..|requests| - 1], requests[|requests| - 1];
      var mid := ServeAll(front, s);
      RetriesAreExactlyOnce(front, s);
      if TakesEffect(last, mid) {
        ServeLast(Kept(front, s), last, s);
        forall r | r in Kept(front, s) && KeyOf(r).Some? ensures KeyOf(r) != KeyOf(last) {
          KeptKeysAreUsed(front, s, r);
          if KeyOf(r) == KeyOf(last) { UsedKeyHasNoEffect(last, mid); }
        }
      } else {
        NoEffectNoChange(last, mid);
        assert Kept(requests, s) == Kept(front, s);
      }
    }
  }

  /** Once a keyed request has succeeded, sending any request under its key again changes nothing, ever after. */
  lemma {:induction false} RetryAfterSuccessIsNoOp(requests: seq<Request>, later: seq<Request>, s: Store,
      r: Request, retry: Request)
    requires r in Kept(requests, s) && KeyOf(r).Some? && KeyOf(retry) == KeyOf(r)
    ensures Serve(retry, ServeAll(requests + later, s)) == ServeAll(requests + later, s)
  {
    var all := requests + later;
    KeptKeysAreUsed(requests, s, r);
    UsedForever(requests, later, s, KeyOf(r).value);
    UsedKeyHasNoEffect(retry, ServeAll(all, s));
    NoEffectNoChange(retry, ServeAll(all, s));
  }

  lemma {:induction false} UsedForever(requests: seq<Request>, later: seq<Request>, s: Store, key: RetryKey)
    requires Used(key, ServeAll(requests, s))
    ensures Used(key, ServeAll(requests + later, s))
  {
    if later == [] {
      assert requests + later == requests;
    } else {
      var front, last := later[..|later| - 1], later[|later| - 1];
      UsedForever(requests, front, s, key);
      UsedStaysUsed(key, last, ServeAll(requests + front, s));
      ServeLast(requests + front, last, s);
      assert requests + later == (requests + front) + [last];
    }
  }

  /** A failed first attempt leaves its key free: the retry is decided as if the first attempt had never been made. */
  lemma FailedAttemptReleasesKey(r: Request, s: Store, retry: Request)
    requires !TakesEffect(r, s)
    ensures TakesEffect(retry, Serve(r, s)) <==> TakesEffect(retry, s)
    ensures Serve(retry, Serve(r, s)) == Serve(retry, s)
  {
    NoEffectNoChange(r, s);
  }
}
