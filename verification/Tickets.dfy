/**
 Ticket numbers under concurrent order creation. Each creation takes its location's lock, reads the highest committed
 number, inserts, and commits or aborts; a unique client key admits one order.
 */
module Tickets {
  import opened Money
  import opened Wrappers
  import Orders

  type LocationId = Orders.LocationId
  type Key = Orders.Key
  type Tid = nat

  /** A committed order, as far as ticket allocation is concerned. */
  datatype Issued = Issued(location: LocationId, ticket: int, clientKey: Option<Key>)

  datatype Phase = Waiting | Locked | Numbered(ticket: int) | Inserted(order: Issued) | Committed | Aborted

  datatype Tx = Tx(location: LocationId, clientKey: Option<Key>, phase: Phase)

  datatype Sys = Sys(orders: seq<Issued>, locks: map<LocationId, Tid>, txs: map<Tid, Tx>)

  /** `coalesce(max(ticket_number), 0)` over the committed orders of a location. */
  function MaxTicket(orders: seq<Issued>, location: LocationId): int {
    if orders == [] then 0
    else
      var rest, last := MaxTicket(orders[..|orders| - 1], location), orders[|orders| - 1];
      if last.location == location then Max(rest, last.ticket) else rest
  }

  lemma {:induction false} MaxTicketIsMax(orders: seq<Issued>, o: Issued)
    requires o in orders
    ensures o.ticket <= MaxTicket(orders, o.location)
  {
    if o != orders[|orders| - 1] {
      assert o in orders[..|orders| - 1];
      MaxTicketIsMax(orders[..|orders| - 1], o);
    }
  }

  lemma {:induction false} MaxTicketIsUsed(orders: seq<Issued>, location: LocationId) returns (i: nat)
    requires MaxTicket(orders, location) != 0
    ensures i < |orders| && orders[i].location == location && orders[i].ticket == MaxTicket(orders, location)
  {
    var front, last := orders[..|orders| - 1], orders[|orders| - 1];
    if last.location == location && MaxTicket(orders, location) == last.ticket {
      i := |front|;
    } else {
      i := MaxTicketIsUsed(front, location);
    }
  }

  /** The numbers committed at a location, in commit order. */
  function NumbersAt(orders: seq<Issued>, location: LocationId): seq<int> {
    if orders == [] then []
    else
      var rest, last := NumbersAt(orders[..|orders| - 1], location), orders[|orders| - 1];
      if last.location == location then rest + [last.ticket] else rest
  }

  predicate KeyTaken(orders: seq<Issued>, key: Option<Key>) {
    key.Some? && exists o | o in orders :: o.clientKey == key
  }

  // ----- the steps

  ghost predicate Lock(s: Sys, s': Sys, t: Tid) {
    && t in s.txs && s.txs[t].phase.Waiting? && s.txs[t].location !in s.locks
    && s' == s.(locks := s.locks[s.txs[t].location := t], txs := s.txs[t := s.txs[t].(phase := Locked)])
  }

  ghost predicate ReadMax(s: Sys, s': Sys, t: Tid) {
    && t in s.txs && s.txs[t].phase.Locked?
    && s' == s.(txs := s.txs[t := s.txs[t].(phase := Numbered(MaxTicket(s.orders, s.txs[t].location) + 1))])
  }

  ghost predicate Insert(s: Sys, s': Sys, t: Tid) {
    && t in s.txs && s.txs[t].phase.Numbered?
    && var tx := s.txs[t];
       s' == s.(txs := s.txs[t := tx.(phase := Inserted(Issued(tx.location, tx.phase.ticket, tx.clientKey)))])
  }

  ghost predicate Commit(s: Sys, s': Sys, t: Tid) {
    && t in s.txs && s.txs[t].phase.Inserted? && !KeyTaken(s.orders, s.txs[t].clientKey)
    && s' == Sys(s.orders + [s.txs[t].phase.order], s.locks - {s.txs[t].location},
        s.txs[t := s.txs[t].(phase := Committed)])
  }

  /** Any failure before the commit, the unique-key violation among them. */
  ghost predicate Abort(s: Sys, s': Sys, t: Tid) {
    && t in s.txs && !s.txs[t].phase.Committed? && !s.txs[t].phase.Aborted?
    && var tx := s.txs[t];
       s' == s.(locks := if tx.phase.Waiting? then s.locks else s.locks - {tx.location},
                txs := s.txs[t := tx.(phase := Aborted)])
  }

  ghost predicate Next(s: Sys, s': Sys) {
    exists t: Tid :: Lock(s, s', t) || ReadMax(s, s', t) || Insert(s, s', t) || Commit(s, s', t) || Abort(s, s', t)
  }

  ghost predicate Init(s: Sys) {
    && s.locks == map[] && forall t | t in s.txs :: s.txs[t].phase.Waiting?
  }

  ghost predicate Behavior(run: seq<Sys>) {
    && run != []
    && if |run| == 1 then Init(run[0]) else Behavior(run[..|run| - 1]) && Next(run[|run| - 2], run[|run| - 1])
  }

  // ----- the invariant

  predicate Holding(p: Phase) { p.Locked? || p.Numbered? || p.Inserted? }

  /** A location's lock is held by exactly the transaction working there, and its number is still the next one. */
  ghost predicate NumbersCurrent(s: Sys) {
    && (forall t | t in s.txs && Holding(s.txs[t].phase) ::
          s.txs[t].location in s.locks && s.locks[s.txs[t].location] == t)
    && (forall t | t in s.txs ::
          var tx := s.txs[t];
          && (tx.phase.Numbered? ==> tx.phase.ticket == MaxTicket(s.orders, tx.location) + 1)
          && (tx.phase.Inserted? ==>
                tx.phase.order == Issued(tx.location, MaxTicket(s.orders, tx.location) + 1, tx.clientKey)))
  }

  /** The orders committed since the start number each location consecutively from where it stood. */
  ghost predicate Consecutive(start: seq<Issued>, orders: seq<Issued>) {
    && start <= orders
    && forall location: LocationId {:trigger NumbersAt(orders[|start|..], location)} ::
         var numbers := NumbersAt(orders[|start|..], location);
         && MaxTicket(orders, location) == MaxTicket(start, location) + |numbers|
         && forall i | 0 <= i < |numbers| :: numbers[i] == MaxTicket(start, location) + 1 + i
  }

  ghost predicate KeysDistinct(start: seq<Issued>, orders: seq<Issued>) {
    forall i, j | 0 <= i < j < |orders| && |start| <= j
        && orders[j].clientKey.Some? :: orders[i].clientKey != orders[j].clientKey
  }

  lemma AppendConsecutive(start: seq<Issued>, orders: seq<Issued>, order: Issued)
    requires Consecutive(start, orders) && order.ticket == MaxTicket(orders, order.location) + 1
    ensures Consecutive(start, orders + [order])
  {
    var all := orders + [order];
    assert all[..|orders|] == orders;
    var added := orders[|start|..];
    assert all[|start|..] == added + [order];
    assert (added + [order])[..|added|] == added;
    forall location: LocationId {:trigger NumbersAt(all[|start|..], location)}
      ensures var numbers := NumbersAt(all[|start|..], location);
        && MaxTicket(all, location) == MaxTicket(start, location) + |numbers|
        && forall i | 0 <= i < |numbers| :: numbers[i] == MaxTicket(start, location) + 1 + i
    {
      assert |NumbersAt(added, location)| >= 0;
    }
  }

  lemma CommitKeepsInv(start: seq<Issued>, s: Sys, s': Sys, t: Tid)
    requires NumbersCurrent(s) && Consecutive(start, s.orders) && KeysDistinct(start, s.orders) && Commit(s, s', t)
    ensures NumbersCurrent(s') && Consecutive(start, s'.orders) && KeysDistinct(start, s'.orders)
  {
    var order := s.txs[t].phase.order;
    AppendConsecutive(start, s.orders, order);
    assert s'.orders[..|s.orders|] == s.orders;
    forall location: LocationId | location != order.location
      ensures MaxTicket(s'.orders, location) == MaxTicket(s.orders, location) {}
    forall i | 0 <= i < |s.orders| && order.clientKey.Some? ensures s.orders[i].clientKey != order.clientKey {
      assert s.orders[i] in s.orders;
    }
  }

  lemma UncommittedKeepsNumbers(s: Sys, s': Sys, t: Tid)
    requires NumbersCurrent(s) && (Lock(s, s', t) || ReadMax(s, s', t) || Insert(s, s', t) || Abort(s, s', t))
    ensures NumbersCurrent(s') && s'.orders == s.orders
  {
  }

  lemma NextKeepsInv(start: seq<Issued>, s: Sys, s': Sys)
    requires NumbersCurrent(s) && Consecutive(start, s.orders) && KeysDistinct(start, s.orders) && Next(s, s')
    ensures NumbersCurrent(s') && Consecutive(start, s'.orders) && KeysDistinct(start, s'.orders)
  {
    var t: Tid :| Lock(s, s', t) || ReadMax(s, s', t) || Insert(s, s', t) || Commit(s, s', t) || Abort(s, s', t);
    if Commit(s, s', t) { CommitKeepsInv(start, s, s', t); } else { UncommittedKeepsNumbers(s, s', t); }
  }

  /**
   At every location the numbers committed since the start are, in commit order, exactly the next ones: 1..n from an
   empty table. Aborts and unique-key losers leave no gap, and no client key commits twice.
   */
  lemma {:induction false} TicketsAreConsecutive(run: seq<Sys>)
    requires Behavior(run)
    ensures NumbersCurrent(run[|run| - 1])
    ensures Consecutive(run[0].orders, run[|run| - 1].orders) && KeysDistinct(run[0].orders, run[|run| - 1].orders)
  {
    if |run| == 1 {
      var orders := run[0].orders;
      assert orders[|orders|..] == [];
    } else {
      var front := run[..|run| - 1];
      TicketsAreConsecutive(front);
      NextKeepsInv(run[0].orders, front[|front| - 1], run[|run| - 1]);
    }
  }

  /** From an empty table the committed numbers at each location are 1..n, so pairwise distinct. */
  lemma TicketsFromOne(run: seq<Sys>, location: LocationId)
    requires Behavior(run) && run[0].orders == []
    ensures var numbers := NumbersAt(run[|run| - 1].orders, location);
      numbers == seq(|numbers|, i => i + 1)
  {
    TicketsAreConsecutive(run);
    var orders := run[|run| - 1].orders;
    assert orders[0..] == orders;
  }

  // ----- without the lock

  /** Entering without waiting for the lock. */
  ghost predicate Enter(s: Sys, s': Sys, t: Tid) {
    t in s.txs && s.txs[t].phase.Waiting? && s' == s.(txs := s.txs[t := s.txs[t].(phase := Locked)])
  }

  ghost predicate UnlockedNext(s: Sys, s': Sys) {
    exists t: Tid :: Enter(s, s', t) || ReadMax(s, s', t) || Insert(s, s', t) || Commit(s, s', t) || Abort(s, s', t)
  }

  ghost predicate UnlockedBehavior(run: seq<Sys>) {
    && run != []
    && if |run| == 1 then Init(run[0])
       else UnlockedBehavior(run[..|run| - 1]) && UnlockedNext(run[|run| - 2], run[|run| - 1])
  }

  lemma UnlockedExtend(run: seq<Sys>, s: Sys) returns (longer: seq<Sys>)
    requires UnlockedBehavior(run) && UnlockedNext(run[|run| - 1], s)
    ensures UnlockedBehavior(longer) && longer == run + [s] && longer[0] == run[0]
  {
    longer := run + [s];
    assert longer[..|longer| - 1] == run;
  }

  /** Without the lock two creations take number 1 from the empty table. */
  lemma BothTakeNumberOne(location: LocationId) returns (run: seq<Sys>)
    ensures UnlockedBehavior(run) && run[0].orders == []
    ensures var numbered := Tx(location, None, Numbered(1));
      run[|run| - 1] == Sys([], map[], map[0 := numbered, 1 := numbered])
  {
    var waiting, locked := Tx(location, None, Waiting), Tx(location, None, Locked);
    var numbered := Tx(location, None, Numbered(1));
    var s0 := Sys([], map[], map[0 := waiting, 1 := waiting]);
    var s1 := s0.(txs := map[0 := locked, 1 := waiting]);
    var s2 := s0.(txs := map[0 := locked, 1 := locked]);
    var s3 := s0.(txs := map[0 := numbered, 1 := locked]);
    var s4 := s0.(txs := map[0 := numbered, 1 := numbered]);
    run := [s0];
    assert Enter(s0, s1, 0);
    run := UnlockedExtend(run, s1);
    assert Enter(s1, s2, 1);
    run := UnlockedExtend(run, s2);
    assert ReadMax(s2, s3, 0);
    run := UnlockedExtend(run, s3);
    assert ReadMax(s3, s4, 1);
    run := UnlockedExtend(run, s4);
  }

  lemma InsertsAndCommits(run: seq<Sys>, t: Tid, location: LocationId) returns (longer: seq<Sys>)
    requires UnlockedBehavior(run)
    requires var s := run[|run| - 1]; s.locks == map[] && t in s.txs && s.txs[t] == Tx(location, None, Numbered(1))
    ensures UnlockedBehavior(longer) && longer[0] == run[0]
    ensures longer[|longer| - 1].orders == run[|run| - 1].orders + [Issued(location, 1, None)]
    ensures var s := run[|run| - 1];
      longer[|longer| - 1]
        == Sys(s.orders + [Issued(location, 1, None)], map[], s.txs[t := Tx(location, None, Committed)])
  {
    var s := run[|run| - 1];
    var s1 := s.(txs := s.txs[t := Tx(location, None, Inserted(Issued(location, 1, None)))]);
    assert Insert(s, s1, t);
    longer := UnlockedExtend(run, s1);
    var s2 := Sys(s.orders + [Issued(location, 1, None)], map[], s.txs[t := Tx(location, None, Committed)]);
    assert s1.locks - {location} == map[] && s2.txs == s1.txs[t := s1.txs[t].(phase := Committed)];
    assert Commit(s1, s2, t);
    longer := UnlockedExtend(longer, s2);
  }

  lemma NumbersOfTwo(location: LocationId, first: Issued)
    requires first.location == location && first.ticket == 1
    ensures NumbersAt([] + [first] + [first], location) == [1, 1]
  {
    assert [] + [first] == [first] && [first][..0] == [];
    assert ([first] + [first])[..1] == [first];
    assert NumbersAt([first], location) == [1];
  }

  /** Without the lock there is a run in which two creations read the same highest number and both commit number 1. */
  lemma {:induction false} UnlockedReadsCollide(location: LocationId)
    ensures exists run: seq<Sys> ::
      UnlockedBehavior(run) && run[0].orders == [] && NumbersAt(run[|run| - 1].orders, location) == [1, 1]
  {
    var numbered := BothTakeNumberOne(location);
    var one := InsertsAndCommits(numbered, 0, location);
    var two := InsertsAndCommits(one, 1, location);
    NumbersOfTwo(location, Issued(location, 1, None));
    assert UnlockedBehavior(two);
  }
}
