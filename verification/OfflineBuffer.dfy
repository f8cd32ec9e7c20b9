/** The MQTT publisher's bounded offline buffer: every message is accounted for exactly once. */
module OfflineBuffer {
  /** Messages are told apart by identity, so each publish call brings a new one. */
  type Msg = nat

  const CAPACITY := 200

  /** `wire` is everything handed to the client, in order; `told` is what callers of `publish` were answered. */
  datatype State = State(
    hasClient: bool, connected: bool, queue: seq<Msg>, inFlight: set<Msg>, delivered: set<Msg>, dropped: set<Msg>,
    wire: seq<Msg>, told: map<Msg, bool>, submitted: set<Msg>)

  datatype Event = Publish(m: Msg) | Connect | Disconnect | Acked(m: Msg) | Failed(m: Msg)

  function Members(queue: seq<Msg>): set<Msg> { set m | m in queue }

  predicate Possible(s: State, e: Event) {
    match e
    case Publish(m) => m !in s.submitted
    case Connect => s.hasClient
    case Disconnect => s.hasClient
    case Acked(m) => m in s.inFlight
    case Failed(m) => m in s.inFlight
  }

  function Answer(s: State, m: Msg, answer: bool): map<Msg, bool> {
    if m in s.told then s.told else s.told[m := answer]
  }

  function Flushed(s: State): State {
    if !s.hasClient || !s.connected || s.queue == [] then s
    else s.(queue := [], wire := s.wire + s.queue, inFlight := s.inFlight + Members(s.queue))
  }

  function Step(s: State, e: Event): State {
    match e
    case Publish(m) =>
      var s1 := s.(submitted := s.submitted + {m});
      if s.hasClient && s.connected then s1.(wire := s.wire + [m], inFlight := s.inFlight + {m})
      else if |s.queue| >= CAPACITY then s1.(dropped := s.dropped + {m}, told := s.told[m := false])
      else s1.(queue := s.queue + [m], told := s.told[m := true])
    case Connect => Flushed(s.(connected := true))
    case Disconnect => s.(connected := false)
    case Acked(m) =>
      s.(inFlight := s.inFlight - {m}, delivered := s.delivered + {m}, told := Answer(s, m, true))
    case Failed(m) =>
      var s1 := s.(inFlight := s.inFlight - {m}, told := Answer(s, m, false));
      if |s.queue| < CAPACITY then s1.(queue := s.queue + [m]) else s1.(dropped := s.dropped + {m})
  }

  function Start(hasClient: bool): State { State(hasClient, false, [], {}, {}, {}, [], map[], {}) }

  ghost predicate NoDuplicates(queue: seq<Msg>) { forall i, j | 0 <= i < j < |queue| :: queue[i] != queue[j] }

  /** The buffer is bounded, and buffered, in flight, delivered and dropped split the submitted messages. */
  ghost predicate Valid(s: State) {
    && |s.queue| <= CAPACITY && NoDuplicates(s.queue)
    && Members(s.queue) !! s.inFlight !! s.delivered !! s.dropped
    && Members(s.queue) + s.inFlight + s.delivered + s.dropped == s.submitted
    && s.told.Keys <= s.submitted
    && (forall m | m in s.queue || m in s.delivered || m in s.dropped :: m in s.told)
    && Members(s.wire) <= s.submitted
  }

  lemma MembersAppend(a: seq<Msg>, b: seq<Msg>)
    ensures Members(a + b) == Members(a) + Members(b)
  {
  }

  lemma PublishKeepsValid(s: State, m: Msg)
    requires Valid(s) && m !in s.submitted
    ensures Valid(Step(s, Publish(m)))
  {
    MembersAppend(s.queue, [m]);
    MembersAppend(s.wire, [m]);
    assert m !in Members(s.queue);
  }

  lemma FailedKeepsValid(s: State, m: Msg)
    requires Valid(s) && m in s.inFlight
    ensures Valid(Step(s, Failed(m)))
  {
    if |s.queue| < CAPACITY {
      assert Step(s, Failed(m)).queue == s.queue + [m];
      MembersAppend(s.queue, [m]);
      assert Members([m]) == {m} && m !in Members(s.queue);
    } else {
      assert Step(s, Failed(m)).queue == s.queue;
    }
  }

  lemma StepKeepsValid(s: State, e: Event)
    requires Valid(s) && Possible(s, e)
    ensures Valid(Step(s, e))
  {
    match e
    case Publish(m) => PublishKeepsValid(s, m);
    case Connect => MembersAppend(s.wire, s.queue);
    case Failed(m) => FailedKeepsValid(s, m);
    case _ =>
  }

  ghost predicate Plays(events: seq<Event>, s: State) {
    events == [] || (Possible(s, events[0]) && Plays(events[1..], Step(s, events[0])))
  }

  function After(events: seq<Event>, s: State): State {
    if events == [] then s else After(events[1..], Step(s, events[0]))
  }

  /** In every run the buffer holds at most 200 messages and each submitted message is in exactly one place. */
  lemma {:induction false} RunsStayValid(events: seq<Event>, s: State)
    requires Valid(s) && Plays(events, s)
    ensures Valid(After(events, s))
  {
    if events != [] {
      StepKeepsValid(s, events[0]);
      RunsStayValid(events[1..], Step(s, events[0]));
    }
  }

  /** Connecting hands over everything buffered, in buffering order, and leaves nothing behind. */
  lemma FlushKeepsOrder(s: State)
    requires Valid(s) && s.hasClient
    ensures var after := Step(s, Connect);
      && after.wire == s.wire + s.queue && after.queue == [] && after.dropped == s.dropped
      && forall i | 0 <= i < |s.queue| :: after.wire[|s.wire| + i] == s.queue[i] && s.queue[i] in after.inFlight
  {
  }

  /** A message is lost exactly when it meets a full buffer: published while offline, or failed after being sent. */
  lemma LostIffBufferFull(s: State, e: Event, m: Msg)
    requires Valid(s) && Possible(s, e) && m !in s.dropped
    ensures m in Step(s, e).dropped <==>
      |s.queue| == 200 && ((e == Publish(m) && !(s.hasClient && s.connected)) || e == Failed(m))
  {
  }

  /** A step that answers the caller for the first time. */
  ghost predicate FirstAnswer(s: State, e: Event, m: Msg) { m !in s.told && m in Step(s, e).told }

  /** A first answer of `false` means the message is lost exactly when the buffer is full; otherwise it is kept. */
  lemma FalseAnswerLosesIff(s: State, e: Event, m: Msg)
    requires Valid(s) && Possible(s, e) && FirstAnswer(s, e, m) && !Step(s, e).told[m]
    ensures m in Step(s, e).dropped <==> |s.queue| == CAPACITY
    ensures m in Step(s, e).dropped || m in Step(s, e).queue
  {
  }

  /** A first answer of `true` never goes with a loss: the message is buffered or delivered. */
  lemma TrueAnswerKeeps(s: State, e: Event, m: Msg)
    requires Valid(s) && Possible(s, e) && FirstAnswer(s, e, m) && Step(s, e).told[m]
    ensures m !in Step(s, e).dropped && (m in Step(s, e).queue || m in Step(s, e).delivered)
  {
  }

  /** An answered message is lost later exactly when a send of it fails into a full buffer; the answer stays. */
  lemma AnsweredMessageLostIff(s: State, e: Event, m: Msg)
    requires Valid(s) && Possible(s, e) && m in s.told && m !in s.dropped
    ensures m in Step(s, e).dropped <==> e == Failed(m) && |s.queue| == CAPACITY
    ensures m in Step(s, e).told && Step(s, e).told[m] == s.told[m]
  {
  }

  // ----- the order of messages

  /** The messages that ask for a place in the buffer while offline: published, or given back by a failed send. */
  function Arrivals(events: seq<Event>): seq<Msg> {
    if events == [] then []
    else
      var last := events[|events| - 1];
      Arrivals(events[..|events| - 1]) + (if last.Publish? || last.Failed? then [last.m] else [])
  }

  ghost predicate Offline(events: seq<Event>) { forall e | e in events :: !e.Connect? }

  function First(messages: seq<Msg>, n: nat): seq<Msg> { if |messages| <= n then messages else messages[..n] }

  /** One more arrival is buffered behind the others if there is room, and dropped if not. */
  lemma OneMoreArrives(arrived: seq<Msg>, m: Msg, n: nat)
    ensures First(arrived + [m], n) == if |arrived| < n then First(arrived, n) + [m] else First(arrived, n)
    ensures Members(arrived + [m]) == Members(arrived) + {m}
  {
  }

  lemma {:induction false} AfterAppend(a: seq<Event>, b: seq<Event>, s: State)
    ensures Plays(a + b, s) <==> Plays(a, s) && Plays(b, After(a, s))
    ensures After(a + b, s) == After(b, After(a, s))
  {
    if a == [] {
      assert a + b == b;
    } else {
      assert (a + b)[1..] == a[1..] + b;
      AfterAppend(a[1..], b, Step(s, a[0]));
    }
  }

  lemma {:induction false} LastStep(events: seq<Event>, s: State)
    requires events != []
    ensures var front, last := events[..|events| - 1], events[|events| - 1];
      && (Plays(events, s) <==> Plays(front, s) && Possible(After(front, s), last))
      && After(events, s) == Step(After(front, s), last)
  {
    var front, last := events[..|events| - 1], events[|events| - 1];
    assert events == front + [last] && [last][1..] == [];
    AfterAppend(front, [last], s);
    assert Plays([last], After(front, s)) <==> Possible(After(front, s), last);
    assert After([last], After(front, s)) == Step(After(front, s), last);
  }

  /** The buffer holds the first 200 of all that arrived, the rest is dropped, and nothing has been sent. */
  ghost predicate BufferedInOrder(s: State, all: seq<Msg>, after: State) {
    && after.queue == First(all, 200) && after.wire == s.wire
    && after.dropped == s.dropped + (Members(all) - Members(First(all, 200)))
    && !after.connected && after.hasClient == s.hasClient
  }

  lemma ArrivalBuffered(s: State, all: seq<Msg>, mid: State, e: Event)
    requires BufferedInOrder(s, all, mid) && Valid(mid) && Possible(mid, e) && (e.Publish? || e.Failed?)
    ensures BufferedInOrder(s, all + [e.m], Step(mid, e))
  {
    OneMoreArrives(all, e.m, 200);
    assert e.m !in Members(mid.queue);
    if |all| < 200 { MembersAppend(First(all, 200), [e.m]); }
  }

  /**
   While offline the buffer is what was in it, then every new or failed message in the order it came, the first 200 of
   all that; the rest is dropped, and nothing is sent.
   */
  lemma {:induction false} OfflineRunBuffersInOrder(events: seq<Event>, s: State)
    requires Valid(s) && !s.connected && Plays(events, s) && Offline(events)
    ensures BufferedInOrder(s, s.queue + Arrivals(events), After(events, s))
  {
    if events == [] {
      assert s.queue + [] == s.queue;
    } else {
      var front, last := events[..|events| - 1], events[|events| - 1];
      var arrived := s.queue + Arrivals(front);
      LastStep(events, s);
      OfflineRunBuffersInOrder(front, s);
      RunsStayValid(front, s);
      if last.Publish? || last.Failed? {
        ArrivalBuffered(s, arrived, After(front, s), last);
        assert s.queue + Arrivals(events) == arrived + [last.m];
      } else {
        assert s.queue + Arrivals(events) == arrived;
      }
    }
  }

  /**
   The first 200 messages waiting, or published or failed, while the broker was away go out when it is back, behind all
   that was sent before and in the order they came.
   */
  lemma {:induction false} ReconnectSendsInOrder(events: seq<Event>, s: State)
    requires Valid(s) && s.hasClient && !s.connected && Plays(events, s) && Offline(events)
    ensures Plays(events + [Connect], s)
    ensures After(events + [Connect], s).wire == s.wire + First(s.queue + Arrivals(events), 200)
    ensures After(events + [Connect], s).queue == []
  {
    OfflineRunBuffersInOrder(events, s);
    LastStep(events + [Connect], s);
    assert (events + [Connect])[..|events|] == events;
  }

  function Publishes(ms: seq<Msg>): seq<Event> {
    seq(|ms|, i requires 0 <= i < |ms| => Event.Publish(ms[i]))
  }

  lemma {:induction false} PublishesPlay(ms: seq<Msg>, s: State)
    requires NoDuplicates(ms) && forall m | m in ms :: m !in s.submitted
    ensures Plays(Publishes(ms), s) && After(Publishes(ms), s).submitted == s.submitted + Members(ms)
  {
    if ms != [] {
      var front, m := ms[..|ms| - 1], ms[|ms| - 1];
      PublishesPlay(front, s);
      LastPublish(ms, s);
      assert m !in Members(front) by { assert forall i | 0 <= i < |front| :: ms[i] != m; }
      MembersAppend(front, [m]);
      assert ms == front + [m];
    }
  }

  lemma LastPublish(ms: seq<Msg>, s: State)
    requires ms != []
    ensures var front, e := Publishes(ms[..|ms| - 1]), Event.Publish(ms[|ms| - 1]);
      && (Plays(Publishes(ms), s) <==> Plays(front, s) && Possible(After(front, s), e))
      && After(Publishes(ms), s) == Step(After(front, s), e)
  {
    assert Publishes(ms)[..|ms| - 1] == Publishes(ms[..|ms| - 1]);
    LastStep(Publishes(ms), s);
  }

  lemma {:induction false} PublishesArrive(ms: seq<Msg>)
    ensures Arrivals(Publishes(ms)) == ms
  {
    if ms != [] {
      PublishesArrive(ms[..|ms| - 1]);
      assert Publishes(ms)[..|ms| - 1] == Publishes(ms[..|ms| - 1]);
      assert ms == ms[..|ms| - 1] + [ms[|ms| - 1]];
    }
  }

  /** New messages published while offline, with room for them, go out on reconnecting in the order of the calls. */
  lemma {:induction false} PublishedOfflineSentInOrder(ms: seq<Msg>, s: State)
    requires Valid(s) && s.hasClient && !s.connected && |s.queue| + |ms| <= 200
    requires NoDuplicates(ms) && forall m | m in ms :: m !in s.submitted
    ensures Plays(Publishes(ms) + [Connect], s)
    ensures After(Publishes(ms) + [Connect], s).wire == s.wire + s.queue + ms
  {
    PublishesPlay(ms, s);
    PublishesArrive(ms);
    ReconnectSendsInOrder(Publishes(ms), s);
    assert s.wire + (s.queue + ms) == s.wire + s.queue + ms;
  }

  /** New messages published while connected go out at once in the order of the calls; the buffer stays as it is. */
  lemma {:induction false} PublishedOnlineSentInOrder(ms: seq<Msg>, s: State)
    requires Valid(s) && s.hasClient && s.connected
    requires NoDuplicates(ms) && forall m | m in ms :: m !in s.submitted
    ensures var after := After(Publishes(ms), s);
      && Plays(Publishes(ms), s) && after.wire == s.wire + ms && after.queue == s.queue
      && after.hasClient && after.connected && after.dropped == s.dropped
  {
    PublishesPlay(ms, s);
    if ms != [] {
      var front := ms[..|ms| - 1];
      PublishedOnlineSentInOrder(front, s);
      LastPublish(ms, s);
      assert s.wire + front + [ms[|front|]] == s.wire + ms by { assert ms == front + [ms[|front|]]; }
    }
  }

  /** What has been sent stays sent, in its order, over any run. */
  lemma {:induction false} WireOnlyGrows(events: seq<Event>, s: State)
    ensures s.wire <= After(events, s).wire
  {
    if events != [] { WireOnlyGrows(events[1..], Step(s, events[0])); }
  }

  // ----- runs in which the answer misleads

  lemma Then(events: seq<Event>, e: Event, s: State) returns (longer: seq<Event>)
    requires Plays(events, s) && Possible(After(events, s), e)
    ensures Plays(longer, s) && After(longer, s) == Step(After(events, s), e)
  {
    longer := events + [e];
    AfterAppend(events, [e], s);
    assert [e][1..] == [];
    assert Plays([e], After(events, s)) && After([e], After(events, s)) == Step(After(events, s), e);
  }

  /** A message that fails once is answered `false`, kept, resent after a reconnect and delivered. */
  lemma FalseAnswerYetDelivered(m: Msg)
    ensures exists events ::
      Plays(events, Start(true)) && var s := After(events, Start(true)); m in s.told && !s.told[m] && m in s.delivered
  {
    var s0 := Start(true);
    var run := Then([], Connect, s0);
    run := Then(run, Publish(m), s0);
    run := Then(run, Failed(m), s0);
    assert After(run, s0).queue == [m];
    run := Then(run, Disconnect, s0);
    run := Then(run, Connect, s0);
    assert m in Members([m]);
    run := Then(run, Acked(m), s0);
  }

  /** Offline, a buffer with room for `n` more takes `n` new messages. */
  lemma {:induction false} FillBuffer(events: seq<Event>, s0: State, first: Msg, n: nat) returns (longer: seq<Event>)
    requires Plays(events, s0) && !After(events, s0).connected && |After(events, s0).queue| + n <= CAPACITY
    requires Valid(After(events, s0)) && forall m | m in After(events, s0).submitted :: m < first
    ensures Plays(longer, s0) && !After(longer, s0).connected
    ensures var s, s' := After(events, s0), After(longer, s0);
      && |s'.queue| == |s.queue| + n && s'.inFlight == s.inFlight && s'.dropped == s.dropped
      && forall m | m in s.told :: m in s'.told && s'.told[m] == s.told[m]
    decreases n
  {
    if n == 0 {
      longer := events;
    } else {
      var s := After(events, s0);
      assert first !in s.submitted;
      assert first !in s.told;
      var next := Then(events, Publish(first), s0);
      StepKeepsValid(s, Publish(first));
      longer := FillBuffer(next, s0, first + 1, n - 1);
    }
  }

  /** A message buffered offline is answered `true`, and lost when its flush fails with the buffer full again. */
  lemma TrueAnswerYetLost(m: Msg)
    ensures exists events ::
      Plays(events, Start(true)) && var s := After(events, Start(true)); m in s.told && s.told[m] && m in s.dropped
  {
    var s0 := Start(true);
    var run := Then([], Publish(m), s0);
    assert After(run, s0).queue == [m];
    run := Then(run, Connect, s0);
    assert m in Members([m]);
    run := Then(run, Disconnect, s0);
    RunsStayValid(run, s0);
    var full := FillBuffer(run, s0, m + 1, CAPACITY);
    run := Then(full, Failed(m), s0);
  }

  /** The service: its two mutable fields, and ghost books of where every message went. */
  class MqttService {
    const hasClient: bool
    var isConnected: bool
    var offlineQueue: seq<Msg>
    ghost var inFlight: set<Msg>
    ghost var delivered: set<Msg>
    ghost var dropped: set<Msg>
    ghost var wire: seq<Msg>
    ghost var told: map<Msg, bool>
    ghost var submitted: set<Msg>

    ghost function Books(): State
      reads this
    {
      State(hasClient, isConnected, offlineQueue, inFlight, delivered, dropped, wire, told, submitted)
    }

    constructor (hasClient: bool)
      ensures Books() == Start(hasClient)
    {
      this.hasClient := hasClient;
      isConnected, offlineQueue := false, [];
      inFlight, delivered, dropped, wire, told, submitted := {}, {}, {}, [], map[], {};
    }

    /** The client takes a message; its callback comes later as `OnSent`. */
    ghost method Send(m: Msg)
      modifies this`wire, this`inFlight
      ensures wire == old(wire) + [m] && inFlight == old(inFlight) + {m}
    {
      wire := wire + [m];
      inFlight := inFlight + {m};
    }

    method Publish(m: Msg) returns (buffered: bool)
      requires Possible(Books(), Event.Publish(m))
      modifies this
      ensures Books() == Step(old(Books()), Event.Publish(m))
      ensures buffered <==> offlineQueue != old(offlineQueue)
    {
      submitted := submitted + {m};
      if !hasClient || !isConnected {
        if |offlineQueue| >= CAPACITY {
          dropped := dropped + {m};
          told := told[m := false];
          return false;
        }
        offlineQueue := offlineQueue + [m];
        told := told[m := true];
        return true;
      }
      Send(m);
      return false;
    }

    /** Take the whole buffer first, then send it item by item. */
    method FlushOfflineQueue()
      modifies this
      ensures Books() == Flushed(old(Books()))
    {
      if !hasClient || !isConnected || |offlineQueue| == 0 { return; }
      var pending := offlineQueue;
      offlineQueue := [];
      for n := 0 to |pending|
        invariant Books() == old(Books()).(
          queue := [], wire := old(wire) + pending[..n], inFlight := old(inFlight) + Members(pending[..n]))
      {
        assert pending[..n + 1] == pending[..n] + [pending[n]];
        MembersAppend(pending[..n], [pending[n]]);
        Send(pending[n]);
      }
      assert pending[..|pending|] == pending;
    }

    method OnConnect()
      requires hasClient
      modifies this
      ensures Books() == Step(old(Books()), Connect)
    {
      isConnected := true;
      FlushOfflineQueue();
    }

    method OnDisconnect()
      requires hasClient
      modifies this
      ensures Books() == Step(old(Books()), Disconnect)
    {
      isConnected := false;
    }

    /** The client's callback for one message, of a publish or of a flush. */
    method OnSent(m: Msg, failed: bool)
      requires Possible(Books(), if failed then Failed(m) else Acked(m))
      modifies this
      ensures Books() == Step(old(Books()), if failed then Failed(m) else Acked(m))
    {
      told := Answer(Books(), m, !failed);
      inFlight := inFlight - {m};
      if !failed {
        delivered := delivered + {m};
      } else if |offlineQueue| < CAPACITY {
        offlineQueue := offlineQueue + [m];
      } else {
        dropped := dropped + {m};
      }
    }
  }
}
