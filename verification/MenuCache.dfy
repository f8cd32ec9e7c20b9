/**
 The version-stamped menu cache of one organization: readers, edits, invalidations and two time-to-live
 clocks interleaving.
 */
module MenuCache {
  import opened Wrappers

  /** Milliseconds: how long a menu entry and a version stamp live. */
  const HOUR := 3600000
  const WEEK := 7 * 24 * 3600000

  type Rid = nat

  /** What besides organization and version a menu key is made of. */
  datatype View = View(withDeleted: bool, location: Option<string>, offset: nat, limit: nat)

  /** A cached menu, known to show every edit up to `asOf`. */
  datatype Entry = Entry(asOf: nat, expires: nat)

  datatype Stamp = Stamp(value: nat, expires: nat)

  datatype Reader =
    | Idle(view: View)
    | Looked(view: View, stamp: nat, since: nat, mustSee: nat)
    | Missed(view: View, stamp: nat, since: nat, mustSee: nat)
    | Fetched(view: View, stamp: nat, since: nat, mustSee: nat, asOf: nat)
    | Returned(mustSee: nat, asOf: nat)

  /** One finished invalidation: when it set the stamp, and the newest edit any invalidation had covered by then. */
  datatype Bump = Bump(at: nat, settled: nat)

  /**
   `edits` counts committed menu edits, `settled` those whose invalidation has finished; `floors` remembers it per
   stamp.
   */
  datatype State = State(
    now: nat, edits: nat, settled: nat, stamp: Option<Stamp>, entries: map<(nat, View), Entry>,
    readers: map<Rid, Reader>, floors: map<nat, nat>, log: seq<Bump>)

  // ----- the steps

  ghost predicate Tick(s: State, s': State) { s' == s.(now := s'.now) && s.now <= s'.now }

  ghost predicate Edit(s: State, s': State) { s' == s.(edits := s.edits + 1) }

  /** `invalidateMenuCache` for a committed edit sets the stamp to some clock reading. */
  ghost predicate SetStamp(s: State, s': State, edit: nat, value: nat) {
    && edit <= s.edits && value != 0
    && var settled := if edit > s.settled then edit else s.settled;
       s' == s.(stamp := Some(Stamp(value, s.now + WEEK)), settled := settled,
                floors := s.floors[value := settled], log := s.log + [Bump(s.now, settled)])
  }

  /** The same under the assumption the code rests on: two invalidations never read the same millisecond. */
  ghost predicate Invalidate(s: State, s': State, edit: nat, value: nat) {
    SetStamp(s, s', edit, value) && value !in s.floors
  }

  /** A request for a menu arrives. */
  ghost predicate Begin(s: State, s': State, r: Rid, view: View) {
    r !in s.readers && s' == s.(readers := s.readers[r := Idle(view)])
  }

  /** `getMenuCacheVersion`: 0 when no stamp is alive. */
  function CurrentStamp(s: State): nat {
    if s.stamp.Some? && s.now < s.stamp.value.expires then s.stamp.value.value else 0
  }

  ghost predicate Look(s: State, s': State, r: Rid) {
    && r in s.readers && s.readers[r].Idle?
    && s' == s.(readers := s.readers[r := Looked(s.readers[r].view, CurrentStamp(s), s.now, s.settled)])
  }

  predicate Alive(s: State, key: (nat, View)) { key in s.entries && s.now < s.entries[key].expires }

  ghost predicate Hit(s: State, s': State, r: Rid) {
    && r in s.readers && s.readers[r].Looked?
    && var p := s.readers[r];
       && Alive(s, (p.stamp, p.view))
       && s' == s.(readers := s.readers[r := Returned(p.mustSee, s.entries[(p.stamp, p.view)].asOf)])
  }

  ghost predicate Miss(s: State, s': State, r: Rid) {
    && r in s.readers && s.readers[r].Looked?
    && var p := s.readers[r];
       && !Alive(s, (p.stamp, p.view))
       && s' == s.(readers := s.readers[r := Missed(p.view, p.stamp, p.since, p.mustSee)])
  }

  /** The first of the queries; later ones only see more edits. */
  ghost predicate Fetch(s: State, s': State, r: Rid) {
    && r in s.readers && s.readers[r].Missed?
    && var p := s.readers[r];
       s' == s.(readers := s.readers[r := Fetched(p.view, p.stamp, p.since, p.mustSee, s.edits)])
  }

  predicate InTime(s: State, since: nat) { s.now - since <= WEEK - HOUR }

  /** The read took less than the gap between the two lifetimes. */
  ghost predicate Store(s: State, s': State, r: Rid) {
    && r in s.readers && s.readers[r].Fetched?
    && var p := s.readers[r];
       && InTime(s, p.since)
       && s' == s.(entries := s.entries[(p.stamp, p.view) := Entry(p.asOf, s.now + HOUR)],
                   readers := s.readers[r := Returned(p.mustSee, p.asOf)])
  }

  ghost predicate Evict(s: State, s': State, key: (nat, View)) { s' == s.(entries := s.entries - {key}) }

  ghost predicate ReaderStep(s: State, s': State) {
    exists r: Rid :: Look(s, s', r) || Hit(s, s', r) || Miss(s, s', r) || Fetch(s, s', r) || Store(s, s', r)
  }

  ghost predicate Next(s: State, s': State) {
    || Tick(s, s') || Edit(s, s') || ReaderStep(s, s') || (exists r: Rid, view: View :: Begin(s, s', r, view))
    || (exists edit: nat, value: nat :: Invalidate(s, s', edit, value))
    || (exists key :: Evict(s, s', key))
  }

  ghost predicate Init(s: State) {
    && s.settled == 0 && s.stamp.None? && s.entries == map[] && s.floors == map[] && s.log == []
    && forall r | r in s.readers :: s.readers[r].Idle?
  }

  ghost predicate Steps(run: seq<State>) {
    && run != []
    && (|run| == 1 || (Steps(run[..|run| - 1]) && Next(run[|run| - 2], run[|run| - 1])))
  }

  ghost predicate Behavior(run: seq<State>) { Steps(run) && Init(run[0]) }

  // ----- the invariant

  /** The edits a reader that finds no stamp at time `t` must see: those settled by stamps expired by then. */
  function Due(log: seq<Bump>, t: int): nat {
    if log == [] then 0
    else if log[|log| - 1].at + WEEK <= t then log[|log| - 1].settled
    else Due(log[..|log| - 1], t)
  }

  ghost predicate LogSound(s: State) {
    && (forall i | 0 <= i < |s.log| :: s.log[i].at <= s.now && s.log[i].settled <= s.settled)
    && s.settled <= s.edits
    && (s.log == [] ==> s.stamp.None? && s.settled == 0)
    && (s.log != [] ==>
          && s.stamp.Some?
          && s.stamp.value.expires == s.log[|s.log| - 1].at + WEEK && s.log[|s.log| - 1].settled == s.settled
          && s.stamp.value.value in s.floors && s.floors[s.stamp.value.value] == s.settled)
    && (forall v | v in s.floors :: v != 0 && s.floors[v] <= s.settled)
  }

  /**
   A menu under a stamp shows what was settled when the stamp was set; one under no stamp, what falls due while it
   lives.
   */
  ghost predicate EntriesSound(s: State) {
    forall key | key in s.entries ::
      var e := s.entries[key];
      && (key.0 != 0 ==> key.0 in s.floors && (Alive(s, key) ==> s.floors[key.0] <= e.asOf))
      && (key.0 == 0 ==> e.expires <= s.now + HOUR && forall t: int | t < e.expires :: Due(s.log, t) <= e.asOf)
  }

  ghost predicate Owes(s: State, stamp: nat, since: nat, mustSee: nat) {
    && since <= s.now
    && (stamp != 0 ==> stamp in s.floors && mustSee <= s.floors[stamp])
    && (stamp == 0 ==> mustSee <= Due(s.log, since))
    && mustSee <= s.settled
  }

  ghost predicate ReaderSound(s: State, p: Reader) {
    match p
    case Idle(_) => true
    case Looked(_, stamp, since, mustSee) => Owes(s, stamp, since, mustSee)
    case Missed(_, stamp, since, mustSee) => Owes(s, stamp, since, mustSee)
    case Fetched(_, stamp, since, mustSee, asOf) =>
      && Owes(s, stamp, since, mustSee) && mustSee <= asOf
      && (stamp != 0 && InTime(s, since) ==> s.floors[stamp] <= asOf)
      && (stamp == 0 ==> forall t: int | t < since + WEEK :: Due(s.log, t) <= asOf)
    case Returned(mustSee, asOf) => mustSee <= asOf
  }

  ghost predicate Inv(s: State) {
    LogSound(s) && EntriesSound(s) && forall r | r in s.readers :: ReaderSound(s, s.readers[r])
  }

  lemma {:induction false} DueWithinSettled(log: seq<Bump>, t: int, settled: nat)
    requires forall i | 0 <= i < |log| :: log[i].settled <= settled
    ensures Due(log, t) <= settled
  {
    if log != [] { DueWithinSettled(log[..|log| - 1], t, settled); }
  }

  /** A new stamp makes nothing due before it expires itself, and takes nothing back. */
  lemma DueAfterBump(s: State, bump: Bump, t: int)
    requires LogSound(s) && bump.at == s.now && s.settled <= bump.settled
    ensures t < s.now + WEEK ==> Due(s.log + [bump], t) == Due(s.log, t)
    ensures Due(s.log, t) <= Due(s.log + [bump], t)
  {
    assert (s.log + [bump])[..|s.log|] == s.log;
    DueWithinSettled(s.log, t, s.settled);
  }

  /** A menu older than the settled edits that a stamp still leads to, or that a reader on its way will put there. */
  ghost predicate StaleUnder(s: State, value: nat) {
    || (exists view: View :: Alive(s, (value, view)) && s.entries[(value, view)].asOf < s.settled)
    || (exists r: Rid :: StaleReader(s, value, r))
  }

  ghost predicate StaleReader(s: State, value: nat, r: Rid) {
    && r in s.readers && s.readers[r].Fetched? && s.readers[r].stamp == value
    && InTime(s, s.readers[r].since) && s.readers[r].asOf < s.settled
  }

  /** Setting a stamp, new or used before, is sound unless something stale is under it. */
  lemma SetStampKeepsInv(s: State, s': State, edit: nat, value: nat)
    requires Inv(s) && SetStamp(s, s', edit, value) && !StaleUnder(s', value)
    ensures Inv(s')
  {
    var bump := s'.log[|s.log|];
    assert s'.log == s.log + [bump];
    forall t: int
      ensures t < s.now + WEEK ==> Due(s'.log, t) == Due(s.log, t)
      ensures Due(s.log, t) <= Due(s'.log, t)
    {
      DueAfterBump(s, bump, t);
    }
    forall key | key in s'.entries && key.0 == value && Alive(s', key) ensures s'.settled <= s'.entries[key].asOf {
      assert Alive(s', (value, key.1));
    }
    forall r | r in s'.readers ensures ReaderSound(s', s'.readers[r]) {
      assert ReaderSound(s, s.readers[r]);
      assert !StaleReader(s', value, r);
    }
  }

  lemma InvalidateKeepsInv(s: State, s': State, edit: nat, value: nat)
    requires Inv(s) && Invalidate(s, s', edit, value)
    ensures Inv(s')
  {
    forall r | r in s.readers ensures !StaleReader(s', value, r) { assert ReaderSound(s, s.readers[r]); }
    SetStampKeepsInv(s, s', edit, value);
  }

  lemma LookKeepsInv(s: State, s': State, r: Rid)
    requires Inv(s) && Look(s, s', r)
    ensures Inv(s')
  {
    forall q | q in s'.readers ensures ReaderSound(s', s'.readers[q]) {
      if q != r { assert ReaderSound(s, s.readers[q]); }
    }
  }

  lemma FetchKeepsInv(s: State, s': State, r: Rid)
    requires Inv(s) && Fetch(s, s', r)
    ensures Inv(s')
  {
    forall t: int ensures Due(s.log, t) <= s.edits { DueWithinSettled(s.log, t, s.settled); }
    forall q | q in s'.readers ensures ReaderSound(s', s'.readers[q]) {
      assert ReaderSound(s, s.readers[q]);
    }
  }

  lemma HitOrMissKeepsInv(s: State, s': State, r: Rid)
    requires Inv(s) && (Hit(s, s', r) || Miss(s, s', r))
    ensures Inv(s')
  {
    assert ReaderSound(s, s.readers[r]);
    forall q | q in s'.readers ensures ReaderSound(s', s'.readers[q]) {
      assert ReaderSound(s, s.readers[q]);
    }
  }

  lemma StoreKeepsInv(s: State, s': State, r: Rid)
    requires Inv(s) && Store(s, s', r)
    ensures Inv(s')
  {
    assert ReaderSound(s, s.readers[r]);
    forall q | q in s'.readers ensures ReaderSound(s', s'.readers[q]) {
      assert ReaderSound(s, s.readers[q]);
    }
  }

  lemma QuietStepKeepsInv(s: State, s': State)
    requires Inv(s) && (Tick(s, s') || Edit(s, s') || exists key :: Evict(s, s', key))
    ensures Inv(s')
  {
    forall q | q in s'.readers ensures ReaderSound(s', s'.readers[q]) {
      assert ReaderSound(s, s.readers[q]);
    }
  }

  lemma BeginKeepsInv(s: State, s': State, r: Rid, view: View)
    requires Inv(s) && Begin(s, s', r, view)
    ensures Inv(s')
  {
    forall q | q in s'.readers && q != r ensures ReaderSound(s', s'.readers[q]) {
      assert ReaderSound(s, s.readers[q]);
    }
  }

  lemma NextKeepsInv(s: State, s': State)
    requires Inv(s) && Next(s, s')
    ensures Inv(s')
  {
    if ReaderStep(s, s') {
      var r: Rid :| Look(s, s', r) || Hit(s, s', r) || Miss(s, s', r) || Fetch(s, s', r) || Store(s, s', r);
      if Look(s, s', r) {
        LookKeepsInv(s, s', r);
      } else if Fetch(s, s', r) {
        FetchKeepsInv(s, s', r);
      } else if Store(s, s', r) {
        StoreKeepsInv(s, s', r);
      } else {
        HitOrMissKeepsInv(s, s', r);
      }
    } else if exists edit: nat, value: nat :: Invalidate(s, s', edit, value) {
      var edit: nat, value: nat :| Invalidate(s, s', edit, value);
      InvalidateKeepsInv(s, s', edit, value);
    } else if exists r: Rid, view: View :: Begin(s, s', r, view) {
      var r: Rid, view: View :| Begin(s, s', r, view);
      BeginKeepsInv(s, s', r, view);
    } else {
      QuietStepKeepsInv(s, s');
    }
  }

  lemma {:induction false} StepsKeepInv(run: seq<State>)
    requires Steps(run) && Inv(run[0])
    ensures Inv(run[|run| - 1])
  {
    if |run| > 1 {
      StepsKeepInv(run[..|run| - 1]);
      NextKeepsInv(run[|run| - 2], run[|run| - 1]);
    }
  }

  lemma {:induction false} BehaviorKeepsInv(run: seq<State>)
    requires Behavior(run)
    ensures Inv(run[|run| - 1])
  {
    StepsKeepInv(run);
  }

  // ----- the two lifetimes

  lemma {:induction false} StepsPrefix(run: seq<State>, k: nat)
    requires Steps(run) && 0 < k <= |run|
    ensures Steps(run[..k])
  {
    if k < |run| {
      StepsPrefix(run[..|run| - 1], k);
      assert run[..|run| - 1][..k] == run[..k];
    } else {
      assert run[..k] == run;
    }
  }

  lemma StepAt(run: seq<State>, k: nat)
    requires Steps(run) && k + 1 < |run|
    ensures Next(run[k], run[k + 1])
  {
    StepsPrefix(run, k + 2);
    assert run[..k + 2][|run[..k + 2]| - 2] == run[k];
  }

  lemma {:induction false} StampKept(run: seq<State>, k: nat, i: nat)
    requires Steps(run) && k <= i < |run|
    ensures run[k].now <= run[i].now && |run[k].log| <= |run[i].log|
    ensures |run[k].log| == |run[i].log| ==> run[i].stamp == run[k].stamp
    decreases i
  {
    if k < i {
      StampKept(run, k, i - 1);
      StepAt(run, i - 1);
      NextKeepsStamp(run[i - 1], run[i]);
    }
  }

  lemma NextKeepsStamp(s: State, s': State)
    requires Next(s, s')
    ensures s.now <= s'.now && ((s'.stamp == s.stamp && s'.log == s.log) || |s'.log| == |s.log| + 1)
  {
  }

  /**
   Until another invalidation, a read that begins within seven days of one looks under the stamp it set, and one that
   begins later under none.
   */
  lemma {:induction false} StampLastsAWeek(run: seq<State>, k: nat, i: nat, edit: nat, value: nat, r: Rid)
    requires Steps(run) && k < i && i + 1 < |run| && SetStamp(run[k], run[k + 1], edit, value)
    requires |run[i].log| == |run[k + 1].log| && Look(run[i], run[i + 1], r)
    ensures run[i + 1].readers[r].stamp == if run[i].now - run[k].now < 7 * 24 * 60 * 60 * 1000 then value else 0
  {
    StampKept(run, k + 1, i);
  }

  /**
   A menu once stored is served as it was stored, while it is neither replaced nor evicted, for an hour; from then on it
   is a miss.
   */
  lemma {:induction false} MenuLastsAnHour(s: State, stored: State, r: Rid, later: State, reader: Rid)
    requires Store(s, stored, r) && reader in later.readers && later.readers[reader].Looked?
    requires var key := (s.readers[r].stamp, s.readers[r].view);
      && key in later.entries && later.entries[key] == stored.entries[key]
      && key == (later.readers[reader].stamp, later.readers[reader].view)
    ensures (exists next :: Hit(later, next, reader)) <==> later.now - s.now < 60 * 60 * 1000
    ensures (exists next :: Miss(later, next, reader)) <==> 60 * 60 * 1000 <= later.now - s.now
    ensures forall next | Hit(later, next, reader) ::
      next.readers[reader] == Returned(later.readers[reader].mustSee, s.readers[r].asOf)
  {
    var p := later.readers[reader];
    if later.now - s.now < HOUR {
      var menu := later.entries[(p.stamp, p.view)].asOf;
      var next := later.(readers := later.readers[reader := Returned(p.mustSee, menu)]);
      assert Hit(later, next, reader);
    } else {
      var next := later.(readers := later.readers[reader := Missed(p.view, p.stamp, p.since, p.mustSee)]);
      assert Miss(later, next, reader);
    }
  }

  // ----- a read from its beginning to its end

  /** A request that is served from the menu cache or the database between two positions of a run. */
  ghost predicate ReadBetween(run: seq<State>, i: nat, j: nat, r: Rid) {
    && i + 1 <= j < |run|
    && r in run[i].readers && run[i].readers[r].Idle? && r in run[i + 1].readers && run[i + 1].readers[r].Looked?
    && r in run[j].readers && run[j].readers[r].Returned?
  }

  /** What a reader that is under way owes. */
  function Debt(p: Reader): nat { if p.Idle? then 0 else p.mustSee }

  lemma NextKeepsDebt(s: State, s': State, r: Rid)
    requires Next(s, s') && r in s.readers && !s.readers[r].Idle?
    ensures r in s'.readers && !s'.readers[r].Idle? && Debt(s'.readers[r]) == Debt(s.readers[r])
  {
  }

  lemma NextLooks(s: State, s': State, r: Rid)
    requires Next(s, s') && r in s.readers && s.readers[r].Idle? && r in s'.readers && s'.readers[r].Looked?
    ensures Debt(s'.readers[r]) == s.settled
  {
  }

  /** What a read must show is settled when it begins, and carried unchanged to its end. */
  lemma {:induction false} LookOwesSettled(run: seq<State>, i: nat, j: nat, r: Rid)
    requires Steps(run) && i + 1 <= j < |run|
    requires r in run[i].readers && run[i].readers[r].Idle? && r in run[i + 1].readers && run[i + 1].readers[r].Looked?
    ensures r in run[j].readers && !run[j].readers[r].Idle? && Debt(run[j].readers[r]) == run[i].settled
    decreases j
  {
    if j == i + 1 {
      StepAt(run, i);
      NextLooks(run[i], run[j], r);
    } else {
      LookOwesSettled(run, i, j - 1, r);
      StepAt(run, j - 1);
      NextKeepsDebt(run[j - 1], run[j], r);
    }
  }

  /** Past a miss a reader waits for its queries or has seen in them all edits there were at the miss. */
  ghost predicate FreshSince(edits: nat, s: State, r: Rid) {
    && edits <= s.edits && r in s.readers
    && match s.readers[r]
       case Missed(_, _, _, _) => true
       case Fetched(_, _, _, _, asOf) => edits <= asOf <= s.edits
       case Returned(_, asOf) => edits <= asOf <= s.edits
       case _ => false
  }

  lemma NextKeepsFresh(edits: nat, s: State, s': State, r: Rid)
    requires Next(s, s') && FreshSince(edits, s, r)
    ensures FreshSince(edits, s', r)
  {
  }

  /** A read that misses the cache shows every edit committed before the miss, its invalidation finished or not. */
  lemma {:induction false} MissedReadsAreFresh(run: seq<State>, i: nat, j: nat, r: Rid)
    requires Steps(run) && i <= j < |run| && r in run[i].readers && run[i].readers[r].Missed?
    ensures FreshSince(run[i].edits, run[j], r)
    decreases j
  {
    if i < j {
      MissedReadsAreFresh(run, i, j - 1, r);
      StepAt(run, j - 1);
      NextKeepsFresh(run[i].edits, run[j - 1], run[j], r);
    }
  }

  lemma {:induction false} SoundReads(run: seq<State>, i: nat, j: nat, r: Rid)
    requires Steps(run) && Inv(run[0]) && ReadBetween(run, i, j, r)
    ensures run[i].settled <= run[j].readers[r].asOf
  {
    LookOwesSettled(run, i, j, r);
    StepsPrefix(run, j + 1);
    StepsKeepInv(run[..j + 1]);
    assert run[..j + 1][0] == run[0] && run[..j + 1][j] == run[j];
    assert ReaderSound(run[j], run[j].readers[r]);
  }

  /** In every interleaving, a menu read shows every edit whose invalidation had finished when the read began. */
  lemma {:induction false} ReadsShowSettledEdits(run: seq<State>, i: nat, j: nat, r: Rid)
    requires Behavior(run) && ReadBetween(run, i, j, r)
    ensures run[i].settled <= run[j].readers[r].asOf
  {
    SoundReads(run, i, j, r);
  }
}
