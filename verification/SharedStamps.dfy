/** Two invalidations in one millisecond set the same stamp: exactly when that serves a stale menu. */
module SharedStamps {
  import opened MenuCache
  import opened Wrappers

  /** From a state, some read that has not begun yet can end with a menu older than what was settled when it began. */
  ghost predicate CanServeStale(s: State) {
    exists run: seq<State>, i: nat, j: nat, r: Rid {:trigger ReadBetween(run, i, j, r)} ::
      Steps(run) && run[0] == s && ReadBetween(run, i, j, r) && run[j].readers[r].asOf < run[i].settled
  }

  lemma Extend(run: seq<State>, s: State) returns (longer: seq<State>)
    requires Steps(run) && Next(run[|run| - 1], s)
    ensures Steps(longer) && longer == run + [s]
  {
    longer := run + [s];
    assert longer[..|longer| - 1] == run;
  }

  lemma {:induction false} UnusedRid(used: set<Rid>) returns (r: Rid)
    ensures forall u | u in used :: u < r
  {
    if used == {} {
      r := 0;
    } else {
      var u :| u in used;
      var bound := UnusedRid(used - {u});
      r := if u < bound then bound else u + 1;
      forall x | x in used ensures x < r { assert x == u || x in used - {u}; }
    }
  }

  /** A request that arrives while a stale menu is under the current stamp is served it. */
  lemma ServedFromEntry(run: seq<State>, view: View)
    requires Steps(run)
    requires var s := run[|run| - 1];
      var key := (CurrentStamp(s), view);
      Alive(s, key) && s.entries[key].asOf < s.settled
    ensures CanServeStale(run[0])
  {
    var s := run[|run| - 1];
    var asOf := s.entries[(CurrentStamp(s), view)].asOf;
    var r := UnusedRid(s.readers.Keys);
    var s1 := s.(readers := s.readers[r := Idle(view)]);
    var s2 := s1.(readers := s1.readers[r := Looked(view, CurrentStamp(s), s.now, s.settled)]);
    var s3 := s2.(readers := s2.readers[r := Returned(s.settled, asOf)]);
    assert Begin(s, s1, r, view) && Look(s1, s2, r) && Hit(s2, s3, r);
    var run1 := Extend(run, s1);
    var run2 := Extend(run1, s2);
    var run3 := Extend(run2, s3);
    var i := |run|;
    assert run3[i] == s1 && run3[i + 1] == s2 && run3[i + 2] == s3 && run3[0] == run[0];
    assert ReadBetween(run3, i, i + 2, r);
  }

  lemma ServedFromReader(s: State, r: Rid)
    requires StaleReader(s, CurrentStamp(s), r)
    ensures CanServeStale(s)
  {
    var p := s.readers[r];
    var s1 := s.(entries := s.entries[(p.stamp, p.view) := Entry(p.asOf, s.now + HOUR)],
                 readers := s.readers[r := Returned(p.mustSee, p.asOf)]);
    assert Store(s, s1, r);
    var run := Extend([s], s1);
    ServedFromEntry(run, p.view);
  }

  /**
   After any reachable state's stamp is set, to whatever value, a read that begins afterwards can be served a menu older
   than what was settled exactly when a live menu under that value is older, or a reader that has made its queries under
   it is and still has time to store.
   */
  lemma SharedStampServesStaleIff(s: State, s': State, edit: nat, value: nat)
    requires Inv(s) && SetStamp(s, s', edit, value)
    ensures CanServeStale(s') <==> StaleUnder(s', value)
  {
    assert CurrentStamp(s') == value;
    if StaleUnder(s', value) {
      if view: View :| Alive(s', (value, view)) && s'.entries[(value, view)].asOf < s'.settled {
        ServedFromEntry([s'], view);
      } else {
        var r: Rid :| StaleReader(s', value, r);
        ServedFromReader(s', r);
      }
    } else {
      SetStampKeepsInv(s, s', edit, value);
      forall run: seq<State>, i: nat, j: nat, r: Rid {:trigger ReadBetween(run, i, j, r)}
        | Steps(run) && run[0] == s' && ReadBetween(run, i, j, r) ensures run[i].settled <= run[j].readers[r].asOf
      {
        SoundReads(run, i, j, r);
      }
    }
  }

  // ----- a run of two invalidations in one millisecond

  /** The steps without the assumption that stamps differ. */
  ghost predicate LooseNext(s: State, s': State) {
    Next(s, s') || exists edit: nat, value: nat :: SetStamp(s, s', edit, value)
  }

  ghost predicate LooseBehavior(run: seq<State>) {
    && run != []
    && if |run| == 1 then Init(run[0]) else LooseBehavior(run[..|run| - 1]) && LooseNext(run[|run| - 2], run[|run| - 1])
  }

  lemma LooseExtend(run: seq<State>, s: State) returns (longer: seq<State>)
    requires LooseBehavior(run) && LooseNext(run[|run| - 1], s)
    ensures LooseBehavior(longer) && longer == run + [s]
  {
    longer := run + [s];
    assert longer[..|longer| - 1] == run;
  }

  /** The first edit is settled; a reader has read it under its stamp when the second edit lands. */
  lemma ReadBetweenEdits(v: View) returns (run: seq<State>)
    ensures LooseBehavior(run)
    ensures run[|run| - 1] == State(5, 2, 1, Some(Stamp(5, 5 + WEEK)), map[],
      map[0 := Fetched(v, 5, 5, 1, 1), 1 := Idle(v)], map[5 := 1], [Bump(5, 1)])
  {
    var s0 := State(5, 0, 0, None, map[], map[0 := Idle(v), 1 := Idle(v)], map[], []);
    var s1 := s0.(edits := 1);
    var s2 := s1.(stamp := Some(Stamp(5, 5 + WEEK)), settled := 1, floors := map[5 := 1], log := [Bump(5, 1)]);
    var s3 := s2.(readers := map[0 := Looked(v, 5, 5, 1), 1 := Idle(v)]);
    var s4 := s3.(readers := map[0 := Missed(v, 5, 5, 1), 1 := Idle(v)]);
    var s5 := s4.(readers := map[0 := Fetched(v, 5, 5, 1, 1), 1 := Idle(v)]);
    var s6 := s5.(edits := 2);
    run := [s0];
    assert Edit(s0, s1);
    run := LooseExtend(run, s1);
    assert SetStamp(s1, s2, 1, 5);
    run := LooseExtend(run, s2);
    assert Look(s2, s3, 0);
    run := LooseExtend(run, s3);
    assert Miss(s3, s4, 0);
    run := LooseExtend(run, s4);
    assert Fetch(s4, s5, 0);
    run := LooseExtend(run, s5);
    assert Edit(s5, s6);
    run := LooseExtend(run, s6);
  }

  /** The reader stores what it has read; then the second edit's invalidation sets the same stamp again. */
  lemma StoredUnderSharedStamp(v: View) returns (run: seq<State>)
    ensures LooseBehavior(run)
    ensures run[|run| - 1] == State(5, 2, 2, Some(Stamp(5, 5 + WEEK)), map[(5, v) := Entry(1, 5 + HOUR)],
      map[0 := Returned(1, 1), 1 := Idle(v)], map[5 := 2], [Bump(5, 1), Bump(5, 2)])
  {
    run := ReadBetweenEdits(v);
    var s0 := run[|run| - 1];
    var s1 := s0.(entries := map[(5, v) := Entry(1, 5 + HOUR)], readers := map[0 := Returned(1, 1), 1 := Idle(v)]);
    var s2 := s1.(settled := 2, floors := map[5 := 2], log := [Bump(5, 1), Bump(5, 2)]);
    assert Store(s0, s1, 0);
    run := LooseExtend(run, s1);
    assert SetStamp(s1, s2, 2, 5);
    run := LooseExtend(run, s2);
  }

  /** A reader that begins after both edits are settled, and is served the menu of the first. */
  ghost predicate ServedFirstEdit(run: seq<State>, i: nat, r: Rid) {
    && LooseBehavior(run) && ReadBetween(run, i, |run| - 1, r)
    && run[i].settled == 2 && run[|run| - 1].readers[r].asOf == 1
  }

  /**
   Two invalidations in one millisecond: a reader between them stores the first edit's menu under the shared stamp, and
   a reader that begins after both have finished is served it.
   */
  lemma {:induction false} SharedStampServesStaleMenu(v: View)
    ensures exists run, i, r :: ServedFirstEdit(run, i, r)
  {
    var run := StoredUnderSharedStamp(v);
    var i, s := |run| - 1, run[|run| - 1];
    var s1 := s.(readers := map[0 := Returned(1, 1), 1 := Looked(v, 5, 5, 2)]);
    var s2 := s.(readers := map[0 := Returned(1, 1), 1 := Returned(2, 1)]);
    assert Look(s, s1, 1);
    run := LooseExtend(run, s1);
    assert Hit(s1, s2, 1);
    run := LooseExtend(run, s2);
    assert run[i] == s && run[i + 1] == s1 && run[i + 2] == s2;
    assert ServedFirstEdit(run, i, 1);
  }
}
