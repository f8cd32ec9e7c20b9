/** What an operator's retry or skip of a single step, and a sweep's late write, do to everything that follows. */
module ProvisioningRepairs {
  import opened Provisioning
  import opened Wrappers

  // ----- what follows

  predicate Inner(run: seq<World>, i: int) { 0 < i < |run| }

  ghost predicate NextAt(run: seq<World>, i: int) { Inner(run, i) ==> Next(run[i - 1], run[i]) }

  ghost predicate SkippingAt(run: seq<World>, i: int) { Inner(run, i) ==> NextWithSkips(run[i - 1], run[i]) }

  ghost predicate LooseAt(run: seq<World>, i: int) { Inner(run, i) ==> LooseNext(run[i - 1], run[i]) }

  /** Everyone but the operator's single-step repairs; sweeps write in time. */
  ghost predicate Steps(run: seq<World>) { run != [] && forall i: int :: NextAt(run, i) }

  ghost predicate SkippingSteps(run: seq<World>) { run != [] && forall i: int :: SkippingAt(run, i) }

  /** Sweeps may also write late. */
  ghost predicate LooseSteps(run: seq<World>) { run != [] && forall i: int :: LooseAt(run, i) }

  lemma StepsAreSkippingAndLoose(run: seq<World>)
    requires Steps(run)
    ensures SkippingSteps(run) && LooseSteps(run)
  {
    forall i: int ensures SkippingAt(run, i) && LooseAt(run, i) { assert NextAt(run, i); }
  }

  lemma Extend(run: seq<World>, w: World) returns (longer: seq<World>)
    requires Steps(run) && Next(run[|run| - 1], w)
    ensures Steps(longer) && longer == run + [w] && longer[0] == run[0] && longer[|longer| - 1] == w
  {
    longer := run + [w];
    forall i: int ensures NextAt(longer, i) { assert NextAt(run, i); }
  }

  // ----- a live job runs on

  ghost predicate JobSane(w: World) {
    Shaped(w) && (w.job.Running? && w.job.phase != Between ==> !Done(w.job.snapshot[w.job.at]))
  }

  /** Only steps from the job's position up to `k` that its snapshot does not have as done may have changed. */
  ghost predicate Reached(w: World, w': World, k: nat)
    requires w.job.Running? && |w.job.snapshot| == |w.statuses|
  {
    && JobSane(w') && w'.job == Running(w.job.snapshot, k, Between) && w'.active == w.active
    && |w'.statuses| == |w.statuses|
    && forall j | 0 <= j < |w.statuses| && (j < w.job.at || k <= j || Done(w.job.snapshot[j])) ::
         w'.statuses[j] == w.statuses[j]
  }

  ghost predicate PastStep(w: World, w': World)
    requires w.job.Running? && |w.job.snapshot| == |w.statuses|
  {
    Reached(w, w', w.job.at + 1)
  }

  lemma ReachedVia(w: World, v: World, w': World, m: nat, k: nat)
    requires w.job.Running? && |w.job.snapshot| == |w.statuses| && w.job.at <= m <= k
    requires Reached(w, v, m) && Reached(v, w', k)
    ensures Reached(w, w', k)
  {
  }

  /** A step of the job on the same row before it is done. */
  lemma PastStepVia(w: World, v: World, w': World)
    requires JobSane(w) && w.job.Running? && w.job.at < |w.statuses| && !Done(w.job.snapshot[w.job.at])
    requires v.job.Running? && v.job == w.job.(phase := v.job.phase) && v.active == w.active
    requires |v.statuses| == |w.statuses|
    requires forall j | 0 <= j < |w.statuses| && j != w.job.at :: v.statuses[j] == w.statuses[j]
    requires PastStep(v, w')
    ensures PastStep(w, w')
  {
  }

  lemma FinishStep(run: seq<World>) returns (longer: seq<World>)
    requires Steps(run) && JobSane(run[|run| - 1]) && InLoop(run[|run| - 1], Worked)
    ensures Steps(longer) && longer[0] == run[0] && PastStep(run[|run| - 1], longer[|longer| - 1])
  {
    var w := run[|run| - 1];
    var n := w.job.at;
    var done := w.(statuses := w.statuses[n := Completed], job := Running(w.job.snapshot, n + 1, Between));
    assert Finish(w, done);
    longer := Extend(run, done);
  }

  lemma WorkHeld(run: seq<World>) returns (longer: seq<World>)
    requires Steps(run) && JobSane(run[|run| - 1]) && HoldsNothingSaved(run[|run| - 1])
    requires var w := run[|run| - 1]; w.job.Running? && w.job.phase.Holding? && InLoop(w, w.job.phase)
    ensures Steps(longer) && longer[0] == run[0] && PastStep(run[|run| - 1], longer[|longer| - 1])
  {
    var w := run[|run| - 1];
    var id, n := w.job.phase.id, w.job.at;
    var worked := if w.names[n] == CloneAgent then w.(assistant := Some(id), job := w.job.(phase := Worked))
      else w.(number := Some(id), job := w.job.(phase := Worked));
    assert SaveId(w, worked);
    longer := Extend(run, worked);
    longer := FinishStep(longer);
    PastStepVia(w, worked, longer[|longer| - 1]);
  }

  /** The upstream call a step makes when its id is missing. */
  function Called(w: World): World
    requires InLoop(w, Entered)
  {
    var held := w.(job := w.job.(phase := Holding("")));
    if w.names[w.job.at] == CloneAgent then held.(clones := w.clones + 1) else held.(orders := w.orders + 1)
  }

  predicate MissesId(w: World)
    requires InLoop(w, Entered)
  {
    || (w.names[w.job.at] == CloneAgent && w.assistant.None?)
    || (w.names[w.job.at] == PurchasePhoneNumber && w.number.None?)
  }

  lemma CallsUpstream(w: World)
    requires InLoop(w, Entered) && MissesId(w)
    ensures CallUpstream(w, Called(w))
  {
    var called := Called(w);
    assert called.job == w.job.(phase := Holding(""));
  }

  lemma WorkEntered(run: seq<World>) returns (longer: seq<World>)
    requires Steps(run) && JobSane(run[|run| - 1]) && InLoop(run[|run| - 1], Entered)
    ensures Steps(longer) && longer[0] == run[0] && PastStep(run[|run| - 1], longer[|longer| - 1])
  {
    var w := run[|run| - 1];
    if MissesId(w) {
      CallsUpstream(w);
      longer := Extend(run, Called(w));
      assert HoldsNothingSaved(Called(w));
      longer := WorkHeld(longer);
      PastStepVia(w, Called(w), longer[|longer| - 1]);
    } else {
      longer := WorksLocally(run);
    }
  }

  lemma WorksLocally(run: seq<World>) returns (longer: seq<World>)
    requires Steps(run) && JobSane(run[|run| - 1]) && InLoop(run[|run| - 1], Entered) && !MissesId(run[|run| - 1])
    ensures Steps(longer) && longer[0] == run[0] && PastStep(run[|run| - 1], longer[|longer| - 1])
  {
    var w := run[|run| - 1];
    var worked := w.(job := w.job.(phase := Worked));
    assert WorkLocally(w, worked);
    longer := Extend(run, worked);
    longer := FinishStep(longer);
    PastStepVia(w, worked, longer[|longer| - 1]);
  }

  /** A live job can get past the step it is on, wherever in the step it is. */
  lemma GetsPastStep(run: seq<World>) returns (longer: seq<World>)
    requires Steps(run) && JobSane(run[|run| - 1]) && HoldsNothingSaved(run[|run| - 1])
    requires var w := run[|run| - 1]; w.job.Running? && w.job.at < |w.statuses|
    ensures Steps(longer) && longer[0] == run[0] && PastStep(run[|run| - 1], longer[|longer| - 1])
  {
    var w := run[|run| - 1];
    var n := w.job.at;
    match w.job.phase
    case Between =>
      if Done(w.job.snapshot[n]) {
        var passed := w.(job := w.job.(at := n + 1));
        assert PassOver(w, passed);
        longer := Extend(run, passed);
      } else {
        var entered := w.(statuses := w.statuses[n := InProgress], job := w.job.(phase := Entered));
        assert Enter(w, entered);
        longer := Extend(run, entered);
        longer := WorkEntered(longer);
        PastStepVia(w, entered, longer[|longer| - 1]);
      }
    case Entered => longer := WorkEntered(run);
    case Holding(_) => longer := WorkHeld(run);
    case Worked => longer := FinishStep(run);
  }

  /** A live job can get to any step before it, leaving what its snapshot has as done, and what is behind, alone. */
  lemma {:induction false} RunsTo(run: seq<World>, k: nat) returns (longer: seq<World>)
    requires Steps(run) && JobSane(run[|run| - 1]) && HoldsNothingSaved(run[|run| - 1])
    requires var w := run[|run| - 1];
      w.job.Running? && w.job.at <= k <= |w.statuses| && (w.job.at == k ==> w.job.phase == Between)
    ensures Steps(longer) && longer[0] == run[0] && Reached(run[|run| - 1], longer[|longer| - 1], k)
    decreases k - run[|run| - 1].job.at
  {
    var w := run[|run| - 1];
    if w.job.at == k {
      longer := run;
    } else {
      var next := GetsPastStep(run);
      longer := RunsTo(next, k);
      ReachedVia(w, next[|next| - 1], longer[|longer| - 1], w.job.at + 1, k);
    }
  }

  /** It can get to the end and activate the location. */
  lemma RunsToEnd(w: World) returns (run: seq<World>)
    requires JobSane(w) && HoldsNothingSaved(w) && w.job.Running?
    ensures Steps(run) && run[0] == w && run[|run| - 1].active && |run[|run| - 1].statuses| == |w.statuses|
    ensures forall j | 0 <= j < |w.statuses| && (j < w.job.at || Done(w.job.snapshot[j])) ::
      run[|run| - 1].statuses[j] == w.statuses[j]
  {
    run := RunsTo([w], |w.statuses|);
    var last := run[|run| - 1];
    assert EndJob(last, last.(active := true, job := NoJob));
    run := Extend(run, last.(active := true, job := NoJob));
  }

  // ----- activating a location with a step undone

  /** Whatever follows, the location is active only when all is done. */
  ghost predicate NeverActiveUnfinished(w: World) {
    forall run: seq<World> | SkippingSteps(run) && run[0] == w ::
      run[|run| - 1].active ==> AllDone(run[|run| - 1].statuses)
  }

  /** A state that keeps the skipping invariant except that step `i` is not done. */
  ghost predicate Undone(w: World, i: nat) {
    && JobSane(w) && NoneSkipped(w.statuses) && i < |w.statuses| && !Done(w.statuses[i])
    && (w.active && w.job.Running? ==> AllDone(w.job.snapshot) && w.job.phase == Between)
    && (w.job.Running? ==> forall j | 0 <= j < w.job.at && j != i :: Done(w.statuses[j]))
    && (w.job.Running? ==> forall j | 0 <= j < |w.statuses| && j != i && Done(w.job.snapshot[j]) :: Done(w.statuses[j]))
  }

  /** A live job that will come to step `i` and run it. */
  predicate JobWillRun(job: Job, i: nat) {
    job.Running? ==> job.at <= i < |job.snapshot| && !Done(job.snapshot[i])
  }

  lemma {:induction false} SkippingStepsKeepInv(run: seq<World>, k: nat)
    requires SkippingSteps(run) && SkipInv(run[0]) && k < |run|
    ensures SkipInv(run[k])
  {
    if k > 0 {
      SkippingStepsKeepInv(run, k - 1);
      assert SkippingAt(run, k);
      var w, w' := run[k - 1], run[k];
      if Next(w, w') {
        NextKeepsSkipInv(w, w');
      } else {
        var i: nat :| Skip(w, w', i);
        SkipKeepsSkipInv(w, w', i);
      }
    }
  }

  /**
   With a step undone, the location can never be active unfinished exactly when it is not active now and any live job
   will run the step.
   */
  lemma UndoneStepIsSafeIff(w: World, i: nat)
    requires Undone(w, i) && HoldsNothingSaved(w)
    ensures NeverActiveUnfinished(w) <==> !w.active && JobWillRun(w.job, i)
  {
    if !w.active && JobWillRun(w.job, i) {
      forall run: seq<World> | SkippingSteps(run) && run[0] == w
        ensures run[|run| - 1].active ==> AllDone(run[|run| - 1].statuses)
      {
        SkippingStepsKeepInv(run, |run| - 1);
      }
    } else if w.active {
      assert SkippingSteps([w]) && [w][0] == w;
    } else {
      var run := RunsToEnd(w);
      StepsAreSkippingAndLoose(run);
      assert run[|run| - 1].statuses[i] == w.statuses[i];
    }
  }

  /**
   Retrying one step keeps "active only when all is done", whatever follows, exactly when the location is not active and
   no live job has passed the step or has it as done: such a job activates the location without running it.
   */
  lemma RetryOneUndoesActive(w: World, w': World, i: nat)
    requires SkipInv(w) && HoldsNothingSaved(w) && RetryOne(w, w', i)
    ensures NeverActiveUnfinished(w') <==> !w.active && JobWillRun(w.job, i)
  {
    UndoneStepIsSafeIff(w', i);
  }

  /** A sweep's late write keeps it, whatever follows, under the same condition. */
  lemma LateMarkUndoesActive(w: World, w': World, i: nat)
    requires SkipInv(w) && HoldsNothingSaved(w) && LateMark(w, w', i)
    ensures NeverActiveUnfinished(w') <==> !w.active && JobWillRun(w.job, i)
  {
    UndoneStepIsSafeIff(w', i);
  }

  // ----- breaking the completed prefix

  /** Whatever follows, what has been touched has only completed steps before it. */
  ghost predicate AlwaysOrdered(w: World) {
    forall run: seq<World> | Steps(run) && run[0] == w :: Ordered(run[|run| - 1].statuses)
  }

  /**
   What a live job has behind it is completed, and what it will run has nothing touched or selected by a sweep behind
   it; the last step, which nothing comes after, may differ from the snapshot.
   */
  ghost predicate PrefixInv(w: World) {
    && JobSane(w) && Ordered(w.statuses) && NoneSkipped(w.statuses) && SweepBehind(w)
    && (w.job.Running? ==>
          && (forall j | 0 <= j < w.job.at && j < |w.statuses| - 1 :: w.statuses[j] == Completed)
          && (forall j | w.job.at <= j < |w.statuses| - 1 && Done(w.job.snapshot[j]) :: w.statuses[j] == Completed)
          && (forall j | w.job.at <= j < |w.statuses| && !Done(w.job.snapshot[j]) :: Untouched(w, j)))
  }

  /** Nothing behind a step has been touched or selected by a sweep. */
  predicate Untouched(w: World, i: nat) {
    (forall j | i < j < |w.statuses| :: w.statuses[j] == Pending) && (forall j | j in w.sweep :: j <= i)
  }

  lemma StartKeepsPrefix(w: World, w': World)
    requires PrefixInv(w) && StartJob(w, w')
    ensures PrefixInv(w')
  {
    forall j | 0 <= j < |w.statuses| && !Done(w.statuses[j]) ensures Untouched(w', j) {
      assert w.statuses[j] != Completed;
    }
  }

  lemma QuietStepKeepsPrefix(w: World, w': World)
    requires PrefixInv(w) && QuietRunnerStep(w, w') && w.job.Running?
    ensures PrefixInv(w')
  {
    assert w'.statuses == w.statuses && w'.names == w.names && w'.sweep == w.sweep;
    forall j | Untouched(w, j) ensures Untouched(w', j) {}
  }

  lemma RowStepKeepsPrefix(w: World, w': World)
    requires PrefixInv(w) && (Enter(w, w') || Finish(w, w') || Fail(w, w'))
    ensures PrefixInv(w')
  {
    var n := w.job.at;
    assert Untouched(w, n);
    forall j | n < j < |w.statuses| && !Done(w.job.snapshot[j]) ensures Untouched(w', j) { assert Untouched(w, j); }
    assert Untouched(w', n);
  }

  lemma SweepKeepsPrefix(w: World, w': World, i: nat)
    requires PrefixInv(w) && (Select(w, w', i) || TimelyMark(w, w', i))
    ensures PrefixInv(w')
  {
    if TimelyMark(w, w', i) { assert forall j | i < j < |w.statuses| :: w.statuses[j] == Pending; }
    if w.job.Running? {
      forall j | w.job.at <= j < |w.statuses| && !Done(w.job.snapshot[j]) ensures Untouched(w', j) {
        assert Untouched(w, j);
      }
    }
  }

  lemma ResetKeepsPrefix(w: World, w': World)
    requires PrefixInv(w) && (Deactivate(w, w') || Reset(w, w'))
    ensures PrefixInv(w')
  {
    forall j | Untouched(w, j) ensures Untouched(w', j) {}
  }

  lemma NextKeepsPrefix(w: World, w': World)
    requires PrefixInv(w) && Next(w, w')
    ensures PrefixInv(w')
  {
    if Enter(w, w') || Finish(w, w') || Fail(w, w') {
      RowStepKeepsPrefix(w, w');
    } else if StartJob(w, w') {
      StartKeepsPrefix(w, w');
    } else if RunnerStep(w, w') {
      QuietStepKeepsPrefix(w, w');
    } else if SweepStep(w, w') {
      var i: nat :| Select(w, w', i) || TimelyMark(w, w', i);
      SweepKeepsPrefix(w, w', i);
    } else {
      ResetKeepsPrefix(w, w');
    }
  }

  lemma {:induction false} StepsKeepPrefix(run: seq<World>, k: nat)
    requires Steps(run) && PrefixInv(run[0]) && k < |run|
    ensures PrefixInv(run[k])
  {
    if k > 0 {
      StepsKeepPrefix(run, k - 1);
      assert NextAt(run, k);
      NextKeepsPrefix(run[k - 1], run[k]);
    }
  }

  /** Nothing behind the step has been touched or is about to be by a sweep, and any live job will run it first. */
  predicate RetrySafe(w: World, i: nat)
    requires |w.names| == |w.statuses|
  {
    && Untouched(w, i)
    && (i == |w.statuses| - 1 || JobWillRun(w.job, i))
  }

  lemma RetryKeepsPrefixInv(w: World, w': World, i: nat)
    requires OrderInv(w) && RetryOne(w, w', i) && RetrySafe(w, i)
    ensures PrefixInv(w')
  {
    NotCompletedIsUntouched(w);
    forall j | Untouched(w, j) ensures Untouched(w', j) {}
  }

  lemma NotCompletedIsUntouched(w: World)
    requires OrderInv(w)
    ensures forall j | 0 <= j < |w.statuses| && w.statuses[j] != Completed :: Untouched(w, j)
  {
  }

  /** A job that has the retried step behind it, or as done, touches the next one. */
  lemma JobBreaksPrefix(w: World, w': World, i: nat)
    requires OrderInv(w) && HoldsNothingSaved(w) && RetryOne(w, w', i)
    requires i < |w.statuses| - 1 && !JobWillRun(w.job, i)
    requires forall j | i < j < |w.statuses| :: w.statuses[j] == Pending
    ensures !AlwaysOrdered(w')
  {
    var job := w.job;
    assert w.statuses[i + 1] == Pending;
    assert job.at <= i + 1;
    if job.at <= i {
      assert w.statuses[i] == Completed && forall j | job.at <= j <= i :: Done(job.snapshot[j]);
    }
    assert job.at == i + 1 || job.phase == Between;
    if job.at == i + 1 && job.phase != Between {
      var failed := w'.(statuses := w'.statuses[i + 1 := Failed], active := false, job := NoJob);
      assert Fail(w', failed);
      Breaks([w'], failed, i);
    } else {
      var run := RunsTo([w'], i + 1);
      var at := run[|run| - 1];
      assert at.statuses[i] == Pending && w.statuses[i + 1] == Pending;
      assert !Done(job.snapshot[i + 1]);
      var entered := at.(statuses := at.statuses[i + 1 := InProgress], job := at.job.(phase := Entered));
      assert Enter(at, entered);
      Breaks(run, entered, i);
    }
  }

  lemma Breaks(run: seq<World>, next: World, i: nat)
    requires Steps(run) && Next(run[|run| - 1], next)
    requires i + 1 < |next.statuses| && next.statuses[i] == Pending && next.statuses[i + 1] != Pending
    ensures !AlwaysOrdered(run[0])
  {
    var longer := Extend(run, next);
    assert !Ordered(longer[|longer| - 1].statuses);
  }

  /**
   Retrying one step keeps the completed prefix, whatever follows, exactly when nothing behind it has been touched or
   selected by a sweep, and it is the last step or any live job has yet to run it.
   */
  lemma RetryOneKeepsOrderIff(w: World, w': World, i: nat)
    requires OrderInv(w) && HoldsNothingSaved(w) && RetryOne(w, w', i)
    ensures AlwaysOrdered(w') <==> RetrySafe(w, i)
  {
    if RetrySafe(w, i) {
      RetryKeepsPrefixInv(w, w', i);
      forall run: seq<World> | Steps(run) && run[0] == w' ensures Ordered(run[|run| - 1].statuses) {
        StepsKeepPrefix(run, |run| - 1);
      }
    } else if j :| i < j < |w.statuses| && w.statuses[j] != Pending {
      assert Steps([w']) && [w'][0] == w' && w'.statuses[j] != Pending && w'.statuses[i] == Pending;
    } else if k :| k in w.sweep && i < k {
      var marked := w'.(statuses := w'.statuses[k := Failed], sweep := w'.sweep - {k});
      assert w.statuses[k] == Pending && TimelyMark(w', marked, k);
      var run := Extend([w'], marked);
      assert marked.statuses[k] != Pending && marked.statuses[i] == Pending;
    } else {
      JobBreaksPrefix(w, w', i);
    }
  }

  /** Retrying one step undoes completed work exactly when that step was completed. */
  lemma RetryOneKeepsWorkIff(w: World, w': World, i: nat)
    requires RetryOne(w, w', i)
    ensures CompletedKept(w.statuses, w'.statuses) <==> w.statuses[i] != Completed
  {
    assert w'.statuses[i] == Pending;
  }

  // ----- skipped steps

  lemma SkipKeepsPrefixInv(w: World, w': World, i: nat)
    requires OrderInv(w) && Skip(w, w', i) && forall j | 0 <= j < i :: w.statuses[j] == Completed
    ensures PrefixInv(w')
  {
    NotCompletedIsUntouched(w);
    forall j | i <= j && Untouched(w, j) ensures Untouched(w', j) {}
    forall a, b | 0 <= a < b < |w'.statuses| && w'.statuses[b] != Pending ensures w'.statuses[a] == Completed {
      if b > i { assert w.statuses[b] != Pending; }
    }
  }

  /** Skipping a step keeps the completed prefix, whatever follows, exactly when everything before it is completed. */
  lemma SkipKeepsOrderIff(w: World, w': World, i: nat)
    requires OrderInv(w) && Skip(w, w', i)
    ensures AlwaysOrdered(w') <==> forall j | 0 <= j < i :: w.statuses[j] == Completed
  {
    if forall j | 0 <= j < i :: w.statuses[j] == Completed {
      SkipKeepsPrefixInv(w, w', i);
      forall run: seq<World> | Steps(run) && run[0] == w' ensures Ordered(run[|run| - 1].statuses) {
        StepsKeepPrefix(run, |run| - 1);
      }
    } else {
      var j :| 0 <= j < i && w.statuses[j] != Completed;
      var run := [w'];
      assert Steps(run) && run[0] == w' && w'.statuses[i] != Pending && w'.statuses[j] != Completed;
      assert !Ordered(run[|run| - 1].statuses);
    }
  }

  /** Whatever follows, late sweeps included, step `i` stays completed. */
  ghost predicate AlwaysCompleted(w: World, i: nat) {
    forall run: seq<World> | LooseSteps(run) && run[0] == w ::
      i < |run[|run| - 1].statuses| && run[|run| - 1].statuses[i] == Completed
  }

  /** A completed step no job will run and no sweep will write. */
  ghost predicate LeftAlone(w: World, i: nat) {
    && JobSane(w) && i < |w.statuses| && w.statuses[i] == Completed && i !in w.sweep
    && (w.job.Running? ==> i < w.job.at || Done(w.job.snapshot[i]))
  }

  lemma LooseNextLeavesAlone(w: World, w': World, i: nat)
    requires LeftAlone(w, i) && LooseNext(w, w')
    ensures LeftAlone(w', i)
  {
    if RunnerStep(w, w') {
      RunnerLeavesAlone(w, w', i);
    } else if Deactivate(w, w') || Reset(w, w') {
    } else {
      var k: nat :| Select(w, w', k) || TimelyMark(w, w', k) || LateMark(w, w', k);
    }
  }

  lemma RunnerLeavesAlone(w: World, w': World, i: nat)
    requires LeftAlone(w, i) && RunnerStep(w, w')
    ensures LeftAlone(w', i)
  {
    if QuietRunnerStep(w, w') { assert w'.statuses == w.statuses && w'.names == w.names && w'.sweep == w.sweep; }
  }

  lemma {:induction false} StepsLeaveAlone(run: seq<World>, i: nat, k: nat)
    requires LooseSteps(run) && LeftAlone(run[0], i) && k < |run|
    ensures LeftAlone(run[k], i)
  {
    if k > 0 {
      StepsLeaveAlone(run, i, k - 1);
      assert LooseAt(run, k);
      LooseNextLeavesAlone(run[k - 1], run[k], i);
    }
  }

  /** A job that has the skipped step ahead of it, not as done, undoes the skip. */
  lemma JobUndoesSkip(w: World, i: nat)
    requires JobSane(w) && HoldsNothingSaved(w) && i < |w.statuses|
    requires w.job.Running? && w.job.at <= i && !Done(w.job.snapshot[i])
    ensures !AlwaysCompleted(w, i)
  {
    var run := [w];
    if w.job.at == i && w.job.phase != Between {
      var failed := w.(statuses := w.statuses[i := Failed], active := false, job := NoJob);
      assert Fail(w, failed);
      run := Extend(run, failed);
    } else {
      run := RunsTo(run, i);
      var at := run[|run| - 1];
      var entered := at.(statuses := at.statuses[i := InProgress], job := at.job.(phase := Entered));
      assert Enter(at, entered);
      run := Extend(run, entered);
    }
    StepsAreSkippingAndLoose(run);
  }

  /**
   A skipped step stays completed, whatever follows, exactly when no live job has yet to run it and no sweep has
   selected it.
   */
  lemma SkipLastsIff(w: World, w': World, i: nat)
    requires JobSane(w) && HoldsNothingSaved(w) && Skip(w, w', i)
    ensures AlwaysCompleted(w', i)
      <==> i !in w.sweep && (w.job.Running? ==> i < w.job.at || Done(w.job.snapshot[i]))
  {
    if i in w.sweep {
      var marked := w'.(statuses := w'.statuses[i := Failed], sweep := w'.sweep - {i});
      assert LateMark(w', marked, i);
      var run := [w', marked];
      assert LooseSteps(run);
      assert run[|run| - 1].statuses[i] == Failed;
    } else if w.job.Running? && w.job.at <= i && !Done(w.job.snapshot[i]) {
      JobUndoesSkip(w', i);
    } else {
      forall run: seq<World> | LooseSteps(run) && run[0] == w'
        ensures i < |run[|run| - 1].statuses| && run[|run| - 1].statuses[i] == Completed
      {
        StepsLeaveAlone(run, i, |run| - 1);
      }
    }
  }

  // ----- late sweeps

  /** A run in which sweeps may write a step after it has completed. */
  ghost predicate LooseBehavior(run: seq<World>) { LooseSteps(run) && New(run[0]) }

  ghost predicate EveryStepKeepsWork(run: seq<World>) {
    |run| <= 1
    || (EveryStepKeepsWork(run[..|run| - 1]) && CompletedKept(run[|run| - 2].statuses, run[|run| - 1].statuses))
  }

  lemma LateMarkUndoesWork(w: World, w': World, i: nat)
    requires Mark(w, w', i)
    ensures CompletedKept(w.statuses, w'.statuses) <==> w.statuses[i] != Completed
  {
    assert w'.statuses[i] == Failed;
  }

  /** A run keeps all completed work exactly when no sweep writes a step that has completed since it was selected. */
  lemma {:induction false} WorkIsKeptIffSweepsAreTimely(run: seq<World>)
    requires LooseBehavior(run)
    ensures EveryStepKeepsWork(run) <==> Behavior(run)
  {
    if |run| > 1 {
      var front := run[..|run| - 1];
      var w, w' := run[|run| - 2], run[|run| - 1];
      forall i: int ensures LooseAt(front, i) { assert LooseAt(run, i); }
      assert LooseAt(run, |run| - 1);
      WorkIsKeptIffSweepsAreTimely(front);
      if Behavior(front) {
        BehaviorKeepsOrder(front);
        if Next(w, w') {
          NextKeepsOrder(w, w');
        } else {
          var i: nat :| LateMark(w, w', i);
          LateMarkUndoesWork(w, w', i);
        }
      }
    }
  }

  // ----- concrete runs

  lemma AnyExtend(run: seq<World>, w: World) returns (longer: seq<World>)
    requires AnyBehavior(run) && NextOfAll(run[|run| - 1], w)
    ensures AnyBehavior(longer) && longer[|longer| - 1] == w
  {
    longer := run + [w];
    assert longer[..|longer| - 1] == run;
  }

  /** A location with two local steps whose job has done the first. */
  function TwoSteps(statuses: seq<StepStatus>, active: bool, job: Job): World {
    World([ConfigureAgent, ImportMenu], statuses, active, None, None, job, 0, 0, {})
  }

  lemma FirstStepDone() returns (run: seq<World>)
    ensures AnyBehavior(run)
    ensures run[|run| - 1] == TwoSteps([Completed, Pending], false, Running([Pending, Pending], 1, Between))
  {
    var snapshot := [Pending, Pending];
    var w0 := TwoSteps([Pending, Pending], false, NoJob);
    var w1 := TwoSteps([Pending, Pending], false, Running(snapshot, 0, Between));
    var w2 := TwoSteps([InProgress, Pending], false, Running(snapshot, 0, Entered));
    var w3 := TwoSteps([InProgress, Pending], false, Running(snapshot, 0, Worked));
    var w4 := TwoSteps([Completed, Pending], false, Running(snapshot, 1, Between));
    run := [w0];
    assert StartJob(w0, w1);
    run := AnyExtend(run, w1);
    assert Enter(w1, w2);
    run := AnyExtend(run, w2);
    assert WorkLocally(w2, w3);
    run := AnyExtend(run, w3);
    assert Finish(w3, w4);
    run := AnyExtend(run, w4);
  }

  /** Retrying the first step while the job is at the second: the job activates the location, the first step pending. */
  lemma RetryUnderLiveJob()
    ensures exists run: seq<World> ::
      AnyBehavior(run) && run[|run| - 1] == TwoSteps([Pending, Completed], true, NoJob)
  {
    var run := FirstStepDone();
    var snapshot, w0 := [Pending, Pending], run[|run| - 1];
    var w1 := TwoSteps([Pending, Pending], false, Running(snapshot, 1, Between));
    var w2 := TwoSteps([Pending, InProgress], false, Running(snapshot, 1, Entered));
    var w3 := TwoSteps([Pending, InProgress], false, Running(snapshot, 1, Worked));
    var w4 := TwoSteps([Pending, Completed], false, Running(snapshot, 2, Between));
    var w5 := TwoSteps([Pending, Completed], true, NoJob);
    assert RetryOne(w0, w1, 0);
    run := AnyExtend(run, w1);
    assert Enter(w1, w2);
    run := AnyExtend(run, w2);
    assert WorkLocally(w2, w3);
    run := AnyExtend(run, w3);
    assert Finish(w3, w4);
    run := AnyExtend(run, w4);
    assert EndJob(w4, w5);
    run := AnyExtend(run, w5);
  }

  /** Skipping the second step of a new location leaves a hole before it. */
  lemma SkipLeavesHole()
    ensures exists run: seq<World> ::
      AnyBehavior(run) && run[|run| - 1] == TwoSteps([Pending, Completed], false, NoJob)
  {
    var w0, w1 := TwoSteps([Pending, Pending], false, NoJob), TwoSteps([Pending, Completed], false, NoJob);
    assert Skip(w0, w1, 1);
    assert AnyBehavior([w0]);
    var run := AnyExtend([w0], w1);
  }

  /** A location with one local step. */
  function OneStep(status: StepStatus, active: bool, job: Job, sweep: set<nat>): World {
    World([ConfigureAgent], [status], active, None, None, job, 0, 0, sweep)
  }

  /** A step selected while the job is on it and written once the job is done: active location, failed step. */
  lemma LateSweepFailsActiveStep()
    ensures exists run: seq<World> ::
      AnyBehavior(run) && run[|run| - 1] == OneStep(StepStatus.Failed, true, NoJob, {})
  {
    var snapshot := [Pending];
    var w0, w1 := OneStep(Pending, false, NoJob, {}), OneStep(Pending, false, Running(snapshot, 0, Between), {});
    var w2 := OneStep(InProgress, false, Running(snapshot, 0, Entered), {});
    var w3 := OneStep(InProgress, false, Running(snapshot, 0, Entered), {0});
    var w4 := OneStep(InProgress, false, Running(snapshot, 0, Worked), {0});
    var w5 := OneStep(Completed, false, Running(snapshot, 1, Between), {0});
    var w6, w7 := OneStep(Completed, true, NoJob, {0}), OneStep(StepStatus.Failed, true, NoJob, {});
    var run := [w0];
    assert StartJob(w0, w1);
    run := AnyExtend(run, w1);
    assert Enter(w1, w2);
    run := AnyExtend(run, w2);
    assert Select(w2, w3, 0);
    run := AnyExtend(run, w3);
    assert WorkLocally(w3, w4);
    run := AnyExtend(run, w4);
    assert Finish(w4, w5);
    run := AnyExtend(run, w5);
    assert EndJob(w5, w6);
    run := AnyExtend(run, w6);
    assert {0} - {0} == {};
    assert LateMark(w6, w7, 0);
    run := AnyExtend(run, w7);
  }
}
