/**
 Provisioning one location: the step runner, crashes anywhere, the timeout sweep and the operator's retry and skip,
 interleaving write by write with at most one job running.
 */
module Provisioning {
  import opened Wrappers

  type Id = string

  datatype StepName =
    | SearchPhoneNumber | PurchasePhoneNumber | CloneAgent | AssignPhoneToAgent
    | ConfigureAgent | ImportMenu | RegisterWebhook | SendAdminInvitation

  datatype StepStatus = Pending | InProgress | Completed | Failed | Skipped

  /** Where the runner is inside a step: entered, upstream object created but not saved, or done with its work. */
  datatype Phase = Between | Entered | Holding(id: Id) | Worked

  /** A running job keeps the statuses it read before its loop. */
  datatype Job = NoJob | Running(snapshot: seq<StepStatus>, at: nat, phase: Phase)

  /**
   The location's rows, the job, how often the upstream created something billable, and the step rows a sweep has
   selected but not written yet.
   */
  datatype World = World(
    names: seq<StepName>, statuses: seq<StepStatus>, active: bool,
    assistant: Option<Id>, number: Option<Id>, job: Job, clones: nat, orders: nat,
    sweep: set<nat>)

  predicate Done(s: StepStatus) { s == Completed || s == Skipped }

  predicate AllDone(statuses: seq<StepStatus>) { forall i | 0 <= i < |statuses| :: Done(statuses[i]) }

  /** The steps a new organization's location gets; the number steps only when no number is reused. */
  function StepList(reusedNumber: bool): seq<StepName> {
    (if reusedNumber then [] else [SearchPhoneNumber, PurchasePhoneNumber])
    + [CloneAgent, AssignPhoneToAgent, ConfigureAgent, ImportMenu, RegisterWebhook, SendAdminInvitation]
  }

  /** The steps a location added to an existing organization gets. */
  const ADDED_LOCATION_STEPS := [SearchPhoneNumber, PurchasePhoneNumber, CloneAgent, AssignPhoneToAgent, ConfigureAgent]

  /** A location with a list of steps to do and, where one is reused, a number. */
  function Created(names: seq<StepName>, number: Option<Id>): World {
    World(names, seq(|names|, _ => Pending), false, None, number, NoJob, 0, 0, {})
  }

  // ----- the runner's steps

  predicate InLoop(w: World, phase: Phase) {
    w.job.Running? && w.job.phase == phase && w.job.at < |w.statuses| && |w.job.snapshot| == |w.statuses| == |w.names|
  }

  ghost predicate StartJob(w: World, w': World) {
    w.job.NoJob? && w' == w.(job := Running(w.statuses, 0, Between))
  }

  /** A step the snapshot has as done is passed over. */
  ghost predicate PassOver(w: World, w': World) {
    InLoop(w, Between) && Done(w.job.snapshot[w.job.at]) && w' == w.(job := w.job.(at := w.job.at + 1))
  }

  ghost predicate Enter(w: World, w': World) {
    InLoop(w, Between) && !Done(w.job.snapshot[w.job.at])
    && w' == w.(statuses := w.statuses[w.job.at := InProgress], job := w.job.(phase := Entered))
  }

  /** Clone or order upstream, only when the location row holds no id yet. */
  ghost predicate CallUpstream(w: World, w': World) {
    InLoop(w, Entered) && exists id: Id ::
      || (w.names[w.job.at] == CloneAgent && w.assistant.None?
          && w' == w.(clones := w.clones + 1, job := w.job.(phase := Holding(id))))
      || (w.names[w.job.at] == PurchasePhoneNumber && w.number.None?
          && w' == w.(orders := w.orders + 1, job := w.job.(phase := Holding(id))))
  }

  ghost predicate SaveId(w: World, w': World) {
    w.job.Running? && w.job.phase.Holding? && InLoop(w, w.job.phase) &&
    var id := w.job.phase.id;
    || (w.names[w.job.at] == CloneAgent && w' == w.(assistant := Some(id), job := w.job.(phase := Worked)))
    || (w.names[w.job.at] == PurchasePhoneNumber && w' == w.(number := Some(id), job := w.job.(phase := Worked)))
  }

  /** The work of any other step, and the early return when the id is already there. */
  ghost predicate WorkLocally(w: World, w': World) {
    InLoop(w, Entered)
    && (w.names[w.job.at] == CloneAgent ==> w.assistant.Some?)
    && (w.names[w.job.at] == PurchasePhoneNumber ==> w.number.Some?)
    && w' == w.(job := w.job.(phase := Worked))
  }

  ghost predicate Finish(w: World, w': World) {
    InLoop(w, Worked)
    && w' == w.(statuses := w.statuses[w.job.at := Completed], job := w.job.(at := w.job.at + 1, phase := Between))
  }

  /** Any failure inside a step marks it failed, keeps the location provisioning and ends the job. */
  ghost predicate Fail(w: World, w': World) {
    w.job.Running? && w.job.phase != Between && InLoop(w, w.job.phase)
    && w' == w.(statuses := w.statuses[w.job.at := Failed], active := false, job := NoJob)
  }

  ghost predicate EndJob(w: World, w': World) {
    w.job.Running? && w.job.phase == Between && w.job.at >= |w.statuses| && w' == w.(active := true, job := NoJob)
  }

  /** The worker dies wherever it is. */
  ghost predicate Crash(w: World, w': World) { w.job.Running? && w' == w.(job := NoJob) }

  ghost predicate RunnerStep(w: World, w': World) {
    || StartJob(w, w') || PassOver(w, w') || Enter(w, w') || CallUpstream(w, w') || SaveId(w, w')
    || WorkLocally(w, w') || Finish(w, w') || Fail(w, w') || EndJob(w, w') || Crash(w, w')
  }

  // ----- everyone else

  /** The nightly sweep picks a step row that is in progress; a live job may be on it. */
  ghost predicate Select(w: World, w': World, i: nat) {
    i < |w.statuses| && w.statuses[i] == InProgress && w' == w.(sweep := w.sweep + {i})
  }

  /** Later it writes the row by its id alone, whatever has become of the step meanwhile. */
  ghost predicate Mark(w: World, w': World, i: nat) {
    i in w.sweep && i < |w.statuses| && w' == w.(statuses := w.statuses[i := Failed], sweep := w.sweep - {i})
  }

  ghost predicate TimelyMark(w: World, w': World, i: nat) { Mark(w, w', i) && w.statuses[i] != Completed }

  ghost predicate LateMark(w: World, w': World, i: nat) { Mark(w, w', i) && w.statuses[i] == Completed }

  /** The location's row goes back to provisioning: the sweep's second write, or a retry's first. */
  ghost predicate Deactivate(w: World, w': World) { w' == w.(active := false) }

  function ResetStatus(s: StepStatus): StepStatus { if s == Failed || s == InProgress then Pending else s }

  function ResetAll(statuses: seq<StepStatus>): seq<StepStatus> {
    seq(|statuses|, i requires 0 <= i < |statuses| => ResetStatus(statuses[i]))
  }

  /** A retry's second write, however long ago it made sure that the location was not active. */
  ghost predicate Reset(w: World, w': World) { w' == w.(statuses := ResetAll(w.statuses)) }

  /** `retryProvisioning` undisturbed: refused when active, else failed and stranded steps go back to pending. */
  function ResetStuck(w: World): World {
    if w.active then w else w.(statuses := ResetAll(w.statuses))
  }

  /** `skipStep` writes `completed`, whatever the step was; the retry it then asks for is a step of its own. */
  ghost predicate Skip(w: World, w': World, i: nat) {
    i < |w.statuses| && w' == w.(statuses := w.statuses[i := Completed])
  }

  /** `retryStep` writes `pending`, whatever the step was, before its retry may be refused. */
  ghost predicate RetryOne(w: World, w': World, i: nat) {
    i < |w.statuses| && w' == w.(statuses := w.statuses[i := Pending])
  }

  /** Steps by index: a sweep's selection, and its write in time. */
  ghost predicate SweepStep(w: World, w': World) { exists i: nat :: Select(w, w', i) || TimelyMark(w, w', i) }

  ghost predicate Next(w: World, w': World) {
    RunnerStep(w, w') || SweepStep(w, w') || Deactivate(w, w') || Reset(w, w')
  }

  /** With sweeps that write a step after it has completed. */
  ghost predicate LooseNext(w: World, w': World) { Next(w, w') || exists i: nat :: LateMark(w, w', i) }

  ghost predicate NextWithSkips(w: World, w': World) { Next(w, w') || exists i: nat :: Skip(w, w', i) }

  ghost predicate NextOfAll(w: World, w': World) {
    LooseNext(w, w') || exists i: nat :: Skip(w, w', i) || RetryOne(w, w', i)
  }

  // ----- completed steps form a growing prefix

  ghost predicate Shaped(w: World) {
    && |w.names| == |w.statuses|
    && (forall i | i in w.sweep :: i < |w.statuses|)
    && (w.job.Running? ==>
          && |w.job.snapshot| == |w.statuses| && w.job.at <= |w.statuses|
          && (w.job.at == |w.statuses| ==> w.job.phase == Between))
  }

  /** Whatever has been touched has only completed steps before it. */
  ghost predicate Ordered(statuses: seq<StepStatus>) {
    forall i, j | 0 <= i < j < |statuses| && statuses[j] != Pending :: statuses[i] == Completed
  }

  /** The job's snapshot is right about what is completed from its position on, and all before it is. */
  ghost predicate SnapshotHolds(w: World)
    requires Shaped(w)
  {
    w.job.Running? ==>
      && (forall i | 0 <= i < w.job.at :: w.statuses[i] == Completed)
      && (forall i | w.job.at <= i < |w.statuses| :: w.statuses[i] == Completed <==> Done(w.job.snapshot[i]))
      && (w.job.phase != Between ==> !Done(w.job.snapshot[w.job.at]))
  }

  /** Nothing writes `skipped`. */
  ghost predicate NoneSkipped(statuses: seq<StepStatus>) { forall i | 0 <= i < |statuses| :: statuses[i] != Skipped }

  /** Everything before a row selected by the sweep is completed. */
  ghost predicate SweepBehind(w: World)
    requires Shaped(w)
  {
    forall i, j | i in w.sweep && 0 <= j < i :: w.statuses[j] == Completed
  }

  ghost predicate OrderInv(w: World) {
    && Shaped(w) && Ordered(w.statuses) && SnapshotHolds(w) && NoneSkipped(w.statuses) && SweepBehind(w)
    && (w.active ==> AllDone(w.statuses))
  }

  /** What one step may do to finished work: nothing is undone, and activation comes only at the end. */
  ghost predicate KeepsCompleted(w: World, w': World) {
    CompletedKept(w.statuses, w'.statuses) && (!w.active && w'.active ==> AllDone(w'.statuses))
  }

  ghost predicate CompletedKept(before: seq<StepStatus>, after: seq<StepStatus>) {
    |after| == |before| && forall i | 0 <= i < |before| && before[i] == Completed :: after[i] == Completed
  }

  /** The runner's steps that write no step row. */
  ghost predicate QuietRunnerStep(w: World, w': World) {
    StartJob(w, w') || PassOver(w, w') || CallUpstream(w, w') || SaveId(w, w') || WorkLocally(w, w')
        || EndJob(w, w') || Crash(w, w')
  }

  lemma QuietStepKeepsOrder(w: World, w': World)
    requires OrderInv(w) && QuietRunnerStep(w, w')
    ensures OrderInv(w') && KeepsCompleted(w, w')
  {
    assert w'.statuses == w.statuses && w'.names == w.names;
  }

  lemma EnterKeepsOrder(w: World, w': World)
    requires OrderInv(w) && Enter(w, w')
    ensures OrderInv(w') && KeepsCompleted(w, w')
  {
    assert w.statuses[w.job.at] != Completed;
  }

  lemma FinishKeepsOrder(w: World, w': World)
    requires OrderInv(w) && Finish(w, w')
    ensures OrderInv(w') && KeepsCompleted(w, w')
  {
  }

  lemma FailKeepsOrder(w: World, w': World)
    requires OrderInv(w) && Fail(w, w')
    ensures OrderInv(w') && KeepsCompleted(w, w')
  {
    assert w.statuses[w.job.at] != Completed;
  }

  lemma SweepKeepsOrder(w: World, w': World, i: nat)
    requires OrderInv(w) && (Select(w, w', i) || TimelyMark(w, w', i))
    ensures OrderInv(w') && KeepsCompleted(w, w')
  {
    assert forall j | i < j < |w.statuses| :: w.statuses[j] == Pending;
  }

  lemma RetryKeepsOrder(w: World, w': World)
    requires OrderInv(w) && (Deactivate(w, w') || Reset(w, w'))
    ensures OrderInv(w') && KeepsCompleted(w, w')
  {
  }

  lemma NextKeepsOrder(w: World, w': World)
    requires OrderInv(w) && Next(w, w')
    ensures OrderInv(w') && KeepsCompleted(w, w')
  {
    if Enter(w, w') {
      EnterKeepsOrder(w, w');
    } else if Finish(w, w') {
      FinishKeepsOrder(w, w');
    } else if Fail(w, w') {
      FailKeepsOrder(w, w');
    } else if RunnerStep(w, w') {
      QuietStepKeepsOrder(w, w');
    } else if SweepStep(w, w') {
      var i: nat :| Select(w, w', i) || TimelyMark(w, w', i);
      SweepKeepsOrder(w, w', i);
    } else {
      RetryKeepsOrder(w, w');
    }
  }

  /** A location just created: all steps are to be done, and at most a number is held. */
  ghost predicate New(w: World) {
    && |w.names| == |w.statuses| && (forall i | 0 <= i < |w.statuses| :: w.statuses[i] == Pending)
    && !w.active && w.assistant.None? && w.job.NoJob? && w.clones == 0 && w.orders == 0 && w.sweep == {}
  }

  /** Both creation paths start there; the claims below hold for any list of steps. */
  lemma BothPathsAreNew(reusedNumber: Option<Id>)
    ensures New(Created(StepList(reusedNumber.Some?), reusedNumber)) && New(Created(ADDED_LOCATION_STEPS, None))
  {
  }

  /** The order steps need: a number is found and bought, an agent made, the two joined, and only then the rest. */
  function Rank(step: StepName): nat {
    match step
    case SearchPhoneNumber => 0
    case PurchasePhoneNumber => 1
    case CloneAgent => 2
    case AssignPhoneToAgent => 3
    case ConfigureAgent => 4
    case ImportMenu => 5
    case RegisterWebhook => 6
    case SendAdminInvitation => 7
  }

  ghost predicate InOrder(names: seq<StepName>) {
    forall i, j | 0 <= i < j < |names| :: Rank(names[i]) < Rank(names[j])
  }

  /**
   Every list of steps is in the order the steps need, each at most once. A number is bought unless one is reused; only
   a new organization imports its menu, registers its webhook and invites its administrator.
   */
  lemma StepListsAreInOrder(reusedNumber: bool, step: StepName)
    ensures InOrder(StepList(reusedNumber)) && InOrder(ADDED_LOCATION_STEPS)
    ensures step in StepList(reusedNumber) <==> !reusedNumber || 2 <= Rank(step)
    ensures step in ADDED_LOCATION_STEPS <==> Rank(step) <= 4
  {
    var names := StepList(reusedNumber);
    var n := if reusedNumber then 2 else 0;
    assert forall i | 0 <= i < |names| :: Rank(names[i]) == i + n;
    assert forall i | 0 <= i < |ADDED_LOCATION_STEPS| :: Rank(ADDED_LOCATION_STEPS[i]) == i;
    if n <= Rank(step) { assert names[Rank(step) - n] == step; }
    if Rank(step) <= 4 { assert ADDED_LOCATION_STEPS[Rank(step)] == step; }
  }

  /** A retry is refused on an active location; else every step is done as before or ready to be run again. */
  lemma RetryLeavesNoneStuck(w: World)
    ensures w.active ==> ResetStuck(w) == w
    ensures !w.active ==>
      var after := ResetStuck(w);
      && after == w.(statuses := after.statuses) && |after.statuses| == |w.statuses|
      && forall i | 0 <= i < |w.statuses| ::
           if w.statuses[i] == Completed || w.statuses[i] == Skipped then after.statuses[i] == w.statuses[i]
           else after.statuses[i] == Pending
  {
  }

  ghost predicate Behavior(run: seq<World>) {
    && run != []
    && if |run| == 1 then New(run[0]) else Behavior(run[..|run| - 1]) && Next(run[|run| - 2], run[|run| - 1])
  }

  lemma {:induction false} BehaviorKeepsOrder(run: seq<World>)
    requires Behavior(run)
    ensures OrderInv(run[|run| - 1])
  {
    if |run| > 1 {
      var front := run[..|run| - 1];
      BehaviorKeepsOrder(front);
      NextKeepsOrder(front[|front| - 1], run[|run| - 1]);
    }
  }

  /** Completed steps stay completed, from any point of a run to any later one. */
  lemma {:induction false} CompletedStaysCompleted(run: seq<World>, from: nat)
    requires Behavior(run) && from < |run|
    ensures CompletedKept(run[from].statuses, run[|run| - 1].statuses)
    decreases |run|
  {
    if from < |run| - 1 {
      var front := run[..|run| - 1];
      var w, w' := front[|front| - 1], run[|run| - 1];
      assert Behavior(front) && Next(w, w');
      CompletedStaysCompleted(front, from);
      BehaviorKeepsOrder(front);
      NextKeepsOrder(w, w');
      assert CompletedKept(w.statuses, w'.statuses);
    }
  }

  /** `k` steps are completed, the next is not, and nothing behind that one has been touched. */
  ghost predicate CompletedUpTo(statuses: seq<StepStatus>, k: nat) {
    && k <= |statuses|
    && (forall i | 0 <= i < k :: statuses[i] == Completed)
    && (k < |statuses| ==> statuses[k] != Completed)
    && (forall i | k < i < |statuses| :: statuses[i] == Pending)
  }

  lemma {:induction false} OrderedHasPrefix(statuses: seq<StepStatus>, from: nat) returns (k: nat)
    requires Ordered(statuses) && from <= |statuses| && forall i | 0 <= i < from :: statuses[i] == Completed
    ensures CompletedUpTo(statuses, k)
    decreases |statuses| - from
  {
    if from < |statuses| && statuses[from] == Completed {
      k := OrderedHasPrefix(statuses, from + 1);
    } else {
      k := from;
    }
  }

  /**
   In every reachable state the completed steps are a prefix, with at most one step in progress or failed right behind
   it; and an active location has completed them all.
   */
  lemma CompletedIsPrefix(run: seq<World>) returns (k: nat)
    requires Behavior(run)
    ensures CompletedUpTo(run[|run| - 1].statuses, k)
    ensures run[|run| - 1].active ==> k == |run[|run| - 1].statuses|
  {
    BehaviorKeepsOrder(run);
    var w := run[|run| - 1];
    k := OrderedHasPrefix(w.statuses, 0);
    assert w.active ==> forall i | 0 <= i < |w.statuses| :: w.statuses[i] == Completed;
  }

  // ----- skipping may leave holes, but never activates an unfinished location

  ghost predicate SkipInv(w: World) {
    && Shaped(w) && NoneSkipped(w.statuses)
    && (w.active ==> AllDone(w.statuses) && (w.job.Running? ==> AllDone(w.job.snapshot) && w.job.phase == Between))
    && (w.job.Running? ==> forall i | 0 <= i < w.job.at :: Done(w.statuses[i]))
    && (w.job.Running? ==> forall i | 0 <= i < |w.statuses| && Done(w.job.snapshot[i]) :: Done(w.statuses[i]))
    && (w.job.Running? && w.job.phase != Between ==> !Done(w.job.snapshot[w.job.at]))
  }

  lemma RowStepKeepsSkipInv(w: World, w': World)
    requires SkipInv(w) && (Enter(w, w') || Finish(w, w') || Fail(w, w'))
    ensures SkipInv(w')
  {
  }

  lemma QuietStepKeepsSkipInv(w: World, w': World)
    requires SkipInv(w) && QuietRunnerStep(w, w')
    ensures SkipInv(w')
  {
    assert w'.statuses == w.statuses && w'.names == w.names;
  }

  lemma NextKeepsSkipInv(w: World, w': World)
    requires SkipInv(w) && Next(w, w')
    ensures SkipInv(w')
  {
    if Enter(w, w') || Finish(w, w') || Fail(w, w') {
      RowStepKeepsSkipInv(w, w');
    } else if RunnerStep(w, w') {
      QuietStepKeepsSkipInv(w, w');
    } else if SweepStep(w, w') {
      var i: nat :| Select(w, w', i) || TimelyMark(w, w', i);
      SweepKeepsSkipInv(w, w', i);
    }
  }

  lemma SweepKeepsSkipInv(w: World, w': World, i: nat)
    requires SkipInv(w) && (Select(w, w', i) || TimelyMark(w, w', i))
    ensures SkipInv(w')
  {
  }

  lemma SkipKeepsSkipInv(w: World, w': World, i: nat)
    requires SkipInv(w) && Skip(w, w', i)
    ensures SkipInv(w')
  {
  }

  ghost predicate SkippingBehavior(run: seq<World>) {
    && run != []
    && if |run| == 1 then New(run[0])
       else SkippingBehavior(run[..|run| - 1]) && NextWithSkips(run[|run| - 2], run[|run| - 1])
  }

  /** Even with operators skipping steps, even under a running job, an active location has every step done. */
  lemma {:induction false} ActiveOnlyWhenDone(run: seq<World>)
    requires SkippingBehavior(run)
    ensures SkipInv(run[|run| - 1])
    ensures run[|run| - 1].active ==> AllDone(run[|run| - 1].statuses)
  {
    if |run| > 1 {
      var front := run[..|run| - 1];
      ActiveOnlyWhenDone(front);
      var w, w' := front[|front| - 1], run[|run| - 1];
      if Next(w, w') {
        NextKeepsSkipInv(w, w');
      } else {
        var i: nat :| Skip(w, w', i);
        SkipKeepsSkipInv(w, w', i);
      }
    }
  }

  // ----- nothing is bought twice once its id is on the location

  ghost predicate HoldsNothingSaved(w: World) {
    w.job.Running? && w.job.phase.Holding? ==>
      InLoop(w, w.job.phase)
      && (w.names[w.job.at] == CloneAgent ==> w.assistant.None?)
      && (w.names[w.job.at] == PurchasePhoneNumber ==> w.number.None?)
      && (w.names[w.job.at] == CloneAgent || w.names[w.job.at] == PurchasePhoneNumber)
  }

  ghost predicate IdsKept(w: World, w': World) {
    && (w.assistant.Some? ==> w'.assistant == w.assistant && w'.clones == w.clones)
    && (w.number.Some? ==> w'.number == w.number && w'.orders == w.orders)
  }

  lemma StepKeepsIds(w: World, w': World)
    requires HoldsNothingSaved(w) && NextOfAll(w, w')
    ensures HoldsNothingSaved(w') && IdsKept(w, w')
  {
    if RunnerStep(w, w') {
    } else if SweepStep(w, w') {
      var i: nat :| Select(w, w', i) || TimelyMark(w, w', i);
    } else if Deactivate(w, w') || Reset(w, w') {
    } else {
      var i: nat :| LateMark(w, w', i) || Skip(w, w', i) || RetryOne(w, w', i);
    }
  }

  ghost predicate AnyBehavior(run: seq<World>) {
    && run != []
    && if |run| == 1 then New(run[0]) else AnyBehavior(run[..|run| - 1]) && NextOfAll(run[|run| - 2], run[|run| - 1])
  }

  lemma {:induction false} NothingSavedIsHeld(run: seq<World>)
    requires AnyBehavior(run)
    ensures HoldsNothingSaved(run[|run| - 1])
  {
    if |run| > 1 {
      NothingSavedIsHeld(run[..|run| - 1]);
      StepKeepsIds(run[|run| - 2], run[|run| - 1]);
    }
  }

  /**
   Under every operator action and every crash: once the location holds an id, it is never changed and nothing is
   cloned or ordered again.
   */
  lemma {:induction false} IdsAreNeverBoughtAgain(run: seq<World>, from: nat)
    requires AnyBehavior(run) && from < |run|
    ensures IdsKept(run[from], run[|run| - 1])
    decreases |run|
  {
    if from < |run| - 1 {
      IdsAreNeverBoughtAgain(run[..|run| - 1], from);
      NothingSavedIsHeld(run[..|run| - 1]);
      StepKeepsIds(run[|run| - 2], run[|run| - 1]);
    }
  }
}
