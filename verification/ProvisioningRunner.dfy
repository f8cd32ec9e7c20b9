/** The provisioning job as it runs: a loop over the steps it read, writing step and location rows as it goes. */
module ProvisioningRunner {
  import opened Wrappers
  import opened Provisioning

  /** How one step turns out: it works, throws, or takes the worker down, before or after an upstream object exists. */
  datatype Fate = Works(id: Id) | Throws | ThrowsAfterCall(id: Id) | Dies | DiesAfterCall(id: Id)

  predicate Throwing(fate: Fate) { fate.Throws? || fate.ThrowsAfterCall? }

  /** The step at which a job stops: the first that is neither done already nor going to work. */
  predicate StopsAt(steps: seq<StepStatus>, fates: seq<Fate>, n: nat)
    requires |steps| == |fates|
  {
    n < |steps| && !Done(steps[n]) && !fates[n].Works? && forall i | 0 <= i < n :: Done(steps[i]) || fates[i].Works?
  }

  /** A step got through: left alone when it was done, completed otherwise. */
  function Through(s: StepStatus): StepStatus { if Done(s) then s else Completed }

  /** How a stopped step is left: failed if it threw, in progress if the worker died on it. */
  function Left(fate: Fate): StepStatus { if Throwing(fate) then StepStatus.Failed else InProgress }

  /** A history in which every state follows from the one before by a step of the runner. */
  ghost predicate Chain(history: seq<World>) {
    && history != []
    && (|history| == 1
        || (Chain(history[..|history| - 1]) && RunnerStep(history[|history| - 2], history[|history| - 1])))
  }

  /** Whatever a job does to the rows, completed steps stay completed, the prefix stays, and no id is bought again. */
  lemma {:induction false} HistoryKeepsWork(history: seq<World>, from: nat)
    requires Chain(history) && from < |history| && OrderInv(history[from]) && HoldsNothingSaved(history[from])
    ensures var w, w' := history[from], history[|history| - 1];
      && OrderInv(w') && HoldsNothingSaved(w')
      && CompletedKept(w.statuses, w'.statuses) && IdsKept(w, w')
    decreases |history|
  {
    if from < |history| - 1 {
      HistoryKeepsWork(history[..|history| - 1], from);
      JobStepKeepsWork(history[from], history[|history| - 2], history[|history| - 1]);
    }
  }

  lemma JobStepKeepsWork(start: World, w: World, w': World)
    requires OrderInv(w) && HoldsNothingSaved(w) && RunnerStep(w, w')
    requires CompletedKept(start.statuses, w.statuses) && IdsKept(start, w)
    ensures OrderInv(w') && HoldsNothingSaved(w')
    ensures CompletedKept(start.statuses, w'.statuses) && IdsKept(start, w')
  {
    NextKeepsOrder(w, w');
    StepKeepsIds(w, w');
  }

  class LocationRows {
    const names: seq<StepName>
    var statuses: seq<StepStatus>
    var active: bool
    var assistant: Option<Id>
    var number: Option<Id>
    ghost var job: Job
    ghost var clones: nat
    ghost var orders: nat
    ghost var history: seq<World>

    ghost function Now(): World
      reads this
    {
      World(names, statuses, active, assistant, number, job, clones, orders, {})
    }

    /** The rows are well-formed and the history leads up to them. */
    ghost predicate Recorded()
      reads this
    {
      |names| == |statuses| && Chain(history) && history[|history| - 1] == Now()
    }

    constructor (names: seq<StepName>, number: Option<Id>)
      ensures Now() == Created(names, number) && Recorded() && history == [Now()]
    {
      this.names := names;
      statuses := seq(|names|, _ => Pending);
      active, assistant, this.number := false, None, number;
      job, clones, orders := NoJob, 0, 0;
      history := [Created(names, number)];
    }

    /** Note that the rows have just made one step of the runner. */
    ghost method Record()
      requires Chain(history) && RunnerStep(history[|history| - 1], Now()) && |names| == |statuses|
      modifies this`history
      ensures Recorded() && history == old(history) + [Now()]
    {
      var before := history;
      history := before + [Now()];
      assert history[..|history| - 1] == before;
    }

    ghost predicate Standing(snapshot: seq<StepStatus>, at: nat, phase: Phase)
      reads this
    {
      Recorded() && job == Running(snapshot, at, phase) && |snapshot| == |statuses|
    }

    /** Mark the step in progress. */
    method EnterStep(ghost snapshot: seq<StepStatus>, n: nat)
      requires Standing(snapshot, n, Between) && n < |statuses| && !Done(snapshot[n])
      modifies this`statuses, this`job, this`history
      ensures Standing(snapshot, n, Entered) && statuses == old(statuses)[n := InProgress] && old(history) <= history
    {
      statuses := statuses[n := InProgress];
      job := Running(snapshot, n, Entered);
      Record();
    }

    /**
     Clone the agent or order the number unless the location already has one; reports whether the upstream was called.
     */
    method CallUpstreamOnce(ghost snapshot: seq<StepStatus>, n: nat, id: Id) returns (called: bool)
      requires Standing(snapshot, n, Entered) && n < |statuses|
      modifies this`job, this`clones, this`orders, this`history
      ensures Standing(snapshot, n, if called then Holding(id) else Entered) && old(history) <= history
      ensures called <==>
        || (names[n] == CloneAgent && assistant.None?)
        || (names[n] == PurchasePhoneNumber && number.None?)
      ensures clones == old(clones) + (if called && names[n] == CloneAgent then 1 else 0)
      ensures orders == old(orders) + (if called && names[n] == PurchasePhoneNumber then 1 else 0)
    {
      called := false;
      if names[n] == CloneAgent && assistant.None? {
        called, clones := true, clones + 1;
      } else if names[n] == PurchasePhoneNumber && number.None? {
        called, orders := true, orders + 1;
      }
      if called {
        job := Running(snapshot, n, Holding(id));
        assert CallUpstream(history[|history| - 1], Now());
        Record();
      }
    }

    /** Save the id on the location, or do the step's local work. */
    method DoWork(ghost snapshot: seq<StepStatus>, n: nat, id: Id, called: bool)
      requires Standing(snapshot, n, if called then Holding(id) else Entered) && n < |statuses|
      requires called ==> names[n] == CloneAgent || names[n] == PurchasePhoneNumber
      requires !called ==>
        (names[n] == CloneAgent ==> assistant.Some?) && (names[n] == PurchasePhoneNumber ==> number.Some?)
      modifies this`assistant, this`number, this`job, this`history
      ensures Standing(snapshot, n, Worked) && old(history) <= history
      ensures assistant == if called && names[n] == CloneAgent then Some(id) else old(assistant)
      ensures number == if called && names[n] == PurchasePhoneNumber then Some(id) else old(number)
    {
      if called {
        if names[n] == CloneAgent { assistant := Some(id); } else { number := Some(id); }
      }
      job := Running(snapshot, n, Worked);
      if called {
        assert SaveId(history[|history| - 1], Now());
      } else {
        assert WorkLocally(history[|history| - 1], Now());
      }
      Record();
    }

    method CompleteStep(ghost snapshot: seq<StepStatus>, n: nat)
      requires Standing(snapshot, n, Worked) && n < |statuses|
      modifies this`statuses, this`job, this`history
      ensures Standing(snapshot, n + 1, Between) && statuses == old(statuses)[n := Completed] && old(history) <= history
    {
      statuses := statuses[n := Completed];
      job := Running(snapshot, n + 1, Between);
      assert Finish(history[|history| - 1], Now());
      Record();
    }

    /** The catch block: mark the step failed, keep the location provisioning, end the job. */
    method FailStep(ghost snapshot: seq<StepStatus>, n: nat, ghost phase: Phase)
      requires Standing(snapshot, n, phase) && phase != Between && n < |statuses|
      modifies this`statuses, this`active, this`job, this`history
      ensures Recorded() && job == NoJob && !active && statuses == old(statuses)[n := StepStatus.Failed]
          && old(history) <= history
    {
      statuses := statuses[n := StepStatus.Failed];
      active := false;
      job := NoJob;
      Record();
    }

    ghost method Die()
      requires Recorded() && job.Running?
      modifies this`job, this`history
      ensures Recorded() && job == NoJob && old(history) <= history
    {
      job := NoJob;
      Record();
    }

    /**
     One job. Whatever happens to its steps, it moves only by the runner's steps; if it gets through, the location is
     active and every step is done.
     */
    method HandleProvisionOrganization(fates: seq<Fate>) returns (finished: bool)
      requires Recorded() && job == NoJob && |fates| == |names|
      modifies this
      ensures Recorded() && job == NoJob && old(history) <= history
      ensures finished <==> forall n | 0 <= n < |names| && !Done(old(statuses)[n]) :: fates[n].Works?
      ensures finished ==> active && forall i | 0 <= i < |statuses| :: statuses[i] == Through(old(statuses)[i])
      ensures forall n: nat | StopsAt(old(statuses), fates, n) ::
        && statuses[n] == Left(fates[n]) && active == (old(active) && !Throwing(fates[n]))
        && (forall i | 0 <= i < n :: statuses[i] == Through(old(statuses)[i]))
        && forall i | n < i < |statuses| :: statuses[i] == old(statuses)[i]
    {
      var steps := statuses;
      BeginJob(steps);
      for n := 0 to |steps|
        invariant Standing(steps, n, Between) && |steps| == |names| && old(history) <= history
        invariant active == old(active)
        invariant forall i | 0 <= i < n :: statuses[i] == Through(steps[i])
        invariant forall i | n <= i < |steps| :: statuses[i] == steps[i]
        invariant forall i | 0 <= i < n && !Done(steps[i]) :: fates[i].Works?
      {
        finished := TakeStep(steps, n, fates[n]);
        if !finished { return false; }
      }
      Activate(steps);
      return true;
    }

    /** Pass over a done step, run any other; reports whether the loop goes on. */
    method TakeStep(steps: seq<StepStatus>, n: nat, fate: Fate) returns (worked: bool)
      requires Standing(steps, n, Between) && n < |steps| && statuses[n] == steps[n]
      modifies this
      ensures worked <==> Done(steps[n]) || fate.Works?
      ensures old(history) <= history
      ensures worked ==> Standing(steps, n + 1, Between) && statuses == old(statuses)[n := Through(steps[n])]
      ensures worked ==> active == old(active)
      ensures !worked ==> Recorded() && job == NoJob && statuses == old(statuses)[n := Left(fate)]
      ensures !worked ==> active == (old(active) && !Throwing(fate))
    {
      if Done(steps[n]) {
        PassOverStep(steps, n);
        return true;
      }
      EnterStep(steps, n);
      worked := RunStep(steps, n, fate);
    }

    ghost method BeginJob(steps: seq<StepStatus>)
      requires Recorded() && job == NoJob && steps == statuses
      modifies this`job, this`history
      ensures Standing(steps, 0, Between) && old(history) <= history
    {
      job := Running(steps, 0, Between);
      Record();
    }

    ghost method PassOverStep(steps: seq<StepStatus>, n: nat)
      requires Standing(steps, n, Between) && n < |steps| && Done(steps[n])
      modifies this`job, this`history
      ensures Standing(steps, n + 1, Between) && old(history) <= history
    {
      job := Running(steps, n + 1, Between);
      Record();
    }

    /** All steps complete: the location goes live. */
    method Activate(ghost steps: seq<StepStatus>)
      requires Standing(steps, |steps|, Between)
      modifies this`active, this`job, this`history
      ensures Recorded() && job == NoJob && active && old(history) <= history
    {
      active := true;
      job := NoJob;
      Record();
    }

    /** One entered step; reports whether the loop goes on. */
    method RunStep(ghost snapshot: seq<StepStatus>, n: nat, fate: Fate) returns (worked: bool)
      requires Standing(snapshot, n, Entered) && n < |statuses|
      modifies this
      ensures worked <==> fate.Works?
      ensures old(history) <= history
      ensures worked ==> Standing(snapshot, n + 1, Between) && statuses == old(statuses)[n := Completed]
      ensures worked ==> active == old(active)
      ensures !worked ==> Recorded() && job == NoJob
      ensures !worked ==> statuses == if Throwing(fate) then old(statuses)[n := StepStatus.Failed] else old(statuses)
      ensures !worked ==> active == (old(active) && !Throwing(fate))
    {
      if fate.Throws? { FailStep(snapshot, n, Entered); return false; }
      if fate.Dies? { Die(); return false; }
      var called := CallUpstreamOnce(snapshot, n, fate.id);
      if fate.ThrowsAfterCall? { FailStep(snapshot, n, if called then Holding(fate.id) else Entered); return false; }
      if fate.DiesAfterCall? { Die(); return false; }
      DoWork(snapshot, n, fate.id, called);
      CompleteStep(snapshot, n);
      return true;
    }

    /** The operator's retry: refused on an active location, else failed and stranded steps go back to pending. */
    method RetryProvisioning() returns (accepted: bool)
      modifies this`statuses
      ensures Now() == ResetStuck(old(Now())) && accepted == !active
    {
      if active { return false; }
      var before := statuses;
      var reset: seq<StepStatus> := [];
      for n := 0 to |before|
        invariant reset == ResetAll(before[..n])
      {
        assert before[..n + 1] == before[..n] + [before[n]];
        reset := reset + [ResetStatus(before[n])];
      }
      assert before[..|before|] == before;
      statuses := reset;
      return true;
    }
  }
}
