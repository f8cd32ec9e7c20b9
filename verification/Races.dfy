/** What no interleaving of an order's transactions can do, and what the lock is for. */
module Races {
  import opened Concurrency
  import opened LedgerSafety
  import opened Orders
  import opened Wrappers
  import LedgerRuns

  // ----- safety under interleaving

  /** Rates are sane, and nobody edits the status or replaces the lines behind the lock's back. */
  ghost predicate Disciplined(c: Call) { SaneEnv(c.env) && !c.op.EditStatus? && !c.op.Update? }

  ghost predicate DisciplinedTxs(s: Sys) { forall t | t in s.txs :: Disciplined(s.txs[t].call) }

  lemma {:induction false} CommittedCallsDisciplined(log: seq<Tx>)
    requires forall tx | tx in log :: Disciplined(tx.call)
    ensures forall c | c in CommittedCalls(log) :: Disciplined(c)
  {
    if log != [] {
      assert forall tx | tx in log[..|log| - 1] :: tx in log;
      CommittedCallsDisciplined(log[..|log| - 1]);
    }
  }

  lemma IssueKeepsCall(s: Sys, s': Sys, t: Tid)
    requires Issue(s, s', t)
    ensures t in s'.txs && s'.txs == s.txs[t := s'.txs[t]] && s'.txs[t].call == s.txs[t].call
  {
    if DecideFrom(s.txs[t].call, s.txs[t].phase).Ok? {
      assert s'.txs == s.txs[t := s'.txs[t]];
    }
  }

  lemma NextKeepsDiscipline(s: Sys, s': Sys)
    requires Next(s, s') && DisciplinedTxs(s)
    ensures DisciplinedTxs(s')
  {
    var t: Tid :| Arrive(s, s', t) || Acquire(s, s', t) || Read(s, s', t) || Issue(s, s', t) || Commit(s, s', t)
        || Crash(s, s', t);
    if Issue(s, s', t) {
      IssueKeepsCall(s, s', t);
    } else if Arrive(s, s', t) {
    } else if Read(s, s', t) {
    } else {
      assert s'.txs == s.txs[t := s'.txs[t]] && s'.txs[t].call == s.txs[t].call;
    }
  }

  lemma {:induction false} DisciplineLasts(run: seq<Sys>)
    requires Behavior(run) && DisciplinedTxs(run[0])
    ensures DisciplinedTxs(run[|run| - 1])
  {
    if |run| > 1 {
      var front := run[..|run| - 1];
      DisciplineLasts(front);
      NextKeepsDiscipline(front[|front| - 1], run[|run| - 1]);
    }
  }

  /** In every reachable state, adjustments with their stale reads included, the order is sound: 0 <= paid <= total. */
  lemma {:induction false} InterleavingsKeepSound(run: seq<Sys>)
    requires Behavior(run) && DisciplinedTxs(run[0]) && Sound(run[0].db.order)
    ensures Sound(run[|run| - 1].db.order)
  {
    var s := run[|run| - 1];
    InterleavingsAreSerial(run);
    DisciplineLasts(run);
    var log := Log(s.granted, s.txs);
    CommittedCallsDisciplined(log);
    RunKeepsSound(CommittedCalls(log), run[0].db);
  }

  /** Only a commit changes the rows, and it changes them as the whole step of its call does. */
  lemma CommitIsStep(db0: Db, s: Sys, s': Sys) returns (t: Tid)
    requires Inv(db0, s) && Next(s, s') && s'.db != s.db
    ensures t in s.txs && Commit(s, s', t) && s'.db == Step(s.txs[t].call.env, s.txs[t].call.op, s.db)
  {
    t :| Arrive(s, s', t) || Acquire(s, s', t) || Read(s, s', t) || Issue(s, s', t) || Commit(s, s', t)
        || Crash(s, s', t);
  }

  /**
   However requests race: from the moment an order is cancelled with no money on it, no request writes another payment
   row, not even one that was in flight, or had read its discount, before that moment.
   */
  lemma {:induction false} InterleavingsKeepRefundedAtZero(run: seq<Sys>, i: nat)
    requires Behavior(run) && DisciplinedTxs(run[0]) && Sound(run[0].db.order) && i < |run|
    requires run[i].db.order.row.status == Cancelled && Paid(run[i].db.order.payments) == 0
    ensures run[|run| - 1].db.order.payments == run[i].db.order.payments
    ensures run[|run| - 1].db.order.row.status == Cancelled
    decreases |run|
  {
    if i < |run| - 1 {
      var front := run[..|run| - 1];
      var s, s' := front[|front| - 1], run[|run| - 1];
      InterleavingsKeepRefundedAtZero(front, i);
      BehaviorKeepsInv(front);
      DisciplineLasts(front);
      InterleavingsKeepSound(front);
      if s'.db != s.db {
        var t := CommitIsStep(run[0].db, s, s');
        LedgerRuns.CancelledStepKeepsPayments(s.txs[t].call.env, s.txs[t].call.op, s.db);
      }
    }
  }

  /** What the lock is for: two payments decided from the same reads, both written, take the total twice. */
  lemma UnlockedPaymentsOvercharge(env: Env, db: Db, op: Op)
    requires op == Pay(Card, None, None, None, 0) && DecideOn(env, op, db).Ok? && Sound(db.order)
    ensures var w := DecideOn(env, op, db).value.writes;
      !Bounded(Apply(Apply(db, w), w).order)
  {
    var w := DecideOn(env, op, db).value.writes;
    PaidAppend(db.order.payments, w.payments);
    PaidAppend(db.order.payments + w.payments, w.payments);
    assert Paid(w.payments) == Paid([]) + w.payments[0].amount by { assert w.payments[..|w.payments| - 1] == []; }
  }

  // ----- keys are claimed once

  /** Committed mutations that present the same client key. */
  ghost predicate SameKey(a: Tx, b: Tx) {
    && a.phase.Committed? && b.phase.Committed?
    && MutationKeyOf(a.call.op).Some? && MutationKeyOf(a.call.op) == MutationKeyOf(b.call.op)
  }

  lemma StepKeepsClaims(c: Call, db: Db)
    ensures db.claims <= Step(c.env, c.op, db).claims
  {
  }

  /** An accepted keyed mutation leaves its key claimed; one that finds it claimed is a replay. */
  lemma KeyedStep(c: Call, db: Db)
    requires DecideOn(c.env, c.op, db).Ok? && MutationKeyOf(c.op).Some?
    ensures MutationKeyOf(c.op).value in Step(c.env, c.op, db).claims
    ensures MutationKeyOf(c.op).value in db.claims ==> DecideOn(c.env, c.op, db).value.receipt == Replayed
  {
  }

  lemma {:induction false} CommittedKeyIsClaimed(log: seq<Tx>, i: nat, db: Db)
    requires AllExplained(log, db) && i < |log| && log[i].phase.Committed? && MutationKeyOf(log[i].call.op).Some?
    ensures MutationKeyOf(log[i].call.op).value in SerialDb(log, db).claims
  {
    var front, last := log[..|log| - 1], log[|log| - 1];
    if i < |front| {
      CommittedKeyIsClaimed(front, i, db);
      StepKeepsClaims(last.call, SerialDb(front, db));
    } else {
      KeyedStep(last.call, SerialDb(front, db));
    }
  }

  lemma {:induction false} ExplainedPrefix(log: seq<Tx>, k: nat, db: Db)
    requires AllExplained(log, db) && k <= |log|
    ensures AllExplained(log[..k], db)
  {
    if k < |log| {
      ExplainedPrefix(log[..|log| - 1], k, db);
      assert log[..|log| - 1][..k] == log[..k];
    } else {
      assert log[..k] == log;
    }
  }

  lemma LaterOfKeyIsReplay(log: seq<Tx>, i: nat, j: nat, db: Db)
    requires AllExplained(log, db) && i < j < |log| && SameKey(log[i], log[j])
    ensures log[j].phase.receipt == Replayed
  {
    ExplainedPrefix(log, j, db);
    CommittedKeyIsClaimed(log[..j], i, db);
    ExplainedAt(log, j, db);
    KeyedStep(log[j].call, SerialDb(log[..j], db));
  }

  /** However retries race, of two transactions committed under one client key at least one was answered as a replay. */
  lemma {:induction false} KeysTakeEffectOnce(run: seq<Sys>, t: Tid, u: Tid)
    requires Behavior(run) && t != u && t in run[|run| - 1].txs && u in run[|run| - 1].txs
    requires SameKey(run[|run| - 1].txs[t], run[|run| - 1].txs[u])
    ensures run[|run| - 1].txs[t].phase.receipt == Replayed || run[|run| - 1].txs[u].phase.receipt == Replayed
  {
    BehaviorKeepsInv(run);
    var s := run[|run| - 1];
    var log := Log(s.granted, s.txs);
    var i :| 0 <= i < |s.granted| && s.granted[i] == t;
    var j :| 0 <= j < |s.granted| && s.granted[j] == u;
    if i < j { LaterOfKeyIsReplay(log, i, j, run[0].db); } else { LaterOfKeyIsReplay(log, j, i, run[0].db); }
  }
}
