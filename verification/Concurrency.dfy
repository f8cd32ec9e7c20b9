/**
 Transactions of one order interleaving statement by statement under its advisory lock. The lock gates
 nothing but its own acquisition: that a holder's reads are current is what has to be proved.
 */
module Concurrency {
  import opened Wrappers
  import opened Orders

  type Tid = nat

  datatype Phase =
    | Fresh
    | Waiting
    | Reading(row: Option<Row>, payments: Option<seq<Payment>>, lines: Option<seq<Line>>, claims: Option<set<Key>>)
    | Writing(decision: Decision)
    | Committed(receipt: Receipt)
    | Refused(error: Error)
    | Crashed

  datatype Tx = Tx(call: Call, phase: Phase)

  /** Committed rows, the lock, the order in which the lock was granted, and every transaction. */
  datatype Sys = Sys(db: Db, holder: Option<Tid>, granted: seq<Tid>, txs: map<Tid, Tx>)

  // ----- the steps

  /** A request arrives. An adjustment reads its discount and payment label here, before any lock. */
  ghost predicate Arrive(s: Sys, s': Sys, t: Tid) {
    && t in s.txs && s.txs[t].phase.Fresh?
    && var c := s.txs[t].call;
       var seen := if c.op.Adjust? then
           c.(op := c.op.(discountSeen := s.db.order.row.discount, labelSeen := s.db.order.row.paidBy))
         else c;
       s' == s.(txs := s.txs[t := Tx(seen, Waiting)])
  }

  ghost predicate Acquire(s: Sys, s': Sys, t: Tid) {
    && t in s.txs && s.txs[t].phase.Waiting? && s.holder.None?
    && s' == s.(holder := Some(t), granted := s.granted + [t],
                txs := s.txs[t := s.txs[t].(phase := Reading(None, None, None, None))])
  }

  /** One SELECT, at any time and in any order: it sees whatever is committed at that moment. */
  ghost predicate Read(s: Sys, s': Sys, t: Tid) {
    && t in s.txs && s.txs[t].phase.Reading?
    && var p := s.txs[t].phase;
       var o := s.db.order;
       exists q :: (q == p.(row := Some(o.row)) || q == p.(payments := Some(o.payments))
                    || q == p.(lines := Some(o.lines)) || q == p.(claims := Some(s.db.claims)))
         && s' == s.(txs := s.txs[t := s.txs[t].(phase := q)])
  }

  function DecideFrom(c: Call, p: Phase): Result<Decision, Error>
    requires p.Reading? && p.row.Some? && p.payments.Some? && p.lines.Some? && p.claims.Some?
  {
    Decide(c.env, c.op, p.row.value, p.payments.value, p.lines.value, p.claims.value)
  }

  /** Guards and arithmetic on what was read: issue the writes, or throw and release the lock. */
  ghost predicate Issue(s: Sys, s': Sys, t: Tid) {
    && t in s.txs && s.txs[t].phase.Reading?
    && var p := s.txs[t].phase;
       && p.row.Some? && p.payments.Some? && p.lines.Some? && p.claims.Some?
       && match DecideFrom(s.txs[t].call, p)
          case Ok(d) => s' == s.(txs := s.txs[t := s.txs[t].(phase := Writing(d))])
          case Err(e) => s' == s.(holder := None, txs := s.txs[t := s.txs[t].(phase := Refused(e))])
  }

  ghost predicate Commit(s: Sys, s': Sys, t: Tid) {
    && t in s.txs && s.txs[t].phase.Writing?
    && var d := s.txs[t].phase.decision;
       s' == s.(db := Apply(s.db, d.writes), holder := None, txs := s.txs[t := s.txs[t].(phase :=
           Committed(d.receipt))])
  }

  ghost predicate Crash(s: Sys, s': Sys, t: Tid) {
    && t in s.txs && (s.txs[t].phase.Waiting? || s.txs[t].phase.Reading? || s.txs[t].phase.Writing?)
    && s' == s.(holder := if s.holder == Some(t) then None else s.holder,
        txs := s.txs[t := s.txs[t].(phase := Crashed)])
  }

  ghost predicate Next(s: Sys, s': Sys) {
    exists t: Tid :: Arrive(s, s', t) || Acquire(s, s', t) || Read(s, s', t) || Issue(s, s', t)
        || Commit(s, s', t) || Crash(s, s', t)
  }

  ghost predicate Init(s: Sys) {
    && s.holder.None? && s.granted == []
    && forall t | t in s.txs :: s.txs[t].phase.Fresh? && !s.txs[t].call.op.Update? && !s.txs[t].call.op.EditStatus?
  }

  ghost predicate Behavior(run: seq<Sys>) {
    && run != []
    && if |run| == 1 then Init(run[0]) else Behavior(run[..|run| - 1]) && Next(run[|run| - 2], run[|run| - 1])
  }

  // ----- the serial execution

  /** The transactions in the order they got the lock. */
  function Log(granted: seq<Tid>, txs: map<Tid, Tx>): seq<Tx>
    requires forall t | t in granted :: t in txs
  {
    seq(|granted|, i requires 0 <= i < |granted| => txs[granted[i]])
  }

  /** The rows after running the committed calls of a log one at a time. */
  function SerialDb(log: seq<Tx>, db: Db): Db {
    if log == [] then db
    else
      var before, last := SerialDb(log[..|log| - 1], db), log[|log| - 1];
      if last.phase.Committed? then Step(last.call.env, last.call.op, before) else before
  }

  /** What a transaction told its caller is what the serial execution would have told it. */
  ghost predicate Explained(tx: Tx, before: Db) {
    var d := DecideOn(tx.call.env, tx.call.op, before);
    && (tx.phase.Committed? ==> d.Ok? && d.value.receipt == tx.phase.receipt)
    && (tx.phase.Refused? ==> d == Err(tx.phase.error))
  }

  ghost predicate AllExplained(log: seq<Tx>, db: Db) {
    log == [] ||
    var front := log[..|log| - 1];
    AllExplained(front, db) && Explained(log[|log| - 1], SerialDb(front, db))
  }

  function CommittedCalls(log: seq<Tx>): seq<Call> {
    if log == [] then []
    else
      var last := log[|log| - 1];
      CommittedCalls(log[..|log| - 1]) + (if last.phase.Committed? then [last.call] else [])
  }

  lemma {:induction false} SerialDbIsRun(log: seq<Tx>, db: Db)
    ensures SerialDb(log, db) == Run(CommittedCalls(log), db)
  {
    if log != [] {
      var front, last := log[..|log| - 1], log[|log| - 1];
      SerialDbIsRun(front, db);
      if last.phase.Committed? {
        assert CommittedCalls(log)[..|CommittedCalls(front)|] == CommittedCalls(front);
      } else {
        assert CommittedCalls(log) == CommittedCalls(front);
      }
    }
  }

  lemma SerialLast(log: seq<Tx>, tx: Tx, db: Db)
    ensures var before := SerialDb(log, db);
      && SerialDb(log + [tx], db) == (if tx.phase.Committed? then Step(tx.call.env, tx.call.op, before) else before)
      && (AllExplained(log + [tx], db) <==> AllExplained(log, db) && Explained(tx, before))
  {
    assert (log + [tx])[..|log|] == log;
  }

  lemma {:induction false} ExplainedAt(log: seq<Tx>, i: nat, db: Db)
    requires AllExplained(log, db) && i < |log|
    ensures Explained(log[i], SerialDb(log[..i], db))
  {
    var front := log[..|log| - 1];
    if i < |front| {
      ExplainedAt(front, i, db);
      assert front[..i] == log[..i];
    }
  }

  lemma LogOther(granted: seq<Tid>, txs: map<Tid, Tx>, t: Tid, tx: Tx)
    requires t !in granted && forall u | u in granted :: u in txs
    ensures Log(granted, txs[t := tx]) == Log(granted, txs)
  {
  }

  /** Granting the lock puts a transaction at the end of the log; after that only its own entry changes. */
  lemma LogLast(granted: seq<Tid>, txs: map<Tid, Tx>, t: Tid, tx: Tx)
    requires t !in granted && forall u | u in granted :: u in txs
    ensures Log(granted + [t], txs[t := tx]) == Log(granted, txs) + [tx]
  {
  }

  // ----- the invariant

  predicate Answered(p: Phase) { p.Committed? || p.Refused? }

  ghost predicate LockDiscipline(s: Sys) {
    && (forall t | t in s.txs :: (s.txs[t].phase.Reading? || s.txs[t].phase.Writing?) <==> s.holder == Some(t))
    && (s.holder.Some? ==> s.holder.value in s.txs && s.granted != [] && s.granted[|s.granted| - 1] == s.holder.value)
    && (forall t | t in s.granted :: t in s.txs && !s.txs[t].phase.Fresh? && !s.txs[t].phase.Waiting?)
    && (forall i, j | 0 <= i < j < |s.granted| :: s.granted[i] != s.granted[j])
    && (forall t | t in s.txs && Answered(s.txs[t].phase) :: t in s.granted)
  }

  /** A lock holder's reads equal the committed state, and so does what it decided from them. */
  ghost predicate ReadsCurrent(s: Sys) {
    forall t | t in s.txs ::
      var p := s.txs[t].phase;
      && (p.Reading? && p.row.Some? ==> p.row.value == s.db.order.row)
      && (p.Reading? && p.payments.Some? ==> p.payments.value == s.db.order.payments)
      && (p.Reading? && p.lines.Some? ==> p.lines.value == s.db.order.lines)
      && (p.Reading? && p.claims.Some? ==> p.claims.value == s.db.claims)
      && (p.Writing? ==> DecideOn(s.txs[t].call.env, s.txs[t].call.op, s.db) == Ok(p.decision))
  }

  ghost predicate Serialized(db: Db, s: Sys) {
    && (forall t | t in s.granted :: t in s.txs)
    && s.db == SerialDb(Log(s.granted, s.txs), db)
    && AllExplained(Log(s.granted, s.txs), db)
  }

  ghost predicate Inv(db: Db, s: Sys) {
    LockDiscipline(s) && ReadsCurrent(s) && Serialized(db, s)
  }

  lemma AcquireKeepsInv(db: Db, s: Sys, s': Sys, t: Tid)
    requires Inv(db, s) && Acquire(s, s', t)
    ensures Inv(db, s')
  {
    LogLast(s.granted, s.txs, t, s'.txs[t]);
    SerialLast(Log(s.granted, s.txs), s'.txs[t], db);
  }

  /** Only the last granted transaction changes: everything granted before it is as it was. */
  lemma HolderStepKeepsSerialized(db: Db, s: Sys, s': Sys, tx: Tx)
    requires LockDiscipline(s) && Serialized(db, s) && s.holder.Some?
    requires s'.granted == s.granted && s'.txs == s.txs[s.holder.value := tx]
    requires tx.call == s.txs[s.holder.value].call && Explained(tx, s.db)
    requires s'.db == (if tx.phase.Committed? then Step(tx.call.env, tx.call.op, s.db) else s.db)
    ensures Serialized(db, s')
  {
    var t, front := s.holder.value, s.granted[..|s.granted| - 1];
    assert s.granted == front + [t] && t !in front;
    LogLast(front, s.txs, t, s.txs[t]);
    assert s.txs[t := s.txs[t]] == s.txs;
    LogLast(front, s.txs, t, tx);
    SerialLast(Log(front, s.txs), s.txs[t], db);
    SerialLast(Log(front, s.txs), tx, db);
  }

  lemma ReadKeepsInv(db: Db, s: Sys, s': Sys, t: Tid)
    requires Inv(db, s) && Read(s, s', t)
    ensures Inv(db, s')
  {
    HolderStepKeepsSerialized(db, s, s', s'.txs[t]);
  }

  lemma IssueKeepsInv(db: Db, s: Sys, s': Sys, t: Tid)
    requires Inv(db, s) && Issue(s, s', t)
    ensures Inv(db, s')
  {
    var c, p := s.txs[t].call, s.txs[t].phase;
    assert DecideFrom(c, p) == DecideOn(c.env, c.op, s.db);
    HolderStepKeepsSerialized(db, s, s', s'.txs[t]);
  }

  lemma CommitKeepsInv(db: Db, s: Sys, s': Sys, t: Tid)
    requires Inv(db, s) && Commit(s, s', t)
    ensures Inv(db, s')
  {
    var c := s.txs[t].call;
    assert s'.db == Step(c.env, c.op, s.db);
    HolderStepKeepsSerialized(db, s, s', s'.txs[t]);
  }

  lemma CrashKeepsInv(db: Db, s: Sys, s': Sys, t: Tid)
    requires Inv(db, s) && Crash(s, s', t) && s.holder == Some(t)
    ensures Inv(db, s')
  {
    HolderStepKeepsSerialized(db, s, s', s'.txs[t]);
  }

  lemma OutsiderKeepsInv(db: Db, s: Sys, s': Sys, t: Tid)
    requires Inv(db, s)
    requires Arrive(s, s', t) || (Crash(s, s', t) && s.holder != Some(t))
    ensures Inv(db, s')
  {
    LogOther(s.granted, s.txs, t, s'.txs[t]);
  }

  lemma NextKeepsInv(db: Db, s: Sys, s': Sys)
    requires Inv(db, s) && Next(s, s')
    ensures Inv(db, s')
  {
    var t: Tid :| Arrive(s, s', t) || Acquire(s, s', t) || Read(s, s', t) || Issue(s, s', t) || Commit(s, s', t)
        || Crash(s, s', t);
    if Acquire(s, s', t) {
      AcquireKeepsInv(db, s, s', t);
    } else if Arrive(s, s', t) || (Crash(s, s', t) && s.holder != Some(t)) {
      OutsiderKeepsInv(db, s, s', t);
    } else if Read(s, s', t) {
      ReadKeepsInv(db, s, s', t);
    } else if Issue(s, s', t) {
      IssueKeepsInv(db, s, s', t);
    } else if Commit(s, s', t) {
      CommitKeepsInv(db, s, s', t);
    } else {
      CrashKeepsInv(db, s, s', t);
    }
  }

  lemma {:induction false} BehaviorKeepsInv(run: seq<Sys>)
    requires Behavior(run)
    ensures Inv(run[0].db, run[|run| - 1])
  {
    if |run| > 1 {
      BehaviorKeepsInv(run[..|run| - 1]);
      NextKeepsInv(run[0].db, run[|run| - 2], run[|run| - 1]);
    }
  }

  /**
   The rows are those of the committed calls run in lock order, and every caller that has been answered is in that order
   and was answered as that run answers.
   */
  ghost predicate SerialInLockOrder(db: Db, s: Sys)
    requires forall t | t in s.granted :: t in s.txs
  {
    var log := Log(s.granted, s.txs);
    && s.db == Run(CommittedCalls(log), db)
    && (forall t | t in s.txs && Answered(s.txs[t].phase) :: t in s.granted)
    && forall i | 0 <= i < |log| :: Explained(log[i], Run(CommittedCalls(log[..i]), db))
  }

  /**
   Every interleaving leaves the state of running the committed transactions one at a time in lock order, and every
   receipt or error handed out is the one that serial run hands out.
   */
  lemma {:induction false} InterleavingsAreSerial(run: seq<Sys>)
    requires Behavior(run)
    ensures var s := run[|run| - 1];
      (forall t | t in s.granted :: t in s.txs) && SerialInLockOrder(run[0].db, s)
  {
    BehaviorKeepsInv(run);
    var s := run[|run| - 1];
    var log := Log(s.granted, s.txs);
    SerialDbIsRun(log, run[0].db);
    forall i | 0 <= i < |log| ensures Explained(log[i], Run(CommittedCalls(log[..i]), run[0].db)) {
      ExplainedAt(log, i, run[0].db);
      SerialDbIsRun(log[..i], run[0].db);
    }
  }
}
