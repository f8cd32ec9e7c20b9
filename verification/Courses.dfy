/** Firing courses to the kitchen: stamps that never change, and tickets that never outnumber the lines rung in. */
module Courses {
  import opened Wrappers
  import opened Orders

  // ----- stamps

  /** Steps that add to the lines or stamp them, but never replace them. */
  ghost predicate KeepsLines(calls: seq<Call>) { forall c | c in calls :: !c.op.Update? && !c.op.Adjust? }

  /** A line as it was, except that it may have been fired meanwhile. */
  ghost predicate SameLine(before: Line, after: Line) {
    after == before.(firedAt := after.firedAt) && (before.firedAt.Some? ==> after == before)
  }

  ghost predicate Extends(before: seq<Line>, after: seq<Line>) {
    |before| <= |after| && forall i | 0 <= i < |before| :: SameLine(before[i], after[i])
  }

  lemma StepExtendsLines(env: Env, op: Op, db: Db)
    requires !op.Update? && !op.Adjust?
    ensures Extends(db.order.lines, Step(env, op, db).order.lines)
  {
  }

  /**
   A fire goes through exactly on an unpaid order not past confirmation, or as a replay of a claimed key. It stamps the
   waiting lines of its course with the moment of the call and nothing else, says whether there were any, and claims
   its key; a replay changes nothing.
   */
  lemma FireStampsItsCourse(env: Env, op: Op, db: Db)
    requires op.Fire?
    ensures var claimed := op.key.Some? && op.key.value in db.claims;
      var open := db.order.row.paidAt.None? && (db.order.row.status == Pending || db.order.row.status == Confirmed);
      var r, after := DecideOn(env, op, db), Step(env, op, db);
      && (r.Ok? <==> claimed || open)
      && (claimed ==> after == db && r.value.receipt == Replayed)
      && (!claimed && open ==>
            && FiredCourse(db.order.lines, after.order.lines, op.course, op.now)
            && r.value.receipt == FireReceipt(
                 exists i :: 0 <= i < |db.order.lines| && after.order.lines[i] != db.order.lines[i])
            && after.order.row == db.order.row && after.order.payments == db.order.payments
            && after.claims == db.claims + (if op.key.Some? then {op.key.value} else {}))
  {
    var lines, after := db.order.lines, Step(env, op, db).order.lines;
    assert db.order.payments + [] == db.order.payments;
    if DecideOn(env, op, db).Ok? && DecideOn(env, op, db).value.receipt.FireReceipt? {
      FiredExists(lines, op.course, op.now);
    }
  }

  /** Exactly the lines of the course without a stamp get one. */
  ghost predicate FiredCourse(before: seq<Line>, after: seq<Line>, course: int, at: Time) {
    && |after| == |before|
    && forall i | 0 <= i < |before| ::
         after[i] == if before[i].course == Some(course) && before[i].firedAt.None? then before[i].(firedAt := Some(at))
                     else before[i]
  }

  lemma FiredExists(lines: seq<Line>, course: int, at: Time)
    ensures var after := StampLines(lines, course, at);
      (exists l | l in lines :: Waiting(l, course)) <==> (exists i :: 0 <= i < |lines| && after[i] != lines[i])
  {
    var after := StampLines(lines, course, at);
    if l :| l in lines && Waiting(l, course) {
      var i :| 0 <= i < |lines| && lines[i] == l;
      assert after[i].firedAt != lines[i].firedAt;
    }
  }

  /** No line is lost or altered, and once a line is stamped its stamp stays. */
  lemma {:induction false} StampsNeverChange(calls: seq<Call>, db: Db)
    requires KeepsLines(calls)
    ensures Extends(db.order.lines, Run(calls, db).order.lines)
  {
    if calls != [] {
      var front, last := calls[..|calls| - 1], calls[|calls| - 1];
      assert last in calls;
      StampsNeverChange(front, db);
      StepExtendsLines(last.env, last.op, Run(front, db));
    }
  }

  // ----- tickets

  function Rung(lines: seq<Line>, course: int): nat {
    if lines == [] then 0
    else Rung(lines[..|lines| - 1], course) + (if lines[|lines| - 1].course == Some(course) then 1 else 0)
  }

  function Unfired(lines: seq<Line>, course: int): nat {
    if lines == [] then 0
    else Unfired(lines[..|lines| - 1], course) + (if Waiting(lines[|lines| - 1], course) then 1 else 0)
  }

  /** Lines a step inserts. */
  function Inserted(env: Env, op: Op, db: Db): seq<Line> {
    match DecideOn(env, op, db)
    case Err(_) => []
    case Ok(d) =>
      match d.writes.lines
      case AddLines(added) => added
      case ReplaceLines(lines) => lines
      case _ => []
  }

  /** Lines of a course ever rung in: those on the order at first and every one inserted since. */
  function EverRung(calls: seq<Call>, db: Db, course: int): nat {
    if calls == [] then Rung(db.order.lines, course)
    else
      var front, last := calls[..|calls| - 1], calls[|calls| - 1];
      EverRung(front, db, course) + Rung(Inserted(last.env, last.op, Run(front, db)), course)
  }

  /** Whether a step issues a kitchen ticket for a course: a fire of it that stamped something. */
  predicate IssuesTicket(env: Env, op: Op, db: Db, course: int) {
    op.Fire? && op.course == course && DecideOn(env, op, db).Ok?
        && DecideOn(env, op, db).value.receipt == FireReceipt(true)
  }

  function Tickets(calls: seq<Call>, db: Db, course: int): nat {
    if calls == [] then 0
    else
      var front, last := calls[..|calls| - 1], calls[|calls| - 1];
      Tickets(front, db, course) + (if IssuesTicket(last.env, last.op, Run(front, db), course) then 1 else 0)
  }

  lemma {:induction false} UnfiredWithinRung(lines: seq<Line>, course: int)
    ensures Unfired(lines, course) <= Rung(lines, course)
    ensures (exists l | l in lines :: Waiting(l, course)) <==> 0 < Unfired(lines, course)
  {
    if lines != [] {
      var front := lines[..|lines| - 1];
      UnfiredWithinRung(front, course);
      assert lines == front + [lines[|lines| - 1]];
    }
  }

  lemma {:induction false} UnfiredAppend(a: seq<Line>, b: seq<Line>, course: int)
    ensures Unfired(a + b, course) == Unfired(a, course) + Unfired(b, course)
  {
    if b == [] {
      assert a + b == a;
    } else {
      UnfiredAppend(a, b[..|b| - 1], course);
      assert (a + b)[..|a + b| - 1] == a + b[..|b| - 1];
    }
  }

  lemma {:induction false} StampClearsCourse(lines: seq<Line>, fired: int, at: Time, course: int)
    ensures Unfired(StampLines(lines, fired, at), course) == if fired == course then 0 else Unfired(lines, course)
  {
    if lines != [] {
      var front := lines[..|lines| - 1];
      StampClearsCourse(front, fired, at, course);
      assert StampLines(lines, fired, at)[..|front|] == StampLines(front, fired, at);
    }
  }

  /** One step: a ticket uses up at least one waiting line, and only inserted lines add to them. */
  lemma StepSpendsWaitingLines(env: Env, op: Op, db: Db, course: int)
    ensures Unfired(Step(env, op, db).order.lines, course) + (if IssuesTicket(env, op, db, course) then 1 else 0)
         <= Unfired(db.order.lines, course) + Rung(Inserted(env, op, db), course)
  {
    var lines := db.order.lines;
    UnfiredWithinRung(Inserted(env, op, db), course);
    UnfiredWithinRung(lines, course);
    match DecideOn(env, op, db)
    case Err(_) =>
    case Ok(d) =>
      match d.writes.lines
      case KeepLines =>
      case AddLines(added) => UnfiredAppend(lines, added, course);
      case ReplaceLines(_) =>
      case StampCourse(fired, at) => StampClearsCourse(lines, fired, at, course);
  }

  /**
   Over any run, retried fires and replaced lines included, a course never gets more tickets than lines rung in for
   it.
   */
  lemma {:induction false} TicketsNeverExceedLines(calls: seq<Call>, db: Db, course: int)
    ensures Tickets(calls, db, course) + Unfired(Run(calls, db).order.lines, course) <= EverRung(calls, db, course)
  {
    if calls == [] {
      UnfiredWithinRung(db.order.lines, course);
    } else {
      var front, last := calls[..|calls| - 1], calls[|calls| - 1];
      TicketsNeverExceedLines(front, db, course);
      StepSpendsWaitingLines(last.env, last.op, Run(front, db), course);
    }
  }

  /** Firing a course twice in a row issues nothing the second time, key or no key. */
  lemma SecondFireIsSilent(env: Env, first: Op, second: Op, db: Db)
    requires first.Fire? && second.Fire? && first.course == second.course && IssuesTicket(env, first, db, first.course)
    ensures !IssuesTicket(env, second, Step(env, first, db), second.course)
  {
    var after := Step(env, first, db);
    StampClearsCourse(db.order.lines, first.course, first.now, first.course);
    UnfiredWithinRung(after.order.lines, first.course);
  }
}
