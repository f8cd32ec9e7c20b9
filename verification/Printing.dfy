/** Which order events enqueue which documents, and how many copies. */
module Printing {
  import opened Money
  import opened Wrappers
  import opened Orders
  import Courses

  datatype Document = Kitchen | Receipt

  datatype Event = OnSave | OnUpdate | OnPaid

  /** A copy count as stored: anything a JSON value converts to. */
  datatype RawCopies = NotANumber | Finite(value: real) | Infinite(positive: bool)

  /** A location's settings for one document: an explicit row of the matrix, or the legacy switches. */
  datatype DocSettings =
    | MatrixRow(onSave: bool, onUpdate: bool, onPaid: bool, rawCopies: RawCopies)
    | LegacySwitches(enabled: bool, hold: bool, rawCopies: RawCopies)

  datatype Settings = Settings(kitchen: DocSettings, receipt: DocSettings)

  datatype Rule = Rule(onSave: bool, onUpdate: bool, onPaid: bool, copies: int)

  function ClampCopies(raw: RawCopies): int {
    match raw
    case NotANumber => 1
    case Infinite(positive) => if positive then 5 else 1
    case Finite(v) => var n := Round(v); Min(5, Max(1, if n == 0 then 1 else n))
  }

  function RuleFor(document: Document, s: DocSettings): Rule {
    match s
    case MatrixRow(onSave, onUpdate, onPaid, raw) => Rule(onSave, onUpdate, onPaid, ClampCopies(raw))
    case LegacySwitches(enabled, hold, raw) =>
      if document == Kitchen then Rule(enabled && !hold, enabled && !hold, enabled && hold, ClampCopies(raw))
      else Rule(false, false, enabled, ClampCopies(raw))
  }

  function PlanRule(s: Settings, document: Document): Rule {
    RuleFor(document, if document == Kitchen then s.kitchen else s.receipt)
  }

  predicate Triggered(rule: Rule, events: set<Event>) {
    (OnSave in events && rule.onSave) || (OnUpdate in events && rule.onUpdate) || (OnPaid in events && rule.onPaid)
  }

  function Copies(document: Document, n: int): seq<Document> {
    if n <= 0 then [] else Copies(document, n - 1) + [document]
  }

  function JobsOf(s: Settings, document: Document, byCourse: bool, events: set<Event>): seq<Document> {
    var rule := PlanRule(s, document);
    if (document == Kitchen && byCourse) || !Triggered(rule, events) then []
    else Copies(document, rule.copies)
  }

  /** The documents an event enqueues, kitchen first. */
  method PrintForEvents(s: Settings, byCourse: bool, events: set<Event>) returns (jobs: seq<Document>)
    ensures jobs == JobsOf(s, Kitchen, byCourse, events) + JobsOf(s, Receipt, byCourse, events)
  {
    jobs := [];
    var documents := [Kitchen, Receipt];
    for d := 0 to 2
      invariant d == 0 ==> jobs == []
      invariant d == 1 ==> jobs == JobsOf(s, Kitchen, byCourse, events)
      invariant d == 2 ==> jobs == JobsOf(s, Kitchen, byCourse, events) + JobsOf(s, Receipt, byCourse, events)
    {
      var document := documents[d];
      if document == Kitchen && byCourse { continue; }
      var rule := PlanRule(s, document);
      if !Triggered(rule, events) { continue; }
      ghost var before := jobs;
      CopiesClamped(if document == Kitchen then s.kitchen.rawCopies else s.receipt.rawCopies);
      for copy := 0 to rule.copies
        invariant jobs == before + Copies(document, copy)
      {
        jobs := jobs + [document];
      }
    }
  }

  /** The kitchen jobs a fired course enqueues: none for an empty payload, the matrix's copies otherwise. */
  function CourseJobs(s: Settings, lines: seq<Line>, course: int): nat {
    if exists l | l in lines :: l.course == Some(course) then ClampCopies(s.kitchen.rawCopies) else 0
  }

  /**
   Whatever is stored as a copy count, between one and five copies print: the nearest whole number within those bounds,
   and one for what is no number.
   */
  lemma CopiesClamped(raw: RawCopies)
    ensures 1 <= ClampCopies(raw) <= 5
    ensures raw.Finite? && 0.5 <= raw.value < 5.5 ==> NearExact(ClampCopies(raw), raw.value)
    ensures raw.NotANumber? || raw == Infinite(false) || (raw.Finite? && raw.value < 0.5) ==> ClampCopies(raw) == 1
    ensures raw == Infinite(true) || (raw.Finite? && 5.5 <= raw.value) ==> ClampCopies(raw) == 5
  {
  }

  lemma {:induction false} CopiesCount(document: Document, n: nat)
    ensures |Copies(document, n)| == n && forall d | d in Copies(document, n) :: d == document
  {
    if n > 0 { CopiesCount(document, n - 1); }
  }

  /** The events that print a document: those ticked in its row, or what the legacy switches stand for. */
  ghost predicate PrintsOn(document: Document, s: DocSettings, events: set<Event>) {
    match s
    case MatrixRow(onSave, onUpdate, onPaid, _) =>
      (onSave && OnSave in events) || (onUpdate && OnUpdate in events) || (onPaid && OnPaid in events)
    case LegacySwitches(enabled, hold, _) =>
      enabled && if document == Receipt || hold then OnPaid in events else OnSave in events || OnUpdate in events
  }

  /**
   Events print each document at most one run of its copies, kitchen tickets first; of a coursed order they print
   receipts only.
   */
  lemma EventsPrintEachOnce(s: Settings, byCourse: bool, events: set<Event>)
    ensures var kitchen, receipt := JobsOf(s, Kitchen, byCourse, events), JobsOf(s, Receipt, byCourse, events);
      && |kitchen| == (
           if !byCourse && PrintsOn(Kitchen, s.kitchen, events) then ClampCopies(s.kitchen.rawCopies) else 0)
      && |receipt| == (if PrintsOn(Receipt, s.receipt, events) then ClampCopies(s.receipt.rawCopies) else 0)
      && (forall d | d in kitchen :: d == Kitchen) && (forall d | d in receipt :: d == Receipt)
  {
    CopiesClamped(s.kitchen.rawCopies);
    CopiesClamped(s.receipt.rawCopies);
    CopiesCount(Kitchen, PlanRule(s, Kitchen).copies);
    CopiesCount(Receipt, PlanRule(s, Receipt).copies);
  }

  /** A course without lines prints nothing. */
  lemma EmptyCoursePrintsNothing(s: Settings, lines: seq<Line>, course: int)
    ensures 0 < CourseJobs(s, lines, course) <==> exists l :: l in lines && l.course == Some(course)
  {
    CopiesClamped(s.kitchen.rawCopies);
  }

  /** A ticket fired for a course always has lines on it, so it prints exactly the configured copies. */
  lemma FiredTicketPrints(env: Env, op: Op, db: Db, s: Settings)
    requires op.Fire? && Courses.IssuesTicket(env, op, db, op.course)
    ensures CourseJobs(s, Step(env, op, db).order.lines, op.course) == PlanRule(s, Kitchen).copies
    ensures 1 <= CourseJobs(s, Step(env, op, db).order.lines, op.course) <= 5
  {
    CopiesClamped(s.kitchen.rawCopies);
    var lines := db.order.lines;
    var l :| l in lines && Waiting(l, op.course);
    var i :| 0 <= i < |lines| && lines[i] == l;
    var after := Step(env, op, db).order.lines;
    assert after[i] in after && after[i].course == Some(op.course);
  }

  /**
   Under the legacy switches a ticket held until payment prints as often, over saving then paying, as one that is not.
   */
  lemma HoldOnlyDelaysKitchen(enabled: bool, hold: bool, raw: RawCopies, receipt: DocSettings)
    ensures var s := Settings(LegacySwitches(enabled, hold, raw), receipt);
      |JobsOf(s, Kitchen, false, {OnSave})| + |JobsOf(s, Kitchen, false, {OnPaid})| == |JobsOf(s, Kitchen, false,
          {OnSave, OnPaid})|
      == (if enabled then ClampCopies(raw) else 0)
  {
    CopiesClamped(raw);
    CopiesCount(Kitchen, ClampCopies(raw));
  }

  /** A coursed order's food never reaches the kitchen through save, update or paid. */
  lemma CoursedKitchenOnlyByFire(s: Settings, events: set<Event>)
    ensures Kitchen !in JobsOf(s, Kitchen, true, events) + JobsOf(s, Receipt, true, events)
  {
    CopiesClamped(s.receipt.rawCopies);
    CopiesCount(Receipt, PlanRule(s, Receipt).copies);
  }
}
