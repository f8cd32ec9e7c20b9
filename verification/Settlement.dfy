/** What payments and refunds take, give back and leave alone, said without the decisions that make it so. */
module Settlement {
  import opened Money
  import opened Wrappers
  import opened Orders
  import opened LedgerSafety
  import opened LedgerRuns

  // ----- payments

  /** What is owed once a payment's tip is on the order. */
  function Balance(o: Order, tipAmount: Option<int>): int {
    o.row.total + Max(0, tipAmount.GetOr(0)) - Paid(o.payments)
  }

  /** The cash handed over counts only for a payment in cash. */
  ghost predicate CashCounts(op: Op)
    requires op.Pay?
  {
    op.tender == Cash && op.cashReceived.Some?
  }

  /**
   A payment is accepted exactly on an unpaid order that is not cancelled and owes something, for a positive amount,
   and if cash is counted, for enough of it.
   */
  lemma PaymentAcceptedIff(env: Env, op: Op, db: Db)
    requires op.Pay?
    ensures var balance := Balance(db.order, op.tipAmount);
      DecideOn(env, op, db).Ok? <==>
        && db.order.row.paidAt.None? && db.order.row.status != Cancelled && 0 < balance
        && (op.amount.Some? ==> 0 < op.amount.value)
        && (CashCounts(op) ==>
              || balance <= op.cashReceived.value
              || (op.amount.Some? && op.amount.value <= op.cashReceived.value))
    ensures DecideOn(env, op, db) == Err(AlreadyPaid) <==> db.order.row.paidAt.Some?
    ensures DecideOn(env, op, db) == Err(OrderCancelled) <==>
      db.order.row.paidAt.None? && db.order.row.status == Cancelled
    ensures DecideOn(env, op, db) == Err(NoRemainingBalance) <==>
      db.order.row.paidAt.None? && db.order.row.status != Cancelled && Balance(db.order, op.tipAmount) <= 0
    ensures DecideOn(env, op, db) == Err(AmountNotPositive) <==>
      && db.order.row.paidAt.None? && db.order.row.status != Cancelled && 0 < Balance(db.order, op.tipAmount)
      && op.amount.Some? && op.amount.value <= 0
  {
  }

  /** The row a payment adds: the amount asked for if that much is owed, else all that is owed, in the method asked. */
  ghost predicate TakesWhatWasAsked(op: Op, a: Order, b: Order)
    requires op.Pay?
  {
    var balance, taken := Balance(a, op.tipAmount), Paid(b.payments) - Paid(a.payments);
    && a.payments < b.payments && |b.payments| == |a.payments| + 1
    && (op.amount.Some? && op.amount.value <= balance ==> taken == op.amount.value)
    && (op.amount.None? || balance < op.amount.value ==> taken == balance)
    && var p := b.payments[|a.payments|];
    && p.amount == taken && p.tender == op.tender && p.tip == Max(0, op.tipAmount.GetOr(0))
    && p.cashReceived == (if CashCounts(op) then op.cashReceived else None)
    && p.changeGiven == (if CashCounts(op) then Some(op.cashReceived.value - taken) else None)
  }

  /** Of the order itself a payment moves tip, total, label, and, once all is covered, the paid stamp and status. */
  ghost predicate SettlesOrder(op: Op, a: Order, b: Order)
    requires op.Pay?
  {
    var tip, covered := Max(0, op.tipAmount.GetOr(0)), Paid(b.payments) == b.row.total;
    && b.lines == a.lines
    && b.row == a.row.(
         tip := a.row.tip + tip, total := a.row.total + tip, paidBy := LabelOf(b.payments),
         paidAt := if covered then Some(op.now) else None,
         status := if covered && a.row.status == Pending then Confirmed else a.row.status)
  }

  /** What an accepted payment writes, from the row it inserts. */
  lemma PaymentWritten(env: Env, op: Op, db: Db) returns (p: Payment)
    requires op.Pay? && DecideOn(env, op, db).Ok?
    ensures var balance := Balance(db.order, op.tipAmount);
      && p.amount == (if op.amount.Some? && op.amount.value <= balance then op.amount.value else balance)
      && p.tender == op.tender && p.tip == Max(0, op.tipAmount.GetOr(0))
      && p.cashReceived == (if CashCounts(op) then op.cashReceived else None)
      && p.changeGiven == (if CashCounts(op) then Some(op.cashReceived.value - p.amount) else None)
      && Step(env, op, db) == Apply(db, PayWrites(
           db.order.row, LabelOf(db.order.payments + [p]), p, db.order.row.total + p.tip, p.amount == balance, op.now))
    ensures db.order.row.paidAt.None?
  {
    p := DecideOn(env, op, db).value.writes.payments[0];
  }

  /**
   An accepted payment adds exactly the amount it names, or the whole balance when it names none or more, in the method
   it names, with the cash and change that go with it; the order is stamped paid exactly when that covers it.
   */
  lemma PaymentTakesWhatWasAsked(env: Env, op: Op, db: Db)
    requires op.Pay? && DecideOn(env, op, db).Ok?
    ensures TakesWhatWasAsked(op, db.order, Step(env, op, db).order)
    ensures SettlesOrder(op, db.order, Step(env, op, db).order) && Step(env, op, db).claims == db.claims
  {
    var p := PaymentWritten(env, op, db);
    PaidPlusOne(db.order.payments, p);
    assert Step(env, op, db).order.payments == db.order.payments + [p];
  }

  // ----- full refunds

  /** What a refund of `amount` gives back of one payment: what is left once all earlier payments are reversed. */
  function ShareOf(payments: seq<Payment>, amount: int, i: nat): int
    requires i < |payments|
  {
    Max(0, Min(payments[i].amount, amount - TakenIn(payments[..i])))
  }

  /** A row that gives back part of a payment in its own method; its tip and cash go back only with the whole of it. */
  ghost predicate GivesBack(r: Payment, p: Payment, share: int) {
    && 0 < share && r.amount == -share && r.tender == p.tender
    && (share == p.amount ==>
          && r.tip == -p.tip
          && r.cashReceived == (if p.cashReceived.GetOr(0) == 0 then None else Some(-p.cashReceived.value))
          && r.changeGiven == (if p.changeGiven.GetOr(0) == 0 then None else Some(-p.changeGiven.value)))
    && (share < p.amount ==> r.tip == 0 && r.cashReceived.None? && r.changeGiven.None?)
  }

  /** The rows reverse the shares of the payments from position `i` on, oldest first, and nothing else. */
  ghost predicate ReversesFrom(rows: seq<Payment>, payments: seq<Payment>, amount: int, i: nat)
    requires i <= |payments|
    decreases |payments| - i
  {
    if i == |payments| then rows == []
    else if ShareOf(payments, amount, i) == 0 then ReversesFrom(rows, payments, amount, i + 1)
    else
      && rows != [] && GivesBack(rows[0], payments[i], ShareOf(payments, amount, i))
      && ReversesFrom(rows[1..], payments, amount, i + 1)
  }

  lemma {:induction false} TakenInOneMore(payments: seq<Payment>, p: Payment)
    ensures TakenIn(payments + [p]) == TakenIn(payments) + Max(0, p.amount)
  {
    if payments != [] {
      TakenInOneMore(payments[1..], p);
      assert (payments + [p])[1..] == payments[1..] + [p];
    } else {
      assert payments + [p] == [p] && [p][1..] == [];
    }
  }

  /** What the refund loop still has to give back at position `i` is what the payments before it have not covered. */
  lemma {:induction false} RefundRowsFrom(payments: seq<Payment>, amount: int, i: nat, left: int)
    requires i <= |payments| && Max(0, left) == Max(0, amount - TakenIn(payments[..i]))
    ensures ReversesFrom(RefundRows(payments[i..], left), payments, amount, i)
    decreases |payments| - i
  {
    if i < |payments| {
      var p, share := payments[i], ShareOf(payments, amount, i);
      assert payments[i..][0] == p && payments[i..][1..] == payments[i + 1..];
      assert payments[..i + 1] == payments[..i] + [p];
      TakenInOneMore(payments[..i], p);
      RefundRowsFrom(payments, amount, i + 1, left - share);
    }
  }

  /**
   A full refund goes through exactly with the manager's PIN, on an order that is not cancelled, was ever paid on, and
   holds money; it reverses the payments oldest first, each in its own method, and cancels the order.
   */
  lemma FullRefundReverses(env: Env, op: Op, db: Db)
    requires op.RefundAll?
    ensures var a := db.order;
      DecideOn(env, op, db).Ok? <==>
        && op.pinOk && a.row.status != Cancelled && (a.row.paidAt.Some? || a.row.paidBy != Unlabelled)
        && 0 < Paid(a.payments)
    ensures DecideOn(env, op, db) == Err(BadPin) <==> !op.pinOk
    ensures DecideOn(env, op, db).Ok? ==>
      var a, after := db.order, Step(env, op, db);
      && a.payments <= after.order.payments && after.order.lines == a.lines && after.claims == db.claims
      && after.order.row == a.row.(status := Cancelled)
      && ReversesFrom(after.order.payments[|a.payments|..], a.payments, Paid(a.payments), 0)
  {
    var payments := db.order.payments;
    assert payments[..0] == [] && payments[0..] == payments;
    RefundRowsFrom(payments, Paid(payments), 0, Paid(payments));
    if DecideOn(env, op, db).Ok? {
      assert (payments + RefundRows(payments, Paid(payments)))[|payments|..] == RefundRows(payments, Paid(payments));
    }
  }

  // ----- partial refunds

  /**
   A partial refund goes through exactly with the manager's PIN, on a paid order that is not cancelled, within its
   balance, unless it was split; it adds one row in the order's method and changes nothing else.
   */
  lemma PartialRefundGivesBack(env: Env, op: Op, db: Db)
    requires op.RefundPart?
    ensures var a := db.order;
      DecideOn(env, op, db).Ok? <==>
        && op.pinOk && a.row.status != Cancelled && a.row.paidAt.Some? && op.refund <= Paid(a.payments)
        && a.row.paidBy != Split
    ensures DecideOn(env, op, db) == Err(BadPin) <==> !op.pinOk
    ensures DecideOn(env, op, db).Ok? ==>
      var a, after := db.order, Step(env, op, db);
      var tender := if a.row.paidBy.Single? then a.row.paidBy.tender else Cash;
      after == db.(order := a.(payments := a.payments + [Payment(tender, 0 - op.refund, 0, None, None)]))
  {
  }

  // ----- status edits

  /** A status edit sets the status and nothing else. */
  lemma StatusEditSetsStatus(env: Env, op: Op, db: Db)
    requires op.EditStatus?
    ensures DecideOn(env, op, db).Ok?
    ensures Step(env, op, db) == db.(order := db.order.(row := db.order.row.(status := op.status)))
  {
    assert db.order.payments + [] == db.order.payments;
  }
}
