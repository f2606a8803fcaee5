/** Concrete runs showing that the losses and the late answers the theorems allow for do happen. */
module ProtocolWitnesses {
  import opened Domain
  import opened OrderStore
  import opened PaymentLedger
  import opened PaymentProtocol
  import opened PaymentInvariant
  import opened PaymentProgress
  import opened ChargeConservation
  import opened MissedUpdate

  function Last(r: Run): State
    requires |r.states| == |r.actions| + 1
  {
    r.states[|r.actions|]
  }

  /** `more` adds one step to `r`. */
  ghost predicate Extends(r: Run, a: Action, more: Run) {
    IsRun(r) && IsRun(more) && more.actions == r.actions + [a] && more.states[..|r.states|] == r.states
  }

  lemma Extend(r: Run, a: Action, s': State) returns (more: Run)
    requires IsRun(r) && Next(Last(r), a, s')
    ensures Extends(r, a, more) && Last(more) == s'
    ensures forall i :: 0 <= i < |r.states| ==> more.states[i] == r.states[i]
    ensures forall i :: 0 <= i < |r.actions| ==> more.actions[i] == r.actions[i]
    ensures FaultFree(r) && (a.Repository? ==> a.fault.NoFault?) ==> FaultFree(more)
  {
    more := Run(r.states + [s'], r.actions + [a]);
  }

  function Row(status: OrderStatus): OrderRow {
    OrderRow(status, None, None, 0)
  }

  /** One order awaiting payment and two calls about to begin on it. */
  lemma TwoCalls(b: Backend, first: Call, second: Call) returns (r: Run)
    ensures IsRun(r) && FaultFree(r)
    ensures Last(r) == State(b, map[1 := Row(PendingPayment)], map[],
      [Thread(first, Entered), Thread(second, Entered)], {})
    ensures r.states[0].backend == b && |r.actions| == 3
  {
    r := Run([Init(b)], []);
    r := Extend(r, CreateOrder(1, 0), State(b, map[1 := Row(PendingPayment)], map[], [], {}));
    r := Extend(r, Begin(first), State(b, map[1 := Row(PendingPayment)], map[], [Thread(first, Entered)], {}));
    r := Extend(r, Begin(second), State(b, map[1 := Row(PendingPayment)], map[],
      [Thread(first, Entered), Thread(second, Entered)], {}));
  }

  const FAILED: Pc := Returned(Refused(ChargeError))

  /** The first Pay is charged, told that it failed, and puts the order back. */
  lemma ChargeLost(first: Call, second: Call) returns (r: Run)
    requires first == Pay(1, Card)
    ensures IsRun(r) && FaultFree(r)
    ensures Last(r) == State(InMemory, map[1 := Row(PendingPayment)], map[10 := Payment(10, 1, LedgerCard)],
      [Thread(first, FAILED), Thread(second, Entered)], {})
  {
    var ledger := map[10 := Payment(10, 1, LedgerCard)];
    r := TwoCalls(InMemory, first, second);
    r := Extend(r, Repository(0, NoFault), State(InMemory, map[1 := Row(PaymentProcessing)], map[],
      [Thread(first, Charging), Thread(second, Entered)], {}));
    r := Extend(r, Charge(0, CommittedButReportedFailed(10)), State(InMemory, map[1 := Row(PaymentProcessing)], ledger,
      [Thread(first, ChargeFailed(ChargeError)), Thread(second, Entered)], {}));
    r := Extend(r, Repository(0, NoFault), State(InMemory, map[1 := Row(PendingPayment)], ledger,
      [Thread(first, FAILED), Thread(second, Entered)], {}));
  }

  /** The second Pay is charged too. */
  lemma ChargedAgain(first: Call, second: Call) returns (r: Run)
    requires first == Pay(1, Card) && second == Pay(1, Sbp)
    ensures IsRun(r) && FaultFree(r)
    ensures Last(r) == State(InMemory, map[1 := Row(PaymentProcessing)],
      map[10 := Payment(10, 1, LedgerCard), 11 := Payment(11, 1, LedgerSbp)],
      [Thread(first, FAILED), Thread(second, Charged(11))], {})
  {
    var one := map[10 := Payment(10, 1, LedgerCard)];
    r := ChargeLost(first, second);
    r := Extend(r, Repository(1, NoFault), State(InMemory, map[1 := Row(PaymentProcessing)], one,
      [Thread(first, FAILED), Thread(second, Charging)], {}));
    r := Extend(r, Charge(1, Accepted(11)), State(InMemory, map[1 := Row(PaymentProcessing)],
      map[10 := Payment(10, 1, LedgerCard), 11 := Payment(11, 1, LedgerSbp)],
      [Thread(first, FAILED), Thread(second, Charged(11))], {}));
  }

  /**
   An order can be charged twice: a charge commits but is reported to Pay as failed, the order goes
   back to pending, and a second Pay charges it again.
   */
  lemma ChargedTwice() returns (r: Run)
    ensures IsRun(r) && FaultFree(r)
    ensures |TransactionsOf(Last(r).ledger, 1)| == 2 && PaidWith(Last(r).store, 1, 11, Sbp)
  {
    var first, second := Pay(1, Card), Pay(1, Sbp);
    var ledger := map[10 := Payment(10, 1, LedgerCard), 11 := Payment(11, 1, LedgerSbp)];
    r := ChargedAgain(first, second);
    r := Extend(r, Repository(1, NoFault), State(InMemory, map[1 := OrderRow(Paid, Some(11), Some(Sbp), 0)], ledger,
      [Thread(first, FAILED), Thread(second, Returned(PaySucceeded(11)))], {}));
    assert TransactionsOf(ledger, 1) == {10, 11};
  }

  /** Cancel's update meets a payment in progress. */
  lemma CancelMeetsPayment(pay: Call, cancel: Call) returns (r: Run)
    requires pay == Pay(1, Card) && cancel == Cancel(1)
    ensures IsRun(r) && FaultFree(r) && r.states[0].backend.Postgres?
    ensures Last(r) == State(Postgres, map[1 := Row(PaymentProcessing)], map[],
      [Thread(pay, Charging), Thread(cancel, CancelMissed)], {})
    ensures |r.actions| == 5 && MissesExisting(r, 4, 1)
  {
    r := TwoCalls(Postgres, pay, cancel);
    r := Extend(r, Repository(0, NoFault), State(Postgres, map[1 := Row(PaymentProcessing)], map[],
      [Thread(pay, Charging), Thread(cancel, Entered)], {}));
    r := Extend(r, Repository(1, NoFault), State(Postgres, map[1 := Row(PaymentProcessing)], map[],
      [Thread(pay, Charging), Thread(cancel, CancelMissed)], {}));
  }

  /**
   In Postgres a Cancel can answer "order not found" for an order that exists throughout: its update
   meets a payment in progress, the charge fails, the order is reset, and only then is it read.
   */
  lemma ExistingOrderNotFound() returns (r: Run)
    ensures IsRun(r) && FaultFree(r) && r.states[0].backend.Postgres?
    ensures |r.actions| == 8 && MissesExisting(r, 4, 1)
    ensures AnswersNotFound(Last(r), 1) && 1 in Last(r).store
  {
    var pay, cancel := Pay(1, Card), Cancel(1);
    var met := CancelMeetsPayment(pay, cancel);
    r := Extend(met, Charge(0, NotCommitted), State(Postgres, map[1 := Row(PaymentProcessing)], map[],
      [Thread(pay, ChargeFailed(ChargeError)), Thread(cancel, CancelMissed)], {}));
    r := Extend(r, Repository(0, NoFault), State(Postgres, map[1 := Row(PendingPayment)], map[],
      [Thread(pay, FAILED), Thread(cancel, CancelMissed)], {}));
    r := Extend(r, Repository(1, NoFault), State(Postgres, map[1 := Row(PendingPayment)], map[],
      [Thread(pay, FAILED), Thread(cancel, Returned(Refused(OrderNotFound)))], {}));
    assert r.states[4] == met.states[4] && r.states[5] == met.states[5] && r.actions[4] == met.actions[4];
  }

  /** The first Pay is charged and about to finish. */
  lemma ChargedFirst(b: Backend, first: Call, second: Call) returns (r: Run)
    requires first == Pay(1, Card)
    ensures IsRun(r) && FaultFree(r) && |r.actions| == 5
    ensures Last(r) == State(b, map[1 := Row(PaymentProcessing)], map[10 := Payment(10, 1, LedgerCard)],
      [Thread(first, Charged(10)), Thread(second, Entered)], {})
  {
    r := TwoCalls(b, first, second);
    r := Extend(r, Repository(0, NoFault), State(b, map[1 := Row(PaymentProcessing)], map[],
      [Thread(first, Charging), Thread(second, Entered)], {}));
    r := Extend(r, Charge(0, Accepted(10)), State(b, map[1 := Row(PaymentProcessing)],
      map[10 := Payment(10, 1, LedgerCard)], [Thread(first, Charged(10)), Thread(second, Entered)], {}));
  }

  /**
   An order can stay in PAYMENT_PROCESSING for good, charged and not paid: the FinishPayment statement
   fails before its effect. Every later call is told that a payment is in progress.
   */
  lemma StrandedByFailedFinish() returns (r: Run)
    ensures IsRun(r)
    ensures |r.actions| == 8 && r.actions[5] == Repository(0, FailsBefore)
    ensures LosesFinish(r.states[5], r.actions[5], 1) && Strands(r.states[5], r.actions[5], 1)
    ensures Stuck(Last(r), 1) && |TransactionsOf(Last(r).ledger, 1)| == 1
    ensures |Last(r).threads| == 2
      && Last(r).threads[0].pc == Returned(Refused(RepositoryError))
      && Last(r).threads[1].pc == Returned(Refused(PaymentInProgress))
  {
    var first, second := Pay(1, Card), Pay(1, Sbp);
    var ledger := map[10 := Payment(10, 1, LedgerCard)];
    var charged := ChargedFirst(Postgres, first, second);
    var failed := Thread(first, Returned(Refused(RepositoryError)));
    r := Extend(charged, Repository(0, FailsBefore), State(Postgres, map[1 := Row(PaymentProcessing)], ledger,
      [failed, Thread(second, Entered)], {}));
    r := Extend(r, Repository(1, NoFault), State(Postgres, map[1 := Row(PaymentProcessing)], ledger,
      [failed, Thread(second, StartMissed)], {}));
    r := Extend(r, Repository(1, NoFault), State(Postgres, map[1 := Row(PaymentProcessing)], ledger,
      [failed, Thread(second, Returned(Refused(PaymentInProgress)))], {}));
    assert r.states[5] == Last(charged);
    assert TransactionsOf(ledger, 1) == {10};
  }

  /** The first Pay is told that its charge failed while PaymentService still works on it. */
  lemma ChargeStillRunning(first: Call, second: Call) returns (r: Run)
    requires first == Pay(1, Card)
    ensures IsRun(r) && FaultFree(r)
    ensures Last(r) == State(InMemory, map[1 := Row(PendingPayment)], map[],
      [Thread(first, FAILED), Thread(second, Entered)], {0})
  {
    r := TwoCalls(InMemory, first, second);
    r := Extend(r, Repository(0, NoFault), State(InMemory, map[1 := Row(PaymentProcessing)], map[],
      [Thread(first, Charging), Thread(second, Entered)], {}));
    r := Extend(r, Charge(0, StillRunning), State(InMemory, map[1 := Row(PaymentProcessing)], map[],
      [Thread(first, ChargeFailed(ChargeError)), Thread(second, Entered)], {0}));
    r := Extend(r, Repository(0, NoFault), State(InMemory, map[1 := Row(PendingPayment)], map[],
      [Thread(first, FAILED), Thread(second, Entered)], {0}));
  }

  /**
   A cancelled order can be charged although no statement fails: Pay gives up on a charge that is still
   running, Cancel succeeds, and then the charge commits.
   */
  lemma CancelledThenCharged() returns (r: Run)
    ensures IsRun(r) && FaultFree(r)
    ensures Guard(Last(r).store, 1, Cancelled) && |TransactionsOf(Last(r).ledger, 1)| == 1
    ensures |r.actions| > 0 && r.actions[|r.actions| - 1] == CommitLate(0, 10)
    ensures |Last(r).threads| == 2
      && Last(r).threads[0].pc == FAILED && Last(r).threads[1].pc == Returned(CancelSucceeded)
  {
    var first, second := Pay(1, Card), Cancel(1);
    var threads := [Thread(first, FAILED), Thread(second, Returned(CancelSucceeded))];
    var ledger := map[10 := Payment(10, 1, LedgerCard)];
    r := ChargeStillRunning(first, second);
    r := Extend(r, Repository(1, NoFault), State(InMemory, map[1 := Row(Cancelled)], map[], threads, {0}));
    r := Extend(r, CommitLate(0, 10), State(InMemory, map[1 := Row(Cancelled)], ledger, threads, {}));
    assert TransactionsOf(ledger, 1) == {10};
  }
}
