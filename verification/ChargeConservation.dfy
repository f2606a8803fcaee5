/** Every row of the ledger is accounted for. */
module ChargeConservation {
  import opened Domain
  import opened OrderStore
  import opened PaymentLedger
  import opened PaymentProtocol
  import opened PaymentInvariant
  import opened PaymentSafety

  predicate HoldsCharge(th: Thread, id: Uuid) {
    th.call.Pay? && th.pc.Charged? && th.call.order == id
  }

  /** Some call has charged the order and has not finished the payment yet. */
  ghost predicate ChargePending(s: State, id: Uuid) {
    exists t :: 0 <= t < |s.threads| && HoldsCharge(s.threads[t], id)
  }

  function Bit(b: bool): nat {
    if b then 1 else 0
  }

  /** This step commits a charge of the order that Pay sees as an error. */
  predicate LosesCharge(s: State, a: Action, id: Uuid) {
    match a
    case Charge(t, outcome) =>
      t < |s.threads| && s.threads[t].call.order == id && outcome.CommittedButReportedFailed?
    case CommitLate(t, _) => t < |s.threads| && s.threads[t].call.order == id
    case _ => false
  }

  /** This step fails FinishPayment before its effect, after the order was charged. */
  predicate LosesFinish(s: State, a: Action, id: Uuid) {
    a.Repository? && a.fault.FailsBefore? && a.thread < |s.threads| && HoldsCharge(s.threads[a.thread], id)
  }

  ghost function LostCharges(r: Run, n: nat, id: Uuid): nat
    requires IsRun(r) && n <= |r.actions|
  {
    if n == 0 then 0
    else LostCharges(r, n - 1, id) + Bit(LosesCharge(r.states[n - 1], r.actions[n - 1], id))
  }

  ghost function LostFinishes(r: Run, n: nat, id: Uuid): nat
    requires IsRun(r) && n <= |r.actions|
  {
    if n == 0 then 0
    else LostFinishes(r, n - 1, id) + Bit(LosesFinish(r.states[n - 1], r.actions[n - 1], id))
  }

  // ----- Counting calls that hold a charge -----

  function Holders(threads: seq<Thread>, id: Uuid): nat {
    if threads == [] then 0
    else Holders(threads[..|threads| - 1], id) + Bit(HoldsCharge(threads[|threads| - 1], id))
  }

  lemma {:induction false} HoldersAfterUpdate(threads: seq<Thread>, t: nat, th: Thread, id: Uuid)
    requires t < |threads|
    ensures Holders(threads[t := th], id)
      == Holders(threads, id) - Bit(HoldsCharge(threads[t], id)) + Bit(HoldsCharge(th, id))
  {
    var last := |threads| - 1;
    if t < last {
      assert threads[t := th][..last] == threads[..last][t := th];
      HoldersAfterUpdate(threads[..last], t, th, id);
    } else {
      assert threads[t := th][..last] == threads[..last];
    }
  }

  lemma {:induction false} NoHolders(threads: seq<Thread>, id: Uuid)
    requires forall t :: 0 <= t < |threads| ==> !HoldsCharge(threads[t], id)
    ensures Holders(threads, id) == 0
  {
    if threads != [] {
      NoHolders(threads[..|threads| - 1], id);
    }
  }

  lemma HoldersIsPending(s: State, id: Uuid)
    requires Inv(s)
    ensures Holders(s.threads, id) == Bit(ChargePending(s, id))
  {
    if t :| 0 <= t < |s.threads| && HoldsCharge(s.threads[t], id) {
      var idle := s.threads[t].(pc := Entered);
      HoldersAfterUpdate(s.threads, t, idle, id);
      NoHolders(s.threads[t := idle], id);
    } else {
      NoHolders(s.threads, id);
    }
  }

  // ----- One step -----

  lemma TransactionsAfterCharge(ledger: Ledger, p: Payment, id: Uuid)
    requires p.transaction !in ledger
    ensures |TransactionsOf(ledger[p.transaction := p], id)| == |TransactionsOf(ledger, id)| + Bit(p.order == id)
  {
    var after := TransactionsOf(ledger[p.transaction := p], id);
    if p.order == id {
      assert after == TransactionsOf(ledger, id) + {p.transaction};
    } else {
      assert after == TransactionsOf(ledger, id);
    }
  }

  /** Ledger rows of the order beyond the one that paid it and the one still to be booked on it. */
  ghost function Surplus(s: State, id: Uuid): int {
    |TransactionsOf(s.ledger, id)| - Bit(Guard(s.store, id, Paid)) - Holders(s.threads, id)
  }

  /** A paid order has no owner, so only FinishPayment makes an order paid. */
  lemma StatementKeepsPaid(s: State, t: nat, f: Fault, id: Uuid)
    requires Inv(s) && RepositoryEnabled(s, t, f)
    ensures var s' := RepositoryStep(s, t, f);
      && s'.ledger == s.ledger
      && t < |s'.threads| && s'.threads == s.threads[t := s'.threads[t]]
      && !HoldsCharge(s'.threads[t], id)
      && Bit(Guard(s'.store, id, Paid)) == Bit(Guard(s.store, id, Paid))
           + Bit(HoldsCharge(s.threads[t], id)) - Bit(LosesFinish(s, Repository(t, f), id))
  {
    assert ThreadOk(s, s.threads[t]);
  }

  lemma SurplusAfterStatement(s: State, t: nat, f: Fault, id: Uuid)
    requires Inv(s) && RepositoryEnabled(s, t, f)
    ensures Surplus(RepositoryStep(s, t, f), id) == Surplus(s, id) + Bit(LosesFinish(s, Repository(t, f), id))
  {
    var s' := RepositoryStep(s, t, f);
    StatementKeepsPaid(s, t, f, id);
    HoldersAfterUpdate(s.threads, t, s'.threads[t], id);
  }

  lemma SurplusAfterCharge(s: State, t: nat, outcome: ChargeOutcome, id: Uuid)
    requires Inv(s) && ChargeEnabled(s, t, outcome)
    ensures Surplus(ChargeStep(s, t, outcome), id) == Surplus(s, id) + Bit(LosesCharge(s, Charge(t, outcome), id))
  {
    assert ThreadOk(s, s.threads[t]);
    var order := s.threads[t].call.order;
    assert RowOk(s.ledger, order, s.store[order]);
    var s' := ChargeStep(s, t, outcome);
    assert s'.store == s.store && s'.threads == s.threads[t := s'.threads[t]];
    HoldersAfterUpdate(s.threads, t, s'.threads[t], id);
    if outcome.Accepted? || outcome.CommittedButReportedFailed? {
      var p := Payment(outcome.tx, order, Translate(s.threads[t].call.payMethod));
      assert s'.ledger == s.ledger[outcome.tx := p];
      TransactionsAfterCharge(s.ledger, p, id);
    }
  }

  lemma SurplusAfterLateCommit(s: State, t: nat, tx: Uuid, id: Uuid)
    requires Inv(s) && LateEnabled(s, t, tx)
    ensures Surplus(LateStep(s, t, tx), id) == Surplus(s, id) + Bit(LosesCharge(s, CommitLate(t, tx), id))
  {
    var order := s.threads[t].call.order;
    assert RowOk(s.ledger, order, s.store[order]);
    TransactionsAfterCharge(s.ledger, Payment(tx, order, Translate(s.threads[t].call.payMethod)), id);
  }

  lemma SurplusStep(s: State, a: Action, s': State, id: Uuid)
    requires Inv(s) && Next(s, a, s')
    ensures Surplus(s', id) == Surplus(s, id) + Bit(LosesCharge(s, a, id)) + Bit(LosesFinish(s, a, id))
  {
    match a
    case CreateOrder(_, _) =>
    case Begin(_) => assert s'.threads[..|s.threads|] == s.threads;
    case Repository(t, f) => SurplusAfterStatement(s, t, f, id);
    case Charge(t, outcome) => SurplusAfterCharge(s, t, outcome, id);
    case CommitLate(t, tx) => SurplusAfterLateCommit(s, t, tx, id);
  }

  // ----- Whole runs -----

  lemma {:induction false} SurplusAlongRun(r: Run, n: nat, id: Uuid)
    requires IsRun(r) && n <= |r.actions|
    ensures Surplus(r.states[n], id) == LostCharges(r, n, id) + LostFinishes(r, n, id)
  {
    if n > 0 {
      SurplusAlongRun(r, n - 1, id);
      InvAlongRun(r, n - 1);
      RunStep(r, n - 1);
      SurplusStep(r.states[n - 1], r.actions[n - 1], r.states[n], id);
    } else {
      assert TransactionsOf(r.states[0].ledger, id) == {};
    }
  }

  /**
   Conservation of charges: in every state of every run, the ledger rows of an order are the one that
   paid it, the one its owner still has to book, the charges that Pay saw as errors, and the charges
   whose FinishPayment failed without effect.
   */
  lemma Conservation(r: Run, n: nat, id: Uuid)
    requires IsRun(r) && n <= |r.actions|
    ensures |TransactionsOf(r.states[n].ledger, id)|
      == Bit(Guard(r.states[n].store, id, Paid)) + Bit(ChargePending(r.states[n], id))
         + LostCharges(r, n, id) + LostFinishes(r, n, id)
  {
    SurplusAlongRun(r, n, id);
    InvAlongRun(r, n);
    HoldersIsPending(r.states[n], id);
  }

  function RowTransactions(row: OrderRow): set<Uuid> {
    if row.transaction.Some? then {row.transaction.value} else {}
  }

  /** An order is charged at most once beyond the losses; without losses, at most once. */
  lemma ChargedAtMostOnce(r: Run, n: nat, id: Uuid)
    requires IsRun(r) && n <= |r.actions|
    ensures |TransactionsOf(r.states[n].ledger, id)| <= 1 + LostCharges(r, n, id) + LostFinishes(r, n, id)
    ensures LostCharges(r, n, id) == 0 && LostFinishes(r, n, id) == 0 && Guard(r.states[n].store, id, Paid) ==>
      TransactionsOf(r.states[n].ledger, id) == RowTransactions(r.states[n].store[id])
  {
    Conservation(r, n, id);
    InvAlongRun(r, n);
    var s := r.states[n];
    if ChargePending(s, id) {
      var t :| 0 <= t < |s.threads| && HoldsCharge(s.threads[t], id);
      assert ThreadOk(s, s.threads[t]);
    }
    if Guard(s.store, id, Paid) {
      assert RowOk(s.ledger, id, s.store[id]);
      var tx := s.store[id].transaction.value;
      assert tx in TransactionsOf(s.ledger, id);
      if |TransactionsOf(s.ledger, id)| == 1 {
        OnlyElement(TransactionsOf(s.ledger, id), tx);
      }
    }
  }

  lemma OnlyElement(xs: set<Uuid>, x: Uuid)
    requires |xs| == 1 && x in xs
    ensures xs == {x}
  {
    assert |xs - {x}| == 0;
  }
}
