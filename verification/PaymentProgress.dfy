/** Termination of every call, and quiescence of the store when no repository statement fails. */
module PaymentProgress {
  import opened Domain
  import opened OrderStore
  import opened PaymentLedger
  import opened PaymentProtocol
  import opened PaymentInvariant
  import opened PaymentSafety

  // ----- Termination -----

  /** More than the number of steps that can still follow on behalf of a call at this point. */
  function Rank(pc: Pc): nat {
    match pc
    case Entered => 5
    case Charging => 4
    case Charged(_) => 2
    case ChargeFailed(_) => 2
    case StartMissed => 1
    case FinishMissed => 1
    case ResetMissed(_) => 1
    case CancelMissed => 1
    case Returned(_) => 0
  }

  function RankSum(threads: seq<Thread>): nat {
    if threads == [] then 0
    else RankSum(threads[..|threads| - 1]) + Rank(threads[|threads| - 1].pc)
  }

  lemma {:induction false} RankSumAfterUpdate(threads: seq<Thread>, t: nat, th: Thread)
    requires t < |threads|
    ensures RankSum(threads[t := th]) == RankSum(threads) - Rank(threads[t].pc) + Rank(th.pc)
  {
    var last := |threads| - 1;
    if t < last {
      assert threads[t := th][..last] == threads[..last][t := th];
      RankSumAfterUpdate(threads[..last], t, th);
    } else {
      assert threads[t := th][..last] == threads[..last];
    }
  }

  ghost function Remaining(s: State): nat {
    RankSum(s.threads) + |s.late|
  }

  /** The steps taken on behalf of calls already begun. */
  predicate IsWork(a: Action) {
    a.Repository? || a.Charge? || a.CommitLate?
  }

  /** Only call `t` has moved, and it has moved down. */
  ghost predicate MovedDown(s: State, s': State, t: nat)
    requires t < |s.threads|
  {
    && s'.late == s.late
    && |s'.threads| == |s.threads|
    && s'.threads == s.threads[t := s'.threads[t]]
    && Rank(s'.threads[t].pc) < Rank(s.threads[t].pc)
  }

  lemma StatementMovesDown(s: State, t: nat, f: Fault)
    requires RepositoryEnabled(s, t, f)
    ensures MovedDown(s, RepositoryStep(s, t, f), t)
  {
  }

  lemma RepositoryFalls(s: State, t: nat, f: Fault)
    requires RepositoryEnabled(s, t, f)
    ensures Remaining(RepositoryStep(s, t, f)) < Remaining(s)
  {
    StatementMovesDown(s, t, f);
    RankSumAfterUpdate(s.threads, t, RepositoryStep(s, t, f).threads[t]);
  }

  lemma ChargeFalls(s: State, t: nat, outcome: ChargeOutcome)
    requires ChargeEnabled(s, t, outcome)
    ensures Remaining(ChargeStep(s, t, outcome)) < Remaining(s)
  {
    var s' := ChargeStep(s, t, outcome);
    assert s'.late <= s.late + {t} && s'.threads == s.threads[t := s'.threads[t]];
    CardinalityOfSubset(s'.late, s.late + {t});
    RankSumAfterUpdate(s.threads, t, s'.threads[t]);
  }

  lemma {:induction false} CardinalityOfSubset(a: set<nat>, b: set<nat>)
    requires a <= b
    ensures |a| <= |b|
  {
    if a != {} {
      var x :| x in a;
      CardinalityOfSubset(a - {x}, b - {x});
    }
  }

  /** Every step of work strictly lowers what remains; only a new call raises it, by a fixed amount. */
  lemma WorkFalls(s: State, a: Action, s': State)
    requires Next(s, a, s')
    ensures IsWork(a) ==> Remaining(s') < Remaining(s)
    ensures !IsWork(a) ==> Remaining(s') == Remaining(s) + if a.Begin? then 5 else 0
  {
    match a
    case CreateOrder(_, _) =>
    case Begin(_) => assert s'.threads[..|s.threads|] == s.threads;
    case Repository(t, f) => RepositoryFalls(s, t, f);
    case Charge(t, outcome) => ChargeFalls(s, t, outcome);
    case CommitLate(t, _) => assert s'.late == s.late - {t};
  }

  function WorkDone(actions: seq<Action>): nat {
    if actions == [] then 0
    else WorkDone(actions[..|actions| - 1]) + if IsWork(actions[|actions| - 1]) then 1 else 0
  }

  function CallsBegun(actions: seq<Action>): nat {
    if actions == [] then 0
    else CallsBegun(actions[..|actions| - 1]) + if actions[|actions| - 1].Begin? then 1 else 0
  }

  /** No run does more than five steps of work per call, even when statements and charges fail. */
  lemma {:induction false} WorkIsBounded(r: Run, n: nat)
    requires IsRun(r) && n <= |r.actions|
    ensures WorkDone(r.actions[..n]) + Remaining(r.states[n]) <= 5 * CallsBegun(r.actions[..n])
  {
    if n > 0 {
      WorkIsBounded(r, n - 1);
      RunStep(r, n - 1);
      WorkFalls(r.states[n - 1], r.actions[n - 1], r.states[n]);
      assert r.actions[..n][..n - 1] == r.actions[..n - 1];
    }
  }

  /** A call that has not returned can always take its next step, so a run that cannot go on has answered every call. */
  lemma NeverStuck(r: Run, n: nat, t: nat)
    requires IsRun(r) && n <= |r.actions| && t < |r.states[n].threads|
    ensures r.states[n].threads[t].pc.Returned?
      || Enabled(r.states[n], Repository(t, NoFault))
      || Enabled(r.states[n], Charge(t, NotCommitted))
  {
    InvAlongRun(r, n);
    assert ThreadOk(r.states[n], r.states[n].threads[t]);
  }

  // ----- Quiescence -----

  ghost predicate HasOwner(s: State, id: Uuid) {
    exists t :: 0 <= t < |s.threads| && Owner(s.threads[t]) && s.threads[t].call.order == id
  }

  /** The order is being processed, but no call is left that would finish or reset it. */
  ghost predicate Stuck(s: State, id: Uuid) {
    Guard(s.store, id, PaymentProcessing) && !HasOwner(s, id)
  }

  /** A failing statement that leaves the order behind: a start that took effect, a finish or reset that did not. */
  predicate Strands(s: State, a: Action, id: Uuid) {
    && a.Repository? && a.thread < |s.threads|
    && var th := s.threads[a.thread];
       && th.call.Pay? && th.call.order == id
       && match th.pc {
            case Entered =>
              a.fault.FailsAfter? && IsValidPaymentMethod(th.call.payMethod) && Guard(s.store, id, PendingPayment)
            case Charged(_) => a.fault.FailsBefore?
            case ChargeFailed(_) => a.fault.FailsBefore?
            case _ => false
          }
  }

  /** A statement on another order changes nothing here. */
  lemma ElsewhereIsIrrelevant(s: State, t: nat, f: Fault, id: Uuid)
    requires RepositoryEnabled(s, t, f) && s.threads[t].call.order != id
    ensures Stuck(RepositoryStep(s, t, f), id) <==> Stuck(s, id)
  {
    var s' := RepositoryStep(s, t, f);
    assert s'.threads == s.threads[t := s'.threads[t]] && s'.threads[t].call == s.threads[t].call;
    assert Guard(s'.store, id, PaymentProcessing) <==> Guard(s.store, id, PaymentProcessing);
    SameOwners(s, s', id);
  }

  lemma SameOwners(s: State, s': State, id: Uuid)
    requires |s.threads| <= |s'.threads|
    requires forall u :: 0 <= u < |s.threads| ==>
      s'.threads[u].call == s.threads[u].call
      && (s.threads[u].call.order == id ==> (Owner(s'.threads[u]) <==> Owner(s.threads[u])))
    requires forall u :: |s.threads| <= u < |s'.threads| ==> !Owner(s'.threads[u])
    ensures HasOwner(s', id) <==> HasOwner(s, id)
  {
  }

  /** The owner's own statement leaves the order unowned, and stuck only if the statement failed before its effect. */
  lemma OwnerLeaves(s: State, t: nat, f: Fault, id: Uuid)
    requires Inv(s) && RepositoryEnabled(s, t, f) && Owner(s.threads[t]) && s.threads[t].call.order == id
    ensures !Stuck(s, id)
    ensures Stuck(RepositoryStep(s, t, f), id) <==> Strands(s, Repository(t, f), id)
  {
  }

  /** Another call's statement strands the order only by starting a payment without noticing. */
  lemma NonOwnerStatement(s: State, t: nat, f: Fault, id: Uuid)
    requires Inv(s) && RepositoryEnabled(s, t, f) && !Owner(s.threads[t]) && s.threads[t].call.order == id
    ensures Stuck(RepositoryStep(s, t, f), id) <==> Stuck(s, id) || Strands(s, Repository(t, f), id)
  {
    var s' := RepositoryStep(s, t, f);
    assert ThreadOk(s, s.threads[t]);
    assert s'.threads == s.threads[t := s'.threads[t]];
    if !Guard(s.store, id, PaymentProcessing) {
      NoOwnerUnlessProcessing(s, id);
    }
    if Owner(s'.threads[t]) {
      assert s'.threads[t].call.order == id;
      assert HasOwner(s', id);
    } else {
      SameOwners(s, s', id);
    }
  }

  /** Nothing frees a stuck order, and only the stranding faults make one. */
  lemma StuckStep(s: State, a: Action, s': State, id: Uuid)
    requires Inv(s) && Next(s, a, s')
    ensures Stuck(s', id) <==> Stuck(s, id) || Strands(s, a, id)
  {
    if a.Repository? {
      if s.threads[a.thread].call.order != id {
        ElsewhereIsIrrelevant(s, a.thread, a.fault, id);
      } else if Owner(s.threads[a.thread]) {
        OwnerLeaves(s, a.thread, a.fault, id);
      } else {
        NonOwnerStatement(s, a.thread, a.fault, id);
      }
    } else {
      OtherActionsKeepOwners(s, a, s', id);
    }
  }

  lemma OtherActionsKeepOwners(s: State, a: Action, s': State, id: Uuid)
    requires Next(s, a, s') && !a.Repository?
    ensures Stuck(s', id) <==> Stuck(s, id)
  {
    assert Guard(s'.store, id, PaymentProcessing) <==> Guard(s.store, id, PaymentProcessing);
    SameOwners(s, s', id);
  }

  /** One of the first `n` actions of the run stranded the order. */
  ghost predicate Stranded(r: Run, n: nat, id: Uuid)
    requires IsRun(r) && n <= |r.actions|
  {
    exists k :: 0 <= k < n && Strands(r.states[k], r.actions[k], id)
  }

  /**
   An order is stuck in PAYMENT_PROCESSING exactly when some earlier statement stranded it; from
   then on it stays stuck.
   */
  lemma {:induction false} StuckExactlyWhenStranded(r: Run, n: nat, id: Uuid)
    requires IsRun(r) && n <= |r.actions|
    ensures Stuck(r.states[n], id) <==> Stranded(r, n, id)
  {
    if n > 0 {
      StuckExactlyWhenStranded(r, n - 1, id);
      StrandedStep(r, n - 1, id);
      StuckStepInRun(r, n - 1, id);
    }
  }

  lemma StuckStepInRun(r: Run, k: nat, id: Uuid)
    requires IsRun(r) && k < |r.actions|
    ensures Stuck(r.states[k + 1], id) <==> Stuck(r.states[k], id) || Strands(r.states[k], r.actions[k], id)
  {
    InvAlongRun(r, k);
    var s, a, s' := r.states[k], r.actions[k], r.states[k + 1];
    assert Next(s, a, s') by { RunStep(r, k); }
    StuckStep(s, a, s', id);
  }

  lemma StrandedStep(r: Run, k: nat, id: Uuid)
    requires IsRun(r) && k < |r.actions|
    ensures Stranded(r, k + 1, id) <==> Stranded(r, k, id) || Strands(r.states[k], r.actions[k], id)
  {
  }

  /**
   When no repository statement fails, an order is being processed exactly while a call owns its
   payment; so once every call has returned, no order is left in PAYMENT_PROCESSING.
   */
  lemma Quiescence(r: Run, n: nat, id: Uuid)
    requires IsRun(r) && FaultFree(r) && n <= |r.actions|
    ensures Guard(r.states[n].store, id, PaymentProcessing) <==> HasOwner(r.states[n], id)
    ensures (forall t :: 0 <= t < |r.states[n].threads| ==> r.states[n].threads[t].pc.Returned?)
      ==> !Guard(r.states[n].store, id, PaymentProcessing)
  {
    StuckExactlyWhenStranded(r, n, id);
    InvAlongRun(r, n);
    var s := r.states[n];
    if HasOwner(s, id) {
      var t :| 0 <= t < |s.threads| && Owner(s.threads[t]) && s.threads[t].call.order == id;
      assert ThreadOk(s, s.threads[t]);
    }
  }
}
