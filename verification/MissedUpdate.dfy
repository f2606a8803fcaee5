/** What a call answers when its guarded update matched no row. */
module MissedUpdate {
  import opened Domain
  import opened OrderStore
  import opened PaymentLedger
  import opened PaymentProtocol
  import opened PaymentInvariant
  import opened PaymentSafety

  /** The statement that puts an order back to PENDING_PAYMENT after a failed charge. */
  predicate ResetsOrder(s: State, a: Action, id: Uuid) {
    && a.Repository? && !a.fault.FailsBefore?
    && a.thread < |s.threads|
    && s.threads[a.thread].pc.ChargeFailed?
    && s.threads[a.thread].call.order == id
    && Guard(s.store, id, PaymentProcessing)
  }

  predicate AnswersNotFound(s: State, t: nat) {
    t < |s.threads| && s.threads[t].pc == Returned(Refused(OrderNotFound))
  }

  /** The first statement of Pay or Cancel. */
  predicate FirstStatement(s: State, t: nat) {
    && t < |s.threads| && s.threads[t].pc.Entered?
    && (s.threads[t].call.Pay? ==> IsValidPaymentMethod(s.threads[t].call.payMethod))
  }

  /** The update of Pay or Cancel matched no row and the order has not been read yet. */
  predicate AwaitsRead(s: State, t: nat) {
    t < |s.threads| && (s.threads[t].pc.StartMissed? || s.threads[t].pc.CancelMissed?)
  }

  /** The answer a call gets from a read, as an error or not yet any. */
  function RefusalOf(s: State, t: nat): Option<Error>
    requires t < |s.threads|
  {
    match s.threads[t].pc
    case Returned(reply) => (match reply case Refused(e) => Some(e) case _ => None)
    case _ => None
  }

  /**
   In memory the update and the read are one step, so the answer tells the order's status exactly:
   in particular "not found" is answered for absent orders only.
   */
  lemma InMemoryAnswers(r: Run, n: nat, t: nat)
    requires IsRun(r) && n < |r.actions| && r.states[0].backend.InMemory?
    requires r.actions[n].Repository? && r.actions[n].thread == t && FirstStatement(r.states[n], t)
    ensures t < |r.states[n + 1].threads|
    ensures var store, id, e := r.states[n].store, r.states[n].threads[t].call.order, RefusalOf(r.states[n + 1], t);
      && (e == Some(OrderNotFound) <==> id !in store)
      && (e == Some(PaymentInProgress) <==> Guard(store, id, PaymentProcessing))
      && (e == Some(OrderAlreadyPaid) <==> Guard(store, id, Paid))
      && (e == Some(OrderCancelled) <==> Guard(store, id, Cancelled))
      && (e == None <==> Guard(store, id, PendingPayment))
  {
    RunStep(r, n);
    BackendFixed(r, n);
    InvAlongRun(r, n);
    var id := r.states[n].threads[t].call.order;
    if id in r.states[n].store {
      assert RowOk(r.states[n].ledger, id, r.states[n].store[id]);
    }
  }

  /** In Postgres the read after a miss tells the status too, except that a pending order is "not found" as well. */
  lemma PostgresAnswers(r: Run, n: nat, t: nat)
    requires IsRun(r) && n < |r.actions| && r.actions[n] == Repository(t, NoFault)
    requires AwaitsRead(r.states[n], t)
    ensures t < |r.states[n + 1].threads|
    ensures var store, id, e := r.states[n].store, r.states[n].threads[t].call.order, RefusalOf(r.states[n + 1], t);
      && (e == Some(OrderNotFound) <==> id !in store || Guard(store, id, PendingPayment))
      && (e == Some(PaymentInProgress) <==> Guard(store, id, PaymentProcessing))
      && (e == Some(OrderAlreadyPaid) <==> Guard(store, id, Paid))
      && (e == Some(OrderCancelled) <==> Guard(store, id, Cancelled))
  {
    RunStep(r, n);
    InvAlongRun(r, n);
    var id := r.states[n].threads[t].call.order;
    if id in r.states[n].store {
      assert RowOk(r.states[n].ledger, id, r.states[n].store[id]);
    }
  }

  lemma OnlyResetRestoresPending(s: State, a: Action, s': State, id: Uuid)
    requires Inv(s) && Next(s, a, s')
    requires id in s.store && !Guard(s.store, id, PendingPayment) && Guard(s'.store, id, PendingPayment)
    ensures ResetsOrder(s, a, id)
  {
  }

  /** An order that was not pending and is pending later was reset in between. */
  lemma {:induction false} ResetInBetween(r: Run, i: nat, j: nat, id: Uuid) returns (k: nat)
    requires IsRun(r) && i <= j <= |r.actions|
    requires id in r.states[i].store && !Guard(r.states[i].store, id, PendingPayment)
    requires Guard(r.states[j].store, id, PendingPayment)
    ensures i <= k < j && ResetsOrder(r.states[k], r.actions[k], id)
  {
    FinalForever(r, i, j - 1, id);
    if Guard(r.states[j - 1].store, id, PendingPayment) {
      k := ResetInBetween(r, i, j - 1, id);
    } else {
      InvAlongRun(r, j - 1);
      RunStep(r, j - 1);
      OnlyResetRestoresPending(r.states[j - 1], r.actions[j - 1], r.states[j], id);
      k := j - 1;
    }
  }

  /** The first statement of call `t` ran at step `i` and matched no row; the order is still to be read. */
  ghost predicate MissesAt(r: Run, i: nat, t: nat)
    requires IsRun(r) && i < |r.actions|
  {
    StatementOf(r.actions[i], t) && FirstStatement(r.states[i], t) && AwaitsRead(r.states[i + 1], t)
  }

  /** The same, although the order exists. */
  ghost predicate MissesExisting(r: Run, i: nat, t: nat)
    requires IsRun(r) && i < |r.actions|
  {
    MissesAt(r, i, t) && r.states[i].threads[t].call.order in r.states[i].store
  }

  /** Step `j` is the read of call `t` after its miss, and it is answered "not found". */
  ghost predicate ReadsNotFound(r: Run, j: nat, t: nat)
    requires IsRun(r) && j < |r.actions|
  {
    r.actions[j] == Repository(t, NoFault) && AwaitsRead(r.states[j], t) && AnswersNotFound(r.states[j + 1], t)
  }

  // ----- Where a "not found" comes from -----

  lemma NotFoundStep(s: State, a: Action, s': State, t: nat)
    requires Inv(s) && Next(s, a, s')
    requires t < |s.threads| && !s.threads[t].pc.Returned? && AnswersNotFound(s', t)
    ensures StatementOf(a, t) && a.fault.NoFault?
    ensures s.backend.InMemory? ==> FirstStatement(s, t)
    ensures s.backend.Postgres? ==> AwaitsRead(s, t)
  {
    assert ThreadOk(s, s.threads[t]);
  }

  lemma MissStep(s: State, a: Action, s': State, t: nat)
    requires Inv(s) && Next(s, a, s')
    requires t < |s.threads| && !AwaitsRead(s, t) && AwaitsRead(s', t)
    ensures StatementOf(a, t) && FirstStatement(s, t)
  {
    assert ThreadOk(s, s.threads[t]);
  }

  /** A call that waits to read the order missed it at some earlier step. */
  lemma {:induction false} MissedBefore(r: Run, j: nat, t: nat) returns (i: nat)
    requires IsRun(r) && j <= |r.actions| && AwaitsRead(r.states[j], t)
    ensures i < j && MissesAt(r, i, t)
  {
    assert j > 0;
    var s, a, s' := r.states[j - 1], r.actions[j - 1], r.states[j];
    assert Next(s, a, s') by { RunStep(r, j - 1); }
    BegunOrBefore(s, a, s', t);
    if AwaitsRead(s, t) {
      i := MissedBefore(r, j - 1, t);
    } else {
      InvAlongRun(r, j - 1);
      MissStep(s, a, s', t);
      i := j - 1;
    }
  }

  /** In memory every "not found" was given by the first statement, and the order was absent then. */
  lemma InMemoryNotFound(r: Run, n: nat, t: nat) returns (i: nat)
    requires IsRun(r) && n <= |r.actions| && r.states[0].backend.InMemory? && AnswersNotFound(r.states[n], t)
    ensures i < n && StatementOf(r.actions[i], t) && FirstStatement(r.states[i], t)
    ensures AnswersNotFound(r.states[i + 1], t)
    ensures r.states[n].threads[t].call.order !in r.states[i].store
  {
    i := AnsweredAt(r, n, t);
    InvAlongRun(r, i);
    BackendFixed(r, i);
    RunStep(r, i);
    NotFoundStep(r.states[i], r.actions[i], r.states[i + 1], t);
    ReturnedForever(r, i, n, t);
    InMemoryAnswers(r, i, t);
  }

  lemma WaitStep(s: State, a: Action, s': State, t: nat)
    requires Next(s, a, s') && AwaitsRead(s, t)
    ensures t < |s'.threads| && (AwaitsRead(s', t) || s'.threads[t].pc.Returned?)
  {
    if a.Repository? {
      StatementMovesOne(s, a.thread, a.fault);
    }
  }

  /** A call that waits to read an order does nothing else before it has its answer. */
  lemma {:induction false} WaitsUntilAnswered(r: Run, i: nat, k: nat, t: nat)
    requires IsRun(r) && i <= k <= |r.actions| && AwaitsRead(r.states[i], t)
    ensures t < |r.states[k].threads| && (AwaitsRead(r.states[k], t) || r.states[k].threads[t].pc.Returned?)
  {
    if i < k {
      WaitsUntilAnswered(r, i, k - 1, t);
      var s, a, s' := r.states[k - 1], r.actions[k - 1], r.states[k];
      assert Next(s, a, s') by { RunStep(r, k - 1); }
      if AwaitsRead(s, t) {
        WaitStep(s, a, s', t);
      } else {
        ReturnedStep(s, a, s', t);
      }
    }
  }

  /** Some call other than `t` puts the order back to pending, after step `i` and before step `j`. */
  ghost predicate ResetByAnother(r: Run, i: nat, j: nat, id: Uuid, t: nat)
    requires IsRun(r) && j < |r.actions|
  {
    exists k :: i < k < j && ResetsOrder(r.states[k], r.actions[k], id) && r.actions[k].thread != t
  }

  /** If the order existed when the update missed and the read says "not found", another call reset it in between. */
  lemma ResetBeforeRead(r: Run, i: nat, j: nat, t: nat)
    requires IsRun(r) && i < j < |r.actions| && MissesExisting(r, i, t) && ReadsNotFound(r, j, t)
    ensures ResetByAnother(r, i, j, r.states[i].threads[t].call.order, t)
  {
    var id := r.states[i].threads[t].call.order;
    RunStep(r, i);
    assert !Guard(r.states[i].store, id, PendingPayment);
    assert r.states[i + 1].store == r.states[i].store;
    ReturnedForever(r, i, j, t);
    PostgresAnswers(r, j, t);
    FinalForever(r, i, j, id);
    var k := ResetInBetween(r, i + 1, j, id);
    WaitsUntilAnswered(r, i + 1, k, t);
  }

  /**
   Every "not found" of Pay or Cancel over Postgres, in any state of any run, was given by a read
   after a missed first statement; and unless the order was absent at that statement, another call
   reset it in between.
   */
  lemma NotFoundNeedsReset(r: Run, n: nat, t: nat) returns (i: nat, j: nat)
    requires IsRun(r) && n <= |r.actions| && r.states[0].backend.Postgres? && AnswersNotFound(r.states[n], t)
    ensures i < j < n && MissesAt(r, i, t) && ReadsNotFound(r, j, t)
    ensures r.states[i].threads[t].call == r.states[n].threads[t].call
    ensures var id := r.states[n].threads[t].call.order;
      id in r.states[i].store ==> ResetByAnother(r, i, j, id, t)
  {
    j := AnsweredAt(r, n, t);
    InvAlongRun(r, j);
    BackendFixed(r, j);
    RunStep(r, j);
    NotFoundStep(r.states[j], r.actions[j], r.states[j + 1], t);
    i := MissedBefore(r, j, t);
    ReturnedForever(r, i, n, t);
    if MissesExisting(r, i, t) {
      ResetBeforeRead(r, i, j, t);
    }
  }
}
