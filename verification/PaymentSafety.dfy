/** Safety of the payment protocol, stated over every run of any number of calls. */
module PaymentSafety {
  import opened Domain
  import opened OrderStore
  import opened PaymentLedger
  import opened PaymentProtocol
  import opened PaymentInvariant

  // ----- Every state of every run satisfies the invariant -----

  lemma {:induction false} InvAlongRun(r: Run, n: nat)
    requires IsRun(r) && n <= |r.actions|
    ensures Inv(r.states[n])
  {
    if n > 0 {
      InvAlongRun(r, n - 1);
      RunStep(r, n - 1);
      NextKeepsInv(r.states[n - 1], r.actions[n - 1], r.states[n]);
    }
  }

  lemma {:induction false} BackendFixed(r: Run, n: nat)
    requires IsRun(r) && n <= |r.actions|
    ensures r.states[n].backend == r.states[0].backend
  {
    if n > 0 {
      BackendFixed(r, n - 1);
      RunStep(r, n - 1);
    }
  }

  // ----- Mutual exclusion -----

  /** The action is a repository statement of call `t`. */
  predicate StatementOf(a: Action, t: nat) {
    a.Repository? && a.thread == t
  }

  /**
   While one call owns an order's payment the order is being processed, no other call owns it,
   and no step of any other call changes the order.
   */
  lemma MutualExclusion(r: Run, n: nat, t: nat)
    requires IsRun(r) && n <= |r.actions|
    requires t < |r.states[n].threads| && Owner(r.states[n].threads[t])
    ensures Guard(r.states[n].store, r.states[n].threads[t].call.order, PaymentProcessing)
    ensures forall u | 0 <= u < |r.states[n].threads| && Owner(r.states[n].threads[u]) ::
      r.states[n].threads[u].call.order == r.states[n].threads[t].call.order ==> u == t
    ensures n < |r.actions| && !StatementOf(r.actions[n], t) ==> (
      var id := r.states[n].threads[t].call.order;
      Guard(r.states[n + 1].store, id, PaymentProcessing) && r.states[n + 1].store[id] == r.states[n].store[id])
  {
    var s := r.states[n];
    InvAlongRun(r, n);
    assert ThreadOk(s, s.threads[t]);
    if n < |r.actions| {
      RunStep(r, n);
      if r.actions[n].Repository? && r.actions[n].thread != t {
        OtherCallLeavesOrder(s, r.actions[n].thread, r.actions[n].fault, t);
      }
    }
  }

  lemma OtherCallLeavesOrder(s: State, u: nat, f: Fault, t: nat)
    requires Inv(s) && RepositoryEnabled(s, u, f)
    requires t < |s.threads| && t != u && Owner(s.threads[t])
    ensures s.threads[t].call.order in s.store
    ensures var s' := RepositoryStep(s, u, f);
      s.threads[t].call.order in s'.store
      && s'.store[s.threads[t].call.order] == s.store[s.threads[t].call.order]
  {
  }

  // ----- The owner always wins its last step -----

  /** The step that gave a call the answer it has. */
  lemma {:induction false} AnsweredAt(r: Run, n: nat, t: nat) returns (j: nat)
    requires IsRun(r) && n <= |r.actions|
    requires t < |r.states[n].threads| && r.states[n].threads[t].pc.Returned?
    ensures j < n && t < |r.states[j].threads| && t < |r.states[j + 1].threads|
    ensures !r.states[j].threads[t].pc.Returned? && r.states[j + 1].threads[t] == r.states[n].threads[t]
  {
    assert n > 0;
    var s, a, s' := r.states[n - 1], r.actions[n - 1], r.states[n];
    assert Next(s, a, s') by { RunStep(r, n - 1); }
    BegunOrBefore(s, a, s', t);
    j := n - 1;
    if s.threads[t].pc.Returned? {
      ReturnedStep(s, a, s', t);
      j := AnsweredAt(r, n - 1, t);
    }
  }

  /** A call that has moved past its beginning was there one step before. */
  lemma BegunOrBefore(s: State, a: Action, s': State, t: nat)
    requires Next(s, a, s') && t < |s'.threads| && !s'.threads[t].pc.Entered?
    ensures t < |s.threads|
  {
  }

  lemma JoinedErrorStep(s: State, a: Action, s': State, t: nat)
    requires Inv(s) && Next(s, a, s') && t < |s.threads| && !s.threads[t].pc.Returned?
    requires s'.threads[t].pc.Returned? && s'.threads[t].pc.reply.RefusedTwice?
    ensures StatementOf(a, t) && s.threads[t].pc.ChargeFailed? && !a.fault.NoFault?
  {
    assert ThreadOk(s, s.threads[t]);
  }

  /** Pay joins two errors only when the very statement that should reset the order failed. */
  lemma JoinedErrorsNeedFault(r: Run, n: nat, t: nat) returns (j: nat)
    requires IsRun(r) && n <= |r.actions| && t < |r.states[n].threads|
    requires r.states[n].threads[t].pc.Returned? && r.states[n].threads[t].pc.reply.RefusedTwice?
    ensures j < n && StatementOf(r.actions[j], t) && !r.actions[j].fault.NoFault?
    ensures t < |r.states[j].threads| && r.states[j].threads[t].pc.ChargeFailed?
  {
    j := AnsweredAt(r, n, t);
    InvAlongRun(r, j);
    RunStep(r, j);
    JoinedErrorStep(r.states[j], r.actions[j], r.states[j + 1], t);
  }

  /**
   FinishPayment and ResetPayment never miss: unless the statement itself fails, the finishing call
   succeeds and the resetting call puts the order back, whatever the other calls did. So no call ever
   reads after a missed Finish or Reset, and no call ever joins two errors if no statement fails.
   */
  lemma OwnerWins(r: Run, n: nat, t: nat)
    requires IsRun(r) && n <= |r.actions| && t < |r.states[n].threads|
    ensures !r.states[n].threads[t].pc.FinishMissed? && !r.states[n].threads[t].pc.ResetMissed?
    ensures FaultFree(r) && r.states[n].threads[t].pc.Returned? ==> !r.states[n].threads[t].pc.reply.RefusedTwice?
    ensures r.states[n].threads[t].pc.Returned? && r.states[n].threads[t].pc.reply.RefusedTwice? ==>
      r.states[n].threads[t].pc.reply == RefusedTwice(ChargeError, RepositoryError) && r.states[0].backend.Postgres?
    ensures Owner(r.states[n].threads[t]) && r.states[n].threads[t].pc.Charged? ==>
      var s := r.states[n];
      var s' := RepositoryStep(s, t, NoFault);
      var id := s.threads[t].call.order;
      && s'.threads[t].pc == Returned(PaySucceeded(s.threads[t].pc.transaction))
      && id in s.store && s'.store == s.store[id := OrderRow(Paid,
           Some(s.threads[t].pc.transaction), Some(s.threads[t].call.payMethod), s.store[id].createdAt)]
    ensures r.states[n].threads[t].pc.ChargeFailed? ==>
      var s := r.states[n];
      var s' := RepositoryStep(s, t, NoFault);
      var id := s.threads[t].call.order;
      && s'.threads[t].pc == Returned(Refused(ChargeError))
      && id in s.store && s'.store == s.store[id := OrderRow(PendingPayment, None, None, s.store[id].createdAt)]
  {
    InvAlongRun(r, n);
    BackendFixed(r, n);
    assert ThreadOk(r.states[n], r.states[n].threads[t]);
    if r.states[n].threads[t].call.order in r.states[n].store {
      var id := r.states[n].threads[t].call.order;
      assert RowOk(r.states[n].ledger, id, r.states[n].store[id]);
    }
    if FaultFree(r) && r.states[n].threads[t].pc.Returned? && r.states[n].threads[t].pc.reply.RefusedTwice? {
      var j := JoinedErrorsNeedFault(r, n, t);
      assert false;
    }
  }

  // ----- What the first statement of a call does -----

  /**
   The first statement of a call on a pending order starts the payment or cancels the order, and
   changes no other column and no other order; on any other order it changes nothing.
   */
  lemma FirstStatementEffect(r: Run, n: nat, t: nat)
    requires IsRun(r) && n < |r.actions| && r.actions[n] == Repository(t, NoFault)
    requires t < |r.states[n].threads| && r.states[n].threads[t].pc.Entered?
    requires r.states[n].threads[t].call.Pay? ==> IsValidPaymentMethod(r.states[n].threads[t].call.payMethod)
    ensures t < |r.states[n + 1].threads|
    ensures var s, s', call := r.states[n], r.states[n + 1], r.states[n].threads[t].call;
      if call.order in s.store && s.store[call.order].status == PendingPayment then
        && s'.threads[t].pc == (if call.Pay? then Charging else Returned(CancelSucceeded))
        && s'.store == s.store[call.order := OrderRow(
             if call.Pay? then PaymentProcessing else Cancelled, None, None, s.store[call.order].createdAt)]
      else s'.store == s.store
  {
    InvAlongRun(r, n);
    RunStep(r, n);
    var s, id := r.states[n], r.states[n].threads[t].call.order;
    if id in s.store {
      assert RowOk(s.ledger, id, s.store[id]);
    }
  }

  /**
   A failing statement is answered with the repository's error, joined with that of the charge after one
   failed; it changes the orders not at all, or just as if it had not failed.
   */
  lemma FailedStatementAnswered(r: Run, n: nat, t: nat)
    requires IsRun(r) && n < |r.actions| && StatementOf(r.actions[n], t) && !r.actions[n].fault.NoFault?
    requires t < |r.states[n].threads| && !Unacceptable(r.states[n].threads[t].call)
    ensures var s, s' := r.states[n], r.states[n + 1];
      && t < |s'.threads|
      && s'.threads[t].pc == Returned(
           if s.threads[t].pc.ChargeFailed? then RefusedTwice(ChargeError, RepositoryError)
           else Refused(RepositoryError))
      && s'.ledger == s.ledger
      && RepositoryEnabled(s, t, NoFault)
      && s'.store == if r.actions[n].fault.FailsBefore? then s.store else RepositoryStep(s, t, NoFault).store
  {
    InvAlongRun(r, n);
    RunStep(r, n);
    assert ThreadOk(r.states[n], r.states[n].threads[t]);
  }

  lemma CreatedAtStep(s: State, a: Action, s': State, id: Uuid)
    requires Next(s, a, s') && id in s.store
    ensures id in s'.store && s'.store[id].createdAt == s.store[id].createdAt
  {
  }

  /** Whatever happens to an order, its creation time stays. */
  lemma {:induction false} CreatedAtForever(r: Run, i: nat, j: nat, id: Uuid)
    requires IsRun(r) && i <= j <= |r.actions| && id in r.states[i].store
    ensures id in r.states[j].store && r.states[j].store[id].createdAt == r.states[i].store[id].createdAt
  {
    if i < j {
      CreatedAtForever(r, i, j - 1, id);
      var s, a, s' := r.states[j - 1], r.actions[j - 1], r.states[j];
      assert Next(s, a, s') by { RunStep(r, j - 1); }
      CreatedAtStep(s, a, s', id);
    }
  }

  // ----- Invalid methods -----

  predicate Unacceptable(call: Call) {
    call.Pay? && !IsValidPaymentMethod(call.payMethod)
  }

  /** A call with an unacceptable method goes nowhere but to its refusal, and no other call gets that refusal. */
  predicate MethodChecked(th: Thread) {
    match th.pc
    case Entered => true
    case Returned(reply) => reply == Refused(InvalidPaymentMethod) <==> Unacceptable(th.call)
    case _ => !Unacceptable(th.call)
  }

  lemma MethodCheckedStep(s: State, a: Action, s': State, t: nat)
    requires Inv(s) && Next(s, a, s') && t < |s.threads| && MethodChecked(s.threads[t])
    ensures t < |s'.threads| && MethodChecked(s'.threads[t])
    ensures Unacceptable(s.threads[t].call) && StatementOf(a, t) ==> s'.store == s.store && s'.ledger == s.ledger
  {
    assert ThreadOk(s, s.threads[t]);
    if a.Repository? {
      StatementMovesOne(s, a.thread, a.fault);
    }
  }

  lemma {:induction false} MethodCheckedAlongRun(r: Run, n: nat, t: nat)
    requires IsRun(r) && n <= |r.actions| && t < |r.states[n].threads|
    ensures MethodChecked(r.states[n].threads[t])
  {
    if n > 0 {
      if t < |r.states[n - 1].threads| {
        MethodCheckedAlongRun(r, n - 1, t);
      }
      MethodCheckedNext(r, n - 1, t);
    }
  }

  lemma MethodCheckedNext(r: Run, k: nat, t: nat)
    requires IsRun(r) && k < |r.actions| && t < |r.states[k + 1].threads|
    requires t < |r.states[k].threads| ==> MethodChecked(r.states[k].threads[t])
    ensures MethodChecked(r.states[k + 1].threads[t])
  {
    var s, a, s' := r.states[k], r.actions[k], r.states[k + 1];
    assert Next(s, a, s') by { RunStep(r, k); }
    if !s'.threads[t].pc.Entered? {
      BegunOrBefore(s, a, s', t);
      InvAlongRun(r, k);
      MethodCheckedStep(s, a, s', t);
    }
  }

  /**
   A call is answered "invalid payment method" exactly if it is a Pay whose method has none of the four
   texts, and no statement of such a Pay changes an order or the ledger.
   */
  lemma InvalidMethodRefused(r: Run, n: nat, t: nat)
    requires IsRun(r) && n <= |r.actions| && t < |r.states[n].threads|
    ensures var th := r.states[n].threads[t];
      var invalid := th.call.Pay? && MethodText(th.call.payMethod) !in {"CARD", "SBP", "CREDIT_CARD", "INVESTOR_MONEY"};
      && (th.pc.Returned? ==> (th.pc.reply == Refused(InvalidPaymentMethod) <==> invalid))
      && (invalid ==> th.pc.Entered? || th.pc.Returned?)
      && (invalid && n < |r.actions| && StatementOf(r.actions[n], t) ==>
           r.states[n + 1].store == r.states[n].store && r.states[n + 1].ledger == r.states[n].ledger)
  {
    MethodCheckedAlongRun(r, n, t);
    if r.states[n].threads[t].call.Pay? {
      TranslationKeepsMethod(r.states[n].threads[t].call.payMethod);
    }
    if n < |r.actions| {
      InvAlongRun(r, n);
      RunStep(r, n);
      MethodCheckedStep(r.states[n], r.actions[n], r.states[n + 1], t);
    }
  }

  // ----- Agreement between the order store and the ledger -----

  /** An order has a transaction iff it has a method iff it is paid, and then the ledger holds that very payment. */
  lemma CrossServiceAgreement(r: Run, n: nat, id: Uuid)
    requires IsRun(r) && n <= |r.actions| && id in r.states[n].store
    ensures var row := r.states[n].store[id];
      && (row.transaction.Some? <==> row.status == Paid)
      && (row.paymentMethod.Some? <==> row.status == Paid)
      && (row.status == Paid ==>
        && row.transaction.value in r.states[n].ledger
        && r.states[n].ledger[row.transaction.value].transaction == row.transaction.value
        && r.states[n].ledger[row.transaction.value].order == id
        && LedgerText(r.states[n].ledger[row.transaction.value].paymentMethod) == MethodText(row.paymentMethod.value))
  {
    InvAlongRun(r, n);
    assert RowOk(r.states[n].ledger, id, r.states[n].store[id]);
    if r.states[n].store[id].status == Paid {
      TranslationKeepsMethod(r.states[n].store[id].paymentMethod.value);
    }
  }

  // ----- Final states stay final -----

  lemma FinalStep(s: State, a: Action, s': State, id: Uuid)
    requires Next(s, a, s') && id in s.store
    ensures id in s'.store
    ensures Final(s.store, id) ==> s'.store[id] == s.store[id]
  {
  }

  /** PAID and CANCELLED are never left, and a finished row never changes again. */
  lemma {:induction false} FinalForever(r: Run, i: nat, j: nat, id: Uuid)
    requires IsRun(r) && i <= j <= |r.actions| && id in r.states[i].store
    ensures id in r.states[j].store
    ensures Final(r.states[i].store, id) ==> r.states[j].store[id] == r.states[i].store[id]
  {
    if i < j {
      FinalForever(r, i, j - 1, id);
      RunStep(r, j - 1);
      FinalStep(r.states[j - 1], r.actions[j - 1], r.states[j], id);
    }
  }

  /** A repository statement moves only its own call, which had not returned. */
  lemma StatementMovesOne(s: State, u: nat, f: Fault)
    requires RepositoryEnabled(s, u, f)
    ensures var s' := RepositoryStep(s, u, f);
      && |s'.threads| == |s.threads|
      && s'.threads == s.threads[u := s'.threads[u]]
      && s'.threads[u].call == s.threads[u].call
      && !s.threads[u].pc.Returned?
  {
  }

  lemma ReturnedStep(s: State, a: Action, s': State, t: nat)
    requires Next(s, a, s') && t < |s.threads|
    ensures t < |s'.threads| && s'.threads[t].call == s.threads[t].call
    ensures s.threads[t].pc.Returned? ==> s'.threads[t] == s.threads[t]
  {
    if a.Repository? {
      StatementMovesOne(s, a.thread, a.fault);
    }
  }

  lemma {:induction false} ReturnedForever(r: Run, i: nat, j: nat, t: nat)
    requires IsRun(r) && i <= j <= |r.actions| && t < |r.states[i].threads|
    ensures t < |r.states[j].threads| && r.states[j].threads[t].call == r.states[i].threads[t].call
    ensures r.states[i].threads[t].pc.Returned? ==> r.states[j].threads[t] == r.states[i].threads[t]
  {
    if i < j {
      ReturnedForever(r, i, j - 1, t);
      var s, a, s' := r.states[j - 1], r.actions[j - 1], r.states[j];
      assert Next(s, a, s') by { RunStep(r, j - 1); }
      ReturnedStep(s, a, s', t);
    }
  }

  /** Once Pay has returned a transaction, every later read of the order shows PAID with it and its method. */
  lemma SuccessIsVisibleForever(r: Run, i: nat, j: nat, t: nat)
    requires IsRun(r) && i <= j <= |r.actions|
    requires t < |r.states[i].threads| && Succeeded(r.states[i].threads[t])
    ensures PaidWith(r.states[j].store, r.states[i].threads[t].call.order,
      r.states[i].threads[t].pc.reply.transaction, r.states[i].threads[t].call.payMethod)
  {
    ReturnedForever(r, i, j, t);
    InvAlongRun(r, j);
    assert ThreadOk(r.states[j], r.states[j].threads[t]);
  }

  /** Over a whole run at most one Pay of an order succeeds. */
  lemma OneSuccessPerOrder(r: Run, i: nat, t: nat, j: nat, u: nat)
    requires IsRun(r) && i <= |r.actions| && j <= |r.actions|
    requires t < |r.states[i].threads| && Succeeded(r.states[i].threads[t])
    requires u < |r.states[j].threads| && Succeeded(r.states[j].threads[u])
    requires r.states[i].threads[t].call.order == r.states[j].threads[u].call.order
    ensures t == u
  {
    var k := if i <= j then j else i;
    ReturnedForever(r, i, k, t);
    ReturnedForever(r, j, k, u);
    InvAlongRun(r, k);
  }

  /** A call that was told "already paid" or "cancelled" was told the truth, and it stays true. */
  lemma RefusalsStayTrue(r: Run, i: nat, j: nat, t: nat)
    requires IsRun(r) && i <= j <= |r.actions| && t < |r.states[i].threads|
    ensures r.states[i].threads[t].pc == Returned(Refused(OrderAlreadyPaid)) ==>
      Guard(r.states[j].store, r.states[i].threads[t].call.order, Paid)
    ensures r.states[i].threads[t].pc == Returned(Refused(OrderCancelled)) ==>
      Guard(r.states[j].store, r.states[i].threads[t].call.order, Cancelled)
  {
    ReturnedForever(r, i, j, t);
    InvAlongRun(r, j);
    assert ThreadOk(r.states[j], r.states[j].threads[t]);
  }
}
