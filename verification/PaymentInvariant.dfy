/** The invariant over all calls that replaces the missing ownership token, and its preservation. */
module PaymentInvariant {
  import opened Domain
  import opened OrderStore
  import opened PaymentLedger
  import opened PaymentProtocol

  /** A call between a successful StartPayment and its FinishPayment or ResetPayment. */
  predicate Owner(th: Thread) {
    th.call.Pay? && (th.pc.Charging? || th.pc.ChargeFailed? || th.pc.Charged?)
  }

  predicate Succeeded(th: Thread) {
    th.call.Pay? && th.pc.Returned? && th.pc.reply.PaySucceeded?
  }

  /** The order carries exactly the given payment. */
  predicate PaidWith(store: Store, id: Uuid, tx: Uuid, m: PaymentMethod) {
    Guard(store, id, Paid) && store[id].transaction == Some(tx) && store[id].paymentMethod == Some(m)
  }

  /** The ledger holds exactly the given charge, in PaymentService's terms. */
  predicate Booked(ledger: Ledger, tx: Uuid, id: Uuid, m: PaymentMethod) {
    tx in ledger && ledger[tx] == Payment(tx, id, Translate(m)) && IsValidPaymentMethod(m)
  }

  predicate Final(store: Store, id: Uuid) {
    Guard(store, id, Paid) || Guard(store, id, Cancelled)
  }

  /** Whoever was told that an order is paid or cancelled can rely on it. */
  predicate Truthful(store: Store, id: Uuid, e: Error) {
    (e.OrderAlreadyPaid? ==> Guard(store, id, Paid)) && (e.OrderCancelled? ==> Guard(store, id, Cancelled))
  }

  ghost predicate ThreadOk(s: State, th: Thread) {
    match th.pc
    case Entered => true
    case StartMissed => th.call.Pay? && s.backend.Postgres?
    case CancelMissed => th.call.Cancel? && s.backend.Postgres?
    case FinishMissed => false
    case ResetMissed(_) => false
    case Charging =>
      th.call.Pay? && IsValidPaymentMethod(th.call.payMethod) && Guard(s.store, th.call.order, PaymentProcessing)
    case ChargeFailed(cause) =>
      th.call.Pay? && cause == ChargeError && Guard(s.store, th.call.order, PaymentProcessing)
    case Charged(tx) =>
      && th.call.Pay?
      && Booked(s.ledger, tx, th.call.order, th.call.payMethod)
      && Guard(s.store, th.call.order, PaymentProcessing)
    case Returned(reply) =>
      (match reply
       case PaySucceeded(tx) => th.call.Pay? && PaidWith(s.store, th.call.order, tx, th.call.payMethod)
       case CancelSucceeded => th.call.Cancel? && Guard(s.store, th.call.order, Cancelled)
       case Refused(e) => Truthful(s.store, th.call.order, e)
       case RefusedTwice(charge, reset) =>
         s.backend.Postgres? && charge == ChargeError && reset == RepositoryError)
  }

  ghost predicate ThreadsOk(s: State) {
    forall t :: 0 <= t < |s.threads| ==> ThreadOk(s, s.threads[t])
  }

  /** At most one call per order holds a started payment, and at most one has succeeded. */
  ghost predicate Exclusive(s: State) {
    forall t, u :: 0 <= t < |s.threads| && 0 <= u < |s.threads|
      && s.threads[t].call.order == s.threads[u].call.order
      && ((Owner(s.threads[t]) && Owner(s.threads[u])) || (Succeeded(s.threads[t]) && Succeeded(s.threads[u])))
      ==> t == u
  }

  ghost predicate RowOk(ledger: Ledger, id: Uuid, row: OrderRow) {
    && id != NIL_UUID
    && !row.status.OtherStatus?
    && (row.transaction.Some? <==> row.status == Paid)
    && (row.paymentMethod.Some? <==> row.status == Paid)
    && (row.status == Paid ==> Booked(ledger, row.transaction.value, id, row.paymentMethod.value))
  }

  ghost predicate RowsOk(s: State) {
    forall id :: id in s.store ==> RowOk(s.ledger, id, s.store[id])
  }

  ghost predicate LedgerOk(s: State) {
    forall tx :: tx in s.ledger ==> s.ledger[tx].transaction == tx && s.ledger[tx].order in s.store
  }

  ghost predicate LateOk(s: State) {
    forall t :: t in s.late ==>
      t < |s.threads| && s.threads[t].call.Pay? && IsValidPaymentMethod(s.threads[t].call.payMethod)
      && s.threads[t].call.order in s.store
  }

  ghost predicate Inv(s: State) {
    ThreadsOk(s) && Exclusive(s) && RowsOk(s) && LedgerOk(s) && LateOk(s)
  }

  // ----- Three small changes that every step is made of -----

  /** One call moves on, to a place that is true of it and that it shares with no rival. */
  lemma MoveKeepsInv(s: State, t: nat, pc: Pc)
    requires Inv(s) && t < |s.threads|
    requires ThreadOk(s, s.threads[t].(pc := pc))
    requires Owner(s.threads[t].(pc := pc)) ==> NoOtherOwner(s, t)
    requires Succeeded(s.threads[t].(pc := pc)) ==> NoSuccess(s, s.threads[t].call.order)
    ensures Inv(At(s, t, pc))
  {
  }

  ghost predicate NoOtherOwner(s: State, t: nat)
    requires t < |s.threads|
  {
    forall u :: 0 <= u < |s.threads| && u != t && Owner(s.threads[u]) ==>
      s.threads[u].call.order != s.threads[t].call.order
  }

  ghost predicate NoOwner(s: State, id: Uuid) {
    forall u :: 0 <= u < |s.threads| && Owner(s.threads[u]) ==> s.threads[u].call.order != id
  }

  ghost predicate NoSuccess(s: State, id: Uuid) {
    forall u :: 0 <= u < |s.threads| && Succeeded(s.threads[u]) ==> s.threads[u].call.order != id
  }

  /** The row of an order that nobody owns and nobody was told to be final changes. */
  lemma RowKeepsInv(s: State, id: Uuid, row: OrderRow)
    requires Inv(s) && id in s.store && !Final(s.store, id) && NoOwner(s, id) && RowOk(s.ledger, id, row)
    ensures Inv(s.(store := s.store[id := row])) && NoOwner(s.(store := s.store[id := row]), id)
    ensures NoSuccess(s.(store := s.store[id := row]), id)
  {
  }

  lemma NoOwnerUnlessProcessing(s: State, id: Uuid)
    requires Inv(s) && !Guard(s.store, id, PaymentProcessing)
    ensures NoOwner(s, id)
  {
  }

  lemma RefusalKeepsInv(s: State, t: nat, e: Error)
    requires Inv(s) && t < |s.threads| && Truthful(s.store, s.threads[t].call.order, e)
    ensures Inv(Replied(s, t, Refused(e)))
  {
  }

  // ----- The steps -----

  lemma MissKeepsInv(s: State, t: nat, pc: Pc)
    requires Inv(s) && t < |s.threads|
    requires (pc.StartMissed? && s.threads[t].call.Pay?) || (pc.CancelMissed? && s.threads[t].call.Cancel?)
    ensures Inv(Missed(s, t, pc))
  {
    if s.backend.InMemory? {
      RefusalKeepsInv(s, t, MissError(s.store, s.threads[t].call.order));
    } else {
      MoveKeepsInv(s, t, pc);
    }
  }

  lemma PayEntersKeepsInv(s: State, t: nat, f: Fault)
    requires Inv(s) && t < |s.threads| && s.threads[t].call.Pay?
    ensures Inv(Enter(s, t, f))
  {
    var id := s.threads[t].call.order;
    RefusalKeepsInv(s, t, InvalidPaymentMethod);
    RefusalKeepsInv(s, t, RepositoryError);
    if Guard(s.store, id, PendingPayment) {
      var s1 := s.(store := StartUpdate(s.store, id));
      NoOwnerUnlessProcessing(s, id);
      assert RowOk(s.ledger, id, s.store[id]);
      RowKeepsInv(s, id, s.store[id].(status := PaymentProcessing));
      RefusalKeepsInv(s1, t, RepositoryError);
      if IsValidPaymentMethod(s.threads[t].call.payMethod) {
        MoveKeepsInv(s1, t, Charging);
      }
    } else {
      MissKeepsInv(s, t, StartMissed);
    }
  }

  lemma CancelEntersKeepsInv(s: State, t: nat, f: Fault)
    requires Inv(s) && t < |s.threads| && s.threads[t].call.Cancel?
    ensures Inv(Enter(s, t, f))
  {
    var id := s.threads[t].call.order;
    RefusalKeepsInv(s, t, RepositoryError);
    if Guard(s.store, id, PendingPayment) {
      var s1 := s.(store := CancelUpdate(s.store, id));
      NoOwnerUnlessProcessing(s, id);
      assert RowOk(s.ledger, id, s.store[id]);
      RowKeepsInv(s, id, s.store[id].(status := Cancelled));
      RefusalKeepsInv(s1, t, RepositoryError);
      MoveKeepsInv(s1, t, Returned(CancelSucceeded));
    } else {
      MissKeepsInv(s, t, CancelMissed);
    }
  }

  /** The owner steps back before its last update: then nobody owns the order and its row may change. */
  lemma OwnerUpdates(s: State, t: nat, row: OrderRow, pc: Pc)
    requires Inv(s) && t < |s.threads| && Owner(s.threads[t]) && pc.Returned?
    requires s.threads[t].call.order in s.store && RowOk(s.ledger, s.threads[t].call.order, row)
    requires ThreadOk(s.(store := s.store[s.threads[t].call.order := row]), s.threads[t].(pc := pc))
    ensures Inv(At(s.(store := s.store[s.threads[t].call.order := row]), t, pc))
  {
    var id := s.threads[t].call.order;
    assert ThreadOk(s, s.threads[t]);
    var gone := Replied(s, t, Refused(RepositoryError));
    RefusalKeepsInv(s, t, RepositoryError);
    assert NoOwner(gone, id);
    RowKeepsInv(gone, id, row);
    var changed := gone.(store := s.store[id := row]);
    MoveKeepsInv(changed, t, pc);
    assert changed.threads[t := changed.threads[t].(pc := pc)] == s.threads[t := s.threads[t].(pc := pc)];
    assert At(changed, t, pc) == At(s.(store := s.store[id := row]), t, pc);
  }

  lemma FinishKeepsInv(s: State, t: nat, f: Fault)
    requires Inv(s) && t < |s.threads| && Owner(s.threads[t]) && s.threads[t].pc.Charged?
    ensures Inv(Finish(s, t, s.threads[t].pc.transaction, f))
  {
    var id, tx := s.threads[t].call.order, s.threads[t].pc.transaction;
    assert ThreadOk(s, s.threads[t]);
    assert RowOk(s.ledger, id, s.store[id]);
    RefusalKeepsInv(s, t, RepositoryError);
    var m := s.threads[t].call.payMethod;
    var row := s.store[id].(status := Paid, transaction := Some(tx), paymentMethod := Some(m));
    OwnerUpdates(s, t, row, Returned(Refused(RepositoryError)));
    OwnerUpdates(s, t, row, Returned(PaySucceeded(tx)));
  }

  lemma ResetKeepsInv(s: State, t: nat, f: Fault)
    requires Inv(s) && t < |s.threads| && s.threads[t].pc.ChargeFailed?
    requires s.backend.InMemory? ==> f.NoFault?
    ensures Inv(Reset(s, t, s.threads[t].pc.cause, f))
  {
    var id, cause := s.threads[t].call.order, s.threads[t].pc.cause;
    assert ThreadOk(s, s.threads[t]);
    assert RowOk(s.ledger, id, s.store[id]);
    var row := s.store[id].(status := PendingPayment);
    if !f.NoFault? {
      MoveKeepsInv(s, t, Returned(RefusedTwice(cause, RepositoryError)));
      OwnerUpdates(s, t, row, Returned(RefusedTwice(cause, RepositoryError)));
    }
    OwnerUpdates(s, t, row, Returned(Refused(cause)));
  }

  lemma OwnerAlone(s: State, t: nat)
    requires Inv(s) && t < |s.threads| && Owner(s.threads[t])
    ensures NoOtherOwner(s, t)
  {
  }

  /** The request of a valid Pay is always accepted, and books one row for its order. */
  lemma RequestAccepted(s: State, t: nat, tx: Uuid)
    requires Inv(s) && t < |s.threads| && s.threads[t].call.Pay? && IsValidPaymentMethod(s.threads[t].call.payMethod)
    requires s.threads[t].call.order in s.store && tx !in s.ledger
    ensures Request(s, t, tx)
      == Ok(s.ledger[tx := Payment(tx, s.threads[t].call.order, Translate(s.threads[t].call.payMethod))])
    ensures Inv(s.(ledger := Request(s, t, tx).value))
  {
  }

  lemma ChargeKeepsInv(s: State, t: nat, outcome: ChargeOutcome)
    requires Inv(s) && ChargeEnabled(s, t, outcome)
    ensures Inv(ChargeStep(s, t, outcome))
  {
    assert ThreadOk(s, s.threads[t]);
    OwnerAlone(s, t);
    match outcome
    case Accepted(tx) =>
      RequestAccepted(s, t, tx);
      MoveKeepsInv(s.(ledger := Request(s, t, tx).value), t, Charged(tx));
    case CommittedButReportedFailed(tx) =>
      RequestAccepted(s, t, tx);
      MoveKeepsInv(s.(ledger := Request(s, t, tx).value), t, ChargeFailed(ChargeError));
    case NotCommitted => MoveKeepsInv(s, t, ChargeFailed(ChargeError));
    case StillRunning =>
      MoveKeepsInv(s, t, ChargeFailed(ChargeError));
      LateSetKeepsInv(At(s, t, ChargeFailed(ChargeError)), s.late + {t});
  }

  lemma LateSetKeepsInv(s: State, late: set<nat>)
    requires Inv(s) && LateOk(s.(late := late))
    ensures Inv(s.(late := late))
  {
  }

  lemma LateKeepsInv(s: State, t: nat, tx: Uuid)
    requires Inv(s) && LateEnabled(s, t, tx)
    ensures Inv(LateStep(s, t, tx))
  {
  }

  lemma ReadKeepsInv(s: State, t: nat, f: Fault)
    requires Inv(s) && t < |s.threads|
    ensures Inv(ReadAfterMiss(s, t, f))
  {
  }

  lemma RepositoryKeepsInv(s: State, t: nat, f: Fault)
    requires Inv(s) && RepositoryEnabled(s, t, f)
    ensures Inv(RepositoryStep(s, t, f))
  {
    assert ThreadOk(s, s.threads[t]);
    match s.threads[t].pc
    case Entered =>
      if s.threads[t].call.Pay? {
        PayEntersKeepsInv(s, t, f);
      } else {
        CancelEntersKeepsInv(s, t, f);
      }
    case Charged(_) => FinishKeepsInv(s, t, f);
    case ChargeFailed(_) => ResetKeepsInv(s, t, f);
    case StartMissed => ReadKeepsInv(s, t, f);
    case CancelMissed => ReadKeepsInv(s, t, f);
  }

  lemma BeginKeepsInv(s: State, call: Call)
    requires Inv(s)
    ensures Inv(s.(threads := s.threads + [Thread(call, Entered)]))
  {
  }

  lemma CreateKeepsInv(s: State, id: Uuid, at: Time)
    requires Inv(s) && id != NIL_UUID && id !in s.store
    ensures Inv(s.(store := s.store[id := NewRow(at)]))
  {
  }

  /** Every step of every call keeps the invariant. */
  lemma NextKeepsInv(s: State, a: Action, s': State)
    requires Inv(s) && Next(s, a, s')
    ensures Inv(s')
  {
    match a
    case CreateOrder(id, at) => CreateKeepsInv(s, id, at);
    case Begin(call) => BeginKeepsInv(s, call);
    case Repository(t, f) => RepositoryKeepsInv(s, t, f);
    case Charge(t, outcome) => ChargeKeepsInv(s, t, outcome);
    case CommitLate(t, tx) => LateKeepsInv(s, t, tx);
  }
}
