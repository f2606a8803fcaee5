/** What an observer of the public API can see of the payment protocol. */
module PublicView {
  import opened Domain
  import opened OrderDtos
  import opened OrderStore
  import opened PaymentLedger
  import opened PaymentProtocol
  import opened PaymentInvariant
  import opened PaymentSafety

  type PublicStore = map<Uuid, string>

  ghost function View(store: Store): PublicStore {
    map id | id in store :: OrderStatusToDto(store[id].status)
  }

  ghost predicate Appears(p: PublicStore, p': PublicStore, id: Uuid) {
    id !in p && p' == p[id := "PENDING_PAYMENT"]
  }

  ghost predicate Settles(p: PublicStore, p': PublicStore, id: Uuid) {
    id in p && p[id] == "PENDING_PAYMENT" && (p' == p[id := "PAID"] || p' == p[id := "CANCELLED"])
  }

  /** The public machine: an order appears pending, and a pending order is paid or cancelled for good. */
  ghost predicate PublicNext(p: PublicStore, p': PublicStore) {
    (exists id :: Appears(p, p', id)) || (exists id :: Settles(p, p', id))
  }

  lemma StoreChangeIsPublic(store: Store, id: Uuid, row: OrderRow)
    requires id in store
    requires OrderStatusToDto(row.status) == OrderStatusToDto(store[id].status)
      || (OrderStatusToDto(store[id].status) == "PENDING_PAYMENT" && (row.status.Paid? || row.status.Cancelled?))
    ensures var p, p' := View(store), View(store[id := row]); p' == p || PublicNext(p, p')
  {
    var p, p' := View(store), View(store[id := row]);
    assert p' == p[id := OrderStatusToDto(row.status)];
    if OrderStatusToDto(row.status) != OrderStatusToDto(store[id].status) {
      assert Settles(p, p', id);
    }
  }

  lemma StatementIsPublic(s: State, t: nat, f: Fault)
    requires RepositoryEnabled(s, t, f)
    ensures var p, p' := View(s.store), View(RepositoryStep(s, t, f).store); p' == p || PublicNext(p, p')
  {
    var s' := RepositoryStep(s, t, f);
    var id := s.threads[t].call.order;
    if s'.store != s.store {
      assert id in s.store && s'.store == s.store[id := s'.store[id]];
      StoreChangeIsPublic(s.store, id, s'.store[id]);
    }
  }

  lemma ViewShows(store: Store)
    ensures forall id :: id in store ==>
      && (View(store)[id] == "PAID" <==> store[id].status == Paid)
      && (View(store)[id] == "CANCELLED" <==> store[id].status == Cancelled)
  {
    forall id | id in store ensures View(store)[id] == "PAID" <==> store[id].status == Paid
      ensures View(store)[id] == "CANCELLED" <==> store[id].status == Cancelled
    {
      StatusShown(store[id].status);
    }
  }

  lemma StepIsPublic(s: State, a: Action, s': State)
    requires Next(s, a, s')
    ensures View(s'.store) == View(s.store) || PublicNext(View(s.store), View(s'.store))
  {
    match a
    case CreateOrder(id, at) =>
      assert View(s'.store) == View(s.store)[id := "PENDING_PAYMENT"];
      assert Appears(View(s.store), View(s'.store), id);
    case Begin(_) =>
    case Repository(t, f) => StatementIsPublic(s, t, f);
    case Charge(_, _) =>
    case CommitLate(_, _) =>
  }

  /**
   Every step of the internal four-state machine is a step of the public machine or invisible, and the
   public one shows PAID and CANCELLED exactly for the orders that are.
   */
  lemma PublicRefinement(s: State, a: Action, s': State)
    requires Next(s, a, s')
    ensures View(s'.store) == View(s.store) || PublicNext(View(s.store), View(s'.store))
    ensures forall id :: id in s'.store ==>
      && (View(s'.store)[id] == "PAID" <==> s'.store[id].status == Paid)
      && (View(s'.store)[id] == "CANCELLED" <==> s'.store[id].status == Cancelled)
  {
    StepIsPublic(s, a, s');
    ViewShows(s'.store);
  }

  lemma PublicNextKeepsSettled(p: PublicStore, p': PublicStore, id: Uuid)
    requires (p' == p || PublicNext(p, p')) && id in p && IsPublicStatus(p[id])
    ensures id in p' && IsPublicStatus(p'[id])
    ensures p[id] != "PENDING_PAYMENT" ==> p'[id] == p[id]
  {
  }

  /** In any run no observer ever sees a public status go back or change twice. */
  lemma {:induction false} PublicStatusNeverGoesBack(r: Run, i: nat, j: nat, id: Uuid)
    requires IsRun(r) && i <= j <= |r.actions| && id in View(r.states[i].store)
    ensures id in View(r.states[j].store)
    ensures IsPublicStatus(View(r.states[j].store)[id])
    ensures View(r.states[i].store)[id] != "PENDING_PAYMENT" ==>
      View(r.states[j].store)[id] == View(r.states[i].store)[id]
  {
    if i < j {
      PublicStatusNeverGoesBack(r, i, j - 1, id);
      var s, a, s' := r.states[j - 1], r.actions[j - 1], r.states[j];
      assert Next(s, a, s') by { RunStep(r, j - 1); }
      PublicRefinement(s, a, s');
      PublicNextKeepsSettled(View(s.store), View(s'.store), id);
    }
  }

  /** The order as a reader finds it in the store, whatever its parts are. */
  ghost predicate ReadFrom(store: Store, order: Order) {
    && order.orderUuid in store
    && store[order.orderUuid] == OrderRow(order.status, order.transaction, order.paymentMethod, order.createdAt)
  }

  /**
   Every order of every reachable state converts to an object that passes validation and shows the
   status that its row has, with PAYMENT_PROCESSING as pending.
   */
  lemma ReachableOrdersValidate(r: Run, n: nat, order: Order)
    requires IsRun(r) && n <= |r.actions| && ReadFrom(r.states[n].store, order)
    ensures OrderToDto(order).status == "PAID" <==> order.status == Paid
    ensures OrderToDto(order).status == "CANCELLED" <==> order.status == Cancelled
    ensures OrderToDto(order).status == "PENDING_PAYMENT" <==>
      order.status == PendingPayment || order.status == PaymentProcessing
    ensures ValidDto(OrderToDto(order))
    ensures OrderToDto(order).status == "PAID" <==> OrderToDto(order).transaction.Get().Some?
    ensures OrderToDto(order).status == "PAID" <==> OrderToDto(order).paymentMethod.Get().Some?
  {
    InvAlongRun(r, n);
    assert RowOk(r.states[n].ledger, order.orderUuid, r.states[n].store[order.orderUuid]);
    ConvertedOrderIsValid(order);
    StatusShown(order.status);
  }

  /** Once Cancel has succeeded, every later read of the order shows CANCELLED and no payment. */
  lemma CancellationShownForever(r: Run, i: nat, j: nat, t: nat, order: Order)
    requires IsRun(r) && i <= j <= |r.actions| && t < |r.states[i].threads|
    requires r.states[i].threads[t].pc == Returned(CancelSucceeded)
    requires order.orderUuid == r.states[i].threads[t].call.order
    ensures order.orderUuid in r.states[j].store
    ensures ReadFrom(r.states[j].store, order) ==>
      && OrderToDto(order).status == "CANCELLED"
      && OrderToDto(order).transaction == OptNil(NIL_UUID, false, false)
      && OrderToDto(order).paymentMethod == OptNil("", false, false)
  {
    ReturnedForever(r, i, j, t);
    InvAlongRun(r, j);
    assert ThreadOk(r.states[j], r.states[j].threads[t]);
    assert RowOk(r.states[j].ledger, order.orderUuid, r.states[j].store[order.orderUuid]);
    StatusShown(order.status);
  }

  /**
   Once a Pay that a client asked for with the method `text` has succeeded, the ledger holds its
   transaction under that very text, and every later read of the order shows PAID, the transaction and
   that text.
   */
  lemma PaymentShownForever(r: Run, i: nat, j: nat, t: nat, text: string, order: Order)
    requires IsRun(r) && i <= j <= |r.actions| && t < |r.states[i].threads| && Succeeded(r.states[i].threads[t])
    requires r.states[i].threads[t].call == Pay(order.orderUuid, PaymentMethodFromDto(text))
    ensures var tx := r.states[i].threads[t].pc.reply.transaction;
      && order.orderUuid in r.states[j].store
      && tx in r.states[j].ledger && r.states[j].ledger[tx].order == order.orderUuid
      && LedgerText(r.states[j].ledger[tx].paymentMethod) == text
      && (ReadFrom(r.states[j].store, order) ==>
           && OrderToDto(order).status == "PAID"
           && OrderToDto(order).transaction == OptNil(tx, true, false)
           && OrderToDto(order).paymentMethod == OptNil(text, true, false))
  {
    SuccessIsVisibleForever(r, i, j, t);
    CrossServiceAgreement(r, j, order.orderUuid);
    InvAlongRun(r, j);
    assert RowOk(r.states[j].ledger, order.orderUuid, r.states[j].store[order.orderUuid]);
    MethodRoundTrip(PaymentMethodFromDto(text), text);
    StatusShown(Paid);
  }
}
