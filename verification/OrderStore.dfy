/**
 The rows of the orders table and the four guarded updates on it. A guarded update changes
 the row only when its status is the expected one; both repositories realise exactly these.
 */
module OrderStore {
  import opened Domain

  datatype OrderRow = OrderRow(
    status: OrderStatus,
    transaction: Option<Uuid>,
    paymentMethod: Option<PaymentMethod>,
    createdAt: Time)

  type Store = map<Uuid, OrderRow>

  function NewRow(at: Time): OrderRow {
    OrderRow(PendingPayment, None, None, at)
  }

  /** The WHERE clause of every guarded update. */
  predicate Guard(store: Store, id: Uuid, expected: OrderStatus) {
    id in store && store[id].status == expected
  }

  function StartUpdate(store: Store, id: Uuid): Store {
    if Guard(store, id, PendingPayment)
    then store[id := store[id].(status := PaymentProcessing)]
    else store
  }

  function FinishUpdate(store: Store, id: Uuid, tx: Uuid, m: PaymentMethod): Store {
    if Guard(store, id, PaymentProcessing)
    then store[id := store[id].(status := Paid, transaction := Some(tx), paymentMethod := Some(m))]
    else store
  }

  function ResetUpdate(store: Store, id: Uuid): Store {
    if Guard(store, id, PaymentProcessing)
    then store[id := store[id].(status := PendingPayment)]
    else store
  }

  function CancelUpdate(store: Store, id: Uuid): Store {
    if Guard(store, id, PendingPayment)
    then store[id := store[id].(status := Cancelled)]
    else store
  }

  /** What Pay and Cancel answer from the order they read after an update that changed nothing. */
  function ConflictError(status: OrderStatus): Error {
    match status
    case PaymentProcessing => PaymentInProgress
    case Paid => OrderAlreadyPaid
    case Cancelled => OrderCancelled
    case PendingPayment => OrderNotFound
    case OtherStatus(_) => OrderNotFound
  }

  /** The same answer when the order is read from a store, where it may be absent. */
  function MissError(store: Store, id: Uuid): Error {
    if id in store then ConflictError(store[id].status) else OrderNotFound
  }

  /** The answer names the three statuses that stand in the way; everything else is "not found". */
  lemma MissErrorTells(store: Store, id: Uuid)
    ensures MissError(store, id) == PaymentInProgress <==> Guard(store, id, PaymentProcessing)
    ensures MissError(store, id) == OrderAlreadyPaid <==> Guard(store, id, Paid)
    ensures MissError(store, id) == OrderCancelled <==> Guard(store, id, Cancelled)
    ensures MissError(store, id) == OrderNotFound <==>
      id !in store || store[id].status !in {PaymentProcessing, Paid, Cancelled}
  {
  }
}
