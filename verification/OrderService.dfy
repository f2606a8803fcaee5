/** OrderService.Pay and OrderService.Cancel as sequential code, tied to the steps of the payment protocol. */
module OrderServices {
  import opened Domain
  import opened OrderRebuild
  import opened OrderStore
  import opened PaymentLedger
  import opened PaymentProtocol
  import opened MemoryRepositories
  import opened PostgresRepositories

  // ----- One call of the protocol, run without interference -----

  /** The state in which one call is about to begin on a given store and ledger. */
  function Alone(backend: Backend, store: Store, ledger: Ledger, call: Call): State {
    State(backend, store, ledger, [Thread(call, Entered)], {})
  }

  /** Runs call 0 by itself to its answer, with no failing statement; the charge ends as given. */
  function Solo(s: State, outcome: ChargeOutcome): State
    requires |s.threads| == 1
    requires s.threads[0].pc.Entered? && FreshCharge(s.ledger, outcome)
  {
    var s1 := RepositoryStep(s, 0, NoFault);
    match s1.threads[0].pc
    case Charging => RepositoryStep(ChargeStep(s1, 0, outcome), 0, NoFault)
    case StartMissed => RepositoryStep(s1, 0, NoFault)
    case CancelMissed => RepositoryStep(s1, 0, NoFault)
    case _ => s1
  }

  /** The transaction UUID that PaymentService draws is new. */
  predicate FreshCharge(ledger: Ledger, outcome: ChargeOutcome) {
    match outcome
    case Accepted(tx) => tx !in ledger
    case CommittedButReportedFailed(tx) => tx !in ledger
    case NotCommitted => true
    case StillRunning => true
  }

  function Answer(s: State): Option<Reply>
    requires |s.threads| == 1
  {
    if s.threads[0].pc.Returned? then Some(s.threads[0].pc.reply) else None
  }

  // ----- The payment client -----

  /** The request reached PaymentService and was decided before the client got its answer. */
  predicate Decided(outcome: ChargeOutcome) {
    outcome.Accepted? || outcome.CommittedButReportedFailed?
  }

  function ChargeFailure(order: Uuid, m: PaymentMethod, outcome: ChargeOutcome): Error {
    if Decided(outcome) && (order == NIL_UUID || !IsValidPaymentMethod(m)) then InvalidPaymentMethod else ChargeError
  }

  function LedgerAfter(ledger: Ledger, order: Uuid, m: PaymentMethod, outcome: ChargeOutcome): Ledger {
    if Decided(outcome) && order != NIL_UUID && IsValidPaymentMethod(m)
    then ledger[outcome.tx := Payment(outcome.tx, order, Translate(m))]
    else ledger
  }

  /**
   Pay without interference, in closed form: it changes the order only if it succeeds, and then in one
   go from pending to paid.
   */
  function PayAlone(store: Store, ledger: Ledger, id: Uuid, m: PaymentMethod, outcome: ChargeOutcome)
    : (Store, Ledger, Reply)
  {
    if !IsValidPaymentMethod(m) then (store, ledger, Refused(InvalidPaymentMethod))
    else if !Guard(store, id, PendingPayment) then (store, ledger, Refused(MissError(store, id)))
    else if outcome.Accepted? && id != NIL_UUID then
      var paid := store[id].(status := Paid, transaction := Some(outcome.tx), paymentMethod := Some(m));
      (store[id := paid], LedgerAfter(ledger, id, m, outcome), PaySucceeded(outcome.tx))
    else (store, LedgerAfter(ledger, id, m, outcome), Refused(ChargeFailure(id, m, outcome)))
  }

  function CancelAlone(store: Store, id: Uuid): (Store, Reply) {
    if Guard(store, id, PendingPayment) then (store[id := store[id].(status := Cancelled)], CancelSucceeded)
    else (store, Refused(MissError(store, id)))
  }

  lemma StartThenSettle(store: Store, id: Uuid, tx: Uuid, m: PaymentMethod)
    requires Guard(store, id, PendingPayment)
    ensures Guard(StartUpdate(store, id), id, PaymentProcessing) && StartUpdate(store, id).Keys == store.Keys
    ensures ResetUpdate(StartUpdate(store, id), id) == store
    ensures FinishUpdate(StartUpdate(store, id), id, tx, m)
      == store[id := store[id].(status := Paid, transaction := Some(tx), paymentMethod := Some(m))]
  {
  }

  /** The protocol's run of a lone Pay ends exactly so, over either store. */
  lemma PayAloneIsProtocol(b: Backend, store: Store, ledger: Ledger, id: Uuid, m: PaymentMethod, outcome: ChargeOutcome)
    requires FreshCharge(ledger, outcome)
    ensures var end := Solo(Alone(b, store, ledger, Call.Pay(id, m)), outcome);
      var (store', ledger', reply) := PayAlone(store, ledger, id, m, outcome);
      end.store == store' && end.ledger == ledger' && Answer(end) == Some(reply)
  {
    TranslationKeepsMethod(m);
    if IsValidPaymentMethod(m) && Guard(store, id, PendingPayment) {
      var s1 := RepositoryStep(Alone(b, store, ledger, Call.Pay(id, m)), 0, NoFault);
      assert s1 == State(b, StartUpdate(store, id), ledger, [Thread(Call.Pay(id, m), Charging)], {});
      var s2 := ChargeStep(s1, 0, outcome);
      assert s2.store == s1.store && Guard(s2.store, id, PaymentProcessing) && s2.backend == b;
      assert s2.ledger == LedgerAfter(ledger, id, m, outcome);
      assert ResetUpdate(s1.store, id) == store;
    }
  }

  lemma CancelAloneIsProtocol(b: Backend, store: Store, ledger: Ledger, id: Uuid)
    ensures var end := Solo(Alone(b, store, ledger, Call.Cancel(id)), NotCommitted);
      end.store == CancelAlone(store, id).0 && end.ledger == ledger && Answer(end) == Some(CancelAlone(store, id).1)
  {
  }

  /** The remote call: how it ends is the environment's choice, what it books is PaymentService's. */
  method ChargeOrder(payments: PaymentService, order: Uuid, m: PaymentMethod, outcome: ChargeOutcome)
    returns (r: Result<Uuid, Error>)
    requires FreshCharge(payments.ledger, outcome)
    modifies payments
    ensures r.Ok? <==> outcome.Accepted? && order != NIL_UUID && IsValidPaymentMethod(m)
    ensures r.Ok? ==> r.value == outcome.tx
    ensures r.Err? ==> r.error == ChargeFailure(order, m, outcome)
    ensures payments.ledger == LedgerAfter(old(payments.ledger), order, m, outcome)
  {
    TranslationKeepsMethod(m);
    if outcome.NotCommitted? || outcome.StillRunning? {
      return Err(ChargeError);
    }
    var paid := payments.PayOrder(order, PaymentMethodToModel(PaymentMethodToProto(m)), outcome.tx, false);
    if paid.Err? {
      return Err(if paid.error in {InvalidUuid, InvalidPaymentMethod} then InvalidPaymentMethod else ChargeError);
    }
    if outcome.CommittedButReportedFailed? {
      return Err(ChargeError);
    }
    return Ok(paid.value);
  }

  ghost predicate KeyedByUuid(orders: Orders) {
    forall id :: id in orders ==> orders[id].orderUuid == id
  }

  // ----- The service over the in-memory repository -----

  /** The records in the middle of Pay. */
  function Started(before: Orders, id: Uuid): Orders {
    assert StartUpdate(Rows(before), id).Keys == before.Keys;
    WithRows(before, StartUpdate(Rows(before), id))
  }

  lemma ResetSettles(before: Orders, id: Uuid)
    requires Guard(Rows(before), id, PendingPayment)
    ensures var rows := Rows(Started(before, id));
      && Guard(rows, id, PaymentProcessing)
      && id in Started(before, id)
      && ResetUpdate(rows, id).Keys == Started(before, id).Keys
      && WithRows(Started(before, id), ResetUpdate(rows, id)) == before
      && Rows(before).Keys == before.Keys && WithRows(before, Rows(before)) == before
  {
  }

  lemma WithRowsTwice(orders: Orders, rows: Store, rows': Store)
    requires rows.Keys == orders.Keys == rows'.Keys
    ensures WithRows(WithRows(orders, rows), rows') == WithRows(orders, rows')
  {
  }

  lemma FinishSettles(before: Orders, id: Uuid, tx: Uuid, m: PaymentMethod)
    requires Guard(Rows(before), id, PendingPayment)
    ensures var rows := Rows(Started(before, id));
      var row := Rows(before)[id].(status := Paid, transaction := Some(tx), paymentMethod := Some(m));
      var paid := Rows(before)[id := row];
      && FinishUpdate(rows, id, tx, m).Keys == Started(before, id).Keys
      && paid.Keys == before.Keys
      && WithRows(Started(before, id), FinishUpdate(rows, id, tx, m)) == WithRows(before, paid)
  {
    var rows1 := StartUpdate(Rows(before), id);
    RowsOfWithRows(before, rows1);
    StartThenSettle(Rows(before), id, tx, m);
    WithRowsTwice(before, rows1, FinishUpdate(rows1, id, tx, m));
  }

  class MemoryService {
    const repo: MemoryRepository
    const payments: PaymentService

    constructor (repo: MemoryRepository, payments: PaymentService)
      ensures this.repo == repo && this.payments == payments
    {
      this.repo, this.payments := repo, payments;
    }

    method Pay(id: Uuid, m: PaymentMethod, outcome: ChargeOutcome) returns (reply: Reply)
      requires FreshCharge(payments.ledger, outcome) && KeyedByUuid(repo.orders)
      modifies repo, payments
      ensures var (rows, ledger, answer) := PayAlone(old(Rows(repo.orders)), old(payments.ledger), id, m, outcome);
        && reply == answer && payments.ledger == ledger
        && rows.Keys == old(repo.orders).Keys && repo.orders == WithRows(old(repo.orders), rows)
    {
      RowsOfWithRows(repo.orders, Rows(repo.orders));
      if !IsValidPaymentMethod(m) {
        return Refused(InvalidPaymentMethod);
      }
      var started := repo.StartPayment(id);
      if started.Err? {
        return Refused(started.error);
      }
      var (order, updated) := started.value;
      if !updated {
        return Refused(ConflictError(order.status));
      }
      reply := Settle(id, order.orderUuid, m, outcome, old(repo.orders));
    }

    /** The rest of Pay once StartPayment has changed the order: charge it, then finish or reset. */
    method Settle(id: Uuid, orderUuid: Uuid, m: PaymentMethod, outcome: ChargeOutcome, ghost before: Orders)
      returns (reply: Reply)
      requires FreshCharge(payments.ledger, outcome) && IsValidPaymentMethod(m)
      requires orderUuid == id && Guard(Rows(before), id, PendingPayment)
      requires repo.orders == Started(before, id)
      modifies repo, payments
      ensures var (rows, ledger, answer) := PayAlone(Rows(before), old(payments.ledger), id, m, outcome);
        && reply == answer && payments.ledger == ledger
        && rows.Keys == before.Keys && repo.orders == WithRows(before, rows)
    {
      var charged := ChargeOrder(payments, orderUuid, m, outcome);
      if charged.Err? {
        ResetSettles(before, id);
        reply := Undo(id, charged.error, before);
      } else {
        FinishSettles(before, id, charged.value, m);
        reply := Complete(id, charged.value, m, before);
      }
    }

    /** ResetPayment after a failed charge. */
    method Undo(id: Uuid, cause: Error, ghost before: Orders) returns (reply: Reply)
      requires Guard(Rows(before), id, PendingPayment) && repo.orders == Started(before, id)
      modifies repo
      ensures reply == Refused(cause) && repo.orders == before
    {
      ResetSettles(before, id);
      var reset := repo.ResetPayment(id);
      match reset
      case Some(resetError) => return RefusedTwice(cause, resetError);
      case None => return Refused(cause);
    }

    /** FinishPayment after a successful charge. */
    method Complete(id: Uuid, tx: Uuid, m: PaymentMethod, ghost before: Orders) returns (reply: Reply)
      requires Guard(Rows(before), id, PendingPayment) && repo.orders == Started(before, id)
      modifies repo
      ensures reply == PaySucceeded(tx)
      ensures repo.orders == WithRows(old(repo.orders), FinishUpdate(Rows(old(repo.orders)), id, tx, m))
    {
      ResetSettles(before, id);
      var finished := repo.FinishPayment(id, tx, m);
      match finished
      case Err(error) => return Refused(error);
      case Ok((after, done)) =>
        if !done {
          return Refused(ConflictError(after.status));
        }
        return PaySucceeded(tx);
    }

    method Cancel(id: Uuid) returns (reply: Reply)
      modifies repo
      ensures var (rows, answer) := CancelAlone(old(Rows(repo.orders)), id);
        && reply == answer
        && rows.Keys == old(repo.orders).Keys && repo.orders == WithRows(old(repo.orders), rows)
    {
      RowsOfWithRows(repo.orders, Rows(repo.orders));
      var cancelled := repo.Cancel(id);
      if cancelled.Err? {
        return Refused(cancelled.error);
      }
      if cancelled.value.1 {
        return CancelSucceeded;
      }
      return Refused(ConflictError(cancelled.value.0.status));
    }
  }

  // ----- The service over PostgreSQL -----

  class PostgresService {
    const repo: PostgresRepository
    const payments: PaymentService

    constructor (repo: PostgresRepository, payments: PaymentService)
      ensures this.repo == repo && this.payments == payments
    {
      this.repo, this.payments := repo, payments;
    }

    method Pay(id: Uuid, m: PaymentMethod, outcome: ChargeOutcome) returns (reply: Reply)
      requires FreshCharge(payments.ledger, outcome) && repo.Valid()
      modifies repo, payments
      ensures repo.Valid() && repo.items == old(repo.items)
      ensures (repo.orders, payments.ledger, reply) == PayAlone(old(repo.orders), old(payments.ledger), id, m, outcome)
    {
      if !IsValidPaymentMethod(m) {
        return Refused(InvalidPaymentMethod);
      }
      var started := repo.StartPayment(id);
      if started.Err? {
        return Refused(started.error);
      }
      var (order, updated) := started.value;
      if !updated {
        return Refused(ConflictError(order.status));
      }
      StartThenSettle(old(repo.orders), id, if outcome.Accepted? then outcome.tx else NIL_UUID, m);
      var charged := ChargeOrder(payments, order.orderUuid, m, outcome);
      if charged.Err? {
        var cause := charged.error;
        var reset := repo.ResetPayment(id);
        match reset
        case Some(resetError) => return RefusedTwice(cause, resetError);
        case None => return Refused(cause);
      }
      var tx := charged.value;
      var finished := repo.FinishPayment(id, tx, m);
      match finished
      case Err(error) => return Refused(error);
      case Ok((after, done)) =>
        if !done {
          return Refused(ConflictError(after.status));
        }
        return PaySucceeded(tx);
    }

    method Cancel(id: Uuid) returns (reply: Reply)
      requires repo.Valid()
      modifies repo
      ensures repo.Valid() && repo.items == old(repo.items)
      ensures (repo.orders, reply) == CancelAlone(old(repo.orders), id)
    {
      var cancelled := repo.Cancel(id);
      if cancelled.Err? {
        return Refused(cancelled.error);
      }
      if cancelled.value.1 {
        return CancelSucceeded;
      }
      return Refused(ConflictError(cancelled.value.0.status));
    }
  }
}
