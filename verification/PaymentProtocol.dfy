/**
 Any number of concurrent calls of Pay and Cancel over one order store and one payment ledger.

 Every repository statement is one atomic step; between two steps of one call any other call may
 take steps. No step records who started a payment: the status alone decides who may go on.
 The environment chooses, for every step, whether the repository statement fails (before or after
 its effect) and how the remote charge ends. An in-memory store answers a missed update in the same
 step; Postgres reads the order in a second statement.
 */
module PaymentProtocol {
  import opened Domain
  import opened OrderStore
  import opened PaymentLedger

  datatype Backend = InMemory | Postgres

  datatype Call =
    | Pay(order: Uuid, payMethod: PaymentMethod)
    | Cancel(order: Uuid)

  /** What a call returned. */
  datatype Reply =
    | PaySucceeded(transaction: Uuid)
    | CancelSucceeded
    | Refused(error: Error)
    | RefusedTwice(charge: Error, reset: Error)

  /** Where a call stands: the name says what has happened, the next statement follows from it. */
  datatype Pc =
    | Entered
    | StartMissed
    | Charging
    | ChargeFailed(cause: Error)
    | Charged(transaction: Uuid)
    | FinishMissed
    | ResetMissed(cause: Error)
    | CancelMissed
    | Returned(reply: Reply)

  datatype Thread = Thread(call: Call, pc: Pc)

  /**
   `late` holds the calls whose charge was reported as failed while PaymentService was still
   working on it: the row may appear at any later moment, or never.
   */
  datatype State = State(
    backend: Backend,
    store: Store,
    ledger: Ledger,
    threads: seq<Thread>,
    late: set<nat>)

  datatype Fault = NoFault | FailsBefore | FailsAfter

  datatype ChargeOutcome =
    | Accepted(tx: Uuid)
    | NotCommitted
    | CommittedButReportedFailed(tx: Uuid)
    | StillRunning

  datatype Action =
    | CreateOrder(id: Uuid, at: Time)
    | Begin(call: Call)
    | Repository(thread: nat, fault: Fault)
    | Charge(thread: nat, outcome: ChargeOutcome)
    | CommitLate(thread: nat, tx: Uuid)

  // ----- One repository statement of one call -----

  function Replied(s: State, t: nat, r: Reply): State
    requires t < |s.threads|
  {
    At(s, t, Returned(r))
  }

  function At(s: State, t: nat, pc: Pc): State
    requires t < |s.threads|
  {
    s.(threads := s.threads[t := s.threads[t].(pc := pc)])
  }

  /** A guarded update that matched no row: the answer at once, or one more statement. */
  function Missed(s: State, t: nat, pc: Pc): State
    requires t < |s.threads|
  {
    if s.backend.InMemory?
    then Replied(s, t, Refused(MissError(s.store, s.threads[t].call.order)))
    else At(s, t, pc)
  }

  /** Pay up to and including StartPayment, or Cancel's guarded update. */
  function Enter(s: State, t: nat, f: Fault): State
    requires t < |s.threads|
  {
    var id := s.threads[t].call.order;
    match s.threads[t].call
    case Pay(_, m) =>
      if !IsValidPaymentMethod(m) then Replied(s, t, Refused(InvalidPaymentMethod))
      else if f.FailsBefore? then Replied(s, t, Refused(RepositoryError))
      else
        var s1 := s.(store := StartUpdate(s.store, id));
        if f.FailsAfter? then Replied(s1, t, Refused(RepositoryError))
        else if Guard(s.store, id, PendingPayment) then At(s1, t, Charging)
        else Missed(s1, t, StartMissed)
    case Cancel(_) =>
      if f.FailsBefore? then Replied(s, t, Refused(RepositoryError))
      else
        var s1 := s.(store := CancelUpdate(s.store, id));
        if f.FailsAfter? then Replied(s1, t, Refused(RepositoryError))
        else if Guard(s.store, id, PendingPayment) then Replied(s1, t, CancelSucceeded)
        else Missed(s1, t, CancelMissed)
  }

  /** The read after an update that changed nothing. */
  function ReadAfterMiss(s: State, t: nat, f: Fault): State
    requires t < |s.threads|
  {
    Replied(s, t, Refused(
      if f.NoFault? then MissError(s.store, s.threads[t].call.order) else RepositoryError))
  }

  function Finish(s: State, t: nat, tx: Uuid, f: Fault): State
    requires t < |s.threads| && s.threads[t].call.Pay?
  {
    var id := s.threads[t].call.order;
    if f.FailsBefore? then Replied(s, t, Refused(RepositoryError))
    else
      var s1 := s.(store := FinishUpdate(s.store, id, tx, s.threads[t].call.payMethod));
      if f.FailsAfter? then Replied(s1, t, Refused(RepositoryError))
      else if Guard(s.store, id, PaymentProcessing) then Replied(s1, t, PaySucceeded(tx))
      else Missed(s1, t, FinishMissed)
  }

  function Reset(s: State, t: nat, cause: Error, f: Fault): State
    requires t < |s.threads|
  {
    var id := s.threads[t].call.order;
    if f.FailsBefore? then Replied(s, t, RefusedTwice(cause, RepositoryError))
    else
      var s1 := s.(store := ResetUpdate(s.store, id));
      if f.FailsAfter? then Replied(s1, t, RefusedTwice(cause, RepositoryError))
      else if Guard(s.store, id, PaymentProcessing) then Replied(s1, t, Refused(cause))
      else if s.backend.InMemory? then ResetAnswer(s1, t, cause)
      else At(s1, t, ResetMissed(cause))
  }

  /** ResetPayment changed nothing: it reports an error only for an absent order. */
  function ResetAnswer(s: State, t: nat, cause: Error): State
    requires t < |s.threads|
  {
    Replied(s, t,
      if s.threads[t].call.order in s.store then Refused(cause) else RefusedTwice(cause, OrderNotFound))
  }

  predicate RepositoryEnabled(s: State, t: nat, f: Fault) {
    && t < |s.threads|
    && (s.backend.InMemory? ==> f.NoFault?)
    && match s.threads[t].pc {
         case Entered => true
         case StartMissed => true
         case ChargeFailed(_) => true
         case Charged(_) => s.threads[t].call.Pay?
         case FinishMissed => true
         case ResetMissed(_) => true
         case CancelMissed => true
         case Charging => false
         case Returned(_) => false
       }
  }

  function RepositoryStep(s: State, t: nat, f: Fault): State
    requires RepositoryEnabled(s, t, f)
  {
    match s.threads[t].pc
    case Entered => Enter(s, t, f)
    case StartMissed => ReadAfterMiss(s, t, f)
    case FinishMissed => ReadAfterMiss(s, t, f)
    case CancelMissed => ReadAfterMiss(s, t, f)
    case Charged(tx) => Finish(s, t, tx, f)
    case ChargeFailed(cause) => Reset(s, t, cause, f)
    case ResetMissed(cause) =>
      if f.NoFault? then ResetAnswer(s, t, cause)
      else Replied(s, t, RefusedTwice(cause, RepositoryError))
  }

  // ----- The remote charge -----

  predicate ChargeEnabled(s: State, t: nat, outcome: ChargeOutcome) {
    && t < |s.threads|
    && s.threads[t].pc.Charging?
    && s.threads[t].call.Pay?
    && match outcome {
         case Accepted(tx) => tx !in s.ledger
         case CommittedButReportedFailed(tx) => tx !in s.ledger
         case NotCommitted => true
         case StillRunning => true
       }
  }

  /** PaymentService's answer to the request that call `t` sends it. */
  function Request(s: State, t: nat, tx: Uuid): Result<Ledger, Error>
    requires t < |s.threads| && s.threads[t].call.Pay?
  {
    Record(s.ledger, s.threads[t].call.order, Translate(s.threads[t].call.payMethod), tx)
  }

  /** The client reports every refusal of PaymentService as an invalid method. */
  function ChargeStep(s: State, t: nat, outcome: ChargeOutcome): State
    requires ChargeEnabled(s, t, outcome)
  {
    match outcome
    case Accepted(tx) =>
      (match Request(s, t, tx)
       case Ok(ledger) => At(s, t, Charged(tx)).(ledger := ledger)
       case Err(_) => At(s, t, ChargeFailed(InvalidPaymentMethod)))
    case NotCommitted => At(s, t, ChargeFailed(ChargeError))
    case CommittedButReportedFailed(tx) =>
      (match Request(s, t, tx)
       case Ok(ledger) => At(s, t, ChargeFailed(ChargeError)).(ledger := ledger)
       case Err(_) => At(s, t, ChargeFailed(InvalidPaymentMethod)))
    case StillRunning => At(s, t, ChargeFailed(ChargeError)).(late := s.late + {t})
  }

  predicate LateEnabled(s: State, t: nat, tx: Uuid) {
    && t < |s.threads|
    && t in s.late
    && s.threads[t].call.Pay?
    && tx !in s.ledger
  }

  function LateStep(s: State, t: nat, tx: Uuid): State
    requires LateEnabled(s, t, tx)
  {
    var s1 := s.(late := s.late - {t});
    match Request(s, t, tx)
    case Ok(ledger) => s1.(ledger := ledger)
    case Err(_) => s1
  }

  // ----- The transition system -----

  function Init(backend: Backend): State {
    State(backend, map[], map[], [], {})
  }

  predicate Enabled(s: State, a: Action) {
    match a
    case CreateOrder(id, _) => id != NIL_UUID && id !in s.store
    case Begin(_) => true
    case Repository(t, f) => RepositoryEnabled(s, t, f)
    case Charge(t, outcome) => ChargeEnabled(s, t, outcome)
    case CommitLate(t, tx) => LateEnabled(s, t, tx)
  }

  function Apply(s: State, a: Action): State
    requires Enabled(s, a)
  {
    match a
    case CreateOrder(id, at) => s.(store := s.store[id := NewRow(at)])
    case Begin(call) => s.(threads := s.threads + [Thread(call, Entered)])
    case Repository(t, f) => RepositoryStep(s, t, f)
    case Charge(t, outcome) => ChargeStep(s, t, outcome)
    case CommitLate(t, tx) => LateStep(s, t, tx)
  }

  ghost predicate Next(s: State, a: Action, s': State) {
    Enabled(s, a) && s' == Apply(s, a)
  }

  /** A run: `actions[i]` leads from `states[i]` to `states[i + 1]`. */
  datatype Run = Run(states: seq<State>, actions: seq<Action>)

  ghost predicate IsRun(r: Run) {
    && |r.states| == |r.actions| + 1
    && r.states[0] == Init(r.states[0].backend)
    && forall i :: 0 <= i < |r.actions| ==> Next(r.states[i], r.actions[i], r.states[i + 1])
  }

  lemma RunStep(r: Run, k: nat)
    requires IsRun(r) && k < |r.actions|
    ensures Next(r.states[k], r.actions[k], r.states[k + 1])
  {
  }

  /** No repository statement of the run fails. */
  ghost predicate FaultFree(r: Run) {
    forall i :: 0 <= i < |r.actions| && r.actions[i].Repository? ==> r.actions[i].fault.NoFault?
  }
}
