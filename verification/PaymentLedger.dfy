/** PaymentService: the translation of the payment method on its way there, and the ledger of payments. */
module PaymentLedger {
  import opened Domain

  type OtherNumber = n: int | n < 0 || n > 4 witness 5

  /** The enum on the wire, with a case for the numbers that the generated code does not name. */
  datatype ProtoMethod =
    | ProtoUnspecified
    | ProtoCard
    | ProtoSbp
    | ProtoCreditCard
    | ProtoInvestorMoney
    | ProtoOther(number: OtherNumber)

  type OtherLedgerText = t: string |
    t != "UNSPECIFIED" && t != "CARD" && t != "SBP" && t != "CREDIT_CARD" && t != "INVESTOR_MONEY" witness ""

  /** Payment methods in PaymentService's own model, with a case for any other text. */
  datatype LedgerMethod =
    | LedgerUnspecified
    | LedgerCard
    | LedgerSbp
    | LedgerCreditCard
    | LedgerInvestorMoney
    | LedgerOther(text: OtherLedgerText)

  datatype Payment = Payment(transaction: Uuid, order: Uuid, paymentMethod: LedgerMethod)

  /** The payments table, keyed by its primary key. */
  type Ledger = map<Uuid, Payment>

  function PaymentMethodToProto(m: PaymentMethod): ProtoMethod {
    match m
    case Card => ProtoCard
    case Sbp => ProtoSbp
    case CreditCard => ProtoCreditCard
    case InvestorMoney => ProtoInvestorMoney
    case OtherMethod(_) => ProtoUnspecified
  }

  function PaymentMethodToModel(p: ProtoMethod): LedgerMethod {
    match p
    case ProtoCard => LedgerCard
    case ProtoSbp => LedgerSbp
    case ProtoCreditCard => LedgerCreditCard
    case ProtoInvestorMoney => LedgerInvestorMoney
    case ProtoUnspecified => LedgerUnspecified
    case ProtoOther(_) => LedgerUnspecified
  }

  function Translate(m: PaymentMethod): LedgerMethod {
    PaymentMethodToModel(PaymentMethodToProto(m))
  }

  predicate IsValidLedgerMethod(m: LedgerMethod) {
    m in {LedgerCard, LedgerSbp, LedgerCreditCard, LedgerInvestorMoney}
  }

  /** The name of a wire value in the generated enum. */
  function ProtoName(p: ProtoMethod): string {
    match p
    case ProtoUnspecified => "PAYMENT_METHOD_UNSPECIFIED"
    case ProtoCard => "PAYMENT_METHOD_CARD"
    case ProtoSbp => "PAYMENT_METHOD_SBP"
    case ProtoCreditCard => "PAYMENT_METHOD_CREDIT_CARD"
    case ProtoInvestorMoney => "PAYMENT_METHOD_INVESTOR_MONEY"
    case ProtoOther(_) => ""
  }

  /** The text PaymentService stores for a method. */
  function LedgerText(m: LedgerMethod): string {
    match m
    case LedgerUnspecified => "UNSPECIFIED"
    case LedgerCard => "CARD"
    case LedgerSbp => "SBP"
    case LedgerCreditCard => "CREDIT_CARD"
    case LedgerInvestorMoney => "INVESTOR_MONEY"
    case LedgerOther(text) => text
  }

  /**
   PaymentService accepts a translated method exactly when Pay would, which is for four texts only. On
   the wire it goes by its own name, and PaymentService stores the same text, which no other method has.
   */
  lemma TranslationKeepsMethod(m: PaymentMethod)
    ensures IsValidLedgerMethod(Translate(m)) <==> IsValidPaymentMethod(m)
    ensures IsValidPaymentMethod(m) <==> MethodText(m) in {"CARD", "SBP", "CREDIT_CARD", "INVESTOR_MONEY"}
    ensures IsValidPaymentMethod(m) ==> ProtoName(PaymentMethodToProto(m)) == "PAYMENT_METHOD_" + MethodText(m)
    ensures IsValidPaymentMethod(m) ==> LedgerText(Translate(m)) == MethodText(m)
    ensures forall m' :: IsValidPaymentMethod(m) && Translate(m) == Translate(m') ==> m == m'
    ensures forall m' :: MethodText(m) == MethodText(m') ==> m == m'
  {
  }

  /** The rows of one order. */
  ghost function TransactionsOf(ledger: Ledger, order: Uuid): set<Uuid> {
    set tx | tx in ledger && ledger[tx].order == order
  }

  /** What PayOrder stores and answers, for the transaction UUID it draws. */
  function Record(ledger: Ledger, order: Uuid, m: LedgerMethod, tx: Uuid): Result<Ledger, Error> {
    if order == NIL_UUID then Err(InvalidUuid)
    else if !IsValidLedgerMethod(m) then Err(InvalidPaymentMethod)
    else Ok(ledger[tx := Payment(tx, order, m)])
  }

  /** PaymentService with its repository. */
  class PaymentService {
    var ledger: Ledger

    constructor ()
      ensures ledger == map[]
    {
      ledger := map[];
    }

    /** `tx` is the random UUID the service draws; `storeFails` says whether its transaction rolls back.
        A transaction UUID that is already a primary key of the table rolls it back too. */
    method PayOrder(order: Uuid, m: LedgerMethod, tx: Uuid, storeFails: bool) returns (r: Result<Uuid, Error>)
      modifies this
      ensures r.Ok? <==> order != NIL_UUID && IsValidLedgerMethod(m) && !storeFails && tx !in old(ledger)
      ensures r.Ok? ==> r.value == tx && Record(old(ledger), order, m, tx) == Ok(ledger)
      ensures r.Err? ==> ledger == old(ledger)
      ensures r == Err(InvalidUuid) <==> order == NIL_UUID
      ensures r == Err(InvalidPaymentMethod) <==> order != NIL_UUID && !IsValidLedgerMethod(m)
    {
      if order == NIL_UUID {
        return Err(InvalidUuid);
      }
      if !IsValidLedgerMethod(m) {
        return Err(InvalidPaymentMethod);
      }
      var payment := Payment(tx, order, m);
      if storeFails || payment.transaction in ledger {
        return Err(RepositoryError);
      }
      ledger := ledger[payment.transaction := payment];
      return Ok(payment.transaction);
    }
  }
}
