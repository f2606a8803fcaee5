/** The entities of OrderService that every other module shares. */
module Domain {

  datatype Option<+T> = None | Some(value: T)

  datatype Result<+T, +E> = Ok(value: T) | Err(error: E)

  /** A UUID is sixteen opaque bytes; only equality and the nil value matter here. */
  newtype Uuid = u: int | 0 <= u < 0x1_0000_0000_0000_0000_0000_0000_0000_0000

  const NIL_UUID: Uuid := 0

  /** Instants are opaque. */
  type Time = int

  newtype Int64 = n: int | -0x8000_0000_0000_0000 <= n < 0x8000_0000_0000_0000

  // Statuses, methods and part types are text; the `Other` case stands for any text but the constants.

  type OtherStatusText = t: string |
    t != "PENDING_PAYMENT" && t != "PAYMENT_PROCESSING" && t != "PAID" && t != "CANCELLED" witness ""

  datatype OrderStatus =
    | PendingPayment
    | PaymentProcessing
    | Paid
    | Cancelled
    | OtherStatus(text: OtherStatusText)

  type OtherMethodText = t: string |
    t != "CARD" && t != "SBP" && t != "CREDIT_CARD" && t != "INVESTOR_MONEY" witness ""

  datatype PaymentMethod =
    | Card
    | Sbp
    | CreditCard
    | InvestorMoney
    | OtherMethod(text: OtherMethodText)

  type OtherPartText = t: string | t != "HULL" && t != "ENGINE" && t != "SHIELD" && t != "WEAPON" witness ""

  datatype PartType = Hull | Engine | Shield | Weapon | OtherPart(text: OtherPartText)

  datatype OrderItem = OrderItem(partUuid: Uuid, partType: PartType, price: Int64)

  /** An order, as the domain model and as the in-memory record: the two have the same fields. */
  datatype Order = Order(
    orderUuid: Uuid,
    hull: Uuid,
    engine: Uuid,
    shield: Option<Uuid>,
    weapon: Option<Uuid>,
    totalPrice: Int64,
    transaction: Option<Uuid>,
    paymentMethod: Option<PaymentMethod>,
    status: OrderStatus,
    createdAt: Time,
    items: seq<OrderItem>)

  /** The sentinel errors, and the three wrapped library errors that callers cannot tell apart further. */
  datatype Error =
    | OrderNotFound
    | OrderAlreadyPaid
    | OrderCancelled
    | PaymentInProgress
    | PartNotFound
    | OutOfStock
    | InvalidUuid
    | InvalidPaymentMethod
    | RepositoryError
    | ChargeError
    | InventoryError

  /** The text of a method, which the order's column and the public enum hold. */
  function MethodText(m: PaymentMethod): string {
    match m
    case Card => "CARD"
    case Sbp => "SBP"
    case CreditCard => "CREDIT_CARD"
    case InvestorMoney => "INVESTOR_MONEY"
    case OtherMethod(text) => text
  }

  /** The test both services make before they touch anything. */
  predicate IsValidPaymentMethod(m: PaymentMethod) {
    match m
    case Card => true
    case Sbp => true
    case CreditCard => true
    case InvestorMoney => true
    case OtherMethod(_) => false
  }
}
