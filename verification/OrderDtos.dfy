/** The public face of an order: the OpenAPI objects, the conversions to them, and their validation. */
module OrderDtos {
  import opened Domain

  /** The generated tri-state optional: absent, null, or a value. Its three fields are independent. */
  datatype OptNil<T> = OptNil(value: T, isSet: bool, isNull: bool) {
    function Get(): Option<T> {
      if isNull then None
      else if !isSet then None
      else Some(value)
    }
  }

  function NewOptNil<T>(v: T): OptNil<T> {
    OptNil(v, true, false)
  }

  /** Reset and SetToNull leave the zero value behind; so does a fresh struct. */
  predicate Canonical<T(==)>(o: OptNil<T>, zero: T) {
    (o.isNull ==> o.isSet) && (!o.isSet || o.isNull ==> o.value == zero)
  }

  const NO_UUID: OptNil<Uuid> := OptNil(NIL_UUID, false, false)
  const NO_METHOD: OptNil<string> := OptNil("", false, false)

  /** Enums are text on the wire and may hold any text until they are validated. */
  datatype OrderDto = OrderDto(
    orderUuid: Uuid,
    hull: Uuid,
    engine: Uuid,
    shield: OptNil<Uuid>,
    weapon: OptNil<Uuid>,
    totalPrice: Int64,
    transaction: OptNil<Uuid>,
    paymentMethod: OptNil<string>,
    status: string,
    createdAt: Time)

  ghost predicate CanonicalDto(d: OrderDto) {
    && Canonical(d.shield, NIL_UUID)
    && Canonical(d.weapon, NIL_UUID)
    && Canonical(d.transaction, NIL_UUID)
    && Canonical(d.paymentMethod, "")
  }

  function OptionalUuid(u: Option<Uuid>): OptNil<Uuid> {
    match u
    case Some(v) => NewOptNil(v)
    case None => NO_UUID
  }

  function PaymentMethodToDto(m: PaymentMethod): string {
    match m
    case Card => "CARD"
    case Sbp => "SBP"
    case CreditCard => "CREDIT_CARD"
    case InvestorMoney => "INVESTOR_MONEY"
    case OtherMethod(_) => ""
  }

  function PaymentMethodFromDto(text: string): PaymentMethod {
    if text == "CARD" then Card
    else if text == "SBP" then Sbp
    else if text == "CREDIT_CARD" then CreditCard
    else if text == "INVESTOR_MONEY" then InvestorMoney
    else OtherMethod("")
  }

  /** PAYMENT_PROCESSING is not public: whoever looks sees an order that awaits payment. */
  function OrderStatusToDto(status: OrderStatus): string {
    match status
    case Paid => "PAID"
    case Cancelled => "CANCELLED"
    case _ => "PENDING_PAYMENT"
  }

  function OrderToDto(order: Order): OrderDto {
    OrderDto(
      order.orderUuid,
      order.hull,
      order.engine,
      OptionalUuid(order.shield),
      OptionalUuid(order.weapon),
      order.totalPrice,
      OptionalUuid(order.transaction),
      match order.paymentMethod
      case Some(m) => NewOptNil(PaymentMethodToDto(m))
      case None => NO_METHOD,
      OrderStatusToDto(order.status),
      order.createdAt)
  }

  predicate IsPublicStatus(status: string) {
    status == "PENDING_PAYMENT" || status == "PAID" || status == "CANCELLED"
  }

  predicate IsPublicMethod(m: string) {
    m == "CARD" || m == "SBP" || m == "CREDIT_CARD" || m == "INVESTOR_MONEY"
  }

  predicate ValidDto(d: OrderDto) {
    (d.paymentMethod.Get().Some? ==> IsPublicMethod(d.paymentMethod.Get().value)) && IsPublicStatus(d.status)
  }

  /** The names of the invalid fields; an empty list is the nil error. */
  method Validate(d: OrderDto) returns (failures: seq<string>)
    ensures failures == [] <==> ValidDto(d)
    ensures "status" in failures <==> d.status != "PENDING_PAYMENT" && d.status != "PAID" && d.status != "CANCELLED"
    ensures "payment_method" in failures <==>
      && d.paymentMethod.isSet && !d.paymentMethod.isNull
      && d.paymentMethod.value != "CARD" && d.paymentMethod.value != "SBP"
      && d.paymentMethod.value != "CREDIT_CARD" && d.paymentMethod.value != "INVESTOR_MONEY"
    ensures failures == [] <==> "status" !in failures && "payment_method" !in failures
  {
    failures := [];
    var m := d.paymentMethod.Get();
    if m.Some? && !IsPublicMethod(m.value) {
      failures := failures + ["payment_method"];
    }
    if !IsPublicStatus(d.status) {
      failures := failures + ["status"];
    }
    assert "payment_method" != "status" by {
      assert |"payment_method"| != |"status"|;
    }
  }

  /** An order converts to a valid object exactly when its method, if any, is one of the four. */
  lemma ConvertedOrderIsValid(order: Order)
    ensures ValidDto(OrderToDto(order)) <==>
      (order.paymentMethod.Some? ==> IsValidPaymentMethod(order.paymentMethod.value))
    ensures CanonicalDto(OrderToDto(order))
  {
  }

  /** What the public shows for each status. */
  lemma StatusShown(status: OrderStatus)
    ensures OrderStatusToDto(status) == "PAID" <==> status == Paid
    ensures OrderStatusToDto(status) == "CANCELLED" <==> status == Cancelled
    ensures OrderStatusToDto(status) == "PENDING_PAYMENT" <==> status != Paid && status != Cancelled
  {
    assert |"PAID"| != |"CANCELLED"| && |"PAID"| != |"PENDING_PAYMENT"| && |"CANCELLED"| != |"PENDING_PAYMENT"|;
  }

  /**
   The method a client names and the method Pay is called with determine each other and have the same
   text; Pay accepts four texts only.
   */
  lemma MethodRoundTrip(m: PaymentMethod, text: string)
    ensures IsValidPaymentMethod(m) ==> PaymentMethodToDto(m) == MethodText(m)
    ensures IsPublicMethod(text) ==> MethodText(PaymentMethodFromDto(text)) == text
    ensures IsValidPaymentMethod(PaymentMethodFromDto(text)) <==>
      text == "CARD" || text == "SBP" || text == "CREDIT_CARD" || text == "INVESTOR_MONEY"
    ensures IsValidPaymentMethod(m) ==> PaymentMethodFromDto(PaymentMethodToDto(m)) == m
    ensures IsValidPaymentMethod(PaymentMethodFromDto(text)) <==> IsPublicMethod(text)
    ensures IsPublicMethod(text) ==> PaymentMethodToDto(PaymentMethodFromDto(text)) == text
  {
  }
}
