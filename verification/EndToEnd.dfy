/** From the create request to the object a client reads, through tables, payment and JSON. */
module EndToEnd {
  import opened Domain
  import opened OrderDtos
  import opened OrderRebuild
  import opened OrderStore
  import opened Inventory
  import opened PostgresRepositories
  import opened CreateOrders
  import opened JsonObjects
  import opened OrderDtoCodec
  import opened CreateRequestCodec
  import opened PaymentProtocol
  import opened PaymentInvariant
  import opened PublicView

  /** What the client decodes from the server's answer to a read of the order. */
  function ReadByClient(t: Texts, id: Uuid, row: OrderRow, listed: seq<OrderItem>): Decoding {
    Meaning(t, FieldsFor(t, OrderToDto(Rebuilt(Stored(id, row, listed))), ALL_KEYS))
  }

  /** The optional has exactly the given value, if any. */
  predicate Carries(o: OptNil<Uuid>, u: Option<Uuid>) {
    if u.Some? then o == OptNil(u.value, true, false) else !o.isSet
  }

  /**
   A client that reads a created order, whatever its row has become and in whatever order its items
   are listed, gets the parts it asked for, the total Create returned, the payment in the row, and
   the public form of the status.
   */
  lemma CreatedOrderReachesClient(t: Texts, order: Order, input: CreateOrderInput, parts: Parts, table: ItemTable,
                                  row: OrderRow, listed: seq<OrderItem>)
    requires Faithful(t) && Prices(order, input, parts)
    requires ListsItems(table, order.orderUuid, order.items) && ListsItems(table, order.orderUuid, listed)
    ensures var read := ReadByClient(t, order.orderUuid, row, listed);
      && read.Decoded?
      && read.dto.orderUuid == order.orderUuid
      && read.dto.hull == input.hull && read.dto.engine == input.engine
      && Carries(read.dto.shield, input.shield) && Carries(read.dto.weapon, input.weapon)
      && read.dto.totalPrice == order.totalPrice == Wrap(CatalogueSum(input, parts))
      && Carries(read.dto.transaction, row.transaction)
      && (row.paymentMethod.None? ==> !read.dto.paymentMethod.isSet)
      && (row.paymentMethod.Some? && IsValidPaymentMethod(row.paymentMethod.value) ==>
           read.dto.paymentMethod == OptNil(MethodText(row.paymentMethod.value), true, false))
      && (read.dto.status == "PAID" <==> row.status == Paid)
      && (read.dto.status == "CANCELLED" <==> row.status == Cancelled)
      && (read.dto.status == "PENDING_PAYMENT" <==> row.status != Paid && row.status != Cancelled)
      && read.dto.createdAt == row.createdAt
  {
    CreatedOrderInTables(order, input, parts, table, row, listed);
    ConvertedOrderRoundTrip(t, Rebuilt(Stored(order.orderUuid, row, listed)));
    if row.paymentMethod.Some? {
      MethodRoundTrip(row.paymentMethod.value, "");
    }
    StatusShown(row.status);
    TotalIsCatalogueSum(order, input, parts);
  }

  /** The input that the API makes of a decoded request. */
  function InputOf(request: CreateOrderRequest): CreateOrderInput {
    CreateOrderInput(request.hull, request.engine, request.shield.Get(), request.weapon.Get())
  }

  /** What a client sends as the parts of an order is what it later reads: unset and null both mean no part. */
  lemma RequestedPartsComeBack(t: Texts, sent: CreateOrderRequest, received: CreateOrderRequest, order: Order,
                               parts: Parts, table: ItemTable, row: OrderRow, listed: seq<OrderItem>)
    requires Faithful(t) && RequestMeaning(t, RequestFields(t, sent)) == DecodedRequest(received)
    requires Prices(order, InputOf(received), parts)
    requires ListsItems(table, order.orderUuid, order.items) && ListsItems(table, order.orderUuid, listed)
    ensures var read := ReadByClient(t, order.orderUuid, row, listed);
      && read.Decoded?
      && read.dto.hull == sent.hull && read.dto.engine == sent.engine
      && (read.dto.shield.isSet <==> sent.shield.isSet && !sent.shield.isNull)
      && (read.dto.shield.isSet ==> !read.dto.shield.isNull && read.dto.shield.value == sent.shield.value)
      && (read.dto.weapon.isSet <==> sent.weapon.isSet && !sent.weapon.isNull)
      && (read.dto.weapon.isSet ==> !read.dto.weapon.isNull && read.dto.weapon.value == sent.weapon.value)
  {
    RequestRoundTrip(t, sent);
    CreatedOrderReachesClient(t, order, InputOf(received), parts, table, row, listed);
  }

  /**
   Once a Pay that a client asked for with the method `text` has succeeded, whoever reads the order from
   the server decodes PAID, the transaction that Pay returned, and that very text.
   */
  lemma PaymentReachesClient(texts: Texts, r: Run, i: nat, j: nat, t: nat, text: string, order: Order)
    requires Faithful(texts) && IsRun(r) && i <= j <= |r.actions|
    requires t < |r.states[i].threads| && Succeeded(r.states[i].threads[t])
    requires r.states[i].threads[t].call == Call.Pay(order.orderUuid, PaymentMethodFromDto(text))
    requires ReadFrom(r.states[j].store, order)
    ensures var read := Meaning(texts, FieldsFor(texts, OrderToDto(order), ALL_KEYS));
      && read.Decoded?
      && read.dto.status == "PAID"
      && read.dto.transaction == OptNil(r.states[i].threads[t].pc.reply.transaction, true, false)
      && read.dto.paymentMethod == OptNil(text, true, false)
  {
    PaymentShownForever(r, i, j, t, text, order);
    ConvertedOrderRoundTrip(texts, order);
  }

  /** Once a Cancel has succeeded, whoever reads the order from the server decodes CANCELLED and no payment. */
  lemma CancellationReachesClient(texts: Texts, r: Run, i: nat, j: nat, t: nat, order: Order)
    requires Faithful(texts) && IsRun(r) && i <= j <= |r.actions|
    requires t < |r.states[i].threads| && r.states[i].threads[t].pc == Returned(CancelSucceeded)
    requires r.states[i].threads[t].call.order == order.orderUuid && ReadFrom(r.states[j].store, order)
    ensures var read := Meaning(texts, FieldsFor(texts, OrderToDto(order), ALL_KEYS));
      && read.Decoded?
      && read.dto.status == "CANCELLED" && !read.dto.transaction.isSet && !read.dto.paymentMethod.isSet
  {
    CancellationShownForever(r, i, j, t, order);
    ConvertedOrderRoundTrip(texts, order);
  }
}
