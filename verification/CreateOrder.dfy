/** OrderService.Create: pricing the requested parts and storing the order. */
module CreateOrders {
  import opened Domain
  import opened OrderRebuild
  import opened OrderStore
  import opened Inventory
  import opened MemoryRepositories
  import opened PostgresRepositories
  import RepositorySimulation

  datatype CreateOrderInput = CreateOrderInput(
    hull: Uuid, engine: Uuid, shield: Option<Uuid>, weapon: Option<Uuid>)

  datatype CreateOrderResult = CreateOrderResult(orderUuid: Uuid, totalPrice: Int64)

  datatype RequestedPart = RequestedPart(uuid: Uuid, partType: PartType)

  /** What the input asks for: hull, engine, then shield and weapon if given. */
  function Requested(input: CreateOrderInput): seq<RequestedPart> {
    [RequestedPart(input.hull, Hull), RequestedPart(input.engine, Engine)]
    + (if input.shield.Some? then [RequestedPart(input.shield.value, Shield)] else [])
    + (if input.weapon.Some? then [RequestedPart(input.weapon.value, Weapon)] else [])
  }

  ghost predicate Asks(input: CreateOrderInput, u: Uuid) {
    u == input.hull || u == input.engine || input.shield == Some(u) || input.weapon == Some(u)
  }

  /** Every requested UUID is in the catalogue. */
  ghost predicate AllListed(input: CreateOrderInput, parts: Parts) {
    forall u :: Asks(input, u) ==> u in parts
  }

  ghost predicate AllInStock(input: CreateOrderInput, parts: Parts) {
    forall u :: Asks(input, u) && u in parts ==> parts[u].stockQuantity > 0
  }

  /** No part is asked for twice. */
  ghost predicate AsksDistinct(input: CreateOrderInput) {
    && input.hull != input.engine
    && input.shield != Some(input.hull) && input.shield != Some(input.engine)
    && input.weapon != Some(input.hull) && input.weapon != Some(input.engine)
    && (input.shield.Some? ==> input.shield != input.weapon)
  }

  lemma RequestedIsAsked(input: CreateOrderInput, u: Uuid)
    ensures Asks(input, u) <==> exists q :: q in Requested(input) && q.uuid == u
  {
    var all := Requested(input);
    if input.hull == u { assert all[0] in all; }
    if input.engine == u { assert all[1] in all; }
    if input.shield == Some(u) { assert all[2] in all; }
    if input.weapon == Some(u) { assert all[|all| - 1] in all; }
  }

  /** The items carry the requested parts in order, each at its price in `priced`. */
  ghost predicate Priced(items: seq<OrderItem>, requested: seq<RequestedPart>, priced: map<Uuid, Part>) {
    && |items| == |requested|
    && forall i :: 0 <= i < |items| ==>
      && items[i].partUuid == requested[i].uuid
      && items[i].partType == requested[i].partType
      && requested[i].uuid in priced
      && items[i].price == priced[requested[i].uuid].price
  }

  /** The parts the client returned, indexed by UUID: the last one wins. */
  function Index(parts: seq<Part>): map<Uuid, Part> {
    if parts == [] then map[]
    else Index(parts[..|parts| - 1])[parts[|parts| - 1].uuid := parts[|parts| - 1]]
  }

  lemma {:induction false} IndexFinds(parts: seq<Part>, u: Uuid)
    ensures u in Index(parts) <==> exists p :: p in parts && p.uuid == u
    ensures u in Index(parts) ==> Index(parts)[u] in parts && Index(parts)[u].uuid == u
  {
    if parts != [] {
      var front, last := parts[..|parts| - 1], parts[|parts| - 1];
      IndexFinds(front, u);
      assert parts == front + [last];
      if p :| p in parts && p.uuid == u {
        assert p in front || p == last;
      }
    }
  }

  /** The pricing part of Create, for whatever parts the client returned. */
  method PriceItems(requested: seq<RequestedPart>, parts: seq<Part>)
    returns (r: Result<(seq<OrderItem>, Int64), Error>)
    ensures r == Err(OutOfStock) <==> exists p :: p in parts && p.stockQuantity <= 0
    ensures r == Err(PartNotFound) <==>
      && (forall p :: p in parts ==> p.stockQuantity > 0)
      && exists q :: q in requested && q.uuid !in Index(parts)
    ensures r.Ok? ==> Priced(r.value.0, requested, Index(parts)) && r.value.1 == Wrap(PriceSum(r.value.0))
    ensures r.Err? ==> r.error == OutOfStock || r.error == PartNotFound
  {
    var partByUuid: map<Uuid, Part> := map[];
    for i := 0 to |parts|
      invariant partByUuid == Index(parts[..i])
      invariant forall p :: p in parts[..i] ==> p.stockQuantity > 0
    {
      assert parts[..i + 1][..i] == parts[..i];
      if parts[i].stockQuantity <= 0 {
        assert parts[i] in parts;
        return Err(OutOfStock);
      }
      partByUuid := partByUuid[parts[i].uuid := parts[i]];
    }
    assert parts[..|parts|] == parts;
    var items: seq<OrderItem> := [];
    var totalPrice: Int64 := 0;
    for i := 0 to |requested|
      invariant Priced(items, requested[..i], partByUuid)
      invariant totalPrice == Wrap(PriceSum(items))
    {
      if requested[i].uuid !in partByUuid {
        assert requested[i] in requested;
        return Err(PartNotFound);
      }
      var item := OrderItem(requested[i].uuid, requested[i].partType, partByUuid[requested[i].uuid].price);
      WrapAbsorbs(PriceSum(items), item.price as int);
      assert (items + [item])[..|items|] == items;
      items := items + [item];
      totalPrice := AddInt64(totalPrice, item.price);
    }
    assert requested[..|requested|] == requested;
    return Ok((items, totalPrice));
  }

  /** The order is the one the input asks for at the catalogue's prices. */
  ghost predicate Prices(order: Order, input: CreateOrderInput, parts: Parts) {
    && order.hull == input.hull && order.engine == input.engine
    && order.shield == input.shield && order.weapon == input.weapon
    && order.status == PendingPayment && order.transaction.None? && order.paymentMethod.None?
    && MadeByCreate(order)
    && forall i :: 0 <= i < |order.items| ==>
      && order.items[i].partUuid in parts
      && order.items[i].price == parts[order.items[i].partUuid].price
  }

  lemma PricedMakesOrder(order: Order, input: CreateOrderInput, priced: map<Uuid, Part>)
    requires Priced(order.items, Requested(input), priced)
    requires order.totalPrice == Wrap(PriceSum(order.items))
    requires order.hull == input.hull && order.engine == input.engine
    requires order.shield == input.shield && order.weapon == input.weapon
    ensures MadeByCreate(order)
    ensures DistinctParts(order.items) <==> AsksDistinct(input)
  {
  }

  /** Why an order is refused before it is stored, if it is. */
  ghost function Refusal(input: CreateOrderInput, parts: Parts, callFails: bool): Option<Error> {
    if Asks(input, NIL_UUID) then Some(InvalidUuid)
    else if callFails then Some(InventoryError)
    else if !AllListed(input, parts) then Some(PartNotFound)
    else if !AllInStock(input, parts) then Some(OutOfStock)
    else None
  }

  function PriceIn(parts: Parts, u: Option<Uuid>): int {
    if u.Some? && u.value in parts then parts[u.value].price as int else 0
  }

  /** The sum of the catalogue prices of the parts asked for. */
  function CatalogueSum(input: CreateOrderInput, parts: Parts): int {
    PriceIn(parts, Some(input.hull)) + PriceIn(parts, Some(input.engine))
    + PriceIn(parts, input.shield) + PriceIn(parts, input.weapon)
  }

  /** The total of a created order is the wrapped sum of the catalogue prices, and the sum itself if it fits. */
  lemma TotalIsCatalogueSum(order: Order, input: CreateOrderInput, parts: Parts)
    requires Prices(order, input, parts)
    ensures order.totalPrice == Wrap(CatalogueSum(input, parts))
    ensures (order.totalPrice as int - CatalogueSum(input, parts)) % 0x1_0000_0000_0000_0000 == 0
    ensures -0x8000_0000_0000_0000 <= CatalogueSum(input, parts) < 0x8000_0000_0000_0000 ==>
      order.totalPrice as int == CatalogueSum(input, parts)
  {
    var items := order.items;
    assert items[..1][..0] == [] && items[..2][..1] == items[..1];
    assert PriceSum(items[..0]) == 0 && PriceSum(items[..1]) == items[0].price as int;
    assert PriceSum(items[..2]) == PriceIn(parts, Some(input.hull)) + PriceIn(parts, Some(input.engine));
    if |items| >= 3 {
      assert items[..3][..2] == items[..2] && items[2..][0] == items[2];
    }
    if |items| == 4 {
      assert items[..4][..3] == items[..3] && items[2..][1] == items[3];
    }
    assert items[..|items|] == items;
    assert PriceSum(items) == CatalogueSum(input, parts);
    WrapIsCongruent(CatalogueSum(input, parts));
  }

  /** The list of requested parts and their UUIDs. */
  method ListRequested(input: CreateOrderInput) returns (requestedParts: seq<RequestedPart>, partUuids: seq<Uuid>)
    ensures requestedParts == Requested(input)
    ensures partUuids != [] && forall u :: u in partUuids <==> Asks(input, u)
  {
    requestedParts := [RequestedPart(input.hull, Hull), RequestedPart(input.engine, Engine)];
    if input.shield.Some? {
      requestedParts := requestedParts + [RequestedPart(input.shield.value, Shield)];
    }
    if input.weapon.Some? {
      requestedParts := requestedParts + [RequestedPart(input.weapon.value, Weapon)];
    }
    assert requestedParts == Requested(input);
    partUuids := [];
    for i := 0 to |requestedParts|
      invariant |partUuids| == i
      invariant forall j :: 0 <= j < i ==> partUuids[j] == requestedParts[j].uuid
    {
      partUuids := partUuids + [requestedParts[i].uuid];
    }
    AskedUuids(input, partUuids);
  }

  /**
   Everything Create does before it stores the order. A nil UUID is refused first, even if the call
   of InventoryService would fail; then a part that is not in the catalogue, and only then a part that
   is out of stock.
   */
  method BuildOrder(input: CreateOrderInput, inventory: PartRepository, callFails: bool, orderUuid: Uuid, now: Time)
    returns (r: Result<Order, Error>)
    requires Inventory.Keyed(inventory.parts)
    ensures r.Ok? <==> Refusal(input, inventory.parts, callFails).None?
    ensures r.Err? ==> Refusal(input, inventory.parts, callFails) == Some(r.error)
    ensures r.Ok? ==> Prices(r.value, input, inventory.parts)
    ensures r.Ok? ==> r.value.orderUuid == orderUuid && r.value.createdAt == now
    ensures r.Ok? ==> (DistinctParts(r.value.items) <==> AsksDistinct(input))
  {
    if input.hull == NIL_UUID || input.engine == NIL_UUID {
      return Err(InvalidUuid);
    }
    if input.shield == Some(NIL_UUID) {
      return Err(InvalidUuid);
    }
    if input.weapon == Some(NIL_UUID) {
      return Err(InvalidUuid);
    }
    var requestedParts, partUuids := ListRequested(input);
    var fetched := FetchParts(inventory, partUuids, callFails);
    if fetched.Err? {
      return Err(fetched.error);
    }
    FetchedIndex(input, partUuids, fetched.value, inventory.parts);
    var priced := PriceItems(requestedParts, fetched.value);
    if priced.Err? {
      return Err(priced.error);
    }
    var order := Order(orderUuid, input.hull, input.engine, input.shield, input.weapon, priced.value.1,
      None, None, PendingPayment, now, priced.value.0);
    PricedMakesOrder(order, input, Index(fetched.value));
    return Ok(order);
  }

  lemma AskedUuids(input: CreateOrderInput, uuids: seq<Uuid>)
    requires |uuids| == |Requested(input)|
    requires forall j :: 0 <= j < |uuids| ==> uuids[j] == Requested(input)[j].uuid
    ensures forall u :: u in uuids <==> Asks(input, u)
  {
    forall u ensures u in uuids <==> Asks(input, u) {
      RequestedIsAsked(input, u);
      if q :| q in Requested(input) && q.uuid == u {
        var k :| 0 <= k < |uuids| && Requested(input)[k] == q;
        assert uuids[k] == u;
      }
    }
  }

  /** What the client returned, seen through the index: exactly the asked parts, as the catalogue has them. */
  lemma FetchedIndex(input: CreateOrderInput, uuids: seq<Uuid>, fetched: seq<Part>, parts: Parts)
    requires Inventory.Keyed(parts)
    requires forall u :: u in uuids <==> Asks(input, u)
    requires forall u :: u in uuids ==> u in parts
    requires |fetched| == |uuids| && forall i :: 0 <= i < |uuids| ==> fetched[i] == OrderedPart(parts[uuids[i]])
    ensures AllListed(input, parts)
    ensures forall u :: u in Index(fetched) <==> Asks(input, u)
    ensures forall u :: u in Index(fetched) ==> u in parts && Index(fetched)[u] == OrderedPart(parts[u])
    ensures (exists p :: p in fetched && p.stockQuantity <= 0) <==> !AllInStock(input, parts)
    ensures forall q :: q in Requested(input) ==> q.uuid in Index(fetched)
  {
    forall p | p in fetched ensures Asks(input, p.uuid) && p.uuid in parts && p == OrderedPart(parts[p.uuid]) {
      var k :| 0 <= k < |fetched| && fetched[k] == p;
      assert uuids[k] in uuids;
    }
    forall u | Asks(input, u) ensures OrderedPart(parts[u]) in fetched {
      var k :| 0 <= k < |uuids| && uuids[k] == u;
      assert fetched[k] in fetched;
    }
    forall u ensures u in Index(fetched) <==> Asks(input, u)
      ensures u in Index(fetched) ==> u in parts && Index(fetched)[u] == OrderedPart(parts[u]) {
      IndexFinds(fetched, u);
    }
    forall q | q in Requested(input) ensures q.uuid in Index(fetched) {
      RequestedIsAsked(input, q.uuid);
    }
    if !AllInStock(input, parts) {
      var u :| Asks(input, u) && u in parts && parts[u].stockQuantity <= 0;
      assert OrderedPart(parts[u]) in fetched && OrderedPart(parts[u]).stockQuantity <= 0;
    }
  }

  /** Create over the in-memory repository. */
  method CreateInMemory(input: CreateOrderInput, inventory: PartRepository, callFails: bool, repo: MemoryRepository,
                        orderUuid: Uuid, now: Time)
    returns (r: Result<CreateOrderResult, Error>, ghost order: Order)
    requires Inventory.Keyed(inventory.parts)
    modifies repo
    ensures r.Ok? <==> Refusal(input, inventory.parts, callFails).None?
    ensures r.Err? ==> Refusal(input, inventory.parts, callFails) == Some(r.error)
    ensures r.Ok? ==> Prices(order, input, inventory.parts) && repo.orders == old(repo.orders)[orderUuid := order]
    ensures r.Ok? ==> r.value == CreateOrderResult(orderUuid, order.totalPrice) && order.orderUuid == orderUuid
    ensures r.Err? ==> repo.orders == old(repo.orders)
  {
    var built := BuildOrder(input, inventory, callFails, orderUuid, now);
    if built.Err? {
      order := Order(0, 0, 0, None, None, 0, None, None, PendingPayment, 0, []);
      return Err(built.error), order;
    }
    order := built.value;
    repo.Create(built.value);
    return Ok(CreateOrderResult(orderUuid, built.value.totalPrice)), order;
  }

  /**
   Create over PostgreSQL. Beside what the catalogue demands, the two-table store takes the order only
   if no part is asked for twice, because the items' key is (order, part).
   */
  method CreateInPostgres(input: CreateOrderInput, inventory: PartRepository, callFails: bool, repo: PostgresRepository,
                          orderUuid: Uuid, now: Time, failAt: Option<nat>)
    returns (r: Result<CreateOrderResult, Error>, ghost order: Order)
    requires Inventory.Keyed(inventory.parts) && repo.Valid()
    modifies repo
    ensures repo.Valid()
    ensures failAt.None? && orderUuid !in old(repo.orders) ==>
      (r.Ok? <==> Refusal(input, inventory.parts, callFails).None? && AsksDistinct(input))
    ensures r.Ok? ==> Refusal(input, inventory.parts, callFails).None?
    ensures r.Err? ==> (
      if Refusal(input, inventory.parts, callFails).Some?
      then Refusal(input, inventory.parts, callFails) == Some(r.error)
      else r.error == RepositoryError)
    ensures r.Ok? ==>
      && Prices(order, input, inventory.parts)
      && order.orderUuid == orderUuid && r.value == CreateOrderResult(orderUuid, order.totalPrice)
      && repo.orders == old(repo.orders)[orderUuid := NewRow(now)]
      && ListsItems(repo.items, orderUuid, order.items)
      && (forall k :: k in old(repo.items) ==> k in repo.items && repo.items[k] == old(repo.items)[k])
      && (forall k :: k in repo.items && k !in old(repo.items) ==> k.0 == orderUuid)
    ensures r.Err? ==> repo.orders == old(repo.orders) && repo.items == old(repo.items)
  {
    var built := BuildOrder(input, inventory, callFails, orderUuid, now);
    if built.Err? {
      order := Order(0, 0, 0, None, None, 0, None, None, PendingPayment, 0, []);
      return Err(built.error), order;
    }
    order := built.value;
    var error := repo.Create(built.value, failAt);
    if error.Some? {
      return Err(error.value), order;
    }
    return Ok(CreateOrderResult(orderUuid, built.value.totalPrice)), order;
  }

  /** A created order reads back from the tables with the parts asked for and the total returned, in any row order. */
  lemma CreatedOrderInTables(order: Order, input: CreateOrderInput, parts: Parts, table: ItemTable, row: OrderRow,
                             listed: seq<OrderItem>)
    requires Prices(order, input, parts)
    requires ListsItems(table, order.orderUuid, order.items) && ListsItems(table, order.orderUuid, listed)
    ensures var read := Rebuilt(Stored(order.orderUuid, row, listed));
      && read.hull == input.hull && read.engine == input.engine
      && read.shield == input.shield && read.weapon == input.weapon
      && read.totalPrice == order.totalPrice == Wrap(PriceSum(listed))
      && read.items == listed
  {
    RepositorySimulation.ListingsArePermutations(table, order.orderUuid, order.items, listed);
    CreatedOrderReadsBack(order, listed);
    assert |multiset(listed)| == |listed| && |multiset(order.items)| == |order.items|;
    assert Rebuilt(Stored(order.orderUuid, row, listed)).(
      transaction := order.transaction, paymentMethod := order.paymentMethod,
      status := order.status, createdAt := order.createdAt) == Rebuilt(order.(items := listed));
  }

  /**
   The two repositories part on one input: the same catalogue part as hull and as engine, in stock.
   Create succeeds in memory and fails in PostgreSQL.
   */
  method SamePartTwice(inventory: PartRepository, memory: MemoryRepository, postgres: PostgresRepository, u: Uuid,
                       orderUuid: Uuid)
    returns (m: Result<CreateOrderResult, Error>, p: Result<CreateOrderResult, Error>)
    requires Inventory.Keyed(inventory.parts) && u != NIL_UUID && u in inventory.parts
    requires inventory.parts[u].stockQuantity > 0
    requires postgres.Valid() && orderUuid !in postgres.orders
    modifies memory, postgres
    ensures m.Ok? && p == Err(RepositoryError)
    ensures postgres.orders == old(postgres.orders) && orderUuid in memory.orders
  {
    var input := CreateOrderInput(u, u, None, None);
    ghost var order;
    m, order := CreateInMemory(input, inventory, false, memory, orderUuid, 0);
    p, order := CreateInPostgres(input, inventory, false, postgres, orderUuid, 0, None);
  }
}
