/** The two-table repository simulates the in-memory one. */
module RepositorySimulation {
  import opened Domain
  import opened OrderRebuild
  import opened OrderStore
  import opened MemoryRepositories
  import opened PostgresRepositories

  /** An order both repositories can hold: it has items, and its parts and their types are distinct. */
  ghost predicate Storable(order: Order) {
    order.items != [] && DistinctParts(order.items) && OnePartPerType(order.items)
  }

  /** The tables hold the same orders as the records: the same rows, and the same items in any order. */
  ghost predicate Simulates(orders: Orders, rows: Store, table: ItemTable) {
    && Rows(orders) == rows
    && ForeignKey(rows, table)
    && forall id :: id in orders ==>
      orders[id].orderUuid == id && Storable(orders[id]) && ListsItems(table, id, orders[id].items)
  }

  /** Two orders that differ at most in the order of their items. */
  ghost predicate SameOrder(a: Order, b: Order) {
    a == b.(items := a.items) && multiset(a.items) == multiset(b.items)
  }

  // ----- Reading -----

  lemma ListedItemsAgree(table: ItemTable, id: Uuid, a: seq<OrderItem>, b: seq<OrderItem>)
    requires ListsItems(table, id, a) && ListsItems(table, id, b)
    ensures forall x :: x in a ==> x in b
  {
  }

  lemma {:induction false} DistinctItemsCountOnce(items: seq<OrderItem>, x: OrderItem)
    requires DistinctParts(items)
    ensures multiset(items)[x] == if x in items then 1 else 0
  {
    if items != [] {
      var front, last := items[..|items| - 1], items[|items| - 1];
      assert items == front + [last];
      DistinctItemsCountOnce(front, x);
      if x in front {
        var i :| 0 <= i < |front| && front[i] == x;
        assert items[i].partUuid != last.partUuid;
      }
    }
  }

  /** Any two listings of the same rows are permutations of each other. */
  lemma ListingsArePermutations(table: ItemTable, id: Uuid, a: seq<OrderItem>, b: seq<OrderItem>)
    requires ListsItems(table, id, a) && ListsItems(table, id, b)
    ensures multiset(a) == multiset(b)
  {
    ListedItemsAgree(table, id, a, b);
    ListedItemsAgree(table, id, b, a);
    forall x ensures multiset(a)[x] == multiset(b)[x] {
      DistinctItemsCountOnce(a, x);
      DistinctItemsCountOnce(b, x);
    }
  }

  /** Whatever order the item rows come in, both repositories read the same order. */
  lemma ReadsAgree(orders: Orders, rows: Store, table: ItemTable, id: Uuid, listed: seq<OrderItem>)
    requires Simulates(orders, rows, table) && id in orders && ListsItems(table, id, listed)
    ensures SameOrder(Rebuilt(Stored(id, rows[id], listed)), Rebuilt(orders[id]))
  {
    var order := orders[id];
    ListingsArePermutations(table, id, listed, order.items);
    RebuiltFromPermutation(order, listed);
    assert |multiset(listed)| == |listed| && |multiset(order.items)| == |order.items|;
    assert Rebuilt(Stored(id, rows[id], listed)) == Rebuilt(order.(items := listed));
  }

  // ----- Changing -----

  /** Any change of rows alone keeps the simulation. */
  lemma RowChangesSimulate(orders: Orders, rows: Store, table: ItemTable, rows': Store)
    requires Simulates(orders, rows, table) && rows'.Keys == rows.Keys
    ensures Simulates(WithRows(orders, rows'), rows', table)
  {
  }

  /** Inserting the items of one order leaves the items of the others as they were. */
  lemma OthersStillListed(table: ItemTable, id: Uuid, items: seq<OrderItem>, other: Uuid, listed: seq<OrderItem>)
    requires other != id && ListsItems(table, other, listed)
    ensures ListsItems(Inserted(table, id, items), other, listed)
  {
  }

  lemma CreateSimulates(orders: Orders, rows: Store, table: ItemTable, order: Order)
    requires Simulates(orders, rows, table)
    requires order.orderUuid !in orders && Storable(order) && order.transaction.None? && order.paymentMethod.None?
    ensures Simulates(
      orders[order.orderUuid := order],
      rows[order.orderUuid := OrderRow(order.status, None, None, order.createdAt)],
      Inserted(table, order.orderUuid, order.items))
  {
    var id := order.orderUuid;
    var orders', table' := orders[id := order], Inserted(table, id, order.items);
    assert rows.Keys == orders.Keys;
    assert Rows(orders') == rows[id := OrderRow(order.status, None, None, order.createdAt)];
    InsertedLists(table, id, order.items);
    forall i | i in orders'
      ensures orders'[i].orderUuid == i && Storable(orders'[i]) && ListsItems(table', i, orders'[i].items)
    {
      if i != id {
        OthersStillListed(table, id, order.items, i, orders[i].items);
      }
    }
    InsertedKeys(table, id, order.items);
  }

  // ----- The same call on both repositories -----

  /** The same flag, the same error, and the same fields the service reads; an unchanged order is read in full. */
  ghost predicate SameAnswer(m: Result<(Order, bool), Error>, p: Result<(Order, bool), Error>) {
    if m.Err? then p == m
    else
      && p.Ok? && p.value.1 == m.value.1
      && p.value.0.orderUuid == m.value.0.orderUuid && p.value.0.status == m.value.0.status
      && (!m.value.1 ==> SameOrder(p.value.0, m.value.0))
  }

  twostate predicate ItemsUntouched(postgres: PostgresRepository)
    reads postgres
  {
    postgres.items == old(postgres.items)
  }

  ghost predicate InStep(memory: MemoryRepository, postgres: PostgresRepository)
    reads memory, postgres
  {
    Simulates(memory.orders, postgres.orders, postgres.items)
  }

  method CreateOnBoth(memory: MemoryRepository, postgres: PostgresRepository, order: Order)
    returns (error: Option<Error>)
    requires InStep(memory, postgres)
    requires order.transaction.None? && order.paymentMethod.None? && order.items != [] && OnePartPerType(order.items)
    modifies memory, postgres
    ensures error.None? <==> order.orderUuid !in old(memory.orders) && DistinctParts(order.items)
    ensures error.None? ==> InStep(memory, postgres)
    ensures memory.orders == old(memory.orders)[order.orderUuid := order]
    ensures error.Some? ==> postgres.orders == old(postgres.orders) && postgres.items == old(postgres.items)
  {
    ghost var orders, rows, table := memory.orders, postgres.orders, postgres.items;
    assert rows.Keys == orders.Keys;
    memory.Create(order);
    error := postgres.Create(order, None);
    if error.None? {
      CreateSimulates(orders, rows, table, order);
    }
  }

  method GetOnBoth(memory: MemoryRepository, postgres: PostgresRepository, id: Uuid)
    returns (m: Result<Order, Error>, p: Result<Order, Error>)
    requires InStep(memory, postgres)
    ensures if m.Err? then p == m else p.Ok? && SameOrder(p.value, m.value)
    ensures m.Ok? <==> id in memory.orders
  {
    assert postgres.orders.Keys == memory.orders.Keys;
    m := memory.Get(id);
    p := postgres.Get(id);
    if id in memory.orders {
      ReadsAgree(memory.orders, postgres.orders, postgres.items, id, p.value.items);
    }
  }

  /** The answers of an update that found both repositories in step. */
  lemma AnswersAgree(memory: MemoryRepository, postgres: PostgresRepository, id: Uuid, changed: bool, part: Order,
                     m: Result<(Order, bool), Error>, p: Result<(Order, bool), Error>)
    requires InStep(memory, postgres)
    requires postgres.Answers(p, id, changed, part)
    requires m == if id in memory.orders then Ok((Rebuilt(memory.orders[id]), changed)) else Err(OrderNotFound)
    requires changed ==> id in memory.orders && part.orderUuid == id && part.status == memory.orders[id].status
    ensures SameAnswer(m, p)
  {
    assert postgres.orders.Keys == memory.orders.Keys;
    if id in memory.orders && !changed {
      ReadsAgree(memory.orders, postgres.orders, postgres.items, id, p.value.0.items);
    }
  }

  method StartOnBoth(memory: MemoryRepository, postgres: PostgresRepository, id: Uuid)
    returns (m: Result<(Order, bool), Error>, p: Result<(Order, bool), Error>)
    requires InStep(memory, postgres)
    modifies memory, postgres
    ensures InStep(memory, postgres) && SameAnswer(m, p) && ItemsUntouched(postgres)
    ensures postgres.orders == StartUpdate(old(postgres.orders), id)
  {
    ghost var orders, rows := memory.orders, postgres.orders;
    assert rows.Keys == orders.Keys;
    m := memory.StartPayment(id);
    p := postgres.StartPayment(id);
    RowChangesSimulate(orders, rows, postgres.items, postgres.orders);
    AnswersAgree(memory, postgres, id, Guard(rows, id, PendingPayment), PartialOrder(id, PaymentProcessing), m, p);
  }

  method FinishOnBoth(memory: MemoryRepository, postgres: PostgresRepository, id: Uuid, tx: Uuid,
                      payMethod: PaymentMethod)
    returns (m: Result<(Order, bool), Error>, p: Result<(Order, bool), Error>)
    requires InStep(memory, postgres)
    modifies memory, postgres
    ensures InStep(memory, postgres) && SameAnswer(m, p) && ItemsUntouched(postgres)
    ensures postgres.orders == FinishUpdate(old(postgres.orders), id, tx, payMethod)
  {
    ghost var orders, rows := memory.orders, postgres.orders;
    assert rows.Keys == orders.Keys;
    m := memory.FinishPayment(id, tx, payMethod);
    p := postgres.FinishPayment(id, tx, payMethod);
    RowChangesSimulate(orders, rows, postgres.items, postgres.orders);
    AnswersAgree(memory, postgres, id, Guard(rows, id, PaymentProcessing),
      PartialOrder(id, Paid).(transaction := Some(tx), paymentMethod := Some(payMethod)), m, p);
  }

  method ResetOnBoth(memory: MemoryRepository, postgres: PostgresRepository, id: Uuid)
    returns (m: Option<Error>, p: Option<Error>)
    requires InStep(memory, postgres)
    modifies memory, postgres
    ensures InStep(memory, postgres) && m == p && ItemsUntouched(postgres)
    ensures postgres.orders == ResetUpdate(old(postgres.orders), id)
  {
    ghost var orders, rows := memory.orders, postgres.orders;
    assert rows.Keys == orders.Keys;
    m := memory.ResetPayment(id);
    p := postgres.ResetPayment(id);
    RowChangesSimulate(orders, rows, postgres.items, postgres.orders);
  }

  method CancelOnBoth(memory: MemoryRepository, postgres: PostgresRepository, id: Uuid)
    returns (m: Result<(Order, bool), Error>, p: Result<(Order, bool), Error>)
    requires InStep(memory, postgres)
    modifies memory, postgres
    ensures InStep(memory, postgres) && SameAnswer(m, p) && ItemsUntouched(postgres)
    ensures postgres.orders == CancelUpdate(old(postgres.orders), id)
  {
    ghost var orders, rows := memory.orders, postgres.orders;
    assert rows.Keys == orders.Keys;
    m := memory.Cancel(id);
    p := postgres.Cancel(id);
    RowChangesSimulate(orders, rows, postgres.items, postgres.orders);
    AnswersAgree(memory, postgres, id, Guard(rows, id, PendingPayment), PartialOrder(id, Cancelled), m, p);
  }

  /**
   Why items must not be empty: without items the tables lose the parts and the total, so the two
   repositories read the same order only if it had none of them.
   */
  lemma OrderWithoutItems(order: Order, table: ItemTable)
    requires order.items == [] && ListsItems(table, order.orderUuid, [])
    ensures SameOrder(Rebuilt(Stored(order.orderUuid, RowOf(order), [])), Rebuilt(order)) <==>
      order.hull == NIL_UUID && order.engine == NIL_UUID && order.shield.None? && order.weapon.None?
      && order.totalPrice == 0
  {
  }
}
