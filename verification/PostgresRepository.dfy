/** The PostgreSQL repository: orders and their items in two tables. */
module PostgresRepositories {
  import opened Domain
  import opened OrderRebuild
  import opened OrderStore

  datatype ItemRow = ItemRow(partType: PartType, price: Int64)

  /** The order_items table by its primary key (order, part). */
  type ItemTable = map<(Uuid, Uuid), ItemRow>

  function RowOfItem(item: OrderItem): ItemRow {
    ItemRow(item.partType, item.price)
  }

  predicate DistinctParts(items: seq<OrderItem>) {
    forall i, j :: 0 <= i < j < |items| ==> items[i].partUuid != items[j].partUuid
  }

  /** `items` lists the rows of one order, each exactly once, in some order. */
  ghost predicate ListsItems(table: ItemTable, id: Uuid, items: seq<OrderItem>) {
    && DistinctParts(items)
    && (forall x :: x in items ==> (id, x.partUuid) in table && table[(id, x.partUuid)] == RowOfItem(x))
    && (forall p :: (id, p) in table ==> exists x :: x in items && x.partUuid == p)
  }

  /** What the two SELECTs of Get put together before the order is rebuilt. */
  function Stored(id: Uuid, row: OrderRow, items: seq<OrderItem>): Order {
    Order(id, NIL_UUID, NIL_UUID, None, None, 0, row.transaction, row.paymentMethod, row.status, row.createdAt, items)
  }

  /** The two columns an updated order is returned with. */
  function PartialOrder(id: Uuid, status: OrderStatus): Order {
    Order(id, NIL_UUID, NIL_UUID, None, None, 0, None, None, status, 0, [])
  }

  ghost predicate ForeignKey(orders: Store, table: ItemTable) {
    forall k :: k in table ==> k.0 in orders
  }

  /** The rows the item loop of Create has inserted. */
  function Inserted(table: ItemTable, id: Uuid, items: seq<OrderItem>): ItemTable {
    if items == [] then table
    else Inserted(table, id, items[..|items| - 1])[(id, items[|items| - 1].partUuid) := RowOfItem(items[|items| - 1])]
  }

  lemma {:induction false} InsertedKeys(table: ItemTable, id: Uuid, items: seq<OrderItem>)
    ensures forall k :: k in Inserted(table, id, items) <==>
      k in table || (k.0 == id && exists x :: x in items && x.partUuid == k.1)
    ensures forall k :: k in table && k.0 != id ==> Inserted(table, id, items)[k] == table[k]
  {
    if items != [] {
      var front, last := items[..|items| - 1], items[|items| - 1];
      InsertedKeys(table, id, front);
      assert last in items && items == front + [last];
      forall k ensures k in Inserted(table, id, items) <==>
          k in table || (k.0 == id && exists x :: x in items && x.partUuid == k.1) {
        if k.0 == id && exists x :: x in items && x.partUuid == k.1 {
          var x :| x in items && x.partUuid == k.1;
          assert x in front || x == last;
        }
      }
    }
  }

  lemma ListsOneMore(table: ItemTable, id: Uuid, front: seq<OrderItem>, last: OrderItem)
    requires ListsItems(table, id, front) && DistinctParts(front + [last])
    ensures ListsItems(table[(id, last.partUuid) := RowOfItem(last)], id, front + [last])
  {
    var items := front + [last];
    forall x | x in front ensures x.partUuid != last.partUuid {
      var i :| 0 <= i < |front| && front[i] == x;
      assert items[i] == x && items[|front|] == last;
    }
    assert forall x :: x in items <==> x in front || x == last;
  }

  /** Inserting distinct parts for a new order stores exactly its items. */
  lemma {:induction false} InsertedLists(table: ItemTable, id: Uuid, items: seq<OrderItem>)
    requires DistinctParts(items) && forall p :: (id, p) !in table
    ensures ListsItems(Inserted(table, id, items), id, items)
  {
    if items != [] {
      var front, last := items[..|items| - 1], items[|items| - 1];
      InsertedLists(table, id, front);
      assert items == front + [last];
      ListsOneMore(Inserted(table, id, front), id, front, last);
    }
  }

  lemma DistinctNext(items: seq<OrderItem>, i: nat)
    requires i < |items| && DistinctParts(items[..i])
    ensures DistinctParts(items[..i + 1]) <==> forall x :: x in items[..i] ==> x.partUuid != items[i].partUuid
  {
  }

  /** The next item's key is taken exactly when an earlier item of the order names the same part. */
  lemma KeyTaken(table: ItemTable, id: Uuid, items: seq<OrderItem>, i: nat)
    requires i < |items| && DistinctParts(items[..i]) && forall p :: (id, p) !in table
    ensures (id, items[i].partUuid) in Inserted(table, id, items[..i]) <==> !DistinctParts(items[..i + 1])
    ensures Inserted(table, id, items[..i + 1])
      == Inserted(table, id, items[..i])[(id, items[i].partUuid) := RowOfItem(items[i])]
  {
    InsertedKeys(table, id, items[..i]);
    DistinctNext(items, i);
    assert items[..i + 1][..i] == items[..i];
  }

  class PostgresRepository {
    var orders: Store
    var items: ItemTable

    ghost predicate Valid()
      reads this
    {
      ForeignKey(orders, items)
    }

    constructor ()
      ensures Valid() && orders == map[] && items == map[]
    {
      orders, items := map[], map[];
    }

    /**
     The INSERTs of one order. `failAt` picks the statement that fails for a reason outside the tables
     (0 is the order, k the k-th item), if any; a duplicate key fails on its own.
     */
    method Insert(order: Order, failAt: Option<nat>) returns (error: Option<Error>)
      requires Valid()
      modifies this
      ensures Valid()
      ensures error.None? <==>
        && order.orderUuid !in old(orders)
        && DistinctParts(order.items)
        && (failAt.Some? ==> |order.items| < failAt.value)
      ensures error.None? ==>
        && orders == old(orders)[order.orderUuid := OrderRow(order.status, None, None, order.createdAt)]
        && items == Inserted(old(items), order.orderUuid, order.items)
      ensures error.Some? ==> error == Some(RepositoryError)
    {
      var id := order.orderUuid;
      if id in orders || failAt == Some(0) {
        return Some(RepositoryError);
      }
      orders := orders[id := OrderRow(order.status, None, None, order.createdAt)];
      assert order.items[..0] == [];
      for i := 0 to |order.items|
        invariant orders == old(orders)[id := OrderRow(order.status, None, None, order.createdAt)]
        invariant items == Inserted(old(items), id, order.items[..i])
        invariant DistinctParts(order.items[..i])
        invariant failAt.Some? ==> i < failAt.value
        invariant Valid()
      {
        var item := order.items[i];
        KeyTaken(old(items), id, order.items, i);
        if (id, item.partUuid) in items || failAt == Some(i + 1) {
          return Some(RepositoryError);
        }
        items := items[(id, item.partUuid) := RowOfItem(item)];
      }
      assert order.items[..|order.items|] == order.items;
      return None;
    }

    /** Create inside a transaction: on any error the tables are put back. */
    method Create(order: Order, failAt: Option<nat>) returns (error: Option<Error>)
      requires Valid()
      modifies this
      ensures Valid()
      ensures error.None? <==>
        && order.orderUuid !in old(orders)
        && DistinctParts(order.items)
        && (failAt.Some? ==> |order.items| < failAt.value)
      ensures error.None? ==>
        && orders == old(orders)[order.orderUuid := OrderRow(order.status, None, None, order.createdAt)]
        && items == Inserted(old(items), order.orderUuid, order.items)
        && ListsItems(items, order.orderUuid, order.items)
        && (forall k :: k in old(items) ==> k in items && items[k] == old(items)[k])
        && (forall k :: k in items && k !in old(items) ==> k.0 == order.orderUuid)
      ensures error.Some? ==> error == Some(RepositoryError) && orders == old(orders) && items == old(items)
    {
      var savedOrders, savedItems := orders, items;
      error := Insert(order, failAt);
      if error.Some? {
        orders, items := savedOrders, savedItems;
      } else {
        InsertedKeys(savedItems, order.orderUuid, order.items);
        InsertedLists(savedItems, order.orderUuid, order.items);
      }
    }

    /** The rows of one order, in whatever order the database delivers them. */
    method SelectItems(id: Uuid) returns (result: seq<OrderItem>)
      ensures ListsItems(items, id, result)
    {
      result := [];
      var rest := set k | k in items && k.0 == id;
      while rest != {}
        invariant forall k :: k in rest ==> k in items && k.0 == id
        invariant DistinctParts(result)
        invariant forall x :: x in result ==>
          (id, x.partUuid) in items && items[(id, x.partUuid)] == RowOfItem(x) && (id, x.partUuid) !in rest
        invariant forall p :: (id, p) in items && (id, p) !in rest ==> exists x :: x in result && x.partUuid == p
        decreases |rest|
      {
        var k :| k in rest;
        var item := OrderItem(k.1, items[k].partType, items[k].price);
        ghost var before := result;
        assert forall j :: 0 <= j < |before| ==> before[j] in before;
        result := result + [item];
        rest := rest - {k};
        forall p | (id, p) in items && (id, p) !in rest ensures exists x :: x in result && x.partUuid == p {
          if p == k.1 {
            assert result[|before|] == item;
          } else {
            var x :| x in before && x.partUuid == p;
            assert x in result;
          }
        }
      }
    }

    method Get(id: Uuid) returns (r: Result<Order, Error>)
      ensures id !in orders ==> r == Err(OrderNotFound)
      ensures id in orders ==>
        && r.Ok?
        && ListsItems(items, id, r.value.items)
        && r.value == Rebuilt(Stored(id, orders[id], r.value.items))
    {
      if id !in orders {
        return Err(OrderNotFound);
      }
      var rows := SelectItems(id);
      var order := OrderToModel(Stored(id, orders[id], rows));
      return Ok(order);
    }

    method StartPayment(id: Uuid) returns (r: Result<(Order, bool), Error>)
      requires Valid()
      modifies this`orders
      ensures Valid() && orders == StartUpdate(old(orders), id)
      ensures Answers(r, id, old(Guard(orders, id, PendingPayment)), PartialOrder(id, PaymentProcessing))
    {
      var affected := id in orders && orders[id].status == PendingPayment;
      if affected {
        orders := orders[id := orders[id].(status := PaymentProcessing)];
      }
      if !affected {
        r := ReadMissed(id);
      } else {
        r := Ok((PartialOrder(id, PaymentProcessing), true));
      }
    }

    method FinishPayment(id: Uuid, tx: Uuid, m: PaymentMethod) returns (r: Result<(Order, bool), Error>)
      requires Valid()
      modifies this`orders
      ensures Valid() && orders == FinishUpdate(old(orders), id, tx, m)
      ensures Answers(r, id, old(Guard(orders, id, PaymentProcessing)),
        PartialOrder(id, Paid).(transaction := Some(tx), paymentMethod := Some(m)))
    {
      var affected := id in orders && orders[id].status == PaymentProcessing;
      if affected {
        orders := orders[id := orders[id].(status := Paid, transaction := Some(tx), paymentMethod := Some(m))];
      }
      if !affected {
        r := ReadMissed(id);
      } else {
        r := Ok((PartialOrder(id, Paid).(transaction := Some(tx), paymentMethod := Some(m)), true));
      }
    }

    method ResetPayment(id: Uuid) returns (error: Option<Error>)
      requires Valid()
      modifies this`orders
      ensures Valid() && orders == ResetUpdate(old(orders), id)
      ensures error == if id in orders then None else Some(OrderNotFound)
    {
      var affected := id in orders && orders[id].status == PaymentProcessing;
      if affected {
        orders := orders[id := orders[id].(status := PendingPayment)];
      }
      if affected {
        return None;
      }
      var exist := id in orders;
      if !exist {
        return Some(OrderNotFound);
      }
      return None;
    }

    method Cancel(id: Uuid) returns (r: Result<(Order, bool), Error>)
      requires Valid()
      modifies this`orders
      ensures Valid() && orders == CancelUpdate(old(orders), id)
      ensures Answers(r, id, old(Guard(orders, id, PendingPayment)), PartialOrder(id, Cancelled))
    {
      var affected := id in orders && orders[id].status == PendingPayment;
      if affected {
        orders := orders[id := orders[id].(status := Cancelled)];
      }
      if !affected {
        r := ReadMissed(id);
      } else {
        r := Ok((PartialOrder(id, Cancelled), true));
      }
    }

    /** The second statement of an update that changed no row. */
    method ReadMissed(id: Uuid) returns (r: Result<(Order, bool), Error>)
      ensures Answers(r, id, false, PartialOrder(id, PendingPayment))
    {
      var got := Get(id);
      match got
      case Ok(order) => r := Ok((order, false));
      case Err(e) => r := Err(e);
    }

    /** A changed order is answered in part, an unchanged one in full, an absent one with an error. */
    ghost predicate Answers(r: Result<(Order, bool), Error>, id: Uuid, changed: bool, part: Order)
      reads this
    {
      if changed then r == Ok((part, true))
      else if id !in orders then r == Err(OrderNotFound)
      else
        && r.Ok? && !r.value.1
        && ListsItems(items, id, r.value.0.items)
        && r.value.0 == Rebuilt(Stored(id, orders[id], r.value.0.items))
    }
  }
}
