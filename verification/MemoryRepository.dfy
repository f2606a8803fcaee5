/** The in-memory repository: one record per order, every method one atomic step. */
module MemoryRepositories {
  import opened Domain
  import opened OrderRebuild
  import opened OrderStore

  type Orders = map<Uuid, Order>

  function RowOf(order: Order): OrderRow {
    OrderRow(order.status, order.transaction, order.paymentMethod, order.createdAt)
  }

  /** The part of the records that payments and cancellations change. */
  function Rows(orders: Orders): Store {
    map id | id in orders :: RowOf(orders[id])
  }

  function WithRow(order: Order, row: OrderRow): Order {
    order.(status := row.status, transaction := row.transaction, paymentMethod := row.paymentMethod,
           createdAt := row.createdAt)
  }

  /** The same records with new rows: parts, totals and items stay. */
  function WithRows(orders: Orders, rows: Store): Orders
    requires rows.Keys == orders.Keys
  {
    map id | id in orders :: WithRow(orders[id], rows[id])
  }

  /** Reading the rows back out of updated records gives exactly the new rows. */
  lemma RowsOfWithRows(orders: Orders, rows: Store)
    requires rows.Keys == orders.Keys
    ensures Rows(WithRows(orders, rows)) == rows
    ensures WithRows(orders, Rows(orders)) == orders
  {
  }

  class MemoryRepository {
    var orders: Orders

    constructor ()
      ensures orders == map[]
    {
      orders := map[];
    }

    method Create(order: Order)
      modifies this
      ensures orders == old(orders)[order.orderUuid := order]
    {
      orders := orders[order.orderUuid := order];
    }

    method Get(id: Uuid) returns (r: Result<Order, Error>)
      ensures r == if id in orders then Ok(Rebuilt(orders[id])) else Err(OrderNotFound)
    {
      if id !in orders {
        return Err(OrderNotFound);
      }
      var order := OrderToModel(orders[id]);
      return Ok(order);
    }

    /** The pair is the order as it is now and whether this call changed it. */
    method StartPayment(id: Uuid) returns (r: Result<(Order, bool), Error>)
      modifies this
      ensures orders == WithRows(old(orders), StartUpdate(Rows(old(orders)), id))
      ensures r == if id in orders
        then Ok((Rebuilt(orders[id]), Guard(Rows(old(orders)), id, PendingPayment))) else Err(OrderNotFound)
    {
      RowsOfWithRows(orders, Rows(orders));
      if id !in orders {
        return Err(OrderNotFound);
      }
      var order := orders[id];
      if order.status != PendingPayment {
        var same := OrderToModel(order);
        return Ok((same, false));
      }
      order := order.(status := PaymentProcessing);
      orders := orders[id := order];
      var result := OrderToModel(order);
      return Ok((result, true));
    }

    method FinishPayment(id: Uuid, tx: Uuid, m: PaymentMethod) returns (r: Result<(Order, bool), Error>)
      modifies this
      ensures orders == WithRows(old(orders), FinishUpdate(Rows(old(orders)), id, tx, m))
      ensures r == if id in orders
        then Ok((Rebuilt(orders[id]), Guard(Rows(old(orders)), id, PaymentProcessing))) else Err(OrderNotFound)
    {
      RowsOfWithRows(orders, Rows(orders));
      if id !in orders {
        return Err(OrderNotFound);
      }
      var order := orders[id];
      if order.status != PaymentProcessing {
        var same := OrderToModel(order);
        return Ok((same, false));
      }
      order := order.(status := Paid, transaction := Some(tx), paymentMethod := Some(m));
      orders := orders[id := order];
      var result := OrderToModel(order);
      return Ok((result, true));
    }

    method ResetPayment(id: Uuid) returns (error: Option<Error>)
      modifies this
      ensures orders == WithRows(old(orders), ResetUpdate(Rows(old(orders)), id))
      ensures error == if id in orders then None else Some(OrderNotFound)
    {
      RowsOfWithRows(orders, Rows(orders));
      if id !in orders {
        return Some(OrderNotFound);
      }
      var order := orders[id];
      if order.status == PaymentProcessing {
        order := order.(status := PendingPayment);
        orders := orders[id := order];
      }
      return None;
    }

    method Cancel(id: Uuid) returns (r: Result<(Order, bool), Error>)
      modifies this
      ensures orders == WithRows(old(orders), CancelUpdate(Rows(old(orders)), id))
      ensures r == if id in orders
        then Ok((Rebuilt(orders[id]), Guard(Rows(old(orders)), id, PendingPayment))) else Err(OrderNotFound)
    {
      RowsOfWithRows(orders, Rows(orders));
      if id !in orders {
        return Err(OrderNotFound);
      }
      var order := orders[id];
      if order.status != PendingPayment {
        var same := OrderToModel(order);
        return Ok((same, false));
      }
      order := order.(status := Cancelled);
      orders := orders[id := order];
      var result := OrderToModel(order);
      return Ok((result, true));
    }
  }
}
