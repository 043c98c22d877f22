/**
 * Order status update: the status is overwritten with whatever string the caller sends; no
 * transition rule is checked.
 */
module UpdateOrderStatusHandler {
  import opened Wrappers
  import opened Domain
  import opened Persistence

  /** The `InvalidOperationException` thrown for an unknown order. */
  datatype UpdateOrderStatusError = OrderNotFound(orderId: int)

  method UpdateOrderStatus(store: Store, orderId: int, status: string) returns (r: Result<Order, UpdateOrderStatusError>)
    requires store.Valid()
    modifies store
    ensures store.Valid()
    ensures orderId !in old(store.orders) ==> r == Failure(OrderNotFound(orderId)) && unchanged(store)
    ensures orderId in old(store.orders) ==>
      && r == Success(old(store.orders)[orderId].(status := status))
      && store.orders == old(store.orders)[orderId := r.value]
      && store.listings == old(store.listings)
      && store.orderItems == old(store.orderItems)
      && store.nextOrderId == old(store.nextOrderId)
      && store.nextOrderItemId == old(store.nextOrderItemId)
  {
    if orderId !in store.orders {
      return Failure(OrderNotFound(orderId));
    }
    var order := store.orders[orderId].(status := status);
    store.orders := store.orders[orderId := order];
    r := Success(store.orders[orderId]);
  }

  /** Any status may follow any other: a shipped order can go back to "Pending". */
  method NoTransitionRule(store: Store, orderId: int)
    requires store.Valid()
    requires orderId in store.orders
    modifies store
    ensures orderId in store.orders && store.orders[orderId].status == PendingStatus
  {
    var shipped := UpdateOrderStatus(store, orderId, "Shipped");
    var pending := UpdateOrderStatus(store, orderId, PendingStatus);
  }
}
