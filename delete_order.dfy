/** Order deletion: a missing order answers false; otherwise the order row is removed. */
module DeleteOrderHandler {
  import opened Domain
  import opened Persistence

  method DeleteOrder(store: Store, id: int) returns (deleted: bool)
    requires store.Valid()
    modifies store
    ensures store.Valid()
    ensures deleted == (id in old(store.orders))
    ensures !deleted ==> unchanged(store)
    ensures deleted ==>
      && store.orders == old(store.orders) - {id}
      && store.listings == old(store.listings)
      && store.orderItems == old(store.orderItems)
      && store.nextOrderId == old(store.nextOrderId)
      && store.nextOrderItemId == old(store.nextOrderItemId)
  {
    if id !in store.orders {
      return false;
    }
    store.orders := store.orders - {id};
    deleted := true;
  }

  /** Deleting the same existing order twice answers true, then false. */
  method DeleteTwice(store: Store, id: int) returns (first: bool, second: bool)
    requires store.Valid()
    requires id in store.orders
    modifies store
    ensures first && !second
    ensures store.orders == old(store.orders) - {id}
  {
    first := DeleteOrder(store, id);
    second := DeleteOrder(store, id);
  }
}
