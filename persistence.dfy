/**
 * The unit of work behind every handler: one table per entity, keyed by id, and the next
 * identity value the database hands out for orders and order items.
 */
module Persistence {
  import opened Domain

  class Store {
    var listings: map<int, Listing>
    var orders: map<int, Order>
    var orderItems: map<int, OrderItem>
    var nextOrderId: int
    var nextOrderItemId: int

    /** Every row is stored under its own id, and identity values are never reused. */
    ghost predicate Valid()
      reads this
    {
      && (forall id :: id in listings ==> listings[id].id == id)
      && (forall id :: id in orders ==> orders[id].id == id && id < nextOrderId)
      && (forall id :: id in orderItems ==> orderItems[id].id == id && id < nextOrderItemId)
    }

    constructor (listings: map<int, Listing>)
      requires forall id :: id in listings ==> listings[id].id == id
      ensures Valid()
      ensures this.listings == listings && orders == map[] && orderItems == map[]
      ensures nextOrderId == 1 && nextOrderItemId == 1
    {
      this.listings := listings;
      orders := map[];
      orderItems := map[];
      nextOrderId := 1;
      nextOrderItemId := 1;
    }
  }
}
