/**
 * Listing deletion: a missing listing answers false; a listing that any order item references
 * is refused with an in-use error; otherwise the listing row is removed and the answer is true.
 */
module DeleteListingHandler {
  import opened Wrappers
  import opened Domain
  import opened Persistence

  /** The `InvalidOperationException` thrown for a listing that is part of existing orders. */
  datatype DeleteListingError = ListingInUse(listingId: int)

  /** Some order item refers to the listing; the referencing row is one of the table's values. */
  predicate IsReferenced(orderItems: map<int, OrderItem>, listingId: int)
    ensures IsReferenced(orderItems, listingId) ==>
      exists item :: item in orderItems.Values && item.listingId == listingId
  {
    if exists id :: id in orderItems && orderItems[id].listingId == listingId then
      var id :| id in orderItems && orderItems[id].listingId == listingId;
      assert orderItems[id] in orderItems.Values;
      true
    else
      false
  }

  /** Writing a row makes its listing referenced and leaves every other listing as the rest of the table has it. */
  lemma ReferencedAfterWrite(orderItems: map<int, OrderItem>, rowId: int, row: OrderItem, listingId: int)
    ensures IsReferenced(orderItems[rowId := row], listingId) <==>
      row.listingId == listingId || IsReferenced(orderItems - {rowId}, listingId)
  {
    var updated := orderItems[rowId := row];
    if row.listingId == listingId {
      assert updated[rowId].listingId == listingId;
    }
    if IsReferenced(orderItems - {rowId}, listingId) {
      var id :| id in orderItems - {rowId} && (orderItems - {rowId})[id].listingId == listingId;
      assert updated[id].listingId == listingId;
    }
    if IsReferenced(updated, listingId) && row.listingId != listingId {
      var id :| id in updated && updated[id].listingId == listingId;
      assert id != rowId && id in orderItems - {rowId};
      assert (orderItems - {rowId})[id].listingId == listingId;
    }
  }

  method DeleteListing(store: Store, id: int) returns (r: Result<bool, DeleteListingError>)
    requires store.Valid()
    modifies store
    ensures store.Valid()
    ensures id !in old(store.listings) ==> r == Success(false) && unchanged(store)
    ensures id in old(store.listings) && IsReferenced(old(store.orderItems), id) ==>
      r == Failure(ListingInUse(id)) && unchanged(store)
    ensures id in old(store.listings) && !IsReferenced(old(store.orderItems), id) ==>
      && r == Success(true)
      && store.listings == old(store.listings) - {id}
      && store.orders == old(store.orders)
      && store.orderItems == old(store.orderItems)
      && store.nextOrderId == old(store.nextOrderId)
      && store.nextOrderItemId == old(store.nextOrderItemId)
  {
    if id !in store.listings {
      return Success(false);
    }
    var hasOrders := IsReferenced(store.orderItems, id);
    if hasOrders {
      return Failure(ListingInUse(id));
    }
    store.listings := store.listings - {id};
    r := Success(true);
  }

  /** The in-use guard never deletes a listing that an order still needs. */
  method DeletingAnOrderedListingFails(store: Store, item: OrderItem)
    requires store.Valid()
    requires item.id in store.orderItems && store.orderItems[item.id] == item
    requires item.listingId in store.listings
    modifies store
    ensures unchanged(store)
  {
    var r := DeleteListing(store, item.listingId);
    assert r == Failure(ListingInUse(item.listingId));
  }
}
