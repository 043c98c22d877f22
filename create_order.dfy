/**
 * Checkout: turns a list of (listing, quantity) requests into a persisted "Pending" order.
 * Every listing is looked up and checked in request order; the first missing or inactive one
 * aborts the whole request. Otherwise each item snapshots the listing's price, the total is
 * the sum of the subtotals, the order and its items are saved, and then, in a second save,
 * every referenced listing is deactivated.
 */
module CreateOrderHandler {
  import opened Wrappers
  import opened Domain
  import opened Persistence

  datatype OrderItemRequest = OrderItemRequest(listingId: int, quantity: int)

  datatype CreateOrderRequest = CreateOrderRequest(
    userId: string,
    items: seq<OrderItemRequest>,
    shippingAddress: string,
    shippingCity: Option<string>,
    shippingPostalCode: Option<string>,
    shippingCountry: Option<string>)

  /** The two `InvalidOperationException`s that the validation loop throws. */
  datatype OrderError = ListingNotFound(listingId: int) | ListingNotActive(listingId: int)

  /** An order item as built in memory, before the database assigns ids. */
  datatype PricedLine = PricedLine(listingId: int, quantity: int, unitPrice: real, subtotal: real)

  /** What the validation loop accumulates: the items, the running total, the listings to deactivate. */
  datatype Pricing = Pricing(lines: seq<PricedLine>, total: real, toDeactivate: seq<int>)

  /** The created order together with its items, as the handler returns it. */
  datatype PlacedOrder = PlacedOrder(order: Order, items: seq<OrderItem>)

  // ---------------------------------------------------------------------------------------
  // Specification of the validation and pricing loop
  // ---------------------------------------------------------------------------------------

  /** A request item names a stored listing that is still active. */
  predicate Purchasable(listings: map<int, Listing>, item: OrderItemRequest) {
    item.listingId in listings && listings[item.listingId].isActive
  }

  /** The error an unpurchasable item raises. */
  function ItemError(listings: map<int, Listing>, item: OrderItemRequest): OrderError {
    if item.listingId !in listings then ListingNotFound(item.listingId)
    else ListingNotActive(item.listingId)
  }

  /** One iteration of the loop: look the listing up, check it, snapshot its price. */
  function PriceItem(listings: map<int, Listing>, item: OrderItemRequest): (r: Result<PricedLine, OrderError>)
    ensures r.Success? <==> Purchasable(listings, item)
    ensures r.Failure? ==> r.error == ItemError(listings, item)
    ensures r.Success? ==>
      && r.value.listingId == item.listingId && r.value.quantity == item.quantity
      && r.value.unitPrice == listings[item.listingId].price
      && r.value.subtotal == r.value.unitPrice * item.quantity as real
  {
    if item.listingId !in listings then Failure(ListingNotFound(item.listingId))
    else
      var listing := listings[item.listingId];
      if !listing.isActive then Failure(ListingNotActive(item.listingId))
      else Success(PricedLine(item.listingId, item.quantity, listing.price,
                              listing.price * item.quantity as real))
  }

  /**
   * The whole loop, defined on the last item so that it follows the loop's prefix order:
   * a failure among the earlier items wins over a failure of the last one.
   */
  function PriceItems(listings: map<int, Listing>, items: seq<OrderItemRequest>): (r: Result<seq<PricedLine>, OrderError>)
    ensures r.Success? ==> |r.value| == |items|
    decreases |items|
  {
    if items == [] then Success([])
    else
      match PriceItems(listings, items[..|items| - 1])
      case Failure(e) => Failure(e)
      case Success(lines) =>
        match PriceItem(listings, items[|items| - 1])
        case Failure(e) => Failure(e)
        case Success(line) => Success(lines + [line])
  }

  /** The sum of the subtotals, accumulated in order. */
  function SumSubtotals(lines: seq<PricedLine>): real
    decreases |lines|
  {
    if lines == [] then 0.0 else SumSubtotals(lines[..|lines| - 1]) + lines[|lines| - 1].subtotal
  }

  /** The listing ids of the lines, in order (the `listingsToDeactivate` list). */
  function ListingIds(lines: seq<PricedLine>): seq<int>
    decreases |lines|
  {
    if lines == [] then [] else ListingIds(lines[..|lines| - 1]) + [lines[|lines| - 1].listingId]
  }

  /** Reference total, read straight from the listings: the sum of price times quantity. */
  function RequestTotal(listings: map<int, Listing>, items: seq<OrderItemRequest>): real
    requires forall k :: 0 <= k < |items| ==> items[k].listingId in listings
    decreases |items|
  {
    if items == [] then 0.0
    else
      var last := items[|items| - 1];
      RequestTotal(listings, items[..|items| - 1]) + listings[last.listingId].price * last.quantity as real
  }

  /** `k` is the first item of the request that cannot be bought. */
  predicate FirstUnpurchasable(listings: map<int, Listing>, items: seq<OrderItemRequest>, k: int) {
    && 0 <= k < |items|
    && !Purchasable(listings, items[k])
    && forall j :: 0 <= j < k ==> Purchasable(listings, items[j])
  }

  // ---------------------------------------------------------------------------------------
  // What saving the order writes
  // ---------------------------------------------------------------------------------------

  /** The order header checkout builds: request fields copied, status "Pending". */
  function NewOrder(request: CreateOrderRequest, id: int, now: DateTime, total: real): (o: Order)
    ensures o.id == id && o.orderDate == now && o.totalAmount == total && o.status == PendingStatus
    ensures o.userId == request.userId && o.shippingAddress == request.shippingAddress
    ensures o.shippingCity == request.shippingCity && o.shippingPostalCode == request.shippingPostalCode
    ensures o.shippingCountry == request.shippingCountry
  {
    Order(id, request.userId, now, total, PendingStatus, request.shippingAddress,
          request.shippingCity, request.shippingPostalCode, request.shippingCountry)
  }

  /** The lines as stored rows: consecutive ids from `firstId`, all owned by order `orderId`. */
  function ToOrderItems(lines: seq<PricedLine>, orderId: int, firstId: int): (items: seq<OrderItem>)
    ensures |items| == |lines|
    ensures forall j :: 0 <= j < |lines| ==>
      items[j] == OrderItem(firstId + j, orderId, lines[j].listingId, lines[j].quantity,
                            lines[j].unitPrice, lines[j].subtotal)
  {
    seq(|lines|, j requires 0 <= j < |lines| =>
      OrderItem(firstId + j, orderId, lines[j].listingId, lines[j].quantity, lines[j].unitPrice, lines[j].subtotal))
  }

  /** The OrderItem table rows for `items`, keyed by their (distinct) ids. */
  function ItemsById(items: seq<OrderItem>): (rows: map<int, OrderItem>)
    requires forall i, j :: 0 <= i < j < |items| ==> items[i].id != items[j].id
    ensures forall id :: id in rows ==> rows[id].id == id
  {
    map j | 0 <= j < |items| :: items[j].id := items[j]
  }

  /** The listing table after every listing in `ids` has had `IsActive` set to false. */
  function Deactivated(listings: map<int, Listing>, ids: seq<int>): (r: map<int, Listing>)
    ensures r.Keys == listings.Keys
  {
    map id | id in listings :: if id in ids then listings[id].(isActive := false) else listings[id]
  }

  // ---------------------------------------------------------------------------------------
  // Lemmas about the specification
  // ---------------------------------------------------------------------------------------

  /** Once a prefix of the request fails, the request fails with the same error whatever follows. */
  lemma {:induction false} FailurePersists(listings: map<int, Listing>, items: seq<OrderItemRequest>, more: seq<OrderItemRequest>)
    requires PriceItems(listings, items).Failure?
    ensures PriceItems(listings, items + more) == PriceItems(listings, items)
    decreases |more|
  {
    if more == [] {
      assert items + more == items;
    } else {
      var front := more[..|more| - 1];
      FailurePersists(listings, items, front);
      assert (items + more)[..|items + more| - 1] == items + front;
    }
  }

  /** The request prices successfully exactly when every item names an active stored listing. */
  lemma {:induction false} SucceedsIffAllPurchasable(listings: map<int, Listing>, items: seq<OrderItemRequest>)
    ensures PriceItems(listings, items).Success? <==>
            forall k :: 0 <= k < |items| ==> Purchasable(listings, items[k])
    decreases |items|
  {
    if items != [] {
      var front := items[..|items| - 1];
      SucceedsIffAllPurchasable(listings, front);
      assert forall k :: 0 <= k < |front| ==> front[k] == items[k];
    }
  }

  /**
   * On success there is exactly one line per requested item, in request order, carrying the
   * requested listing and quantity, the listing's price as unit price, and price times quantity
   * as subtotal.
   */
  lemma {:induction false} LinesMatchRequest(listings: map<int, Listing>, items: seq<OrderItemRequest>)
    requires PriceItems(listings, items).Success?
    ensures var lines := PriceItems(listings, items).value;
      && |lines| == |items|
      && forall k :: 0 <= k < |items| ==>
           && Purchasable(listings, items[k])
           && lines[k] == PricedLine(items[k].listingId, items[k].quantity,
                                     listings[items[k].listingId].price,
                                     listings[items[k].listingId].price * items[k].quantity as real)
    decreases |items|
  {
    if items != [] {
      var front := items[..|items| - 1];
      LinesMatchRequest(listings, front);
      assert forall k :: 0 <= k < |front| ==> front[k] == items[k];
    }
  }

  /** The first unpurchasable item decides the error. */
  lemma FirstFailureDecides(listings: map<int, Listing>, items: seq<OrderItemRequest>, k: int)
    requires FirstUnpurchasable(listings, items, k)
    ensures PriceItems(listings, items) == Failure(ItemError(listings, items[k]))
  {
    var upTo := items[..k + 1];
    var before := items[..k];
    assert upTo[..|upTo| - 1] == before;
    assert forall j :: 0 <= j < |before| ==> before[j] == items[j];
    SucceedsIffAllPurchasable(listings, before);
    assert PriceItems(listings, upTo) == Failure(ItemError(listings, items[k]));
    FailurePersists(listings, upTo, items[k + 1..]);
    assert upTo + items[k + 1..] == items;
  }

  /** A failed request always has a first unpurchasable item, and its error is the one returned. */
  lemma {:induction false} FailureHasFirstCause(listings: map<int, Listing>, items: seq<OrderItemRequest>)
    requires PriceItems(listings, items).Failure?
    ensures exists k :: FirstUnpurchasable(listings, items, k) &&
                        PriceItems(listings, items).error == ItemError(listings, items[k])
    decreases |items|
  {
    var front := items[..|items| - 1];
    assert forall j :: 0 <= j < |front| ==> front[j] == items[j];
    if PriceItems(listings, front).Failure? {
      FailureHasFirstCause(listings, front);
      var k :| FirstUnpurchasable(listings, front, k) &&
               PriceItems(listings, front).error == ItemError(listings, front[k]);
      assert FirstUnpurchasable(listings, items, k);
    } else {
      SucceedsIffAllPurchasable(listings, front);
      assert FirstUnpurchasable(listings, items, |items| - 1);
    }
  }

  /** The order total equals the sum of price times quantity over the request. */
  lemma {:induction false} TotalIsPriceTimesQuantity(listings: map<int, Listing>, items: seq<OrderItemRequest>)
    requires PriceItems(listings, items).Success?
    ensures forall k :: 0 <= k < |items| ==> items[k].listingId in listings
    ensures SumSubtotals(PriceItems(listings, items).value) == RequestTotal(listings, items)
    decreases |items|
  {
    LinesMatchRequest(listings, items);
    if items != [] {
      var front := items[..|items| - 1];
      TotalIsPriceTimesQuantity(listings, front);
      var lines := PriceItems(listings, items).value;
      assert lines[..|lines| - 1] == PriceItems(listings, front).value;
    }
  }

  /** The listings to deactivate are exactly the requested listings, in request order. */
  lemma {:induction false} DeactivatesRequestedListings(listings: map<int, Listing>, items: seq<OrderItemRequest>)
    requires PriceItems(listings, items).Success?
    ensures var ids := ListingIds(PriceItems(listings, items).value);
      |ids| == |items| && forall k :: 0 <= k < |items| ==> ids[k] == items[k].listingId
    decreases |items|
  {
    if items != [] {
      var front := items[..|items| - 1];
      DeactivatesRequestedListings(listings, front);
      var lines := PriceItems(listings, items).value;
      var frontLines := PriceItems(listings, front).value;
      var last := PriceItem(listings, items[|items| - 1]).value;
      assert lines == frontLines + [last];
      assert lines[..|lines| - 1] == frontLines;
      assert ListingIds(lines) == ListingIds(frontLines) + [last.listingId];
    }
  }

  /**
   * After deactivation every listed id is inactive, every other listing is exactly as before,
   * and a deactivated listing differs from its old row in `IsActive` alone.
   */
  lemma DeactivationFrame(listings: map<int, Listing>, ids: seq<int>)
    ensures forall id :: id in listings && id in ids ==>
      !Deactivated(listings, ids)[id].isActive &&
      Deactivated(listings, ids)[id] == listings[id].(isActive := false)
    ensures forall id :: id in listings && id !in ids ==> Deactivated(listings, ids)[id] == listings[id]
  {
  }

  /** Deactivating one more listing updates just that row. */
  lemma DeactivatedSnoc(listings: map<int, Listing>, ids: seq<int>, id: int)
    requires id in listings
    ensures Deactivated(listings, ids + [id]) ==
            Deactivated(listings, ids)[id := Deactivated(listings, ids)[id].(isActive := false)]
  {
    var l := Deactivated(listings, ids + [id]);
    var r := Deactivated(listings, ids)[id := Deactivated(listings, ids)[id].(isActive := false)];
    assert forall x :: x in l ==> l[x] == r[x];
  }

  /**
   * The stored items follow the request: the k-th item row has id `firstId + k`, belongs to the
   * order, names the k-th requested listing and quantity, and records the listing's price and
   * price times quantity.
   */
  lemma StoredItemsMatchRequest(listings: map<int, Listing>, items: seq<OrderItemRequest>, orderId: int, firstId: int)
    requires PriceItems(listings, items).Success?
    ensures var rows := ToOrderItems(PriceItems(listings, items).value, orderId, firstId);
      && |rows| == |items|
      && forall k :: 0 <= k < |items| ==>
           && items[k].listingId in listings
           && var price := listings[items[k].listingId].price;
              rows[k] == OrderItem(firstId + k, orderId, items[k].listingId, items[k].quantity,
                                   price, price * items[k].quantity as real)
  {
    LinesMatchRequest(listings, items);
  }

  // ---------------------------------------------------------------------------------------
  // The handler
  // ---------------------------------------------------------------------------------------

  /**
   * The `foreach` over the requested items: it only reads the listing table and builds the
   * items, the running total and the listings to deactivate.
   */
  method PriceRequest(listings: map<int, Listing>, items: seq<OrderItemRequest>) returns (r: Result<Pricing, OrderError>)
    ensures PriceItems(listings, items).Failure? ==> r == Failure(PriceItems(listings, items).error)
    ensures PriceItems(listings, items).Success? ==>
      var lines := PriceItems(listings, items).value;
      r == Success(Pricing(lines, SumSubtotals(lines), ListingIds(lines)))
  {
    var total := 0.0;
    var lines: seq<PricedLine> := [];
    var toDeactivate: seq<int> := [];
    var i := 0;
    while i < |items|
      invariant 0 <= i <= |items|
      invariant PriceItems(listings, items[..i]) == Success(lines)
      invariant total == SumSubtotals(lines)
      invariant toDeactivate == ListingIds(lines)
    {
      var item := items[i];
      assert items[..i + 1][..i] == items[..i];
      assert items[..i + 1] + items[i + 1..] == items;
      if item.listingId !in listings {
        FailurePersists(listings, items[..i + 1], items[i + 1..]);
        return Failure(ListingNotFound(item.listingId));
      }
      var listing := listings[item.listingId];
      if !listing.isActive {
        FailurePersists(listings, items[..i + 1], items[i + 1..]);
        return Failure(ListingNotActive(item.listingId));
      }
      var line := PricedLine(item.listingId, item.quantity, listing.price, listing.price * item.quantity as real);
      assert items[..i + 1][i] == item;
      assert PriceItem(listings, item).Success? && PriceItem(listings, item).value == line;
      assert PriceItems(listings, items[..i + 1]).Success?;
      assert PriceItems(listings, items[..i + 1]).value == lines + [line];
      assert (lines + [line])[..|lines|] == lines;
      total := total + line.subtotal;
      lines := lines + [line];
      toDeactivate := toDeactivate + [item.listingId];
      i := i + 1;
    }
    assert items[..i] == items;
    r := Success(Pricing(lines, total, toDeactivate));
  }

  /** The first save: the order header and its items are inserted and take the next ids. */
  method SaveOrder(store: Store, order: Order, items: seq<OrderItem>)
    requires store.Valid()
    requires order.id == store.nextOrderId
    requires forall j :: 0 <= j < |items| ==> items[j].id == store.nextOrderItemId + j
    modifies store
    ensures store.Valid()
    ensures order.id !in old(store.orders)
    ensures store.orders == old(store.orders)[order.id := order]
    ensures old(store.orderItems).Keys !! ItemsById(items).Keys
    ensures store.orderItems == old(store.orderItems) + ItemsById(items)
    ensures store.listings == old(store.listings)
    ensures store.nextOrderId == old(store.nextOrderId) + 1
    ensures store.nextOrderItemId == old(store.nextOrderItemId) + |items|
  {
    var rows := ItemsById(items);
    assert forall id :: id in rows ==> store.nextOrderItemId <= id < store.nextOrderItemId + |items|;
    store.orders := store.orders[order.id := order];
    store.orderItems := store.orderItems + rows;
    store.nextOrderId := store.nextOrderId + 1;
    store.nextOrderItemId := store.nextOrderItemId + |items|;
  }

  /** The second save: each listing in `ids` gets `IsActive = false`, one after the other. */
  method DeactivateListings(store: Store, ids: seq<int>)
    requires store.Valid()
    requires forall id :: id in ids ==> id in store.listings
    modifies store
    ensures store.Valid()
    ensures store.listings == Deactivated(old(store.listings), ids)
    ensures store.orders == old(store.orders) && store.orderItems == old(store.orderItems)
    ensures store.nextOrderId == old(store.nextOrderId) && store.nextOrderItemId == old(store.nextOrderItemId)
  {
    var j := 0;
    while j < |ids|
      invariant 0 <= j <= |ids|
      invariant store.Valid()
      invariant store.listings == Deactivated(old(store.listings), ids[..j])
      invariant store.orders == old(store.orders) && store.orderItems == old(store.orderItems)
      invariant store.nextOrderId == old(store.nextOrderId) && store.nextOrderItemId == old(store.nextOrderItemId)
    {
      var id := ids[j];
      DeactivatedSnoc(old(store.listings), ids[..j], id);
      assert ids[..j + 1] == ids[..j] + [id];
      store.listings := store.listings[id := store.listings[id].(isActive := false)];
      j := j + 1;
    }
    assert ids[..j] == ids;
  }

  /**
   * `Handle`: price the request; on failure return the error with the store untouched. On
   * success, first save the order and its items, then deactivate each referenced listing and
   * save again. The two saves are consecutive steps with nothing in between.
   */
  method CreateOrder(store: Store, request: CreateOrderRequest, now: DateTime) returns (r: Result<PlacedOrder, OrderError>)
    requires store.Valid()
    modifies store
    ensures store.Valid()
    ensures PriceItems(old(store.listings), request.items).Failure? ==>
      && r == Failure(PriceItems(old(store.listings), request.items).error)
      && unchanged(store)
    ensures PriceItems(old(store.listings), request.items).Success? ==>
      var lines := PriceItems(old(store.listings), request.items).value;
      var orderId := old(store.nextOrderId);
      var items := ToOrderItems(lines, orderId, old(store.nextOrderItemId));
      && orderId !in old(store.orders)
      && r == Success(PlacedOrder(NewOrder(request, orderId, now, SumSubtotals(lines)), items))
      && store.orders == old(store.orders)[orderId := r.value.order]
      && old(store.orderItems).Keys !! ItemsById(items).Keys
      && store.orderItems == old(store.orderItems) + ItemsById(items)
      && store.listings == Deactivated(old(store.listings), ListingIds(lines))
      && store.nextOrderId == orderId + 1
      && store.nextOrderItemId == old(store.nextOrderItemId) + |items|
  {
    var priced := PriceRequest(store.listings, request.items);
    if priced.Failure? {
      return Failure(priced.error);
    }
    var pricing := priced.value;
    DeactivatesRequestedListings(store.listings, request.items);
    LinesMatchRequest(store.listings, request.items);
    assert forall id :: id in pricing.toDeactivate ==> id in store.listings;

    var order := NewOrder(request, store.nextOrderId, now, pricing.total);
    var items := ToOrderItems(pricing.lines, order.id, store.nextOrderItemId);
    SaveOrder(store, order, items);
    DeactivateListings(store, pricing.toDeactivate);
    r := Success(PlacedOrder(order, items));
  }

  // ---------------------------------------------------------------------------------------
  // Scenarios
  // ---------------------------------------------------------------------------------------

  function SampleListing(id: int, price: real, isActive: bool): Listing {
    Listing(id, "", "", price, DefaultCurrency, 1, None, "Sale", None, None, None, None, None, "seller", 0, isActive)
  }

  /** Two active listings at 100 and 50, one of each: total 150, and both end up inactive. */
  lemma HappyPath()
    ensures var listings := map[1 := SampleListing(1, 100.0, true), 2 := SampleListing(2, 50.0, true)];
      var items := [OrderItemRequest(1, 1), OrderItemRequest(2, 1)];
      && PriceItems(listings, items).Success?
      && SumSubtotals(PriceItems(listings, items).value) == 150.0
      && var after := Deactivated(listings, ListingIds(PriceItems(listings, items).value));
         !after[1].isActive && !after[2].isActive
  {
    var listings := map[1 := SampleListing(1, 100.0, true), 2 := SampleListing(2, 50.0, true)];
    var items := [OrderItemRequest(1, 1), OrderItemRequest(2, 1)];
    var a, b := PricedLine(1, 1, 100.0, 100.0), PricedLine(2, 1, 50.0, 50.0);
    assert PriceItem(listings, OrderItemRequest(1, 1)) == Success(a);
    assert PriceItem(listings, OrderItemRequest(2, 1)) == Success(b);
    assert items[..1] == [OrderItemRequest(1, 1)] && items[..1][..0] == [];
    assert PriceItems(listings, items[..1][..0]) == Success([]);
    assert [] + [a] == [a];
    assert PriceItems(listings, items[..1]) == Success([a]);
    assert PriceItems(listings, items) == Success([a] + [b]);
    assert [a] + [b] == [a, b];
    assert [a, b][..1] == [a] && [a][..0] == [];
    assert SumSubtotals([a]) == 100.0;
    assert SumSubtotals([a, b]) == 150.0;
    DeactivatesRequestedListings(listings, items);
  }

  /** Naming the same active listing twice yields two items: the check reads the table before any deactivation. */
  lemma SameListingTwice()
    ensures var listings := map[7 := SampleListing(7, 30.0, true)];
      var items := [OrderItemRequest(7, 1), OrderItemRequest(7, 2)];
      && PriceItems(listings, items).Success?
      && |PriceItems(listings, items).value| == 2
      && SumSubtotals(PriceItems(listings, items).value) == 90.0
  {
    var listings := map[7 := SampleListing(7, 30.0, true)];
    var items := [OrderItemRequest(7, 1), OrderItemRequest(7, 2)];
    var a, b := PricedLine(7, 1, 30.0, 30.0), PricedLine(7, 2, 30.0, 60.0);
    assert PriceItem(listings, OrderItemRequest(7, 1)) == Success(a);
    assert PriceItem(listings, OrderItemRequest(7, 2)) == Success(b);
    assert items[..1] == [OrderItemRequest(7, 1)] && items[..1][..0] == [];
    assert PriceItems(listings, items[..1][..0]) == Success([]);
    assert [] + [a] == [a];
    assert PriceItems(listings, items[..1]) == Success([a]);
    assert PriceItems(listings, items) == Success([a] + [b]);
    assert [a] + [b] == [a, b];
    assert [a, b][..1] == [a] && [a][..0] == [];
    assert SumSubtotals([a]) == 30.0;
    assert SumSubtotals([a, b]) == 90.0;
  }

  /** An already inactive listing makes checkout fail with not-active. */
  lemma StaleListing()
    ensures var listings := map[3 := SampleListing(3, 80.0, false)];
      PriceItems(listings, [OrderItemRequest(3, 1)]) == Failure(ListingNotActive(3))
  {
    assert [OrderItemRequest(3, 1)][..0] == [];
  }
}
