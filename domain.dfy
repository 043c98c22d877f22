/** The persisted entities: Listing, Order and OrderItem. */
module Domain {
  import opened Wrappers

  /** `DateTime` values as a count of 100-nanosecond ticks. */
  type DateTime = int

  /** `DateTime.MinValue`. */
  const MinDateTime: DateTime := 0
  /** `TimeSpan.FromHours(1)` in ticks. */
  const TicksPerHour: int := 36_000_000_000

  /** Initial value of `Listing.Currency`. */
  const DefaultCurrency: string := "USD"
  /** Initial value of `Order.Status`; the only status checkout produces. */
  const PendingStatus: string := "Pending"

  /**
   * A listing. `categoryName` is the name of the loaded `Category` navigation, or None when it
   * is not loaded. Nullable string and int properties are Options.
   */
  datatype Listing = Listing(
    id: int,
    title: string,
    description: string,
    price: real,
    currency: string,
    categoryId: int,
    categoryName: Option<string>,
    listingType: string,
    make: Option<string>,
    model: Option<string>,
    year: Option<int>,
    condition: Option<string>,
    imageUrl: Option<string>,
    userId: string,
    createdAt: DateTime,
    isActive: bool)

  /** An order header; its items live in the store's OrderItem table. */
  datatype Order = Order(
    id: int,
    userId: string,
    orderDate: DateTime,
    totalAmount: real,
    status: string,
    shippingAddress: string,
    shippingCity: Option<string>,
    shippingPostalCode: Option<string>,
    shippingCountry: Option<string>)

  datatype OrderItem = OrderItem(
    id: int,
    orderId: int,
    listingId: int,
    quantity: int,
    unitPrice: real,
    subtotal: real)
}
