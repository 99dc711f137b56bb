/**
 * The three rows the Go generator writes (users, products, orders), field for
 * field. `ID` is assigned by the store on a successful insert and is 0 before.
 * Floating-point fields pass through unchanged and are held as reals; times are
 * nanoseconds since the Unix epoch.
 */
module GoModels {

  /** A `time.Time`, as nanoseconds since the Unix epoch. */
  type Time = int

  const Second := 1000000000
  const Minute := 60 * Second
  const Hour := 60 * Minute

  /** The zero `time.Time` (January 1 of year 1, UTC). */
  const ZeroTime: Time := -62135596800 * Second

  /** A `float64` field; the generator only scales and copies these. */
  type Float = real

  /** `now.AddDate(-years, 0, 0)`: calendar arithmetic, kept symbolic. */
  datatype CalendarDate = YearsBefore(reference: Time, years: nat)

  datatype User = User(
    id: nat,
    username: string,
    gender: string,
    age: int,
    email: string,
    phone: string,
    address: string,
    nationality: string,
    occupation: string,
    maritalStatus: string,
    education: string,
    hobby: string,
    income: Float,
    registrationDate: Time,
    lastLogin: Time,
    loyaltyPoints: int,
    preferredLanguage: string,
    currency: string,
    timezone: string,
    status: string,
    createdAt: Time,
    updatedAt: Time)

  datatype Product = Product(
    id: nat,
    productName: string,
    category: string,
    description: string,
    price: Float,
    stock: int,
    sku: string,
    manufacturer: string,
    weight: Float,
    dimensions: string,
    color: string,
    material: string,
    releaseDate: CalendarDate,
    warrantyPeriod: string,
    countryOfOrigin: string,
    rating: Float,
    numberOfReviews: int,
    discount: Float,
    stockStatus: string,
    supplier: string,
    createdAt: Time,
    updatedAt: Time)

  datatype Order = Order(
    id: nat,
    orderNumber: string,
    userId: nat,
    productId: nat,
    orderDate: Time,
    quantity: int,
    totalAmount: Float,
    paymentMethod: string,
    shippingAddress: string,
    billingAddress: string,
    orderStatus: string,
    discountAmount: Float,
    taxAmount: Float,
    shippingCost: Float,
    trackingNumber: string,
    deliveryDate: Time,
    returnStatus: string,
    customerNote: string,
    internalNote: string,
    isGift: bool,
    giftMessage: string,
    extraInfo: string,
    createdAt: Time,
    updatedAt: Time)

  /** `var user models.User`: the zero value. */
  const ZeroUser := User(0, "", "", 0, "", "", "", "", "", "", "", "", 0.0, ZeroTime, ZeroTime, 0, "", "", "", "", ZeroTime, ZeroTime)

  /** `var product models.Product`: the zero value. */
  const ZeroProduct := Product(0, "", "", "", 0.0, 0, "", "", 0.0, "", "", "", YearsBefore(ZeroTime, 0), "", "", 0.0, 0, 0.0, "", "", ZeroTime, ZeroTime)

  /**
   * The store's answer to one `db.Create`: rejected, or accepted with
   * auto-increment IDs firstId, firstId+1, ... filled into the records in order.
   */
  datatype Ack = Rejected | Accepted(firstId: nat)

  /** The ID the record at position `j` of a created slice holds after the store answered `ack`. */
  function AssignedId(ack: Ack, j: nat): nat {
    match ack
    case Rejected => 0
    case Accepted(first) => first + j
  }

  /** One request the generator makes of the store. */
  datatype StoreCall =
    | CreateUsers(users: seq<User>)
    | CreateProducts(products: seq<Product>)
    | CreateOrders(orders: seq<Order>)
    | QueryJoinedOrder(orderId: nat)
}
