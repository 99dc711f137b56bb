/**
 * The three rows of the Rust generator (users, products, orders) and their
 * constructors. Each `new` takes only the required values; every optional
 * column starts out unset and `id` starts at 0, to be replaced by the store.
 * `i32` columns are held as unbounded integers, `f64` columns as reals that
 * are only copied, and `NaiveDateTime` values as an abstract instant.
 */
module RustModels {

  datatype Option<T> = None | Some(value: T)

  /** A `NaiveDateTime`: the instant `Utc::now().naive_utc()` read at construction. */
  type Instant = int

  /** A `NaiveDate`. */
  datatype Date = Date(year: int, month: int, day: int)

  datatype User = User(
    id: int,
    username: string,
    email: string,
    passwordHash: string,
    gender: Option<string>,
    firstName: string,
    lastName: string,
    phone: Option<string>,
    address: Option<string>,
    city: Option<string>,
    country: Option<string>,
    postalCode: Option<string>,
    birthDate: Option<Date>,
    registrationDate: Instant,
    lastLogin: Option<Instant>,
    isActive: bool,
    accountBalance: Option<real>,
    loyaltyPoints: Option<int>,
    preferences: Option<string>,
    avatarUrl: Option<string>,
    marketingConsent: bool,
    createdAt: Instant)

  datatype Product = Product(
    id: int,
    name: string,
    description: Option<string>,
    sku: Option<string>,
    price: real,
    stockQuantity: int,
    category: Option<string>,
    brand: Option<string>,
    weight: Option<real>,
    dimensions: Option<string>,
    color: Option<string>,
    material: Option<string>,
    manufacturer: Option<string>,
    supplierId: Option<int>,
    minStockLevel: Option<int>,
    maxStockLevel: Option<int>,
    reorderQuantity: Option<int>,
    isActive: bool,
    taxRate: Option<real>,
    discountPercentage: Option<real>,
    rating: Option<real>,
    createdAt: Instant)

  datatype Order = Order(
    id: int,
    userId: int,
    productId: int,
    quantity: int,
    orderDate: Instant,
    status: string,
    shippingAddress: string,
    paymentMethod: string,
    totalAmount: real,
    discount: real,
    tax: real,
    createdAt: Instant,
    updatedAt: Instant,
    trackingNumber: Option<string>,
    deliveryDate: Option<Instant>,
    customerFeedback: Option<string>,
    isGift: bool,
    giftMessage: Option<string>,
    orderSource: Option<string>,
    currency: string,
    orderType: Option<string>)

  /** A user profile nobody has filled in yet: no optional column is set and both names are empty. */
  predicate ProfileUnset(u: User) {
    && u.gender.None? && u.firstName == "" && u.lastName == ""
    && u.phone.None? && u.address.None? && u.city.None? && u.country.None? && u.postalCode.None?
    && u.birthDate.None? && u.lastLogin.None? && u.accountBalance.None? && u.loyaltyPoints.None?
    && u.preferences.None? && u.avatarUrl.None?
  }

  /** A product with only its name, price and stock: every optional column unset. */
  predicate DetailsUnset(p: Product) {
    && p.description.None? && p.sku.None? && p.category.None? && p.brand.None? && p.weight.None?
    && p.dimensions.None? && p.color.None? && p.material.None? && p.manufacturer.None?
    && p.supplierId.None? && p.minStockLevel.None? && p.maxStockLevel.None? && p.reorderQuantity.None?
    && p.taxRate.None? && p.discountPercentage.None? && p.rating.None?
  }

  /** An order with no tracking, delivery, feedback, gift message, source or type recorded. */
  predicate ExtrasUnset(o: Order) {
    && o.trackingNumber.None? && o.deliveryDate.None? && o.customerFeedback.None?
    && o.giftMessage.None? && o.orderSource.None? && o.orderType.None?
  }

  /**
   * `User::new`: a new, active user who has not yet been stored, opted in to
   * marketing or logged in; it keeps the three credentials it was given and
   * was registered and created at the same instant.
   */
  function NewUser(username: string, email: string, passwordHash: string, now: Instant): (u: User)
    ensures u.id == 0 && ProfileUnset(u)
    ensures u.username == username && u.email == email && u.passwordHash == passwordHash
    ensures u.isActive && !u.marketingConsent
    ensures u.registrationDate == u.createdAt == now
  {
    User(
      id := 0,
      username := username,
      email := email,
      passwordHash := passwordHash,
      gender := None,
      firstName := "",
      lastName := "",
      phone := None,
      address := None,
      city := None,
      country := None,
      postalCode := None,
      birthDate := None,
      registrationDate := now,
      lastLogin := None,
      isActive := true,
      accountBalance := None,
      loyaltyPoints := None,
      preferences := None,
      avatarUrl := None,
      marketingConsent := false,
      createdAt := now)
  }

  /** `Product::new`: an active, not yet stored product that keeps its name, price and stock. */
  function NewProduct(name: string, price: real, stockQuantity: int, now: Instant): (p: Product)
    ensures p.id == 0 && DetailsUnset(p)
    ensures p.name == name && p.price == price && p.stockQuantity == stockQuantity
    ensures p.isActive && p.createdAt == now
  {
    Product(
      id := 0,
      name := name,
      description := None,
      sku := None,
      price := price,
      stockQuantity := stockQuantity,
      category := None,
      brand := None,
      weight := None,
      dimensions := None,
      color := None,
      material := None,
      manufacturer := None,
      supplierId := None,
      minStockLevel := None,
      maxStockLevel := None,
      reorderQuantity := None,
      isActive := true,
      taxRate := None,
      discountPercentage := None,
      rating := None,
      createdAt := now)
  }

  /**
   * `Order::new`: a not yet stored, non-gift order in US dollars without
   * discount or tax, keeping the seven values it was given, and ordered,
   * created and updated at one instant.
   */
  function NewOrder(userId: int, productId: int, quantity: int, status: string, shippingAddress: string,
                    paymentMethod: string, totalAmount: real, now: Instant): (o: Order)
    ensures o.id == 0 && ExtrasUnset(o)
    ensures o.userId == userId && o.productId == productId && o.quantity == quantity
    ensures o.status == status && o.shippingAddress == shippingAddress && o.paymentMethod == paymentMethod
    ensures o.totalAmount == totalAmount
    ensures o.discount == 0.0 && o.tax == 0.0 && !o.isGift && o.currency == "USD"
    ensures o.orderDate == o.createdAt == o.updatedAt == now
  {
    Order(
      id := 0,
      userId := userId,
      productId := productId,
      quantity := quantity,
      orderDate := now,
      status := status,
      shippingAddress := shippingAddress,
      paymentMethod := paymentMethod,
      totalAmount := totalAmount,
      discount := 0.0,
      tax := 0.0,
      createdAt := now,
      updatedAt := now,
      trackingNumber := None,
      deliveryDate := None,
      customerFeedback := None,
      isGift := false,
      giftMessage := None,
      orderSource := None,
      currency := "USD",
      orderType := None)
  }

  /**
   * Two users built at the same instant are the same value exactly when they
   * were given the same credentials: `User::new` loses nothing it is given.
   */
  lemma NewUserInjective(n1: string, e1: string, h1: string, n2: string, e2: string, h2: string, now: Instant)
    ensures NewUser(n1, e1, h1, now) == NewUser(n2, e2, h2, now) <==> n1 == n2 && e1 == e2 && h1 == h2
  {
    if NewUser(n1, e1, h1, now) == NewUser(n2, e2, h2, now) {
      assert NewUser(n1, e1, h1, now).username == n2;
    }
  }

  /**
   * A fresh user is determined by its credentials and the instant alone: any
   * user that is not stored, has an unset profile, is active, has not opted in,
   * and was registered when it was created is `User::new` of its own credentials.
   */
  lemma FreshUserIsNew(u: User)
    requires u.id == 0 && ProfileUnset(u) && u.isActive && !u.marketingConsent
    requires u.registrationDate == u.createdAt
    ensures u == NewUser(u.username, u.email, u.passwordHash, u.createdAt)
  {
  }

  /** Likewise, a product with unset details, not stored and active, is `Product::new` of its own values. */
  lemma FreshProductIsNew(p: Product)
    requires p.id == 0 && DetailsUnset(p) && p.isActive
    ensures p == NewProduct(p.name, p.price, p.stockQuantity, p.createdAt)
  {
  }

  /** And an order with the defaults of `Order::new` is `Order::new` of its own seven values. */
  lemma FreshOrderIsNew(o: Order)
    requires o.id == 0 && ExtrasUnset(o)
    requires o.discount == 0.0 && o.tax == 0.0 && !o.isGift && o.currency == "USD"
    requires o.orderDate == o.createdAt == o.updatedAt
    ensures o == NewOrder(o.userId, o.productId, o.quantity, o.status, o.shippingAddress,
                          o.paymentMethod, o.totalAmount, o.createdAt)
  {
  }
}
