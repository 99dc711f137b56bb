/**
 * The bulk generation engine: three phases run one after another (users,
 * products, orders). Each phase cuts its target count into batches, derives
 * every record's identifying fields from its 1-based index, hands each batch to
 * the store in one `Create`, and (for users and products) appends the batch to an
 * in-memory pool whether or not the insert succeeded. Orders sample one user and
 * one product from the finished pools.
 *
 * Batches run sequentially here, in ascending order of their start; the
 * concurrent original appends them to the pools in some order, so the properties
 * stated about the pools (length, which records, uniqueness) do not depend on it.
 */
module Generator {
  import opened GoRuntime
  import opened GoFormat
  import opened Batching
  import opened GoModels
  import opened Planner

  const Genders: seq<string> := ["男", "女", "其他"]
  const Occupations: seq<string> := ["工程师", "医生", "教师", "艺术家", "律师"]
  const MaritalStatuses: seq<string> := ["未婚", "已婚", "离异"]
  const Educations: seq<string> := ["高中", "本科", "硕士", "博士"]
  const ProductNames: seq<string> := ["产品A", "产品B", "产品C", "产品D", "产品E"]
  const Categories: seq<string> := ["电子产品", "家居用品", "服装", "运动器材", "食品"]
  const PaymentMethods: seq<string> := ["信用卡", "支付宝", "微信支付", "现金"]
  const OrderStatuses: seq<string> := ["待付款", "已付款", "待发货", "已发货", "已完成", "已取消"]
  const StockStatuses: seq<string> := ["有货", "缺货", "预订"]
  const Colors: seq<string> := ["红", "蓝", "绿", "黑", "白"]

  /** `list[rand.Intn(len(list))]`. */
  function Pick(list: seq<string>, draw: nat): (s: string)
    requires |list| > 0
    ensures s in list
  {
    list[Intn(draw, |list|)]
  }

  // ---------------------------------------------------------------------------
  // Random and clock inputs of one record. Each `nat` is the draw behind one
  // `rand.Intn` call; each `Float` is one `rand.Float64()` result.

  datatype UserDraws = UserDraws(
    now: Time, gender: nat, age: nat, occupation: nat, maritalStatus: nat, education: nat,
    income: Float, registrationHours: nat, lastLoginMinutes: nat, loyaltyPoints: nat)

  datatype ProductDraws = ProductDraws(
    now: Time, name: nat, category: nat, descriptionName: nat, price: Float, stock: nat,
    manufacturer: nat, weight: Float, width: nat, height: nat, depth: nat, color: nat,
    releaseYears: nat, warrantyMonths: nat, rating: Float, reviews: nat, discount: Float,
    stockStatus: nat, supplier: nat)

  datatype OrderDraws = OrderDraws(
    now: Time, userPick: nat, productPick: nat, orderMinutes: nat, quantity: nat,
    amountQuantity: nat, paymentMethod: nat, orderStatus: nat, discount: Float, tax: Float,
    shipping: Float, tracking: nat, deliveryMinutes: nat, gift: nat)

  /** Everything outside the engine that a bulk run consults: draws per record index, answers per batch start. */
  datatype Environment = Environment(
    userDraws: nat -> UserDraws,
    productDraws: nat -> ProductDraws,
    orderDraws: nat -> OrderDraws,
    userAcks: nat -> Ack,
    productAcks: nat -> Ack)

  // ---------------------------------------------------------------------------
  // Identifying fields, each a function of the record index alone.

  /** `fmt.Sprintf("user%d@example.com", index)` — the users table has a unique index on it. */
  function EmailFor(index: nat): string {
    "user" + Padded(index, 0) + "@example.com"
  }

  /** `fmt.Sprintf("138%08d", index)` — the users table has a unique index on it. */
  function PhoneFor(index: nat): string {
    "138" + Padded(index, 8)
  }

  /** `fmt.Sprintf("SKU%06d", index)` — the products table has a unique index on it. */
  function SkuFor(index: nat): string {
    "SKU" + Padded(index, 6)
  }

  /** `fmt.Sprintf("ORD%010d", index)` — the orders table has a unique index on it. */
  function OrderNumberFor(index: nat): string {
    "ORD" + Padded(index, 10)
  }

  lemma EmailIdentifiesIndex(i: nat, j: nat)
    requires EmailFor(i) == EmailFor(j)
    ensures i == j
  {
    FieldInjective("user", 0, "@example.com", i, j);
  }

  lemma PhoneIdentifiesIndex(i: nat, j: nat)
    requires PhoneFor(i) == PhoneFor(j)
    ensures i == j
  {
    assert PhoneFor(i) == "138" + Padded(i, 8) + "";
    assert PhoneFor(j) == "138" + Padded(j, 8) + "";
    FieldInjective("138", 8, "", i, j);
  }

  lemma SkuIdentifiesIndex(i: nat, j: nat)
    requires SkuFor(i) == SkuFor(j)
    ensures i == j
  {
    assert SkuFor(i) == "SKU" + Padded(i, 6) + "";
    assert SkuFor(j) == "SKU" + Padded(j, 6) + "";
    FieldInjective("SKU", 6, "", i, j);
  }

  lemma OrderNumberIdentifiesIndex(i: nat, j: nat)
    requires OrderNumberFor(i) == OrderNumberFor(j)
    ensures i == j
  {
    assert OrderNumberFor(i) == "ORD" + Padded(i, 10) + "";
    assert OrderNumberFor(j) == "ORD" + Padded(j, 10) + "";
    FieldInjective("ORD", 10, "", i, j);
  }

  // ---------------------------------------------------------------------------
  // Per-index record derivation (the bodies of the three inner loops).

  /** The user with 1-based index `index`, before the store assigns its ID. */
  function BulkUser(index: nat, d: UserDraws): (u: User)
    ensures u.id == 0
    ensures u.email == EmailFor(index) && u.phone == PhoneFor(index)
    ensures 18 <= u.age <= 80
    ensures u.gender in Genders && u.occupation in Occupations
    ensures u.registrationDate <= u.createdAt && u.lastLogin <= u.createdAt
    ensures u.createdAt == u.updatedAt == d.now
  {
    User(
      id := 0,
      username := "用户" + Padded(index, 0),
      gender := Pick(Genders, d.gender),
      age := Intn(d.age, 63) + 18,
      email := EmailFor(index),
      phone := PhoneFor(index),
      address := "地址" + Padded(index, 0),
      nationality := "中国",
      occupation := Pick(Occupations, d.occupation),
      maritalStatus := Pick(MaritalStatuses, d.maritalStatus),
      education := Pick(Educations, d.education),
      hobby := "阅读,旅行",
      income := d.income * 10000.0 + 3000.0,
      registrationDate := d.now - Hour * Intn(d.registrationHours, 10000),
      lastLogin := d.now - Minute * Intn(d.lastLoginMinutes, 10000),
      loyaltyPoints := Intn(d.loyaltyPoints, 1000),
      preferredLanguage := "中文",
      currency := "CNY",
      timezone := "CST",
      status := "活跃",
      createdAt := d.now,
      updatedAt := d.now)
  }

  /** The product with 1-based index `index`, before the store assigns its ID. */
  function BulkProduct(index: nat, d: ProductDraws): (p: Product)
    ensures p.id == 0
    ensures p.sku == SkuFor(index)
    ensures 0 <= p.stock < 5000 && 0 <= p.numberOfReviews < 1000
    ensures p.category in Categories && p.color in Colors && p.stockStatus in StockStatuses
    ensures p.createdAt == p.updatedAt == d.now
  {
    Product(
      id := 0,
      productName := Pick(ProductNames, d.name) + " " + Padded(index, 0),
      category := Pick(Categories, d.category),
      description := "这是" + Pick(ProductNames, d.descriptionName) + "的描述",
      price := d.price * 1000.0,
      stock := Intn(d.stock, 5000),
      sku := SkuFor(index),
      manufacturer := "制造商" + Padded(Intn(d.manufacturer, 100), 0),
      weight := d.weight * 10.0,
      dimensions := Padded(Intn(d.width, 100), 0) + "x" + Padded(Intn(d.height, 100), 0) + "x" + Padded(Intn(d.depth, 100), 0),
      color := Pick(Colors, d.color),
      material := "塑料",
      releaseDate := YearsBefore(d.now, Intn(d.releaseYears, 10)),
      warrantyPeriod := Padded(Intn(d.warrantyMonths, 24) + 1, 0) + "个月",
      countryOfOrigin := "中国",
      rating := d.rating * 5.0,
      numberOfReviews := Intn(d.reviews, 1000),
      discount := d.discount * 0.5,
      stockStatus := Pick(StockStatuses, d.stockStatus),
      supplier := "供应商" + Padded(Intn(d.supplier, 50), 0),
      createdAt := d.now,
      updatedAt := d.now)
  }

  /**
   * Sampling a parent: `allUsers[rand.Intn(len(allUsers))]`, or the zero value
   * when the pool is empty.
   */
  function SampleUser(pool: seq<User>, pick: nat): (u: User)
    ensures |pool| == 0 ==> u == ZeroUser
    ensures |pool| > 0 ==> u in pool
  {
    if |pool| > 0 then pool[Intn(pick, |pool|)] else ZeroUser
  }

  function SampleProduct(pool: seq<Product>, pick: nat): (p: Product)
    ensures |pool| == 0 ==> p == ZeroProduct
    ensures |pool| > 0 ==> p in pool
  {
    if |pool| > 0 then pool[Intn(pick, |pool|)] else ZeroProduct
  }

  /** The order with 1-based index `index`, referencing the sampled user and product. */
  function BulkOrder(index: nat, user: User, product: Product, d: OrderDraws): (o: Order)
    ensures o.id == 0
    ensures o.orderNumber == OrderNumberFor(index)
    ensures o.userId == user.id && o.productId == product.id
    ensures 1 <= o.quantity <= 10
    ensures o.orderDate <= o.createdAt <= o.deliveryDate && o.createdAt == o.updatedAt == d.now
  {
    Order(
      id := 0,
      orderNumber := OrderNumberFor(index),
      userId := user.id,
      productId := product.id,
      orderDate := d.now - Intn(d.orderMinutes, 1000) * Minute,
      quantity := Intn(d.quantity, 10) + 1,
      totalAmount := product.price * ((Intn(d.amountQuantity, 10) + 1) as real),
      paymentMethod := Pick(PaymentMethods, d.paymentMethod),
      shippingAddress := "收货地址" + Padded(index, 0),
      billingAddress := "账单地址" + Padded(index, 0),
      orderStatus := Pick(OrderStatuses, d.orderStatus),
      discountAmount := d.discount * 50.0,
      taxAmount := d.tax * 20.0,
      shippingCost := d.shipping * 10.0,
      trackingNumber := "TRK" + Padded(Intn(d.tracking, 100000000), 8),
      deliveryDate := d.now + Intn(d.deliveryMinutes, 1000) * Minute,
      returnStatus := "无",
      customerNote := "请尽快发货",
      internalNote := "内部备注信息",
      isGift := Intn(d.gift, 2) == 0,
      giftMessage := "祝您购物愉快",
      extraInfo := "额外信息",
      createdAt := d.now,
      updatedAt := d.now)
  }

  /** The order with index `index`, drawn against the finished pools. */
  function OrderAt(index: nat, users: seq<User>, products: seq<Product>, d: OrderDraws): Order {
    BulkOrder(index, SampleUser(users, d.userPick), SampleProduct(products, d.productPick), d)
  }

  // ---------------------------------------------------------------------------
  // The phases.

  /** Batch number `k` of a phase with target `n`: the records with indices start+1 .. start+len. */
  function Batch<R>(n: int, k: nat, make: nat -> R): (b: seq<R>)
    requires k < NumBatches(n)
    ensures |b| == BatchLen(n, BatchStart(k))
  {
    BatchStartInRange(n, k);
    seq(BatchLen(n, BatchStart(k)), j requires 0 <= j => make(BatchStart(k) + j + 1))
  }

  /** All batches of a phase with target `n`, in dispatch order. */
  function Batches<R>(n: int, make: nat -> R): (bs: seq<seq<R>>)
    ensures |bs| == NumBatches(n)
    ensures forall k :: 0 <= k < |bs| ==> bs[k] == Batch(n, k, make)
  {
    seq(NumBatches(n), k requires 0 <= k < NumBatches(n) => Batch(n, k, make))
  }

  lemma BatchElement<R>(n: int, k: nat, j: nat, make: nat -> R)
    requires k < NumBatches(n) && j < |Batch(n, k, make)|
    ensures Batch(n, k, make)[j] == make(BatchStart(k) + j + 1)
  {
  }

  /** The ID the record with 1-based index `index` holds once its batch's `Create` has been answered. */
  function IdAt(acks: nat -> Ack, index: nat): nat
    requires index >= 1
  {
    AssignedId(acks(BatchStart((index - 1) / BatchSize)), (index - 1) % BatchSize)
  }

  lemma PositionInBatch(k: nat, j: nat)
    requires j < BatchSize
    ensures (BatchStart(k) + j) / BatchSize == k && (BatchStart(k) + j) % BatchSize == j
  {
  }

  /**
   * One iteration of a pool phase: the inner loop builds batch `k` from `make`,
   * `db.Create` answers it, and the batch is appended to the pool as stored,
   * each record with the ID the store gave it (0 if it rejected the batch).
   */
  method CreateBatch<R>(n: int, k: nat, make: nat -> R, withId: (R, nat) -> R, acks: nat -> Ack)
    returns (batch: seq<R>, stored: seq<R>)
    requires k < NumBatches(n)
    ensures batch == Batch(n, k, make) && |stored| == |batch|
    ensures forall t :: 0 <= t < |stored| ==>
      stored[t] == withId(make(BatchStart(k) + t + 1), IdAt(acks, BatchStart(k) + t + 1))
  {
    var i := BatchStart(k);
    BatchStartInRange(n, k);
    batch := [];
    var j := 0;
    while j < BatchSize && i + j < n
      invariant 0 <= j <= BatchSize && i + j <= n
      invariant batch == seq(j, t requires 0 <= t => make(i + t + 1))
    {
      batch := batch + [make(i + j + 1)];
      j := j + 1;
    }
    assert batch == Batch(n, k, make);
    // db.Create(&batch): on success the store fills in the IDs.
    var ack := acks(i);
    stored := seq(|batch|, t requires 0 <= t < |batch| => withId(batch[t], AssignedId(ack, t)));
    forall t | 0 <= t < |stored|
      ensures stored[t] == withId(make(i + t + 1), IdAt(acks, i + t + 1))
    {
      PositionInBatch(k, t);
    }
  }

  /**
   * One pool phase (users or products): for every batch start, build the batch
   * from `make`, hand it to the store, and append it to the pool with the IDs the
   * store filled in — also when the store rejected it, in which case the IDs stay 0.
   * Returns the pool and the batches handed to the store, in dispatch order.
   */
  method RunPoolPhase<R(==)>(n: int, make: nat -> R, withId: (R, nat) -> R, acks: nat -> Ack)
    returns (pool: seq<R>, creates: seq<seq<R>>)
    ensures creates == Batches(n, make)
    ensures |pool| == if n > 0 then n else 0
    ensures forall m :: 0 <= m < |pool| ==> pool[m] == withId(make(m + 1), IdAt(acks, m + 1))
  {
    pool, creates := [], [];
    var i := 0;
    while i < n
      invariant i == BatchStart(|creates|)
      invariant i == 0 || i - BatchSize < n
      invariant |pool| == if i <= n then i else if n > 0 then n else 0
      invariant forall k :: 0 <= k < |creates| ==> k < NumBatches(n) && creates[k] == Batch(n, k, make)
      invariant forall m :: 0 <= m < |pool| ==> pool[m] == withId(make(m + 1), IdAt(acks, m + 1))
      decreases n - i
    {
      var batch, stored := CreateBatch(n, |creates|, make, withId, acks);
      creates := creates + [batch];
      pool := pool + stored;
      i := i + BatchSize;
    }
  }

  /** The user with index `index` as it sits in the pool. */
  function PooledUser(env: Environment, index: nat): User
    requires index >= 1
  {
    BulkUser(index, env.userDraws(index)).(id := IdAt(env.userAcks, index))
  }

  /** The product with index `index` as it sits in the pool. */
  function PooledProduct(env: Environment, index: nat): Product
    requires index >= 1
  {
    BulkProduct(index, env.productDraws(index)).(id := IdAt(env.productAcks, index))
  }

  /**
   * The order phase: `make(index)` builds order `index`, drawing its user and its
   * product from the finished pools (see MakeOrder), which the phase only reads.
   * Every batch is handed to the store and `countOrders` grows by the batch
   * length whether or not the insert succeeded.
   */
  method RunOrderPhase(n: int, make: nat -> Order)
    returns (countOrders: int, creates: seq<seq<Order>>)
    ensures countOrders == if n > 0 then n else 0
    ensures creates == Batches(n, make)
  {
    countOrders, creates := 0, [];
    var i := 0;
    while i < n
      invariant i == BatchStart(|creates|)
      invariant i == 0 || i - BatchSize < n
      invariant countOrders == if i <= n then i else if n > 0 then n else 0
      invariant forall k :: 0 <= k < |creates| ==> k < NumBatches(n) && creates[k] == Batch(n, k, make)
      decreases n - i
    {
      var orders := [];
      var j := 0;
      while j < BatchSize && i + j < n
        invariant 0 <= j <= BatchSize && i + j <= n
        invariant orders == seq(j, t requires 0 <= t => make(i + t + 1))
      {
        orders := orders + [make(i + j + 1)];
        j := j + 1;
      }
      assert orders == Batch(n, |creates|, make);
      // db.Create(&orders); a failure is only logged.
      creates := creates + [orders];
      countOrders := countOrders + |orders|;
      i := i + BatchSize;
    }
  }

  // ---------------------------------------------------------------------------
  // The whole run.

  function Clamp(n: int): nat {
    if n > 0 then n else 0
  }

  /** How record index `index` of each kind is built from the environment. */
  function MakeUser(env: Environment): nat -> User {
    (index: nat) => BulkUser(index, env.userDraws(index))
  }

  function MakeProduct(env: Environment): nat -> Product {
    (index: nat) => BulkProduct(index, env.productDraws(index))
  }

  function MakeOrder(env: Environment, users: seq<User>, products: seq<Product>): nat -> Order {
    (index: nat) => OrderAt(index, users, products, env.orderDraws(index))
  }

  /**
   * An order's logical reference to a user: 0 while the pool is empty, and
   * otherwise the ID of some pooled user (itself 0 if that user's batch was rejected).
   */
  predicate ReferencesUser(userId: nat, users: seq<User>) {
    if |users| == 0 then userId == 0 else exists u :: u in users && u.id == userId
  }

  predicate ReferencesProduct(productId: nat, products: seq<Product>) {
    if |products| == 0 then productId == 0 else exists p :: p in products && p.id == productId
  }

  /** Every order sampled against the pools references them as described above, with a quantity in [1, 10]. */
  lemma OrderReferencesPools(index: nat, users: seq<User>, products: seq<Product>, d: OrderDraws)
    ensures var o := OrderAt(index, users, products, d);
      ReferencesUser(o.userId, users) && ReferencesProduct(o.productId, products)
      && 1 <= o.quantity <= 10 && o.orderNumber == OrderNumberFor(index)
  {
    var u := SampleUser(users, d.userPick);
    var p := SampleProduct(products, d.productPick);
    if |users| > 0 {
      assert u in users;
    }
    if |products| > 0 {
      assert p in products;
    }
  }

  /** Within one run no two users share an email or a phone number. */
  lemma PooledUsersDiffer(env: Environment, a: nat, b: nat)
    requires 1 <= a && 1 <= b && a != b
    ensures PooledUser(env, a).email != PooledUser(env, b).email
    ensures PooledUser(env, a).phone != PooledUser(env, b).phone
  {
    if PooledUser(env, a).email == PooledUser(env, b).email {
      EmailIdentifiesIndex(a, b);
    }
    if PooledUser(env, a).phone == PooledUser(env, b).phone {
      PhoneIdentifiesIndex(a, b);
    }
  }

  /** Within one run no two products share an SKU. */
  lemma PooledProductsDiffer(env: Environment, a: nat, b: nat)
    requires 1 <= a && 1 <= b && a != b
    ensures PooledProduct(env, a).sku != PooledProduct(env, b).sku
  {
    if PooledProduct(env, a).sku == PooledProduct(env, b).sku {
      SkuIdentifiesIndex(a, b);
    }
  }

  /** Within one run two order slots carry the same order number only if they are the same slot. */
  lemma OrderNumbersUnique(n: int, make: nat -> Order, k: nat, j: nat, k': nat, j': nat)
    requires forall index: nat :: make(index).orderNumber == OrderNumberFor(index)
    requires k < NumBatches(n) && j < |Batch(n, k, make)|
    requires k' < NumBatches(n) && j' < |Batch(n, k', make)|
    requires Batch(n, k, make)[j].orderNumber == Batch(n, k', make)[j'].orderNumber
    ensures k == k' && j == j'
  {
    var x, x' := BatchStart(k) + j + 1, BatchStart(k') + j' + 1;
    BatchElement(n, k, j, make);
    BatchElement(n, k', j', make);
    assert OrderNumberFor(x) == OrderNumberFor(x') by {
      assert make(x).orderNumber == OrderNumberFor(x) && make(x').orderNumber == OrderNumberFor(x');
    }
    OrderNumberIdentifiesIndex(x, x');
    IndexCoveredOnce(n, k, j, k', j');
  }

  /**
   * The record indices behind a pool: `idx[m]` is the index of the record at
   * position m. They are distinct in every order the batches can be appended
   * in; the batch-by-batch order gives `idx[m] == m + 1` (SequentialIndices).
   */
  predicate DistinctIndices(idx: seq<nat>) {
    forall a, b :: 0 <= a < b < |idx| ==> idx[a] != idx[b]
  }

  function SequentialIndices(n: nat): (idx: seq<nat>)
    ensures |idx| == n && DistinctIndices(idx)
    ensures forall m :: 0 <= m < n ==> idx[m] == m + 1
  {
    seq(n, m requires 0 <= m => m + 1)
  }

  /** Every pooled user carries the email and phone number of its own index. */
  lemma PooledUserFields(env: Environment, allUsers: seq<User>, idx: seq<nat>)
    requires |idx| == |allUsers|
    requires forall m :: 0 <= m < |allUsers| ==> idx[m] >= 1 && allUsers[m] == PooledUser(env, idx[m])
    ensures forall m :: 0 <= m < |allUsers| ==>
      allUsers[m].email == EmailFor(idx[m]) && allUsers[m].phone == PhoneFor(idx[m])
  {
  }

  /** Every pooled product carries the SKU of its own index. */
  lemma PooledProductFields(env: Environment, allProducts: seq<Product>, idx: seq<nat>)
    requires |idx| == |allProducts|
    requires forall m :: 0 <= m < |allProducts| ==> idx[m] >= 1 && allProducts[m] == PooledProduct(env, idx[m])
    ensures forall m :: 0 <= m < |allProducts| ==> allProducts[m].sku == SkuFor(idx[m])
  {
  }

  /**
   * A pool whose records come from distinct indices, in whatever order their
   * batches were appended, holds no two users with the same email or phone.
   */
  lemma UserPoolUnique(allUsers: seq<User>, idx: seq<nat>)
    requires |idx| == |allUsers| && DistinctIndices(idx)
    requires forall m :: 0 <= m < |allUsers| ==>
      allUsers[m].email == EmailFor(idx[m]) && allUsers[m].phone == PhoneFor(idx[m])
    ensures forall a, b :: 0 <= a < b < |allUsers| ==>
      allUsers[a].email != allUsers[b].email && allUsers[a].phone != allUsers[b].phone
  {
    forall a, b | 0 <= a < b < |allUsers|
      ensures allUsers[a].email != allUsers[b].email && allUsers[a].phone != allUsers[b].phone
    {
      if allUsers[a].email == allUsers[b].email {
        EmailIdentifiesIndex(idx[a], idx[b]);
      }
      if allUsers[a].phone == allUsers[b].phone {
        PhoneIdentifiesIndex(idx[a], idx[b]);
      }
    }
  }

  /** Likewise, such a pool holds no two products with the same SKU. */
  lemma ProductPoolUnique(allProducts: seq<Product>, idx: seq<nat>)
    requires |idx| == |allProducts| && DistinctIndices(idx)
    requires forall m :: 0 <= m < |allProducts| ==> allProducts[m].sku == SkuFor(idx[m])
    ensures forall a, b :: 0 <= a < b < |allProducts| ==> allProducts[a].sku != allProducts[b].sku
  {
    forall a, b | 0 <= a < b < |allProducts|
      ensures allProducts[a].sku != allProducts[b].sku
    {
      if allProducts[a].sku == allProducts[b].sku {
        SkuIdentifiesIndex(idx[a], idx[b]);
      }
    }
  }

  /** The pools as the batch-by-batch run leaves them are instances of the two lemmas above. */
  lemma SequentialUserPoolUnique(env: Environment, allUsers: seq<User>)
    requires forall m :: 0 <= m < |allUsers| ==> allUsers[m] == PooledUser(env, m + 1)
    ensures forall a, b :: 0 <= a < b < |allUsers| ==>
      allUsers[a].email != allUsers[b].email && allUsers[a].phone != allUsers[b].phone
  {
    var idx := SequentialIndices(|allUsers|);
    PooledUserFields(env, allUsers, idx);
    UserPoolUnique(allUsers, idx);
  }

  lemma SequentialProductPoolUnique(env: Environment, allProducts: seq<Product>)
    requires forall m :: 0 <= m < |allProducts| ==> allProducts[m] == PooledProduct(env, m + 1)
    ensures forall a, b :: 0 <= a < b < |allProducts| ==> allProducts[a].sku != allProducts[b].sku
  {
    var idx := SequentialIndices(|allProducts|);
    PooledProductFields(env, allProducts, idx);
    ProductPoolUnique(allProducts, idx);
  }

  function UserCalls(creates: seq<seq<User>>): (calls: seq<StoreCall>)
    ensures |calls| == |creates| && forall k :: 0 <= k < |creates| ==> calls[k] == CreateUsers(creates[k])
  {
    seq(|creates|, k requires 0 <= k < |creates| => CreateUsers(creates[k]))
  }

  function ProductCalls(creates: seq<seq<Product>>): (calls: seq<StoreCall>)
    ensures |calls| == |creates| && forall k :: 0 <= k < |creates| ==> calls[k] == CreateProducts(creates[k])
  {
    seq(|creates|, k requires 0 <= k < |creates| => CreateProducts(creates[k]))
  }

  function OrderCalls(creates: seq<seq<Order>>): (calls: seq<StoreCall>)
    ensures |calls| == |creates| && forall k :: 0 <= k < |creates| ==> calls[k] == CreateOrders(creates[k])
  {
    seq(|creates|, k requires 0 <= k < |creates| => CreateOrders(creates[k]))
  }

  /**
   * The requests of a whole run: every user batch, then every product batch,
   * then every order batch, each phase's batches in dispatch order; the orders
   * are drawn against the finished pools.
   */
  ghost predicate PhasesInOrder(plan: RecordCounts, env: Environment, allUsers: seq<User>, allProducts: seq<Product>,
                                calls: seq<StoreCall>)
  {
    calls == UserCalls(Batches(plan.users, MakeUser(env)))
           + ProductCalls(Batches(plan.products, MakeProduct(env)))
           + OrderCalls(Batches(plan.orders, MakeOrder(env, allUsers, allProducts)))
  }

  /** Where each kind of request sits: 0 for user inserts, 1 for products, 2 for orders, 3 for the join. */
  function Phase(c: StoreCall): nat {
    match c
    case CreateUsers(_) => 0
    case CreateProducts(_) => 1
    case CreateOrders(_) => 2
    case QueryJoinedOrder(_) => 3
  }

  /**
   * Three phases laid end to end: the store sees user batch k as request k,
   * product batch k right after all user batches, and order batch k after all
   * product batches.
   */
  lemma PhaseCallPositions(uc: seq<seq<User>>, pc: seq<seq<Product>>, oc: seq<seq<Order>>)
    ensures var calls := UserCalls(uc) + ProductCalls(pc) + OrderCalls(oc);
      && |calls| == |uc| + |pc| + |oc|
      && (forall k :: 0 <= k < |uc| ==> calls[k] == CreateUsers(uc[k]))
      && (forall k :: 0 <= k < |pc| ==> calls[|uc| + k] == CreateProducts(pc[k]))
      && (forall k :: 0 <= k < |oc| ==> calls[|uc| + |pc| + k] == CreateOrders(oc[k]))
  {
    var u, p, o := UserCalls(uc), ProductCalls(pc), OrderCalls(oc);
    var calls := u + p + o;
    forall k | 0 <= k < |pc| ensures calls[|uc| + k] == CreateProducts(pc[k]) {
      assert calls[|uc| + k] == p[k];
    }
    forall k | 0 <= k < |oc| ensures calls[|uc| + |pc| + k] == CreateOrders(oc[k]) {
      assert calls[|uc| + |pc| + k] == o[k];
    }
  }

  /** No request of a later phase reaches the store before a request of an earlier phase. */
  lemma PhaseCallsOrdered(uc: seq<seq<User>>, pc: seq<seq<Product>>, oc: seq<seq<Order>>)
    ensures var calls := UserCalls(uc) + ProductCalls(pc) + OrderCalls(oc);
      forall i, j :: 0 <= i < j < |calls| ==> Phase(calls[i]) <= Phase(calls[j])
  {
    var u, p, o := UserCalls(uc), ProductCalls(pc), OrderCalls(oc);
    var calls := u + p + o;
    forall i | 0 <= i < |calls|
      ensures Phase(calls[i]) == if i < |uc| then 0 else if i < |uc| + |pc| then 1 else 2
    {
      if i < |uc| {
        assert calls[i] == u[i];
      } else if i < |uc| + |pc| {
        assert calls[i] == p[i - |uc|];
      } else {
        assert calls[i] == o[i - |uc| - |pc|];
      }
    }
  }

  /** Order `j` of order batch `k` is the order built for its record index, wherever the three phases put it. */
  lemma OrderCallAt(nu: int, np: int, no: int, mu: nat -> User, mp: nat -> Product, mo: nat -> Order,
                    calls: seq<StoreCall>, k: nat, j: nat)
    requires calls == UserCalls(Batches(nu, mu)) + ProductCalls(Batches(np, mp)) + OrderCalls(Batches(no, mo))
    requires k < NumBatches(no) && j < |Batch(no, k, mo)|
    ensures var c := NumBatches(nu) + NumBatches(np) + k;
      && c < |calls| && calls[c] == CreateOrders(Batch(no, k, mo))
      && calls[c].orders[j] == mo(BatchStart(k) + j + 1)
  {
    var uc, pc, oc := Batches(nu, mu), Batches(np, mp), Batches(no, mo);
    assert calls[|uc| + |pc| + k] == CreateOrders(oc[k]) by {
      PhaseCallPositions(uc, pc, oc);
    }
    BatchElement(no, k, j, mo);
  }

  /** Every order built against the pools references them. */
  lemma MakeOrderReferencesPools(env: Environment, users: seq<User>, products: seq<Product>, index: nat)
    ensures ReferencesUser(MakeOrder(env, users, products)(index).userId, users)
    ensures ReferencesProduct(MakeOrder(env, users, products)(index).productId, products)
  {
    OrderReferencesPools(index, users, products, env.orderDraws(index));
  }

  /**
   * Every order a run hands to the store (the `j`-th order of order batch `k`,
   * which follows all user and product batches) references the pools as they
   * stood when the order phase began (see ReferencesUser and ReferencesProduct).
   */
  lemma RunOrdersReferencePools(plan: RecordCounts, env: Environment, allUsers: seq<User>, allProducts: seq<Product>,
                                calls: seq<StoreCall>, k: nat, j: nat)
    requires PhasesInOrder(plan, env, allUsers, allProducts, calls)
    requires k < NumBatches(plan.orders) && j < |Batch(plan.orders, k, MakeOrder(env, allUsers, allProducts))|
    ensures var c := NumBatches(plan.users) + NumBatches(plan.products) + k;
      && c < |calls| && calls[c].CreateOrders? && j < |calls[c].orders|
      && ReferencesUser(calls[c].orders[j].userId, allUsers)
      && ReferencesProduct(calls[c].orders[j].productId, allProducts)
  {
    OrderCallAt(plan.users, plan.products, plan.orders, MakeUser(env), MakeProduct(env),
                MakeOrder(env, allUsers, allProducts), calls, k, j);
    MakeOrderReferencesPools(env, allUsers, allProducts, BatchStart(k) + j + 1);
  }

  /**
   * No two orders a run hands to the store share an order number: order `j`
   * of order batch `k` and order `j'` of order batch `k'` carry the same one
   * only if they are the same order of the same batch.
   */
  lemma RunOrderNumbersUnique(plan: RecordCounts, env: Environment, allUsers: seq<User>, allProducts: seq<Product>,
                              calls: seq<StoreCall>, k: nat, j: nat, k': nat, j': nat)
    requires PhasesInOrder(plan, env, allUsers, allProducts, calls)
    requires k < NumBatches(plan.orders) && j < |Batch(plan.orders, k, MakeOrder(env, allUsers, allProducts))|
    requires k' < NumBatches(plan.orders) && j' < |Batch(plan.orders, k', MakeOrder(env, allUsers, allProducts))|
    ensures var c, c' := NumBatches(plan.users) + NumBatches(plan.products) + k,
                         NumBatches(plan.users) + NumBatches(plan.products) + k';
      && c < |calls| && calls[c].CreateOrders? && j < |calls[c].orders|
      && c' < |calls| && calls[c'].CreateOrders? && j' < |calls[c'].orders|
      && (calls[c].orders[j].orderNumber == calls[c'].orders[j'].orderNumber ==> k == k' && j == j')
  {
    RunOrderNumber(plan, env, allUsers, allProducts, calls, k, j);
    RunOrderNumber(plan, env, allUsers, allProducts, calls, k', j');
    var c, c' := NumBatches(plan.users) + NumBatches(plan.products) + k,
                 NumBatches(plan.users) + NumBatches(plan.products) + k';
    if calls[c].orders[j].orderNumber == calls[c'].orders[j'].orderNumber {
      OrderSlotsDistinct(plan.orders, k, j, k', j');
    }
  }

  /** Two slots of the order phase with the same order number are the same slot. */
  lemma OrderSlotsDistinct(n: int, k: nat, j: nat, k': nat, j': nat)
    requires k < NumBatches(n) && j < BatchLen(n, BatchStart(k))
    requires k' < NumBatches(n) && j' < BatchLen(n, BatchStart(k'))
    requires OrderNumberFor(BatchStart(k) + j + 1) == OrderNumberFor(BatchStart(k') + j' + 1)
    ensures k == k' && j == j'
  {
    OrderNumberIdentifiesIndex(BatchStart(k) + j + 1, BatchStart(k') + j' + 1);
    IndexCoveredOnce(n, k, j, k', j');
  }

  /** Order `j` of order batch `k` reaches the store with the order number of its record index. */
  lemma RunOrderNumber(plan: RecordCounts, env: Environment, allUsers: seq<User>, allProducts: seq<Product>,
                       calls: seq<StoreCall>, k: nat, j: nat)
    requires PhasesInOrder(plan, env, allUsers, allProducts, calls)
    requires k < NumBatches(plan.orders) && j < |Batch(plan.orders, k, MakeOrder(env, allUsers, allProducts))|
    ensures var c := NumBatches(plan.users) + NumBatches(plan.products) + k;
      && c < |calls| && calls[c].CreateOrders? && j < |calls[c].orders|
      && calls[c].orders[j].orderNumber == OrderNumberFor(BatchStart(k) + j + 1)
  {
    var x := BatchStart(k) + j + 1;
    OrderCallAt(plan.users, plan.products, plan.orders, MakeUser(env), MakeProduct(env),
                MakeOrder(env, allUsers, allProducts), calls, k, j);
    OrderReferencesPools(x, allUsers, allProducts, env.orderDraws(x));
  }

  /**
   * `GenerateData`: the user phase drains completely, then the product phase,
   * then the order phase, which samples from the two finished pools. Batch
   * failures never stop a phase; the method always returns without error.
   */
  method GenerateData(plan: RecordCounts, env: Environment)
    returns (allUsers: seq<User>, allProducts: seq<Product>, countOrders: int, calls: seq<StoreCall>)
    ensures |allUsers| == Clamp(plan.users)
    ensures forall m :: 0 <= m < |allUsers| ==> allUsers[m] == PooledUser(env, m + 1)
    ensures |allProducts| == Clamp(plan.products)
    ensures forall m :: 0 <= m < |allProducts| ==> allProducts[m] == PooledProduct(env, m + 1)
    ensures countOrders == Clamp(plan.orders)
    ensures PhasesInOrder(plan, env, allUsers, allProducts, calls)
    ensures forall a, b :: 0 <= a < b < |allUsers| ==>
      allUsers[a].email != allUsers[b].email && allUsers[a].phone != allUsers[b].phone
    ensures forall a, b :: 0 <= a < b < |allProducts| ==> allProducts[a].sku != allProducts[b].sku
  {
    var userCreates, productCreates, orderCreates;
    allUsers, userCreates := RunPoolPhase(plan.users, MakeUser(env), (u: User, id: nat) => u.(id := id), env.userAcks);
    allProducts, productCreates := RunPoolPhase(plan.products, MakeProduct(env), (p: Product, id: nat) => p.(id := id), env.productAcks);
    countOrders, orderCreates := RunOrderPhase(plan.orders, MakeOrder(env, allUsers, allProducts));
    calls := UserCalls(userCreates) + ProductCalls(productCreates) + OrderCalls(orderCreates);
    SequentialUserPoolUnique(env, allUsers);
    SequentialProductPoolUnique(env, allProducts);
  }
}
