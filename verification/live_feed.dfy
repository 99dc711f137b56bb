/**
 * The live feed started after the bulk run: on every tick it inserts one user,
 * then one product, then one order that references the two IDs just assigned,
 * and reads the order back through a join on its ID. The first failure abandons
 * the tick; the ticker keeps going regardless.
 */
module LiveFeed {
  import opened GoRuntime
  import opened GoFormat
  import opened GoModels
  import opened Generator

  /** The random draws of one tick (see Generator for how a draw stands for `rand.Intn`). */
  datatype TickDraws = TickDraws(
    gender: nat, age: nat, occupation: nat, maritalStatus: nat, education: nat, income: Float,
    loyaltyPoints: nat, category: nat, price: Float, stock: nat, sku: nat, weight: Float,
    width: nat, height: nat, depth: nat, color: nat, rating: Float, reviews: nat, discount: Float,
    stockStatus: nat, quantity: nat, amountQuantity: nat, paymentMethod: nat, orderDiscount: Float,
    tax: Float, shipping: Float, tracking: nat)

  /** The two clock readings of a tick: `time.Now()` at its start and `time.Since` when it logs. */
  datatype TickClock = TickClock(now: Time, loggedAt: Time)

  /** The row the join query returns. */
  datatype JoinedRow = JoinedRow(orderNumber: string, username: string, productName: string, totalAmount: Float)

  datatype QueryAnswer = QueryError | Found(row: JoinedRow)

  /** The store's answers to the four requests of one tick. */
  datatype TickAnswers = TickAnswers(user: Ack, product: Ack, order: Ack, query: QueryAnswer)

  /** How a tick ended; only a successful one logs the joined row and the time elapsed since the run started. */
  datatype Firing =
    | UserInsertFailed
    | ProductInsertFailed
    | OrderInsertFailed
    | QueryFailed
    | Succeeded(row: JoinedRow, elapsed: int)

  /** The tick's user; its phone is "139" and the last eight digits of the clock in nanoseconds. */
  function TimedUser(now: Time, d: TickDraws): (u: User)
    ensures u.id == 0 && 18 <= u.age <= 80
    ensures u.registrationDate == u.lastLogin == u.createdAt == u.updatedAt == now
  {
    User(
      id := 0,
      username := "定时用户" + Itoa(now),
      gender := Pick(Genders, d.gender),
      age := Intn(d.age, 63) + 18,
      email := "timed_user" + Itoa(now) + "@example.com",
      phone := "139" + PaddedInt(TruncRem(now, 100000000), 8),
      address := "定时地址",
      nationality := "中国",
      occupation := Pick(Occupations, d.occupation),
      maritalStatus := Pick(MaritalStatuses, d.maritalStatus),
      education := Pick(Educations, d.education),
      hobby := "运动,音乐",
      income := d.income * 10000.0 + 3000.0,
      registrationDate := now,
      lastLogin := now,
      loyaltyPoints := Intn(d.loyaltyPoints, 1000),
      preferredLanguage := "中文",
      currency := "CNY",
      timezone := "CST",
      status := "活跃",
      createdAt := now,
      updatedAt := now)
  }

  /** Distinct clock readings give the timed users distinct emails: the email holds the whole reading. */
  lemma TimedEmailsDiffer(now: Time, now': Time, d: TickDraws, d': TickDraws)
    requires 0 <= now && 0 <= now' && now != now'
    ensures TimedUser(now, d).email != TimedUser(now', d').email
  {
    if TimedUser(now, d).email == TimedUser(now', d').email {
      assert TimedUser(now, d).email == "timed_user" + Padded(now, 0) + "@example.com";
      assert TimedUser(now', d').email == "timed_user" + Padded(now', 0) + "@example.com";
      FieldInjective("timed_user", 0, "@example.com", now, now');
    }
  }

  /**
   * The phone, unlike the email, is not unique per reading: it keeps only the
   * reading modulo 10^8 ns, so any two readings 0.1 s apart, or a multiple of
   * it, give the same phone number.
   */
  lemma TimedPhonesCollide(now: Time, now': Time, d: TickDraws, d': TickDraws)
    requires 0 <= now && 0 <= now' && now % 100000000 == now' % 100000000
    ensures TimedUser(now, d).phone == TimedUser(now', d').phone
  {
    assert TruncRem(now, 100000000) == now % 100000000;
    assert TruncRem(now', 100000000) == now' % 100000000;
  }

  /**
   * In particular two ticks read exactly one ticker period (30 s) apart build
   * users with the same phone, so the store's unique index on the phone
   * rejects the second user and that tick inserts nothing.
   */
  lemma TimedPhoneRepeatsAfterOnePeriod(now: Time, d: TickDraws, d': TickDraws)
    requires now >= 0
    ensures TimedUser(now, d).phone == TimedUser(now + 30 * Second, d').phone
  {
    TimedPhonesCollide(now, now + 30 * Second, d, d');
  }

  function TimedProduct(now: Time, d: TickDraws): (p: Product)
    ensures p.id == 0 && 0 <= p.stock < 5000
    ensures p.releaseDate == YearsBefore(now, 0) && p.createdAt == p.updatedAt == now
  {
    Product(
      id := 0,
      productName := "定时产品" + Itoa(now),
      category := Pick(Categories, d.category),
      description := "定时生成的产品描述",
      price := d.price * 1000.0,
      stock := Intn(d.stock, 5000),
      sku := "TSKU" + Padded(Intn(d.sku, 1000000), 6),
      manufacturer := "定时制造商",
      weight := d.weight * 10.0,
      dimensions := Padded(Intn(d.width, 100), 0) + "x" + Padded(Intn(d.height, 100), 0) + "x" + Padded(Intn(d.depth, 100), 0),
      color := Pick(Colors, d.color),
      material := "定时材质",
      releaseDate := YearsBefore(now, 0),
      warrantyPeriod := "12个月",
      countryOfOrigin := "中国",
      rating := d.rating * 5.0,
      numberOfReviews := Intn(d.reviews, 1000),
      discount := d.discount * 0.5,
      stockStatus := Pick(StockStatuses, d.stockStatus),
      supplier := "定时供应商",
      createdAt := now,
      updatedAt := now)
  }

  /**
   * The tick's order, linking the user and the product through the IDs the store
   * gave them; its amount is the product's price times a fresh draw of 1 to 10.
   */
  function TimedOrder(now: Time, d: TickDraws, userId: nat, productId: nat, price: Float): (o: Order)
    ensures o.id == 0 && o.userId == userId && o.productId == productId
    ensures 1 <= o.quantity <= 10 && !o.isGift
    ensures o.orderDate == o.createdAt == now && o.deliveryDate == now + 24 * Hour
  {
    Order(
      id := 0,
      orderNumber := "TORD" + Itoa(now),
      userId := userId,
      productId := productId,
      orderDate := now,
      quantity := Intn(d.quantity, 10) + 1,
      totalAmount := price * ((Intn(d.amountQuantity, 10) + 1) as real),
      paymentMethod := Pick(PaymentMethods, d.paymentMethod),
      shippingAddress := "定时收货地址",
      billingAddress := "定时账单地址",
      orderStatus := "待付款",
      discountAmount := d.orderDiscount * 50.0,
      taxAmount := d.tax * 20.0,
      shippingCost := d.shipping * 10.0,
      trackingNumber := "TTRK" + Itoa(Intn(d.tracking, 1000000)),
      deliveryDate := now + 24 * Hour,
      returnStatus := "无",
      customerNote := "定时订单, 请尽快处理",
      internalNote := "定时内部备注",
      isGift := false,
      giftMessage := "",
      extraInfo := "定时额外信息",
      createdAt := now,
      updatedAt := now)
  }

  /**
   * The order of one tick's requests, given the store's answers: each request is
   * made only if every earlier one succeeded, the join is keyed on the ID the
   * store gave the order, and the tick succeeds exactly when all four requests do.
   */
  ghost predicate TickSequence(startTime: Time, clock: TickClock, a: TickAnswers, outcome: Firing, calls: seq<StoreCall>)
  {
    && 1 <= |calls| <= 4
    && calls[0].CreateUsers?
    && (|calls| >= 2 ==> calls[1].CreateProducts?)
    && (|calls| >= 3 ==> calls[2].CreateOrders?)
    && (|calls| == 4 ==> calls[3] == QueryJoinedOrder(AssignedId(a.order, 0)))
    && (a.user.Rejected? <==> |calls| == 1)
    && (|calls| >= 3 <==> a.user.Accepted? && a.product.Accepted?)
    && (|calls| == 4 <==> |calls| >= 3 && a.order.Accepted?)
    && (outcome.UserInsertFailed? <==> a.user.Rejected?)
    && (outcome.ProductInsertFailed? <==> |calls| == 2)
    && (outcome.OrderInsertFailed? <==> |calls| == 3)
    && (outcome.QueryFailed? <==> |calls| == 4 && a.query.QueryError?)
    && (outcome.Succeeded? ==> outcome.row == a.query.row && outcome.elapsed == clock.loggedAt - startTime)
  }

  /**
   * What one tick's requests carry: the user and the product built from the
   * clock and the draws, and an order that references the IDs the store has
   * just assigned to that user and that product.
   */
  ghost predicate TickRecords(clock: TickClock, d: TickDraws, a: TickAnswers, calls: seq<StoreCall>)
    requires 1 <= |calls| <= 4
  {
    var product := TimedProduct(clock.now, d);
    && calls[0] == CreateUsers([TimedUser(clock.now, d)])
    && (|calls| >= 2 ==> calls[1] == CreateProducts([product]))
    && (|calls| >= 3 ==>
          calls[2] == CreateOrders([TimedOrder(clock.now, d, AssignedId(a.user, 0), AssignedId(a.product, 0), product.price)]))
  }

  ghost predicate TickObeys(startTime: Time, clock: TickClock, d: TickDraws, a: TickAnswers,
                            outcome: Firing, calls: seq<StoreCall>)
  {
    TickSequence(startTime, clock, a, outcome, calls) && TickRecords(clock, d, a, calls)
  }

  /** One firing of the ticker (the body of `for range ticker.C`). */
  method Fire(startTime: Time, clock: TickClock, d: TickDraws, a: TickAnswers)
    returns (outcome: Firing, calls: seq<StoreCall>)
    ensures TickObeys(startTime, clock, d, a, outcome, calls)
  {
    var user := TimedUser(clock.now, d);
    calls := [CreateUsers([user])];
    if a.user.Rejected? {
      return UserInsertFailed, calls;
    }
    user := user.(id := AssignedId(a.user, 0));

    var product := TimedProduct(clock.now, d);
    calls := calls + [CreateProducts([product])];
    if a.product.Rejected? {
      return ProductInsertFailed, calls;
    }
    product := product.(id := AssignedId(a.product, 0));

    var order := TimedOrder(clock.now, d, user.id, product.id, product.price);
    calls := calls + [CreateOrders([order])];
    if a.order.Rejected? {
      return OrderInsertFailed, calls;
    }
    order := order.(id := AssignedId(a.order, 0));

    calls := calls + [QueryJoinedOrder(order.id)];
    if a.query.QueryError? {
      return QueryFailed, calls;
    }
    outcome := Succeeded(a.query.row, clock.loggedAt - startTime);
  }

  /**
   * The first `ticks` firings of the ticker: every tick fires, whatever became of
   * the ones before it.
   */
  method RunTicks(startTime: Time, ticks: nat, clocks: nat -> TickClock, draws: nat -> TickDraws,
                  answers: nat -> TickAnswers)
    returns (firings: seq<Firing>, calls: seq<seq<StoreCall>>)
    ensures |firings| == |calls| == ticks
    ensures forall t :: 0 <= t < ticks ==> TickObeys(startTime, clocks(t), draws(t), answers(t), firings[t], calls[t])
  {
    firings, calls := [], [];
    var t := 0;
    while t < ticks
      invariant t <= ticks && |firings| == |calls| == t
      invariant forall s :: 0 <= s < t ==> TickObeys(startTime, clocks(s), draws(s), answers(s), firings[s], calls[s])
    {
      var outcome, tickCalls := Fire(startTime, clocks(t), draws(t), answers(t));
      firings, calls := firings + [outcome], calls + [tickCalls];
      t := t + 1;
    }
  }

  /**
   * With a clock that does not run backwards past the start, the elapsed times
   * logged by successful firings are non-negative and strictly increasing.
   */
  lemma ElapsedIncreasing(startTime: Time, clocks: nat -> TickClock, draws: nat -> TickDraws,
                          answers: nat -> TickAnswers, firings: seq<Firing>, calls: seq<seq<StoreCall>>,
                          t1: nat, t2: nat)
    requires |firings| == |calls|
    requires forall t :: 0 <= t < |firings| ==> TickObeys(startTime, clocks(t), draws(t), answers(t), firings[t], calls[t])
    requires forall t: nat :: startTime <= clocks(t).loggedAt
    requires forall t: nat, t': nat :: t < t' ==> clocks(t).loggedAt < clocks(t').loggedAt
    requires t1 < t2 < |firings| && firings[t1].Succeeded? && firings[t2].Succeeded?
    ensures 0 <= firings[t1].elapsed < firings[t2].elapsed
  {
    assert TickObeys(startTime, clocks(t1), draws(t1), answers(t1), firings[t1], calls[t1]);
    assert TickObeys(startTime, clocks(t2), draws(t2), answers(t2), firings[t2], calls[t2]);
  }

  /** A tick that logs success made exactly one join query, keyed on the order ID just assigned. */
  lemma SuccessQueriedOnce(startTime: Time, clock: TickClock, a: TickAnswers,
                           outcome: Firing, calls: seq<StoreCall>)
    requires TickSequence(startTime, clock, a, outcome, calls)
    requires outcome.Succeeded?
    ensures a.user.Accepted? && a.product.Accepted? && a.order.Accepted? && a.query.Found?
    ensures |calls| == 4 && calls[3] == QueryJoinedOrder(a.order.firstId)
    ensures calls[3].orderId == AssignedId(a.order, 0)
    ensures forall c :: 0 <= c < 3 ==> !calls[c].QueryJoinedOrder?
  {
  }
}
