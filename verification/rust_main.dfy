/**
 * The Rust generator's driver: a bulk run that buffers one user, one product
 * and one order per iteration and flushes the three buffers to the store every
 * `BATCH_SIZE` iterations, stopping once the CSV output reaches the target size;
 * then a feed that inserts one user, one product and one order per tick and
 * reads them back, until the first error.
 *
 * The record generators are inputs: `user(i)`, `product(i)` and
 * `order(i, userId, productId)` are what the generators return at iteration i.
 * The store's answers are `ok(c)`, true when the c-th request succeeds, and
 * `csvSize(n)` is the total size of the three CSV files once n records of each
 * kind have been written.
 */
module RustMain {
  import opened RustModels

  const TargetSize := 50 * 1024 * 1024 * 1024
  const BatchSize := 1000
  const TotalRecords := 1000000

  /** A request made of the store. */
  datatype Call =
    | InsertUsers(users: seq<User>)
    | InsertProducts(products: seq<Product>)
    | InsertOrders(orders: seq<Order>)
    | QueryJoined(orderId: int)

  datatype Generators = Generators(user: nat -> User, product: nat -> Product, order: (nat, int, int) -> Order)

  /** What `generate_order(user_id, product_id)` promises: the order carries the two IDs it was given. */
  ghost predicate LinksParents(g: Generators) {
    forall i: nat, u: int, p: int :: g.order(i, u, p).userId == u && g.order(i, u, p).productId == p
  }

  /** The order of iteration i, generated from the IDs of that iteration's user and product. */
  function OrderOf(g: Generators): nat -> Order {
    (i: nat) => g.order(i, g.user(i).id, g.product(i).id)
  }

  /** The records f(from), ..., f(from + len - 1). */
  function Run<R>(f: nat -> R, from: nat, len: nat): (s: seq<R>)
    ensures |s| == len && forall j :: 0 <= j < len ==> s[j] == f(from + j)
  {
    seq(len, j requires 0 <= j < len => f(from + j))
  }

  lemma RunSplit<R>(f: nat -> R, from: nat, len: nat, len': nat)
    ensures Run(f, from, len + len') == Run(f, from, len) + Run(f, from + len, len')
  {
    var a, b := Run(f, from, len) + Run(f, from + len, len'), Run(f, from, len + len');
    assert |a| == |b|;
    forall j | 0 <= j < |a| ensures a[j] == b[j] {
      if j >= len {
        assert a[j] == Run(f, from + len, len')[j - len];
      }
    }
  }

  lemma PrefixStep<T>(s: seq<T>, k: nat)
    requires k < |s|
    ensures s[..k + 1] == s[..k] + [s[k]]
  {
  }

  lemma RunExtend<R>(f: nat -> R, from: nat, len: nat)
    ensures Run(f, from, len + 1) == Run(f, from, len) + [f(from + len)]
  {
    assert Run(f, from, len + 1)[len] == f(from + len);
  }

  // ---------------------------------------------------------------------------
  // The bulk run.

  /**
   * Flush number f: the users, then the products, then the orders of
   * iterations f * BATCH_SIZE to (f + 1) * BATCH_SIZE - 1.
   */
  function Flush(g: Generators, f: nat): seq<Call> {
    var start := BatchSize * f;
    [InsertUsers(Run(g.user, start, BatchSize)),
     InsertProducts(Run(g.product, start, BatchSize)),
     InsertOrders(Run(OrderOf(g), start, BatchSize))]
  }

  /** The requests of the first `flushes` flushes of a bulk run that nothing interrupts. */
  function BulkCalls(g: Generators, flushes: nat): (cs: seq<Call>)
    ensures |cs| == 3 * flushes
  {
    if flushes == 0 then [] else BulkCalls(g, flushes - 1) + Flush(g, flushes - 1)
  }

  /**
   * Where the bulk run stops when the store never fails: at the first batch
   * boundary whose CSV size reaches the target, or after TotalRecords iterations.
   */
  ghost predicate IsStopPoint(csvSize: nat -> nat, n: nat) {
    && 0 < n <= TotalRecords && n % BatchSize == 0
    && (n == TotalRecords || csvSize(n) >= TargetSize)
    && forall m :: 0 < m < n && m % BatchSize == 0 ==> csvSize(m) < TargetSize
  }

  /** How the bulk run ended: at its stop point, or at request `request` (0 to 2) of flush `flush`. */
  datatype BulkOutcome = Completed(generated: nat) | Failed(flush: nat, request: nat)

  lemma DivisionUnique(x: nat, q: nat, r: nat)
    requires r < BatchSize && x == BatchSize * q + r
    ensures x / BatchSize == q && x % BatchSize == r
  {
  }

  /**
   * The body of `if (i + 1) % BATCH_SIZE == 0` for flush f: insert the users,
   * then the products, then the orders (the first error ends the run with it),
   * then measure the CSV output and stop the run once it has reached the target.
   */
  method FlushBuffers(g: Generators, f: nat, csvSize: nat -> nat, ok: nat -> bool, calls: seq<Call>,
                      users: seq<User>, products: seq<Product>, orders: seq<Order>)
    returns (calls': seq<Call>, stop: Option<BulkOutcome>)
    requires calls == BulkCalls(g, f) && forall c :: 0 <= c < |calls| ==> ok(c)
    requires users == Run(g.user, BatchSize * f, BatchSize)
    requires products == Run(g.product, BatchSize * f, BatchSize)
    requires orders == Run(OrderOf(g), BatchSize * f, BatchSize)
    ensures stop.None? || stop.value.Completed? ==>
      && calls' == BulkCalls(g, f + 1) && (forall c :: 0 <= c < |calls'| ==> ok(c))
      && (stop.None? <==> csvSize(BatchSize * (f + 1)) < TargetSize)
    ensures stop.Some? && stop.value.Completed? ==> stop.value.generated == BatchSize * (f + 1)
    ensures stop.Some? && stop.value.Failed? ==>
      && stop.value.flush == f && stop.value.request < 3
      && calls' == BulkCalls(g, f) + Flush(g, f)[..stop.value.request + 1]
      && !ok(|calls'| - 1) && forall c :: 0 <= c < |calls'| - 1 ==> ok(c)
  {
    var flush := Flush(g, f);
    calls' := calls + [InsertUsers(users)];
    if !ok(|calls'| - 1) {
      assert calls' == calls + flush[..1];
      return calls', Some(Failed(f, 0));
    }
    calls' := calls' + [InsertProducts(products)];
    if !ok(|calls'| - 1) {
      assert calls' == calls + flush[..2];
      return calls', Some(Failed(f, 1));
    }
    calls' := calls' + [InsertOrders(orders)];
    if !ok(|calls'| - 1) {
      assert calls' == calls + flush[..3];
      return calls', Some(Failed(f, 2));
    }
    assert calls' == calls + flush;
    if csvSize(BatchSize * (f + 1)) >= TargetSize {
      return calls', Some(Completed(BatchSize * (f + 1)));
    }
    stop := None;
  }

  /**
   * The state of the bulk loop before iteration i, after `flushes` flushes: the
   * buffers hold the records of the iterations since the last flush, every
   * flush so far succeeded, and no batch boundary so far reached the target size.
   */
  ghost predicate Buffered(g: Generators, csvSize: nat -> nat, ok: nat -> bool, i: nat, flushes: nat,
                           calls: seq<Call>, users: seq<User>, products: seq<Product>, orders: seq<Order>) {
    && i == BatchSize * flushes + |users| && |users| < BatchSize
    && users == Run(g.user, BatchSize * flushes, |users|)
    && products == Run(g.product, BatchSize * flushes, |users|)
    && orders == Run(OrderOf(g), BatchSize * flushes, |users|)
    && calls == BulkCalls(g, flushes)
    && (forall c :: 0 <= c < |calls| ==> ok(c))
    && (forall m :: 0 < m <= i && m % BatchSize == 0 ==> csvSize(m) < TargetSize)
  }

  /**
   * How the bulk run ends. A completed run made exactly the requests of its
   * flushes, all of which succeeded, stopped at the stop point and left all
   * three buffers empty. A failed run made the requests up to and including the
   * first failing one, every earlier request succeeded, and no batch boundary
   * before the failing flush had reached the target size.
   */
  ghost predicate BulkEnded(g: Generators, csvSize: nat -> nat, ok: nat -> bool, outcome: BulkOutcome,
                            calls: seq<Call>, users: seq<User>, products: seq<Product>, orders: seq<Order>) {
    match outcome
    case Completed(n) =>
      && IsStopPoint(csvSize, n)
      && calls == BulkCalls(g, n / BatchSize)
      && (forall c :: 0 <= c < |calls| ==> ok(c))
      && users == [] && products == [] && orders == []
    case Failed(flush, request) =>
      && request < 3 && BatchSize * (flush + 1) <= TotalRecords
      && calls == BulkCalls(g, flush) + Flush(g, flush)[..request + 1]
      && !ok(|calls| - 1) && (forall c :: 0 <= c < |calls| - 1 ==> ok(c))
      && (forall m :: 0 < m <= BatchSize * flush && m % BatchSize == 0 ==> csvSize(m) < TargetSize)
  }

  /**
   * Between iterations the three buffers have the same length, the number of
   * iterations since the last batch boundary, which is always below BATCH_SIZE.
   */
  lemma BufferedSizes(g: Generators, csvSize: nat -> nat, ok: nat -> bool, i: nat, flushes: nat,
                      calls: seq<Call>, users: seq<User>, products: seq<Product>, orders: seq<Order>)
    requires Buffered(g, csvSize, ok, i, flushes, calls, users, products, orders)
    ensures |users| == |products| == |orders| == i % BatchSize < BatchSize
    ensures flushes == i / BatchSize && |calls| == 3 * (i / BatchSize)
  {
    DivisionUnique(i, flushes, |users|);
  }

  /** An iteration that does not end a batch keeps the loop's state, one record longer. */
  lemma PushKeepsBuffered(g: Generators, csvSize: nat -> nat, ok: nat -> bool, i: nat, flushes: nat,
                          calls: seq<Call>, users: seq<User>, products: seq<Product>, orders: seq<Order>)
    requires Buffered(g, csvSize, ok, i, flushes, calls, users, products, orders)
    requires (i + 1) % BatchSize != 0
    ensures Buffered(g, csvSize, ok, i + 1, flushes, calls,
                     users + [g.user(i)], products + [g.product(i)], orders + [OrderOf(g)(i)])
  {
    var start := BatchSize * flushes;
    RunExtend(g.user, start, |users|);
    RunExtend(g.product, start, |users|);
    RunExtend(OrderOf(g), start, |users|);
    assert |users| + 1 < BatchSize by {
      if |users| + 1 == BatchSize {
        DivisionUnique(i + 1, flushes + 1, 0);
      }
    }
  }

  /** The last iteration of a batch fills the buffers to exactly one batch. */
  lemma BatchFull(g: Generators, csvSize: nat -> nat, ok: nat -> bool, i: nat, flushes: nat,
                  calls: seq<Call>, users: seq<User>, products: seq<Product>, orders: seq<Order>)
    requires Buffered(g, csvSize, ok, i, flushes, calls, users, products, orders)
    requires (i + 1) % BatchSize == 0
    ensures i + 1 == BatchSize * (flushes + 1) && (i + 1) / BatchSize == flushes + 1
    ensures users + [g.user(i)] == Run(g.user, BatchSize * flushes, BatchSize)
    ensures products + [g.product(i)] == Run(g.product, BatchSize * flushes, BatchSize)
    ensures orders + [OrderOf(g)(i)] == Run(OrderOf(g), BatchSize * flushes, BatchSize)
  {
    var start := BatchSize * flushes;
    DivisionUnique(i + 1, flushes + 1, 0);
    RunExtend(g.user, start, |users|);
    RunExtend(g.product, start, |users|);
    RunExtend(OrderOf(g), start, |users|);
  }

  /** A flush that succeeds below the target size starts the next batch. */
  lemma FlushKeepsBuffered(g: Generators, csvSize: nat -> nat, ok: nat -> bool, i: nat, flushes: nat, calls: seq<Call>)
    requires i + 1 == BatchSize * (flushes + 1)
    requires calls == BulkCalls(g, flushes + 1) && forall c :: 0 <= c < |calls| ==> ok(c)
    requires forall m :: 0 < m <= i && m % BatchSize == 0 ==> csvSize(m) < TargetSize
    requires csvSize(i + 1) < TargetSize
    ensures Buffered(g, csvSize, ok, i + 1, flushes + 1, calls, [], [], [])
  {
  }

  /** A flush that succeeds at or above the target size ends the run, completed. */
  lemma FlushReachesTarget(g: Generators, csvSize: nat -> nat, ok: nat -> bool, i: nat, flushes: nat, calls: seq<Call>)
    requires i < TotalRecords && i + 1 == BatchSize * (flushes + 1) && (i + 1) / BatchSize == flushes + 1
    requires calls == BulkCalls(g, flushes + 1) && forall c :: 0 <= c < |calls| ==> ok(c)
    requires forall m :: 0 < m <= i && m % BatchSize == 0 ==> csvSize(m) < TargetSize
    requires csvSize(i + 1) >= TargetSize
    ensures BulkEnded(g, csvSize, ok, Completed(i + 1), calls, [], [], [])
  {
    DivisionUnique(i + 1, flushes + 1, 0);
  }

  /** A failed flush ends the run with the failing request. */
  lemma FlushFails(g: Generators, csvSize: nat -> nat, ok: nat -> bool, i: nat, flushes: nat, request: nat,
                   calls: seq<Call>, users: seq<User>, products: seq<Product>, orders: seq<Order>)
    requires i < TotalRecords && i + 1 == BatchSize * (flushes + 1) && request < 3
    requires calls == BulkCalls(g, flushes) + Flush(g, flushes)[..request + 1]
    requires !ok(|calls| - 1) && forall c :: 0 <= c < |calls| - 1 ==> ok(c)
    requires forall m :: 0 < m <= i && m % BatchSize == 0 ==> csvSize(m) < TargetSize
    ensures BulkEnded(g, csvSize, ok, Failed(flushes, request), calls, users, products, orders)
  {
  }

  /**
   * One iteration i of the bulk loop: generate a user, a product and an order
   * from their IDs, push them onto the buffers, and at a batch boundary flush.
   * Either the loop goes on, or the run has ended.
   */
  method BulkIteration(g: Generators, csvSize: nat -> nat, ok: nat -> bool, i: nat, flushes: nat,
                       calls: seq<Call>, users: seq<User>, products: seq<Product>, orders: seq<Order>)
    returns (flushes': nat, calls': seq<Call>, users': seq<User>, products': seq<Product>, orders': seq<Order>,
             stop: Option<BulkOutcome>)
    requires i < TotalRecords && Buffered(g, csvSize, ok, i, flushes, calls, users, products, orders)
    ensures stop.None? ==> Buffered(g, csvSize, ok, i + 1, flushes', calls', users', products', orders')
    ensures stop.Some? ==> BulkEnded(g, csvSize, ok, stop.value, calls', users', products', orders')
  {
    var user := g.user(i);
    var product := g.product(i);
    var order := g.order(i, user.id, product.id);
    assert order == OrderOf(g)(i);
    flushes', calls', stop := flushes, calls, None;
    users', products', orders' := users + [user], products + [product], orders + [order];
    if (i + 1) % BatchSize == 0 {
      BatchFull(g, csvSize, ok, i, flushes, calls, users, products, orders);
      calls', stop := FlushBuffers(g, flushes, csvSize, ok, calls, users', products', orders');
      if stop.Some? && stop.value.Failed? {
        FlushFails(g, csvSize, ok, i, flushes, stop.value.request, calls', users', products', orders');
        return;
      }
      users', products', orders' := [], [], [];
      flushes' := flushes + 1;
      if stop.Some? {
        FlushReachesTarget(g, csvSize, ok, i, flushes, calls');
      } else {
        FlushKeepsBuffered(g, csvSize, ok, i, flushes, calls');
      }
    } else {
      PushKeepsBuffered(g, csvSize, ok, i, flushes, calls, users, products, orders);
    }
  }

  /**
   * The bulk loop of `main`. Returns how it ended, the requests it made, and the
   * three buffers as they stood when it ended.
   */
  method BulkGeneration(g: Generators, csvSize: nat -> nat, ok: nat -> bool)
    returns (outcome: BulkOutcome, calls: seq<Call>, users: seq<User>, products: seq<Product>, orders: seq<Order>)
    ensures BulkEnded(g, csvSize, ok, outcome, calls, users, products, orders)
  {
    calls, users, products, orders := [], [], [], [];
    var flushes := 0;
    for i := 0 to TotalRecords
      invariant Buffered(g, csvSize, ok, i, flushes, calls, users, products, orders)
    {
      var stop;
      flushes, calls, users, products, orders, stop := BulkIteration(g, csvSize, ok, i, flushes, calls, users, products, orders);
      if stop.Some? {
        return stop.value, calls, users, products, orders;
      }
    }
    assert TotalRecords / BatchSize == flushes by {
      DivisionUnique(TotalRecords, flushes, |users|);
    }
    outcome := Completed(TotalRecords);
  }

  /** The stop point, when there is one, is unique. */
  lemma StopPointUnique(csvSize: nat -> nat, n1: nat, n2: nat)
    requires IsStopPoint(csvSize, n1) && IsStopPoint(csvSize, n2)
    ensures n1 == n2
  {
  }

  /** Request 3k + j of the uninterrupted bulk run is request j of flush k. */
  lemma {:induction false} BulkCallAt(g: Generators, flushes: nat, k: nat, j: nat)
    requires k < flushes && j < 3
    ensures BulkCalls(g, flushes)[3 * k + j] == Flush(g, k)[j]
  {
    if k < flushes - 1 {
      BulkCallAt(g, flushes - 1, k, j);
    }
  }

  /**
   * Every request of the bulk run inserts exactly BATCH_SIZE records: users at
   * positions 0, 3, 6, ..., products right after, orders right after those.
   */
  lemma BulkCallShape(g: Generators, flushes: nat, k: nat, j: nat)
    requires k < flushes && j < 3
    ensures var r := BulkCalls(g, flushes)[3 * k + j];
      && (r.InsertUsers? <==> j == 0) && (r.InsertProducts? <==> j == 1) && (r.InsertOrders? <==> j == 2)
      && (r.InsertUsers? ==> |r.users| == BatchSize)
      && (r.InsertProducts? ==> |r.products| == BatchSize)
      && (r.InsertOrders? ==> |r.orders| == BatchSize)
  {
    BulkCallAt(g, flushes, k, j);
  }

  /** Within a flush, the order at each position references the user and the product at the same position. */
  lemma BuffersAligned(g: Generators, k: nat, j: nat)
    requires LinksParents(g) && j < BatchSize
    ensures var flush := Flush(g, k);
      flush[2].orders[j].userId == flush[0].users[j].id && flush[2].orders[j].productId == flush[1].products[j].id
  {
    var i := BatchSize * k + j;
    assert Flush(g, k)[2].orders[j] == g.order(i, g.user(i).id, g.product(i).id);
  }

  /** The records a sequence of requests inserts, kind by kind, in request order. */
  datatype Rows = Rows(users: seq<User>, products: seq<Product>, orders: seq<Order>)

  function Plus(a: Rows, b: Rows): Rows {
    Rows(a.users + b.users, a.products + b.products, a.orders + b.orders)
  }

  lemma PlusAssociative(x: Rows, y: Rows, z: Rows)
    ensures Plus(x, Plus(y, z)) == Plus(Plus(x, y), z)
  {
  }

  function RowsOf(c: Call): Rows {
    match c
    case InsertUsers(us) => Rows(us, [], [])
    case InsertProducts(ps) => Rows([], ps, [])
    case InsertOrders(os) => Rows([], [], os)
    case QueryJoined(_) => Rows([], [], [])
  }

  function Inserted(calls: seq<Call>): Rows {
    if |calls| == 0 then Rows([], [], []) else Plus(RowsOf(calls[0]), Inserted(calls[1..]))
  }

  lemma {:induction false} InsertedAppend(a: seq<Call>, b: seq<Call>)
    ensures Inserted(a + b) == Plus(Inserted(a), Inserted(b))
  {
    if |a| > 0 {
      assert (a + b)[0] == a[0] && (a + b)[1..] == a[1..] + b;
      InsertedAppend(a[1..], b);
      var x, y, z := RowsOf(a[0]), Inserted(a[1..]), Inserted(b);
      assert Inserted(a + b) == Plus(x, Plus(y, z));
      PlusAssociative(x, y, z);
    } else {
      assert a + b == b;
    }
  }

  lemma InsertedSingle(c: Call)
    ensures Inserted([c]) == RowsOf(c)
  {
    assert [c][1..] == [];
  }

  /** One flush inserts the users, the products and the orders of its batch. */
  lemma InsertedFlush(g: Generators, f: nat)
    ensures Inserted(Flush(g, f))
         == Rows(Run(g.user, BatchSize * f, BatchSize), Run(g.product, BatchSize * f, BatchSize),
                 Run(OrderOf(g), BatchSize * f, BatchSize))
  {
    var flush := Flush(g, f);
    assert flush == [flush[0]] + [flush[1]] + [flush[2]];
    InsertedAppend([flush[0]] + [flush[1]], [flush[2]]);
    InsertedAppend([flush[0]], [flush[1]]);
    InsertedSingle(flush[0]);
    InsertedSingle(flush[1]);
    InsertedSingle(flush[2]);
  }

  /** The records of the first `n` iterations, by kind. */
  function RowsUpTo(g: Generators, n: nat): Rows {
    Rows(Run(g.user, 0, n), Run(g.product, 0, n), Run(OrderOf(g), 0, n))
  }

  lemma RowsUpToSplit(g: Generators, before: nat, batch: nat)
    ensures Plus(RowsUpTo(g, before), Rows(Run(g.user, before, batch), Run(g.product, before, batch),
                                           Run(OrderOf(g), before, batch)))
         == RowsUpTo(g, before + batch)
  {
    RunSplit(g.user, 0, before, batch);
    RunSplit(g.product, 0, before, batch);
    RunSplit(OrderOf(g), 0, before, batch);
  }

  /**
   * The first `flushes` flushes insert exactly the users, the products and the
   * orders of the first `flushes * BATCH_SIZE` iterations, in order: no record
   * is lost, repeated or reordered.
   */
  lemma {:induction false} BulkInsertsEveryRecord(g: Generators, flushes: nat)
    ensures Inserted(BulkCalls(g, flushes)) == RowsUpTo(g, BatchSize * flushes)
  {
    if flushes > 0 {
      var f := flushes - 1;
      calc {
        Inserted(BulkCalls(g, flushes));
        Inserted(BulkCalls(g, f) + Flush(g, f));
        { InsertedAppend(BulkCalls(g, f), Flush(g, f)); }
        Plus(Inserted(BulkCalls(g, f)), Inserted(Flush(g, f)));
        { BulkInsertsEveryRecord(g, f); InsertedFlush(g, f); }
        Plus(RowsUpTo(g, BatchSize * f), Rows(Run(g.user, BatchSize * f, BatchSize), Run(g.product, BatchSize * f, BatchSize),
                                             Run(OrderOf(g), BatchSize * f, BatchSize)));
        { RowsUpToSplit(g, BatchSize * f, BatchSize); }
        RowsUpTo(g, BatchSize * f + BatchSize);
        { assert BatchSize * f + BatchSize == BatchSize * flushes; }
        RowsUpTo(g, BatchSize * flushes);
      }
    }
  }

  // ---------------------------------------------------------------------------
  // The continuous feed.

  /**
   * The four requests of a tick that generated `user`, `product` and `order`:
   * insert the user, then the product, then the order, then run the join query
   * keyed on the order's own `id`.
   */
  function TickCalls(user: User, product: Product, order: Order): seq<Call> {
    [InsertUsers([user]), InsertProducts([product]), InsertOrders([order]), QueryJoined(order.id)]
  }

  /** The requests of tick t. */
  function Tick(g: Generators, t: nat): seq<Call> {
    TickCalls(g.user(t), g.product(t), OrderOf(g)(t))
  }

  /** The requests of the first `ticks` ticks of a feed that nothing interrupts. */
  function FeedCalls(g: Generators, ticks: nat): (cs: seq<Call>)
    ensures |cs| == 4 * ticks
  {
    if ticks == 0 then [] else FeedCalls(g, ticks - 1) + Tick(g, ticks - 1)
  }

  /** How the feed's first `ticks` ticks ended: all of them ran, or request `request` (0 to 3) of tick `tick` failed. */
  datatype FeedOutcome = StillRunning | Stopped(tick: nat, request: nat)

  /**
   * The requests of one tick, once its records are generated. Either all four
   * are made and succeed, or the first failing one ends the tick and nothing
   * is requested after it.
   */
  method FeedTick(ok: nat -> bool, calls: seq<Call>, user: User, product: Product, order: Order)
    returns (calls': seq<Call>, failed: Option<nat>)
    requires forall c :: 0 <= c < |calls| ==> ok(c)
    ensures failed.None? ==> calls' == calls + TickCalls(user, product, order) && forall c :: 0 <= c < |calls'| ==> ok(c)
    ensures failed.Some? ==>
      && failed.value < 4 && calls' == calls + TickCalls(user, product, order)[..failed.value + 1]
      && !ok(|calls'| - 1) && forall c :: 0 <= c < |calls'| - 1 ==> ok(c)
  {
    var tick := TickCalls(user, product, order);
    calls' := calls + [InsertUsers([user])];
    assert calls' == calls + tick[..1] by { PrefixStep(tick, 0); }
    if !ok(|calls'| - 1) {
      return calls', Some(0);
    }
    calls' := calls' + [InsertProducts([product])];
    assert calls' == calls + tick[..2] by { PrefixStep(tick, 1); }
    if !ok(|calls'| - 1) {
      return calls', Some(1);
    }
    calls' := calls' + [InsertOrders([order])];
    assert calls' == calls + tick[..3] by { PrefixStep(tick, 2); }
    if !ok(|calls'| - 1) {
      return calls', Some(2);
    }
    calls' := calls' + [QueryJoined(order.id)];
    assert calls' == calls + tick[..4] by { PrefixStep(tick, 3); }
    if !ok(|calls'| - 1) {
      return calls', Some(3);
    }
    assert tick[..4] == tick;
    failed := None;
  }

  /**
   * `continuous_insertion`, for its first `ticks` ticks (the interval itself is
   * not modelled). Without an error it makes the four requests of every tick,
   * all of which succeeded; the first failing request ends the feed with that
   * error, and nothing is requested after it.
   */
  method ContinuousInsertion(g: Generators, ticks: nat, ok: nat -> bool) returns (outcome: FeedOutcome, calls: seq<Call>)
    ensures outcome.StillRunning? ==> calls == FeedCalls(g, ticks) && forall c :: 0 <= c < |calls| ==> ok(c)
    ensures outcome.Stopped? ==>
      && outcome.tick < ticks && outcome.request < 4
      && calls == FeedCalls(g, outcome.tick) + Tick(g, outcome.tick)[..outcome.request + 1]
      && !ok(|calls| - 1) && forall c :: 0 <= c < |calls| - 1 ==> ok(c)
  {
    calls := [];
    for t := 0 to ticks
      invariant calls == FeedCalls(g, t)
      invariant forall c :: 0 <= c < |calls| ==> ok(c)
    {
      var user := g.user(t);
      var product := g.product(t);
      var order := g.order(t, user.id, product.id);
      var failed;
      assert TickCalls(user, product, order) == Tick(g, t);
      calls, failed := FeedTick(ok, calls, user, product, order);
      if failed.Some? {
        return Stopped(t, failed.value), calls;
      }
    }
    outcome := StillRunning;
  }

  /** Request 4t + j of the uninterrupted feed is request j of tick t. */
  lemma {:induction false} FeedCallAt(g: Generators, ticks: nat, t: nat, j: nat)
    requires t < ticks && j < 4
    ensures FeedCalls(g, ticks)[4 * t + j] == Tick(g, t)[j]
  {
    if t < ticks - 1 {
      FeedCallAt(g, ticks - 1, t, j);
    }
  }

  /**
   * In the feed, every join query directly follows the user, product and order
   * inserts of its own tick, and asks for the `id` of the order just inserted;
   * and, given what `generate_order` promises, that order references the user
   * and the product just inserted.
   */
  lemma QueryFollowsInserts(g: Generators, ticks: nat, c: nat)
    requires c < 4 * ticks && FeedCalls(g, ticks)[c].QueryJoined?
    ensures c >= 3 && c % 4 == 3
    ensures var t, calls := c / 4, FeedCalls(g, ticks);
      && calls[c - 3] == InsertUsers([g.user(t)])
      && calls[c - 2] == InsertProducts([g.product(t)])
      && calls[c - 1] == InsertOrders([OrderOf(g)(t)])
      && calls[c] == QueryJoined(OrderOf(g)(t).id)
    ensures LinksParents(g) ==> OrderOf(g)(c / 4).userId == g.user(c / 4).id
    ensures LinksParents(g) ==> OrderOf(g)(c / 4).productId == g.product(c / 4).id
  {
    var t, j := c / 4, c % 4;
    FeedCallAt(g, ticks, t, j);
    assert j == 3;
    FeedCallAt(g, ticks, t, 0);
    FeedCallAt(g, ticks, t, 1);
    FeedCallAt(g, ticks, t, 2);
  }

  // ---------------------------------------------------------------------------
  // The whole run.

  /** The answers to the requests after the first `n`, renumbered from 0. */
  function Shifted(ok: nat -> bool, n: nat): (shifted: nat -> bool)
    ensures forall c: nat :: shifted(c) == ok(n + c)
  {
    (c: nat) => ok(n + c)
  }

  lemma ShiftedOk(ok: nat -> bool, n: nat, k: nat)
    requires forall c :: 0 <= c < k ==> Shifted(ok, n)(c)
    ensures forall c :: n <= c < n + k ==> ok(c)
  {
    forall c | n <= c < n + k
      ensures ok(c)
    {
      assert Shifted(ok, n)(c - n);
    }
  }

  /**
   * `continuous_insertion` started after the bulk run made the requests
   * `before`, all of which succeeded: the feed's requests follow them, and
   * request c of the feed is request |before| + c of the whole run.
   */
  method FeedAfterBulk(g: Generators, ticks: nat, ok: nat -> bool, before: seq<Call>)
    returns (outcome: FeedOutcome, calls: seq<Call>)
    requires forall c :: 0 <= c < |before| ==> ok(c)
    ensures |before| <= |calls| && calls[..|before|] == before
    ensures outcome.StillRunning? ==> calls[|before|..] == FeedCalls(g, ticks) && forall c :: 0 <= c < |calls| ==> ok(c)
    ensures outcome.Stopped? ==>
      && outcome.request < 4
      && calls[|before|..] == FeedCalls(g, outcome.tick) + Tick(g, outcome.tick)[..outcome.request + 1]
      && !ok(|calls| - 1) && forall c :: 0 <= c < |calls| - 1 ==> ok(c)
  {
    var feedCalls;
    outcome, feedCalls := ContinuousInsertion(g, ticks, Shifted(ok, |before|));
    calls := before + feedCalls;
    assert calls[..|before|] == before && calls[|before|..] == feedCalls;
    if outcome.StillRunning? {
      ShiftedOk(ok, |before|, |feedCalls|);
    } else {
      ShiftedOk(ok, |before|, |feedCalls| - 1);
    }
  }

  /**
   * `main` after its setup: the bulk run, then the feed, which starts only if
   * the bulk run completed and whose requests all come after the bulk run's.
   * The feed draws fresh records, so it has generators of its own.
   */
  method RunGenerator(bulkGen: Generators, feedGen: Generators, csvSize: nat -> nat, ok: nat -> bool, ticks: nat)
    returns (bulk: BulkOutcome, feed: Option<FeedOutcome>, calls: seq<Call>)
    ensures feed.None? <==> bulk.Failed?
    ensures forall c :: 0 <= c < |calls| - 1 ==> ok(c)
    ensures feed == Some(StillRunning) ==> forall c :: 0 <= c < |calls| ==> ok(c)
    ensures bulk.Failed? ==>
      && bulk.request < 3
      && calls == BulkCalls(bulkGen, bulk.flush) + Flush(bulkGen, bulk.flush)[..bulk.request + 1]
      && !ok(|calls| - 1)
    ensures bulk.Completed? ==>
      var before := BulkCalls(bulkGen, bulk.generated / BatchSize);
      && IsStopPoint(csvSize, bulk.generated)
      && |before| <= |calls| && calls[..|before|] == before
      && (feed.value.StillRunning? ==> calls[|before|..] == FeedCalls(feedGen, ticks))
      && (feed.value.Stopped? ==>
            && feed.value.request < 4
            && calls[|before|..] == FeedCalls(feedGen, feed.value.tick) + Tick(feedGen, feed.value.tick)[..feed.value.request + 1]
            && !ok(|calls| - 1))
  {
    var bulkCalls, users, products, orders;
    bulk, bulkCalls, users, products, orders := BulkGeneration(bulkGen, csvSize, ok);
    if bulk.Failed? {
      return bulk, None, bulkCalls;
    }
    var outcome;
    outcome, calls := FeedAfterBulk(feedGen, ticks, ok, bulkCalls);
    feed := Some(outcome);
  }
}
