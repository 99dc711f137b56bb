# Bulk data generator for Databend / RisingWave — a Dafny model

The repository fills a relational store with three linked tables: users,
products, and orders that reference a user and a product. It then keeps a
slow live feed of new rows going. Two implementations of this driver are
modelled here.

The Go generator (`internal/generator/generator.go`) has three parts:

- `CalculateRecordCounts` turns a budget in GiB into user, product and order
  counts.
- `GenerateData` runs three phases in order (users, then products, then
  orders), each split into batches of 1000. Every user and product batch is
  appended to an in-memory pool. Each order samples its user and its product
  from those pools.
- The body of `StartTimer` runs on every tick. It inserts a user, a product
  and an order that references both, then reads the order back through a
  join. Any failure skips the rest of that tick.

The Rust generator (`src/main.rs` and `src/models/*.rs`) has two parts:

- `main` runs a single loop that buffers one user, one product and one order
  per iteration and flushes the three buffers every `BATCH_SIZE` iterations.
  It stops once the CSV output reaches 50 GiB, or after 1,000,000 iterations.
- `continuous_insertion` then inserts and queries one triple per tick. Any
  error ends the program.

The record constructors `User::new`, `Product::new` and `Order::new` are
modelled too.

## How the model is built

The files follow the program's structure, with one Dafny module per file:

| file | module | what it holds |
|---|---|---|
| `go_runtime.dfy` | `GoRuntime` | Go's truncating `/` and `%`, and `rand.Intn` |
| `go_format.dfy` | `GoFormat` | `fmt.Sprintf("%d")` and `fmt.Sprintf("%0Nd")` on integers, with a parser that inverts them |
| `planner.dfy` | `Planner` | `CalculateRecordCounts` |
| `batching.dfy` | `Batching` | how `for i := 0; i < n; i += 1000` and the inner `j` loop split `[0, n)` |
| `go_models.dfy` | `GoModels` | the Go `User`, `Product` and `Order` structs; the store's answer to `db.Create`; the requests made of the store |
| `generator.dfy` | `Generator` | `GenerateData` |
| `live_feed.dfy` | `LiveFeed` | the `StartTimer` tick |
| `rust_models.dfy` | `RustModels` | the Rust structs and their `new` constructors |
| `rust_main.dfy` | `RustMain` | the Rust bulk loop, `continuous_insertion` and their sequencing in `main` |

Inputs:

- **Randomness and time.** Every random draw and every clock reading is an
  input. `rand.Intn(n)` is `draw % n` for an arbitrary natural `draw`, so
  every value in `[0, n)` is reachable. A record's draws are indexed by its
  1-based record index.
- **The store's answers.** In Go, each `db.Create` of a user or product
  batch, and each create of the live feed, returns `Rejected` or
  `Accepted(firstId)`. An accepted create fills auto-increment IDs
  `firstId, firstId + 1, ...` into the slice. Order-batch creates have no
  modelled answer: their result is only logged and nothing reads their IDs. In Rust, request number `c` either
  succeeds or fails (`ok(c)`). The CSV size after `n` records is an input
  (`csvSize(n)`).
- **The Rust generators.** `generate_user`, `generate_product_data` and
  `generate_order` are inputs. The only assumption about them is the one
  `generate_order` makes visible: the order carries the two IDs it was given
  (`LinksParents`).

Each method that loops or makes requests returns the sequence of requests it
made. Its contract ties that sequence to a specification function: `Batches`,
`BulkCalls`, `FeedCalls` or `TickSequence`. Lemmas then prove what the source
promises about those functions: batch coverage, uniqueness, reference
integrity, insertion order and early exit.

### Behaviour worth noting

- **Pools.** `GenerateData` appends every batch to `allUsers` and
  `allProducts` even when `db.Create` failed (`generator.go:156-160`,
  `234-238`). A rejected batch therefore adds records with ID 0, and later
  orders can reference ID 0 (`GenerateData`, `ReferencesUser`).
- **Negative budgets.** `CalculateRecordCounts` has no guard for a negative
  budget and returns the negated counts of the positive budget
  (`NegativeBudgetMirrors`).
- **Timed phone numbers.** The live feed's user phone is `139` followed by
  the clock in nanoseconds modulo 10^8, so it repeats whenever two readings
  agree modulo 0.1 s, for instance two ticks exactly one 30-second period
  apart (`TimedPhonesCollide`, `TimedPhoneRepeatsAfterOnePeriod`). The
  email, which holds the whole reading, stays unique (`TimedEmailsDiffer`).

## Model

| member | source | states |
|---|---|---|
| GoRuntime.TruncDiv | go_databend_risingwave/my-go-data-generator/internal/generator/generator.go:53 | Go's integer division truncates toward zero: for a ≥ 0 the quotient is the largest q with q·b ≤ a, for a < 0 the smallest q with a ≤ q·b ≤ 0 |
| GoRuntime.TruncRem | go_databend_risingwave/my-go-data-generator/internal/generator/generator.go:369 | Go's `%` gives the remainder that completes the truncated quotient; it has the sign of the dividend and magnitude below b |
| GoRuntime.TruncDivMonotone | go_databend_risingwave/my-go-data-generator/internal/generator/generator.go:52-53 | truncating division by a positive divisor is monotone in the dividend |
| GoRuntime.Intn | go_databend_risingwave/my-go-data-generator/internal/generator/generator.go:105-106 | `rand.Intn(n)` lies in `[0, n)` |
| GoRuntime.IntnReachesEveryValue | go_databend_risingwave/my-go-data-generator/internal/generator/generator.go:105-106 | every value of `[0, n)` is drawn for some draw, so no range precondition is needed on the draws |
| GoFormat.Dec | go_databend_risingwave/my-go-data-generator/internal/generator/generator.go:104-109 | `%d` of a natural is a non-empty digit string with no leading zero unless it is "0" |
| GoFormat.Padded | go_databend_risingwave/my-go-data-generator/internal/generator/generator.go:108 | `%0Nd` of a natural is all digits, N long or as long as `%d` when that is longer (the `%08d` phone; likewise `%06d` at line 187 and `%010d` at line 274) |
| GoFormat.PaddedInt | go_databend_risingwave/my-go-data-generator/internal/generator/generator.go:369 | `%0Nd` of a negative integer is a minus sign followed by the magnitude padded to N-1 |
| GoFormat.Itoa | go_databend_risingwave/my-go-data-generator/internal/generator/generator.go:365-368 | `%d` / `%v` of a non-negative integer is its decimal form (the `%d` and `%v` fields of the timed records; likewise lines 394 and 423) |
| GoFormat.ParseDec | go_databend_risingwave/my-go-data-generator/internal/generator/generator.go:107 | round trip: reading back `%d` of n gives n |
| GoFormat.ParsePadded | go_databend_risingwave/my-go-data-generator/internal/generator/generator.go:108 | round trip: reading back `%0Nd` of n gives n, whatever the padding (likewise for the fields at lines 187 and 274) |
| GoFormat.Unformat | go_databend_risingwave/my-go-data-generator/internal/generator/generator.go:107-108 | the number in a formatted field `prefix + %0Nd + suffix` can be cut out and read back (likewise for the fields at lines 187 and 274) |
| GoFormat.FieldInjective | go_databend_risingwave/my-go-data-generator/internal/generator/generator.go:107-108 | two fields with the same prefix, width and suffix are equal only for equal numbers (likewise for the fields at lines 187 and 274) |
| Planner.CalculateRecordCounts | go_databend_risingwave/my-go-data-generator/internal/generator/generator.go:42-54 | products = users/10 (truncated), orders = users·10; for a non-negative budget, users is the largest count whose 5340-byte cost fits in totalGB·2^30, and all counts are non-negative; a negative budget gives non-positive counts |
| Planner.DefaultPlan | go_databend_risingwave/my-go-data-generator/internal/generator/generator.go:36 | the 50 GiB budget plans (10053762, 1005376, 100537620) |
| Planner.ZeroBudgetPlansNothing | go_databend_risingwave/my-go-data-generator/internal/generator/generator.go:51-53 | a zero budget plans no records |
| Planner.NegativeBudgetMirrors | go_databend_risingwave/my-go-data-generator/internal/generator/generator.go:51-53 | a negative budget is not rejected: each count is the negation of the count for the opposite budget |
| Planner.PlanFitsBudget | go_databend_risingwave/my-go-data-generator/internal/generator/generator.go:44-53 | the estimated size 300·users + 400·products + 500·orders of the plan stays within the budget |
| Planner.RatioPlanSize | go_databend_risingwave/my-go-data-generator/internal/generator/generator.go:48-50 | with products = users/10 and orders = users·10, the estimated size is at most 5340 bytes per user |
| Planner.PlanMonotone | go_databend_risingwave/my-go-data-generator/internal/generator/generator.go:51-53 | a larger budget never plans fewer users, products or orders |
| Batching.NumBatches | go_databend_risingwave/my-go-data-generator/internal/generator/generator.go:94 | the outer loop dispatches ceil(n/1000) batches, none when n ≤ 0 (likewise the loops at lines 172 and 251) |
| Batching.BatchLen | go_databend_risingwave/my-go-data-generator/internal/generator/generator.go:100 | the batch starting at s < n holds between 1 and 1000 records, ends within n, and is short only when it ends at n (likewise the inner loops at lines 178 and 257) |
| Batching.BatchStartInRange | go_databend_risingwave/my-go-data-generator/internal/generator/generator.go:94 | every dispatched batch starts below n (likewise lines 172 and 251) |
| Batching.OnlyLastBatchShort | go_databend_risingwave/my-go-data-generator/internal/generator/generator.go:100 | every batch but the last is full (likewise lines 178 and 257) |
| Batching.IndexCovered | go_databend_risingwave/my-go-data-generator/internal/generator/generator.go:100-101 | every index 1..n is generated, by batch (index-1)/1000 at position (index-1)%1000 (likewise lines 179 and 274) |
| Batching.IndexCoveredOnce | go_databend_risingwave/my-go-data-generator/internal/generator/generator.go:100-101 | no index is generated by two different (batch, position) pairs (likewise lines 179 and 274) |
| Batching.DispatchedFullBatches | go_databend_risingwave/my-go-data-generator/internal/generator/generator.go:94-101 | the records of the first k batches number exactly the start of batch k (all n after the last batch) |
| Batching.AllBatchesTotal | go_databend_risingwave/my-go-data-generator/internal/generator/generator.go:94-101 | all batches together generate exactly max(n, 0) records |
| Batching.TwoThousandFiveHundred | go_databend_risingwave/my-go-data-generator/internal/generator/generator.go:94-100 | 2500 records form batches of 1000, 1000 and 500 |
| Generator.Pick | go_databend_risingwave/my-go-data-generator/internal/generator/generator.go:105-113 | `list[rand.Intn(len(list))]` is an element of the list (likewise at lines 183 and 199) |
| Generator.EmailIdentifiesIndex | go_databend_risingwave/my-go-data-generator/internal/generator/generator.go:107 | `user%d@example.com` determines the index |
| Generator.PhoneIdentifiesIndex | go_databend_risingwave/my-go-data-generator/internal/generator/generator.go:108 | `138%08d` determines the index |
| Generator.SkuIdentifiesIndex | go_databend_risingwave/my-go-data-generator/internal/generator/generator.go:187 | `SKU%06d` determines the index |
| Generator.OrderNumberIdentifiesIndex | go_databend_risingwave/my-go-data-generator/internal/generator/generator.go:274 | `ORD%010d` determines the index |
| Generator.BulkUser | go_databend_risingwave/my-go-data-generator/internal/generator/generator.go:101-125 | a bulk user has ID 0, email and phone derived from its index, age in [18, 80], gender and occupation from their lists, registration and last login not after creation, created and updated at the same instant |
| Generator.BulkProduct | go_databend_risingwave/my-go-data-generator/internal/generator/generator.go:179-203 | a bulk product has ID 0, SKU derived from its index, stock in [0, 5000), review count in [0, 1000), category, colour and stock status from their lists, created and updated at the same instant |
| Generator.SampleUser | go_databend_risingwave/my-go-data-generator/internal/generator/generator.go:260-266 | the sampled user is the zero value when the pool is empty, otherwise a pooled user |
| Generator.SampleProduct | go_databend_risingwave/my-go-data-generator/internal/generator/generator.go:261-271 | the sampled product is the zero value when the pool is empty, otherwise a pooled product |
| Generator.BulkOrder | go_databend_risingwave/my-go-data-generator/internal/generator/generator.go:273-297 | a bulk order has ID 0, the order number of its index, the IDs of the sampled user and product, quantity in [1, 10], order date ≤ creation ≤ delivery date |
| Generator.Batch | go_databend_risingwave/my-go-data-generator/internal/generator/generator.go:99-126 | the slice built by one batch has the batch's length (likewise lines 177-204 and 256-298) |
| Generator.Batches | go_databend_risingwave/my-go-data-generator/internal/generator/generator.go:94-165 | one slice per dispatched batch, in dispatch order |
| Generator.BatchElement | go_databend_risingwave/my-go-data-generator/internal/generator/generator.go:100-101 | position j of batch k holds the record of index start+j+1 (likewise lines 257 and 274) |
| Generator.CreateBatch | go_databend_risingwave/my-go-data-generator/internal/generator/generator.go:97-164 | one batch goroutine builds exactly batch k (records BatchStart(k)+1 onwards, min(BatchSize, n - start) of them) and appends it to the pool with, for each record, the ID its batch's answer assigned (0 if rejected) (likewise the product goroutine at lines 175-242) |
| Generator.RunPoolPhase | go_databend_risingwave/my-go-data-generator/internal/generator/generator.go:94-166 | a user or product phase creates exactly the batches of `Batches`, and the pool ends with max(n, 0) records, record m being record m+1 with the ID its batch's answer gave it (0 if rejected) (likewise the product phase at lines 172-244) |
| Generator.RunOrderPhase | go_databend_risingwave/my-go-data-generator/internal/generator/generator.go:250-342 | the order phase creates exactly the batches of `Batches`, and `countOrders` ends at max(n, 0) whatever the store answered |
| Generator.OrderReferencesPools | go_databend_risingwave/my-go-data-generator/internal/generator/generator.go:260-278 | every order's user ID is 0 if the user pool is empty, else the ID of some pooled user; likewise for products; quantity in [1, 10]; order number from its index |
| Generator.PooledUsersDiffer | go_databend_risingwave/my-go-data-generator/internal/generator/generator.go:101-108 | two pooled users of different indices differ in email and in phone |
| Generator.PooledProductsDiffer | go_databend_risingwave/my-go-data-generator/internal/generator/generator.go:179-187 | two pooled products of different indices differ in SKU |
| Generator.OrderNumbersUnique | go_databend_risingwave/my-go-data-generator/internal/generator/generator.go:257-274 | for any order builder that stamps each order with the number of its index, two slots of the order phase with the same order number are the same slot |
| Generator.OrderSlotsDistinct | go_databend_risingwave/my-go-data-generator/internal/generator/generator.go:274 | two order slots (batch, position) whose `ORD%010d` numbers agree are the same slot |
| Generator.RunOrderNumber | go_databend_risingwave/my-go-data-generator/internal/generator/generator.go:274-330 | order j of order batch k reaches the store, after all user and product batches, with the order number of its index |
| Generator.RunOrderNumbersUnique | go_databend_risingwave/my-go-data-generator/internal/generator/generator.go:274-330 | no two orders a run hands to the store share an order number: equal numbers mean the same batch and the same position |
| Generator.PooledUserFields | go_databend_risingwave/my-go-data-generator/internal/generator/generator.go:104-160 | in a pool whose position m holds the pooled user of index idx[m], that user carries the email and phone number of idx[m], in any order of the pool |
| Generator.UserPoolUnique | go_databend_risingwave/my-go-data-generator/internal/generator/generator.go:160 | in any pool whose records come from distinct indices, whatever order the batches were appended in, no two users share an email or a phone, so the unique indexes on them are never violated |
| Generator.PooledProductFields | go_databend_risingwave/my-go-data-generator/internal/generator/generator.go:187-238 | in a pool whose position m holds the pooled product of index idx[m], that product carries the SKU of idx[m] |
| Generator.ProductPoolUnique | go_databend_risingwave/my-go-data-generator/internal/generator/generator.go:238 | in any pool whose records come from distinct indices, in any order, no two products share a SKU |
| Generator.SequentialIndices | go_databend_risingwave/my-go-data-generator/internal/generator/generator.go:160 | the batch-by-batch append order puts index m + 1 at position m, and those indices are distinct |
| Generator.SequentialUserPoolUnique | go_databend_risingwave/my-go-data-generator/internal/generator/generator.go:160 | the user pool as the sequential run leaves it has no two users with the same email or phone |
| Generator.SequentialProductPoolUnique | go_databend_risingwave/my-go-data-generator/internal/generator/generator.go:238 | the product pool as the sequential run leaves it has no two products with the same SKU |
| Generator.PhaseCallsOrdered | go_databend_risingwave/my-go-data-generator/internal/generator/generator.go:166-244 | every user insert comes before every product insert, which comes before every order insert |
| Generator.MakeOrderReferencesPools | go_databend_risingwave/my-go-data-generator/internal/generator/generator.go:260-276 | the order built for any index references the pools it was drawn against |
| Generator.RunOrdersReferencePools | go_databend_risingwave/my-go-data-generator/internal/generator/generator.go:251-276 | every order a run sends to the store, after all user and product batches, references the pools as they stood when the order phase began |
| Generator.GenerateData | go_databend_risingwave/my-go-data-generator/internal/generator/generator.go:64-355 | pools of exactly max(users, 0) and max(products, 0) records, each the record of its index with its assigned ID; `countOrders` = max(orders, 0); requests in phase order; no duplicate email, phone or SKU in the pools |
| LiveFeed.TimedUser | go_databend_risingwave/my-go-data-generator/internal/generator/generator.go:364-386 | the tick's user has ID 0, age in [18, 80], and is registered, logged in, created and updated at the tick's instant |
| LiveFeed.TimedEmailsDiffer | go_databend_risingwave/my-go-data-generator/internal/generator/generator.go:368 | timed users built at distinct clock readings have distinct emails |
| LiveFeed.TimedPhonesCollide | go_databend_risingwave/my-go-data-generator/internal/generator/generator.go:369 | timed users built at readings that agree modulo 10^8 ns get the same phone number, so the phone is not unique per tick |
| LiveFeed.TimedPhoneRepeatsAfterOnePeriod | go_databend_risingwave/my-go-data-generator/internal/generator/generator.go:359-369 | two ticks read exactly one 30-second ticker period apart build users with the same phone |
| LiveFeed.TimedProduct | go_databend_risingwave/my-go-data-generator/internal/generator/generator.go:393-415 | the tick's product has ID 0, stock in [0, 5000), and is released, created and updated at the tick's instant |
| LiveFeed.TimedOrder | go_databend_risingwave/my-go-data-generator/internal/generator/generator.go:422-446 | the tick's order carries the given user and product IDs, quantity in [1, 10], is no gift, and is delivered 24 hours after it is created |
| LiveFeed.Fire | go_databend_risingwave/my-go-data-generator/internal/generator/generator.go:361-472 | a tick inserts user, product and order in turn and stops at the first rejection; the order references the IDs just assigned; the join runs only after three accepted inserts, keyed on the new order's ID; success is logged with the elapsed time exactly when the join succeeds |
| LiveFeed.RunTicks | go_databend_risingwave/my-go-data-generator/internal/generator/generator.go:359-361 | every tick fires, whatever became of the ones before it, and each behaves as `Fire` (every `continue` at lines 389, 418, 449 and 467 moves on to the next tick) |
| LiveFeed.ElapsedIncreasing | go_databend_risingwave/my-go-data-generator/internal/generator/generator.go:469-471 | the elapsed times logged by successful ticks are non-negative and strictly increasing |
| LiveFeed.SuccessQueriedOnce | go_databend_risingwave/my-go-data-generator/internal/generator/generator.go:447-471 | a successful tick had all three inserts accepted and made exactly one join read-back, the last request, keyed on the ID assigned to the order |
| RustModels.NewUser | rust_databend_risingwave/src/models/user.rs:33-59 | `User::new` keeps the three credentials, sets ID 0, empty names, every optional column unset, active, no marketing consent, registered and created at one instant |
| RustModels.NewProduct | rust_databend_risingwave/src/models/product.rs:34-60 | `Product::new` keeps name, price and stock, sets ID 0, every optional column unset, active, created at the instant read |
| RustModels.NewOrder | rust_databend_risingwave/src/models/order.rs:32-57 | `Order::new` keeps its seven arguments, sets ID 0, discount and tax 0.0, no gift, currency "USD", the six optional columns unset, and ordered, created and updated at one instant |
| RustModels.NewUserInjective | rust_databend_risingwave/src/models/user.rs:33-39 | two users built at one instant are equal exactly when their credentials are |
| RustModels.FreshUserIsNew | rust_databend_risingwave/src/models/user.rs:35-58 | any user with the defaults of `User::new` is `User::new` of its own credentials and instant |
| RustModels.FreshProductIsNew | rust_databend_risingwave/src/models/product.rs:36-59 | any product with the defaults of `Product::new` is `Product::new` of its own values |
| RustModels.FreshOrderIsNew | rust_databend_risingwave/src/models/order.rs:34-56 | any order with the defaults of `Order::new` is `Order::new` of its own seven values |
| RustMain.BulkCalls | rust_databend_risingwave/src/main.rs:135-137 | an uninterrupted run of f flushes makes exactly 3·f requests |
| RustMain.FlushBuffers | rust_databend_risingwave/src/main.rs:134-163 | a flush inserts users, then products, then orders, and stops at the first error with nothing requested after it; after three successes it stops the run exactly when the CSV size has reached the target |
| RustMain.BufferedSizes | rust_databend_risingwave/src/main.rs:124-141 | between iterations the three buffers have equal length (i mod BATCH_SIZE, always below BATCH_SIZE) and i/BATCH_SIZE flushes have been made |
| RustMain.PushKeepsBuffered | rust_databend_risingwave/src/main.rs:119-126 | an iteration off a batch boundary appends one record to each buffer and keeps the loop's state |
| RustMain.BatchFull | rust_databend_risingwave/src/main.rs:124-134 | at a batch boundary each buffer holds exactly the BATCH_SIZE records of that batch, in iteration order |
| RustMain.FlushKeepsBuffered | rust_databend_risingwave/src/main.rs:139-158 | a successful flush below the target size empties the buffers and the loop goes on |
| RustMain.FlushReachesTarget | rust_databend_risingwave/src/main.rs:158-161 | a successful flush at or above the target size ends the run at a stop point with empty buffers |
| RustMain.FlushFails | rust_databend_risingwave/src/main.rs:135-137 | a failed insert ends the run with that request as the last one made |
| RustMain.BulkIteration | rust_databend_risingwave/src/main.rs:118-163 | one iteration either keeps the loop's state for the next one or ends the run in one of the ways `BulkEnded` lists |
| RustMain.BulkGeneration | rust_databend_risingwave/src/main.rs:105-164 | a completed run stopped at the first batch boundary whose CSV size reached 50 GiB (or after 1,000,000 records), made exactly the flushes' requests, all successful, and left the buffers empty; a failed run stopped at its first failing request, with every earlier batch boundary below the target |
| RustMain.StopPointUnique | rust_databend_risingwave/src/main.rs:110-161 | the point where the bulk run stops is unique |
| RustMain.BulkCallAt | rust_databend_risingwave/src/main.rs:135-137 | request 3k+j of the bulk run is request j of flush k |
| RustMain.BulkCallShape | rust_databend_risingwave/src/main.rs:135-137 | every bulk insert carries exactly BATCH_SIZE records, in the order users, products, orders |
| RustMain.BuffersAligned | rust_databend_risingwave/src/main.rs:119-126 | within a flush, the order at each position references the user and the product at that position |
| RustMain.InsertedFlush | rust_databend_risingwave/src/main.rs:135-137 | one flush inserts its batch's users, products and orders |
| RustMain.BulkInsertsEveryRecord | rust_databend_risingwave/src/main.rs:118-143 | the first f flushes insert exactly the records of the first f·BATCH_SIZE iterations, in order: none lost, repeated or reordered |
| RustMain.FeedCalls | rust_databend_risingwave/src/main.rs:54-81 | an uninterrupted feed of t ticks makes exactly 4·t requests |
| RustMain.FeedTick | rust_databend_risingwave/src/main.rs:58-79 | a tick inserts user, product and order, then queries; the first error ends it with nothing requested after it |
| RustMain.ContinuousInsertion | rust_databend_risingwave/src/main.rs:46-83 | without errors every tick makes its four requests; the first failing request ends the feed and is the last request made |
| RustMain.FeedCallAt | rust_databend_risingwave/src/main.rs:54-81 | request 4t+j of the feed is request j of tick t |
| RustMain.QueryFollowsInserts | rust_databend_risingwave/src/main.rs:58-79 | every join query directly follows its tick's user, product and order inserts and is keyed on that order's `id`, and that order references the tick's user and product |
| RustMain.FeedAfterBulk | rust_databend_risingwave/src/main.rs:46-83 | the feed's requests follow the bulk run's unchanged; the feed either runs all its ticks with every request succeeding, or stops at the first failing request, every earlier one having succeeded (started at line 170) |
| RustMain.RunGenerator | rust_databend_risingwave/src/main.rs:135-170 | the feed starts only if the bulk run completed, all its requests follow the bulk run's, and every request but the last one made succeeded |

## Left out

- Concurrency. The Go goroutines, the `sem` channel, `sync.WaitGroup`, the
  mutexes and the ticker goroutine are not modelled. Batches and ticks run
  one after another, so `RunPoolPhase` and `GenerateData` leave the pools
  in batch order (record m + 1 at position m). The goroutines append whole
  batches in completion order instead. The uniqueness lemmas
  (`UserPoolUnique`, `ProductPoolUnique`) and the field lemmas
  (`PooledUserFields`, `PooledProductFields`) are stated for any pool whose
  positions hold records of distinct indices, which every completion order
  gives, since each index belongs to exactly one batch (`IndexCoveredOnce`).
  `RunPoolPhase` and `GenerateData` themselves state the sequential order
  only. The unlocked read of `countOrders` for
  the progress log is left out with the logging.
- Logging, the progress bar, `println!` and the commented-out CSV code in
  Go.
- Rust CSV output. `serialize`, `flush` and `fs::metadata` are not modelled,
  and neither are their errors: the model's only error source is the store.
  The CSV size is the input `csvSize(n)`.
- The store itself: gorm, diesel, the join SQL and `src/db/mod.rs`. Each
  request is answered by an input. `query_joined_data` ignores its `order_id`
  argument, and that is not modelled. `main.rs` calls `&mut self` methods on a
  shared `db`; the model uses the evident meaning, one request per call.
- The Rust generators. `generate_user`, `generate_product_data` and
  `generate_order` come from the `fake` and `rand` crates and are inputs.
  What they do with IDs is stated but not derived, as follows.
  `generate_user` builds on `User::new`, which gives ID 0, and nothing sets
  the ID afterwards. `generate_order` takes a random `id` in `[1, 1000000)`.
  The inserts return no IDs, so every Rust order references user 0 and
  product 0 (`LinksParents` with `NewUser`), and the join is keyed on the
  random order `id`.
- Floating point. `Income`, `Price`, `TotalAmount`, `Weight`, `Rating` and
  the discounts are reals that are only copied or scaled.
- Planner.CalculateRecordCounts: the `float64` path is modelled as exact
  integer division of totalGB·2^30 by 5340. The two agree while totalGB·2^30
  is exactly representable and the quotient is not within rounding of an
  integer, which holds for the budgets the program uses. Rounding and
  overflow of huge budgets are not modelled.
- Integer widths. Go `int`, `int64` and `time.Duration` are 64-bit and are
  unbounded here. The values the model computes stay below 2^63 for the
  budgets and the clock the program uses: the default plan's
  `totalGB * GiB` is 53,687,091,200, and clock readings in nanoseconds
  since 1970 are about 1.7·10^18. Overflow for larger budgets is not
  modelled. The Rust `i32` fields only carry values passed through.
- LiveFeed.TimedUser: the source comment at `generator.go:363` intends a
  unique phone number for every timed user; the code does not achieve it and
  the model follows the code (`TimedPhonesCollide`). Whether the store then
  rejects the user is the store's answer, an input of `Fire`.
- Calendar arithmetic. `now.AddDate(-years, 0, 0)` for `ReleaseDate` is an
  abstract function of the instant and the year count.
- Generator.RunOrderPhase: takes the order builder as a parameter, so its
  contract is about the batches and the counter. That the orders reference
  the pools is stated about the builder by `MakeOrderReferencesPools` and
  `RunOrdersReferencePools`.
- RustMain.ContinuousInsertion: the source loops forever. The model runs the
  first `ticks` ticks, and the 30-second interval is not modelled.
- `cmd/main.go`, migrations, the schema file, CSV writer helpers and the
  calculator web page are outside the modelled core.
