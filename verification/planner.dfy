/**
 * The record-count planner: turns a data-volume budget in GiB into the number
 * of users, products and orders to generate, keeping the fixed population
 * ratio products = users / 10 and orders = users * 10.
 */
module Planner {
  import opened GoRuntime

  /** Estimated average row sizes in bytes. */
  const UserRowSize := 300
  const ProductRowSize := 400
  const OrderRowSize := 500

  /**
   * Bytes that one user brings with it: the user row, a tenth of a product row
   * and ten order rows (300 + 400/10 + 10*500 = 5340; the division is exact).
   */
  const BytesPerUser := UserRowSize + ProductRowSize / 10 + 10 * OrderRowSize

  const GiB := 1024 * 1024 * 1024

  /** The package-level targets the generator works towards. */
  datatype RecordCounts = RecordCounts(users: int, products: int, orders: int)

  /** The estimated size of a plan, counting every row at its estimated size. */
  function EstimatedBytes(c: RecordCounts): int {
    c.users * UserRowSize + c.products * ProductRowSize + c.orders * OrderRowSize
  }

  /**
   * The user count is the largest number of users whose share of the budget
   * fits (for a non-negative budget); the other two counts follow the fixed
   * ratio, with Go's truncating division.
   */
  function CalculateRecordCounts(totalGB: int): (c: RecordCounts)
    ensures c.products == TruncDiv(c.users, 10) && c.orders == c.users * 10
    ensures totalGB >= 0 ==> 0 <= c.users * BytesPerUser <= totalGB * GiB < (c.users + 1) * BytesPerUser
    ensures totalGB >= 0 ==> c.users >= 0 && c.products >= 0 && c.orders >= 0
    ensures totalGB < 0 ==> c.users <= 0 && c.products <= 0 && c.orders <= 0
  {
    var u := TruncDiv(totalGB * GiB, BytesPerUser);
    RecordCounts(u, TruncDiv(u, 10), u * 10)
  }

  /** The start-up plan: a 50 GiB budget. */
  lemma DefaultPlan()
    ensures CalculateRecordCounts(50) == RecordCounts(10053762, 1005376, 100537620)
  {
    assert BytesPerUser == 5340 && 50 * GiB == 53687091200;
    assert TruncDiv(53687091200, 5340) == 10053762;
    assert TruncDiv(10053762, 10) == 1005376;
  }

  lemma ZeroBudgetPlansNothing()
    ensures CalculateRecordCounts(0) == RecordCounts(0, 0, 0)
  {
  }

  /**
   * A negative budget is not rejected: truncation toward zero makes every count
   * the negation of the count for the opposite budget.
   */
  lemma NegativeBudgetMirrors(totalGB: int)
    requires totalGB < 0
    ensures var c, m := CalculateRecordCounts(totalGB), CalculateRecordCounts(-totalGB);
      c.users == -m.users && c.products == -m.products && c.orders == -m.orders
  {
  }

  /** The estimated size of the whole plan stays within the budget. */
  lemma PlanFitsBudget(totalGB: int)
    requires totalGB >= 0
    ensures EstimatedBytes(CalculateRecordCounts(totalGB)) <= totalGB * GiB
  {
    var c := CalculateRecordCounts(totalGB);
    RatioPlanSize(c.users, c.products);
  }

  /** A plan that keeps products = users / 10 and orders = users * 10 costs at most BytesPerUser per user. */
  lemma RatioPlanSize(u: int, p: int)
    requires u >= 0 && p == TruncDiv(u, 10)
    ensures EstimatedBytes(RecordCounts(u, p, u * 10)) <= u * BytesPerUser
  {
    assert p * 400 <= u * 40;
  }

  /** A larger budget never plans fewer records. */
  lemma PlanMonotone(g1: int, g2: int)
    requires g1 <= g2
    ensures CalculateRecordCounts(g1).users <= CalculateRecordCounts(g2).users
    ensures CalculateRecordCounts(g1).products <= CalculateRecordCounts(g2).products
    ensures CalculateRecordCounts(g1).orders <= CalculateRecordCounts(g2).orders
  {
    TruncDivMonotone(g1 * GiB, g2 * GiB, BytesPerUser);
    TruncDivMonotone(CalculateRecordCounts(g1).users, CalculateRecordCounts(g2).users, 10);
  }
}
