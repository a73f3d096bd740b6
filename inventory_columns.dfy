/**
 * The inventory table's columns: the stock-status classifier, the status
 * column's accessor and filter, and the price and nearest-expiry orders.
 */
module InventoryColumns {
  import opened Wrappers
  import opened Views

  const LowStockThreshold := 100
  const CriticalStockThreshold := 25

  /**
   * `getStockStatus`: 25..99 is Low Stock, 0..24 Critical, anything else
   * (no number, a negative stock, 100 and above) Normal. It never says
   * Out Of Stock, although the page offers that status in its filter.
   */
  function StockStatus(stock: Option<int>): (r: Status)
    ensures r == LowStock <==> stock.Some? && CriticalStockThreshold <= stock.value < LowStockThreshold
    ensures r == Critical <==> stock.Some? && 0 <= stock.value < CriticalStockThreshold
    ensures r == Normal <==> stock.None? || stock.value < 0 || stock.value >= LowStockThreshold
  {
    if stock.None? then Normal
    else if stock.value >= CriticalStockThreshold && stock.value < LowStockThreshold then LowStock
    else if stock.value >= 0 && stock.value < LowStockThreshold then Critical
    else Normal
  }

  /** The classifier only ever answers Normal, Low Stock or Critical. */
  lemma NeverOutOfStock(stock: Option<int>)
    ensures StockStatus(stock) != OutOfStock && StockStatus(stock) != Expired
  {
  }

  /**
   * The classifier the page's filter options and status cards call for:
   * the same bands, except that a stock of exactly 0 is Out Of Stock, so
   * that Critical means 1..24 as on the Critical card.
   */
  function IntendedStockStatus(stock: Option<int>): (r: Status)
    ensures r == OutOfStock <==> stock == Some(0)
    ensures r == Critical <==> stock.Some? && 1 <= stock.value < CriticalStockThreshold
    ensures r == LowStock <==> stock.Some? && CriticalStockThreshold <= stock.value < LowStockThreshold
    ensures r == Normal <==> stock.None? || stock.value < 0 || stock.value >= LowStockThreshold
    ensures stock != Some(0) ==> r == StockStatus(stock)
  {
    if stock == Some(0) then OutOfStock else StockStatus(stock)
  }

  /** The status column's value under the intended classifier. */
  function IntendedStatusOf(showExpired: bool, m: MedicineView): (r: Status)
    ensures showExpired ==> r == Expired
    ensures !showExpired ==> r == IntendedStockStatus(Some(m.totalStock))
  {
    if showExpired then Expired else IntendedStockStatus(Some(m.totalStock))
  }

  /** The status column's value: every row is Expired in the expired view. */
  function StatusOf(showExpired: bool, m: MedicineView): (r: Status)
    ensures showExpired ==> r == Expired
    ensures !showExpired ==> r != Expired && r != OutOfStock
    ensures !showExpired ==> r == StockStatus(Some(m.totalStock))
  {
    if showExpired then Expired else StockStatus(Some(m.totalStock))
  }

  /** The status column's `filterFn`: an absent or empty filter passes everything. */
  predicate StatusPasses(filter: Option<seq<string>>, status: Status)
  {
    filter.None? || |filter.value| == 0 || Label(status) in filter.value
  }

  /** Rows of the status the filter names pass, and only those, once the filter is non-empty. */
  lemma StatusFilterExact(filter: seq<string>, s: Status)
    requires |filter| > 0
    ensures StatusPasses(Some(filter), s) <==> Label(s) in filter
    ensures filter == [Label(s)] ==> forall t :: StatusPasses(Some(filter), t) <==> t == s
  {
    if filter == [Label(s)] {
      forall t | StatusPasses(Some(filter), t)
        ensures t == s
      {
        LabelInjective(t, s);
      }
    }
  }

  /** The price column's `sortingFn`: a missing price counts as 0. */
  function PriceCompare(a: Option<int>, b: Option<int>): (r: int)
    ensures r < 0 <==> a.GetOr(0) < b.GetOr(0)
    ensures r == 0 <==> a.GetOr(0) == b.GetOr(0)
  {
    a.GetOr(0) - b.GetOr(0)
  }

  /** The nearest-expiry column's `sortingFn`: missing dates go last and tie with each other. */
  function ExpiryCompare(a: Option<Stamp>, b: Option<Stamp>): (r: int)
    ensures a.None? && b.None? ==> r == 0
    ensures a.None? && b.Some? ==> r > 0
    ensures a.Some? && b.None? ==> r < 0
    ensures a.Some? && b.Some? ==> (r < 0 <==> a.value.ms < b.value.ms) && (r == 0 <==> a.value.ms == b.value.ms)
  {
    if a.None? && b.None? then 0
    else if a.None? then 1
    else if b.None? then -1
    else a.value.ms - b.value.ms
  }

  /** Both comparators are antisymmetric, so the order does not depend on which row comes first. */
  lemma ComparatorsAntisymmetric(a: Option<Stamp>, b: Option<Stamp>, p: Option<int>, q: Option<int>)
    ensures ExpiryCompare(a, b) == -ExpiryCompare(b, a)
    ensures PriceCompare(p, q) == -PriceCompare(q, p)
  {
  }

  /** The expiry order is transitive: it sorts dated rows by instant, then the undated ones. */
  lemma ExpiryCompareTransitive(a: Option<Stamp>, b: Option<Stamp>, c: Option<Stamp>)
    requires ExpiryCompare(a, b) <= 0 && ExpiryCompare(b, c) <= 0
    ensures ExpiryCompare(a, c) <= 0
  {
  }
}
