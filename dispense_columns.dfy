/**
 * The dispense table's stock-status classifier, whose bands differ from
 * the inventory table's.
 */
module DispenseColumns {
  import opened Wrappers
  import opened Views
  import InventoryColumns

  const LowStockThreshold := 100
  const CriticalStockThreshold := 25

  /** `getStockStatus` of the dispense table: up to 25 Critical, 26..100 Low Stock, above Normal. */
  function StockStatus(stock: Option<int>): (r: Status)
    ensures stock.None? ==> r == Normal
    ensures stock.Some? ==> (r == Critical <==> stock.value <= CriticalStockThreshold)
    ensures stock.Some? ==> (r == LowStock <==> CriticalStockThreshold < stock.value <= LowStockThreshold)
    ensures stock.Some? ==> (r == Normal <==> stock.value > LowStockThreshold)
  {
    if stock.None? then Normal
    else if stock.value <= CriticalStockThreshold then Critical
    else if stock.value <= LowStockThreshold then LowStock
    else Normal
  }

  /** Critical, Low Stock, Normal in that order. */
  function Rank(s: Status): int
  {
    match s
    case Critical => 0
    case LowStock => 1
    case _ => 2
  }

  /** More stock never gives a more urgent status. */
  lemma Monotone(a: int, b: int)
    requires a <= b
    ensures Rank(StockStatus(Some(a))) <= Rank(StockStatus(Some(b)))
  {
  }

  /**
   * The two tables agree from 0 to 24 and from 101 up; they disagree at a
   * stock of 25 and of 100, and on every negative stock.
   */
  lemma CompareWithInventory(stock: int)
    ensures (0 <= stock < 25 || stock > 100) ==> StockStatus(Some(stock)) == InventoryColumns.StockStatus(Some(stock))
    ensures stock == 25 ==> StockStatus(Some(stock)) == Critical && InventoryColumns.StockStatus(Some(stock)) == LowStock
    ensures stock == 100 ==> StockStatus(Some(stock)) == LowStock && InventoryColumns.StockStatus(Some(stock)) == Normal
    ensures stock < 0 ==> StockStatus(Some(stock)) == Critical && InventoryColumns.StockStatus(Some(stock)) == Normal
  {
  }
}
