/**
 * The reorder modal: its own stock-status bands, the colour of each
 * status, and the total quantity on the reorder list.
 */
module ReorderModal {
  import opened Wrappers
  import Lists
  import ReorderStore

  datatype ReorderStatus = Critical | Low | Normal

  /**
   * `getStatus`: no stock figure or 0 is Critical, 25..100 Low (100
   * included), 1..24 Critical, and a negative stock or more than 100 Normal.
   */
  function Status(totalStock: Option<int>): (r: ReorderStatus)
    ensures r == Critical <==> totalStock.None? || 0 <= totalStock.value < 25
    ensures r == Low <==> totalStock.Some? && 25 <= totalStock.value <= 100
    ensures r == Normal <==> totalStock.Some? && (totalStock.value < 0 || totalStock.value > 100)
  {
    if totalStock.None? || totalStock.value == 0 then Critical
    else if totalStock.value >= 25 && totalStock.value <= 100 then Low
    else if totalStock.value >= 0 && totalStock.value < 25 then Critical
    else Normal
  }

  /** `getStatusColor`. */
  function StatusColor(s: ReorderStatus): (r: string)
    ensures s == Critical <==> r == "text-red-600"
    ensures s == Low <==> r == "text-yellow-600"
    ensures s == Normal <==> r == "text-green-600"
  {
    match s
    case Critical => "text-red-600"
    case Low => "text-yellow-600"
    case Normal => "text-green-600"
  }

  function Quantity(item: ReorderStore.ReorderItem): int { item.quantity }

  /** `totalItems`: the quantities added up. */
  function TotalItems(items: seq<ReorderStore.ReorderItem>): (r: int)
    ensures items == [] ==> r == 0
    ensures (forall k :: 0 <= k < |items| ==> items[k].quantity >= 0) ==> r >= 0
  {
    if forall k :: 0 <= k < |items| ==> items[k].quantity >= 0 then
      Lists.SumNonNegative(items, Quantity);
      Lists.Sum(items, Quantity)
    else Lists.Sum(items, Quantity)
  }

  /** Putting a new medicine on the list adds one to the total. */
  lemma AddNewAddsOne(items: seq<ReorderStore.ReorderItem>, p: ReorderStore.Pick)
    requires p.id !in ReorderStore.Ids(items)
    ensures TotalItems(ReorderStore.Added(items, p)) == TotalItems(items) + 1
  {
    Lists.SumAppend(items, [ReorderStore.NewItem(p)], Quantity);
  }
}
