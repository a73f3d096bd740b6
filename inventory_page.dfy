/**
 * The inventory page: the status options it offers, its status cards and
 * the state behind its filter bar (search text, selected statuses, the
 * expired-view switch).
 */
module InventoryPage {
  import opened Wrappers
  import opened Views
  import Lists
  import StockBands
  import InventoryColumns

  /** The statuses the filter menu offers. */
  function StatusOptions(showExpired: bool): (r: seq<string>)
    ensures forall s :: Label(s) in r <==> (if showExpired then s == Expired else s != Expired)
    ensures Lists.Distinct(r)
  {
    if showExpired then [Label(Expired)]
    else [Label(Normal), Label(LowStock), Label(Critical), Label(OutOfStock)]
  }

  /** The three status cards: low, critical and out-of-stock counts. */
  datatype Cards = Cards(total: int, low: nat, critical: nat, outOfStock: nat)

  function CardsOf(meds: seq<MedicineView>): (r: Cards)
    ensures r.low + r.critical + r.outOfStock <= |meds|
    ensures meds == [] ==> r == Cards(0, 0, 0, 0)
  {
    StockBands.CountsAddUp(meds);
    Cards(StockBands.TotalStock(meds), StockBands.Count(meds, StockBands.Low),
          StockBands.Count(meds, StockBands.Critical), StockBands.Count(meds, StockBands.OutOfStock))
  }

  /** The rows the table keeps under a status filter, in the normal view, as the columns classify them. */
  function ShownByStatus(meds: seq<MedicineView>, filter: seq<string>): seq<MedicineView>
  {
    Lists.Filter(meds, (m: MedicineView) => InventoryColumns.StatusPasses(Some(filter), InventoryColumns.StatusOf(false, m)))
  }

  /** The same rows under the intended classifier. */
  function IntendedShownByStatus(meds: seq<MedicineView>, filter: seq<string>): seq<MedicineView>
  {
    Lists.Filter(meds, (m: MedicineView) => InventoryColumns.StatusPasses(Some(filter), InventoryColumns.IntendedStatusOf(false, m)))
  }

  /**
   * As written, choosing "Out Of Stock" empties the table whatever the
   * card says: a medicine with no stock is classified Critical.
   */
  lemma OutOfStockFilterShowsNothing(meds: seq<MedicineView>)
    ensures ShownByStatus(meds, [Label(OutOfStock)]) == []
    ensures StockBands.Count(meds, StockBands.OutOfStock) > 0 ==> |ShownByStatus(meds, [Label(OutOfStock)])| < CardsOf(meds).outOfStock
  {
    forall i | 0 <= i < |meds|
      ensures !InventoryColumns.StatusPasses(Some([Label(OutOfStock)]), InventoryColumns.StatusOf(false, meds[i]))
    {
      var s := InventoryColumns.StatusOf(false, meds[i]);
      if Label(s) == Label(OutOfStock) {
        LabelInjective(s, OutOfStock);
      }
    }
    Lists.FilterNone(meds, (m: MedicineView) => InventoryColumns.StatusPasses(Some([Label(OutOfStock)]), InventoryColumns.StatusOf(false, m)));
  }

  /** With the intended classifier, each band's filter keeps exactly the rows its card counts. */
  lemma IntendedFilterMatchesCards(meds: seq<MedicineView>)
    ensures |IntendedShownByStatus(meds, [Label(OutOfStock)])| == CardsOf(meds).outOfStock
    ensures |IntendedShownByStatus(meds, [Label(Critical)])| == CardsOf(meds).critical
    ensures |IntendedShownByStatus(meds, [Label(LowStock)])| == CardsOf(meds).low
  {
    forall s: Status, i | 0 <= i < |meds|
      ensures InventoryColumns.StatusPasses(Some([Label(s)]), InventoryColumns.IntendedStatusOf(false, meds[i]))
          <==> InventoryColumns.IntendedStatusOf(false, meds[i]) == s
    {
      InventoryColumns.StatusFilterExact([Label(s)], s);
    }
    Lists.FilterSame(meds, (m: MedicineView) => InventoryColumns.StatusPasses(Some([Label(OutOfStock)]), InventoryColumns.IntendedStatusOf(false, m)), StockBands.OutOfStock);
    Lists.FilterSame(meds, (m: MedicineView) => InventoryColumns.StatusPasses(Some([Label(Critical)]), InventoryColumns.IntendedStatusOf(false, m)), StockBands.Critical);
    Lists.FilterSame(meds, (m: MedicineView) => InventoryColumns.StatusPasses(Some([Label(LowStock)]), InventoryColumns.IntendedStatusOf(false, m)), StockBands.Low);
  }

  /** The page's filter state. */
  class Page {
    var showExpired: bool
    var search: string
    var selectedStatus: seq<string>

    /** No status is selected twice. */
    ghost predicate Valid()
      reads this
    {
      Lists.Distinct(selectedStatus)
    }

    constructor ()
      ensures Valid() && !showExpired && search == "" && selectedStatus == []
    {
      showExpired, search, selectedStatus := false, "", [];
    }

    /** Typing in the search box. */
    method SetSearch(value: string)
      modifies this
      ensures search == value
      ensures showExpired == old(showExpired) && selectedStatus == old(selectedStatus)
    {
      search := value;
    }

    /** Choosing a status in the menu adds it when absent and removes it when present. */
    method ToggleStatus(status: string)
      requires Valid()
      modifies this
      ensures Valid()
      ensures selectedStatus == Lists.Toggle(old(selectedStatus), status)
      ensures status in selectedStatus <==> status !in old(selectedStatus)
      ensures showExpired == old(showExpired) && search == old(search)
    {
      Lists.ToggleKeepsDistinct(selectedStatus, status);
      selectedStatus := Lists.Toggle(selectedStatus, status);
    }

    /** "Clear Filters": only the selection is emptied. */
    method ClearFilters()
      modifies this
      ensures Valid() && selectedStatus == []
      ensures showExpired == old(showExpired) && search == old(search)
    {
      selectedStatus := [];
    }

    /** "Show Expired" / "Hide Expired": the selection is kept as it is. */
    method ToggleShowExpired()
      modifies this
      ensures showExpired == !old(showExpired)
      ensures search == old(search) && selectedStatus == old(selectedStatus)
    {
      showExpired := !showExpired;
    }
  }
}
