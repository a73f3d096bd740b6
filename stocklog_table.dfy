/**
 * The stock-log data table's own state: the selected actions, the page
 * index and the action column's filter. Any change of the search, of the
 * selection or of the column filters sends the table back to page 0.
 */
module StockLogTable {
  import opened Wrappers
  import Lists
  import Pagination
  import StockLogColumns

  /** The action filter buttons. */
  const ActionFilters: seq<string> := ["IN", "OUT", "ADJUST"]

  /** The action column's filter for a selection: the selection, or no filter when it is empty. */
  function ActionColumnFilter(selected: seq<string>): (r: Option<seq<string>>)
    ensures r.Some? <==> |selected| > 0
    ensures r.Some? ==> r.value == selected
  {
    if |selected| > 0 then Some(selected) else None
  }

  /** The column filter lets through exactly the rows the selection names, and every row when it is empty. */
  lemma ActionColumnFilterSameRows(selected: seq<string>, action: string)
    ensures StockLogColumns.ActionPasses(ActionColumnFilter(selected), action) <==> StockLogColumns.ActionPasses(Some(selected), action)
    ensures selected == [] ==> StockLogColumns.ActionPasses(ActionColumnFilter(selected), action)
  {
  }

  class Table {
    var selectedActions: seq<string>
    var pageIndex: nat
    var actionColumnFilter: Option<seq<string>>
    /** The search text, which the table shares with its page. */
    var globalFilter: string

    /** The column filter follows the selection, and the selection has no repeats. */
    predicate Valid()
      reads this
    {
      actionColumnFilter == ActionColumnFilter(selectedActions) && Lists.Distinct(selectedActions)
    }

    constructor (search: string)
      ensures Valid() && selectedActions == [] && pageIndex == 0 && globalFilter == search
    {
      selectedActions, pageIndex, actionColumnFilter, globalFilter := [], 0, None, search;
    }

    function PageOf<T>(rows: seq<T>): (r: seq<T>)
      reads this
      ensures |r| <= Pagination.PageSize
      ensures pageIndex < Pagination.PageCount(|rows|) ==> r == Pagination.PageRows(rows, pageIndex)
      ensures pageIndex >= Pagination.PageCount(|rows|) ==> r == Pagination.PageRows(rows, Pagination.PageCount(|rows|) - 1)
    {
      Pagination.PageRows(rows, Pagination.CurrentPage(pageIndex, Pagination.PageCount(|rows|)))
    }

    /** `toggleAction`, followed by the effects it sets off: page 0 and the synced column filter. */
    method ToggleAction(action: string)
      requires Valid()
      modifies this
      ensures Valid()
      ensures selectedActions == Lists.Toggle(old(selectedActions), action)
      ensures pageIndex == 0 && globalFilter == old(globalFilter)
    {
      Lists.ToggleKeepsDistinct(selectedActions, action);
      selectedActions := Lists.Toggle(selectedActions, action);
      actionColumnFilter := ActionColumnFilter(selectedActions);
      pageIndex := 0;
    }

    /** `clearFilters`: no action selected, an empty search, page 0. */
    method ClearFilters()
      requires Valid()
      modifies this
      ensures Valid() && selectedActions == [] && actionColumnFilter.None? && globalFilter == "" && pageIndex == 0
    {
      selectedActions := [];
      actionColumnFilter := None;
      globalFilter := "";
      pageIndex := 0;
    }

    /** A new search text sends the table to page 0; the same text changes nothing. */
    method SetGlobalFilter(v: string)
      requires Valid()
      modifies this
      ensures Valid() && globalFilter == v && selectedActions == old(selectedActions)
      ensures pageIndex == if v != old(globalFilter) then 0 else old(pageIndex)
    {
      if v != globalFilter {
        pageIndex := 0;
      }
      globalFilter := v;
    }

    method FirstPage()
      requires Valid()
      modifies this
      ensures Valid() && pageIndex == 0 && selectedActions == old(selectedActions) && globalFilter == old(globalFilter)
    {
      pageIndex := 0;
    }

    method PrevPage()
      requires Valid()
      modifies this
      ensures Valid() && pageIndex == Pagination.Prev(old(pageIndex))
      ensures selectedActions == old(selectedActions) && globalFilter == old(globalFilter)
    {
      pageIndex := Pagination.Prev(pageIndex);
    }

    method NextPage(rowCount: nat)
      requires Valid()
      modifies this
      ensures Valid() && pageIndex == Pagination.Next(old(pageIndex), Pagination.PageCount(rowCount))
      ensures pageIndex < Pagination.PageCount(rowCount)
      ensures selectedActions == old(selectedActions) && globalFilter == old(globalFilter)
    {
      pageIndex := Pagination.Next(pageIndex, Pagination.PageCount(rowCount));
    }

    method LastPage(rowCount: nat)
      requires Valid()
      modifies this
      ensures Valid() && pageIndex == Pagination.PageCount(rowCount) - 1
      ensures selectedActions == old(selectedActions) && globalFilter == old(globalFilter)
    {
      pageIndex := Pagination.PageCount(rowCount) - 1;
    }
  }
}
