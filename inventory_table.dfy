/**
 * The inventory data table's own state: the page index, moved by the
 * first/prev/next/last buttons, and the status column's filter, kept in
 * step with the page's status selection.
 */
module InventoryTable {
  import opened Wrappers
  import opened Views
  import Pagination
  import InventoryColumns

  /** The status column's filter for a selection: the selection, or no filter when it is empty. */
  function StatusColumnFilter(statusFilter: Option<seq<string>>): (r: Option<seq<string>>)
    ensures r.Some? ==> |r.value| > 0 && r == statusFilter
    ensures r.None? ==> statusFilter.None? || statusFilter.value == []
  {
    if statusFilter.Some? && |statusFilter.value| > 0 then statusFilter else None
  }

  /** Dropping an empty selection changes no row's fate. */
  lemma StatusColumnFilterSameRows(statusFilter: Option<seq<string>>, s: Status)
    ensures InventoryColumns.StatusPasses(StatusColumnFilter(statusFilter), s) <==> InventoryColumns.StatusPasses(statusFilter, s)
  {
  }

  class Table {
    var pageIndex: nat
    var statusColumnFilter: Option<seq<string>>

    constructor ()
      ensures pageIndex == 0 && statusColumnFilter.None?
    {
      pageIndex, statusColumnFilter := 0, None;
    }

    /** The rows shown: the page at the index, or the last page when the index is past it. */
    function PageOf<T>(rows: seq<T>): (r: seq<T>)
      reads this
      ensures |r| <= Pagination.PageSize
      ensures pageIndex < Pagination.PageCount(|rows|) ==> r == Pagination.PageRows(rows, pageIndex)
      ensures pageIndex >= Pagination.PageCount(|rows|) ==> r == Pagination.PageRows(rows, Pagination.PageCount(|rows|) - 1)
    {
      var count := Pagination.PageCount(|rows|);
      Pagination.PageRows(rows, Pagination.CurrentPage(pageIndex, count))
    }

    method FirstPage()
      modifies this
      ensures pageIndex == 0 && statusColumnFilter == old(statusColumnFilter)
    {
      pageIndex := 0;
    }

    method PrevPage()
      modifies this
      ensures pageIndex == Pagination.Prev(old(pageIndex)) && statusColumnFilter == old(statusColumnFilter)
      ensures pageIndex <= old(pageIndex)
    {
      pageIndex := Pagination.Prev(pageIndex);
    }

    /** `next`, with the page count of the `rowCount` rows now shown. */
    method NextPage(rowCount: nat)
      modifies this
      ensures pageIndex == Pagination.Next(old(pageIndex), Pagination.PageCount(rowCount))
      ensures pageIndex < Pagination.PageCount(rowCount) && statusColumnFilter == old(statusColumnFilter)
    {
      pageIndex := Pagination.Next(pageIndex, Pagination.PageCount(rowCount));
    }

    method LastPage(rowCount: nat)
      modifies this
      ensures pageIndex == Pagination.PageCount(rowCount) - 1 && statusColumnFilter == old(statusColumnFilter)
    {
      pageIndex := Pagination.PageCount(rowCount) - 1;
    }

    /** The effect that copies the page's status selection into the status column. */
    method SyncStatusFilter(statusFilter: Option<seq<string>>)
      modifies this
      ensures statusColumnFilter == StatusColumnFilter(statusFilter) && pageIndex == old(pageIndex)
    {
      statusColumnFilter := StatusColumnFilter(statusFilter);
    }
  }
}
