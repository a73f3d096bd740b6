/**
 * The stock-log filter store (`useStockLogStore`): a search text and the
 * selected actions.
 */
module StockLogStore {
  import Lists

  class Filters {
    var search: string
    var selectedActions: seq<string>

    /** The selection never holds an action twice. */
    ghost predicate Valid()
      reads this
    {
      Lists.Distinct(selectedActions)
    }

    constructor ()
      ensures Valid() && search == "" && selectedActions == []
    {
      search, selectedActions := "", [];
    }

    /** `setSearch`: only the search changes. */
    method SetSearch(value: string)
      modifies this
      ensures search == value && selectedActions == old(selectedActions)
    {
      search := value;
    }

    /** `toggleAction`: an absent action is appended, a present one removed; the search stays. */
    method ToggleAction(action: string)
      requires Valid()
      modifies this
      ensures Valid()
      ensures selectedActions == Lists.Toggle(old(selectedActions), action)
      ensures search == old(search)
      ensures action !in old(selectedActions) ==> selectedActions == old(selectedActions) + [action]
    {
      Lists.ToggleKeepsDistinct(selectedActions, action);
      selectedActions := Lists.Toggle(selectedActions, action);
    }

    /** `clearFilters`. */
    method ClearFilters()
      modifies this
      ensures Valid() && search == "" && selectedActions == []
    {
      search, selectedActions := "", [];
    }
  }
}
