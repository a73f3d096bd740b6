/**
 * The medicine search of the standalone dispensing form: the search box,
 * its results list and the list of picked medicines it fills.
 */
module DispenseSearch {
  import opened Wrappers
  import opened Views
  import Text
  import Lists
  import ReorderStore

  /** A medicine matches when its name or generic name contains the search, ignoring case. */
  predicate Matches(m: MedicineView, search: string)
  {
    Text.IncludesIgnoringCase(m.name, search) || Text.IncludesIgnoringCase(m.genericName, search)
  }

  /** `filteredMedicines`. */
  function FilteredMedicines(meds: seq<MedicineView>, search: string): (r: seq<MedicineView>)
    ensures forall m :: m in r <==> m in meds && Matches(m, search)
    ensures search == "" ==> r == meds
  {
    var p := (m: MedicineView) => Matches(m, search);
    if search == "" then
      forall k | 0 <= k < |meds|
        ensures p(meds[k])
      {
        Text.IncludesEmpty(Text.Lower(meds[k].name));
      }
      Lists.FilterAll(meds, p);
      Lists.Filter(meds, p)
    else Lists.Filter(meds, p)
  }

  function ItemQuantity(item: ReorderStore.ReorderItem): int { item.quantity }

  /** `totals`: the number of picked lines and the units over all of them. */
  function Totals(items: seq<ReorderStore.ReorderItem>): (r: (nat, int))
    ensures r.0 == |items| && r.1 == Lists.Sum(items, ItemQuantity)
    ensures items == [] ==> r == (0, 0)
  {
    (|items|, Lists.Sum(items, ItemQuantity))
  }

  /** The payload `handleAddMedicine` passes: no unit id, unit name or stock. */
  function PickOf(m: MedicineView): (r: ReorderStore.Pick)
    ensures r.id == m.id && r.name == m.name && r.genericName == m.genericName && r.price == m.price
    ensures r.unitId.None? && r.unitName.None? && r.totalStock.None?
  {
    ReorderStore.Pick(m.id, m.name, m.genericName, None, None, m.price, None)
  }

  class Search {
    var search: string
    var showResults: bool
    const picked: ReorderStore.Reorder

    /** The results flag follows the search text. */
    ghost predicate Valid()
      reads this, picked
    {
      showResults == (search != "") && picked.Valid()
    }

    /** The results list is drawn while the flag is set and the search is non-empty. */
    predicate ResultsVisible()
      reads this
    {
      showResults && search != ""
    }

    constructor (picked: ReorderStore.Reorder)
      requires picked.Valid()
      ensures Valid() && this.picked == picked && search == "" && !ResultsVisible()
    {
      this.picked := picked;
      search, showResults := "", false;
    }

    /** Typing: the text is stored and the results shown when it is non-empty. */
    method Type(value: string)
      requires Valid()
      modifies this
      ensures Valid() && search == value
      ensures ResultsVisible() <==> value != ""
    {
      search := value;
      showResults := value != "";
    }

    /** `handleAddMedicine`: the medicine is picked, the search cleared and the results hidden. */
    method AddMedicine(m: MedicineView)
      requires Valid()
      modifies this, picked
      ensures Valid() && search == "" && !ResultsVisible()
      ensures picked.selectedItems == ReorderStore.Added(old(picked.selectedItems), PickOf(m))
    {
      picked.AddItem(PickOf(m));
      search, showResults := "", false;
    }
  }

  /** While the state is valid the results are visible exactly when something is typed. */
  lemma VisibleIffTyped(s: Search)
    requires s.Valid()
    ensures s.ResultsVisible() <==> s.search != ""
  {
  }
}
