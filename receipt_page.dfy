/**
 * The receipts page: the date-range and search filters, the paging of
 * the filtered receipts and the summary cards.
 */
module ReceiptPage {
  import opened Wrappers
  import opened Views
  import Text
  import Lists
  import Pagination

  const DayMs := 24 * 60 * 60 * 1000

  /**
   * `withinRange`, with the clock as parameters: `now` and the start of
   * the local day `todayStart`, both in milliseconds.
   */
  predicate WithinRange(created: int, filter: string, now: int, todayStart: int)
  {
    if filter == "all" then true
    else if filter == "today" then created >= todayStart
    else if filter == "7days" then created >= now - 7 * DayMs
    else if filter == "30days" then created >= now - 30 * DayMs
    else true
  }

  /**
   * The ranges are nested: whatever "today" accepts "7 days" accepts, and
   * so on up to "all"; a range the page does not know accepts everything.
   */
  lemma RangesNested(created: int, now: int, todayStart: int, other: string)
    requires now - DayMs < todayStart <= now
    requires other !in {"today", "7days", "30days"}
    ensures WithinRange(created, "today", now, todayStart) ==> WithinRange(created, "7days", now, todayStart)
    ensures WithinRange(created, "7days", now, todayStart) ==> WithinRange(created, "30days", now, todayStart)
    ensures WithinRange(created, other, now, todayStart)
  {
  }

  /** The search: a receipt with a patient name matches on it, ignoring case, or on its id. */
  predicate MatchesSearch(r: ReceiptView, search: string)
  {
    (r.patientName.Some? && Text.IncludesIgnoringCase(r.patientName.value, search))
    || Text.Includes(Text.IntToString(r.id), search)
  }

  /** An empty search keeps every receipt; without a patient name only the id can match. */
  lemma SearchCases(r: ReceiptView, search: string)
    ensures MatchesSearch(r, "")
    ensures r.patientName.None? ==> (MatchesSearch(r, search) <==> Text.Includes(Text.IntToString(r.id), search))
  {
    Text.IncludesEmpty(Text.IntToString(r.id));
  }

  /** `filteredReceipts`. */
  function Filtered(rs: seq<ReceiptView>, search: string, range: string, now: int, todayStart: int): (r: seq<ReceiptView>)
    ensures forall x :: x in r <==> x in rs && MatchesSearch(x, search) && WithinRange(x.createdAt.ms, range, now, todayStart)
    ensures search == "" && range == "all" ==> r == rs
  {
    var keep := (x: ReceiptView) => MatchesSearch(x, search) && WithinRange(x.createdAt.ms, range, now, todayStart);
    if search == "" && range == "all" then
      forall i | 0 <= i < |rs|
        ensures keep(rs[i])
      {
        SearchCases(rs[i], search);
      }
      Lists.FilterAll(rs, keep);
      Lists.Filter(rs, keep)
    else Lists.Filter(rs, keep)
  }

  /** `paginatedReceipts`: the current page, the index clamped into the page count. */
  function Paginated(filtered: seq<ReceiptView>, pageIndex: nat): (r: seq<ReceiptView>)
    ensures |r| <= Pagination.PageSize
    ensures forall x :: x in r ==> x in filtered
    ensures filtered != [] ==> r != []
    ensures r == Pagination.PageRows(filtered, Pagination.CurrentPage(pageIndex, Pagination.PageCount(|filtered|)))
  {
    var i := Pagination.CurrentPage(pageIndex, Pagination.PageCount(|filtered|));
    var a := i * Pagination.PageSize;
    assert filtered != [] ==> a < |filtered|;
    Pagination.PageRows(filtered, i)
  }

  // -------------------------------------------------------------- page reset

  /** What the page-reset effect depends on: the search text, the range and the page index. */
  datatype Deps = Deps(search: string, range: string, pageIndex: nat)

  /**
   * The page index once the reset effect has settled, as written: the effect
   * is scheduled again whenever any of its dependencies changes, the page
   * index included, and 300 ms later puts any page other than the first back to 0.
   */
  function SettledAsWritten(before: Deps, after: Deps): nat
  {
    if before != after then 0 else after.pageIndex
  }

  /** The evident intent: only a change of search or range sends the table back to the first page. */
  function SettledIntended(before: Deps, after: Deps): nat
  {
    if before.search != after.search || before.range != after.range then 0 else after.pageIndex
  }

  /**
   * As written, moving from the first page to the second, which exists,
   * leaves the table on the second page for 300 ms only: the effect then
   * shows the first page again.
   */
  lemma NextPageSnapsBack(filtered: seq<ReceiptView>, d: Deps)
    requires d.pageIndex == 0 && |filtered| > Pagination.PageSize
    ensures var count := Pagination.PageCount(|filtered|);
      Pagination.CurrentPage(1, count) == 1 &&
      Pagination.CurrentPage(SettledAsWritten(d, d.(pageIndex := 1)), count) == 0
  {
    assert Pagination.PageCount(|filtered|) >= 2;
  }

  /**
   * As intended, a page the user moves to stays, and a change of search or
   * range (whatever the page) goes back to the first page.
   */
  lemma IntendedResetsOnFilterChange(before: Deps, after: Deps)
    ensures before.search == after.search && before.range == after.range ==> SettledIntended(before, after) == after.pageIndex
    ensures before.search != after.search || before.range != after.range ==> SettledIntended(before, after) == 0
  {
  }

  // ----------------------------------------------------------------- summary

  /** `Math.round(total / n)`, halves rounded up, and 0 for no receipts. */
  function RoundedAverage(total: int, n: nat): (r: int)
    ensures n == 0 ==> r == 0
    ensures n > 0 ==> 0 <= 2 * (total - r * n) + n < 2 * n
  {
    if n == 0 then 0 else (2 * total + n) / (2 * n)
  }

  /** Only one integer lies within half a receipt of the average. */
  lemma RoundedAverageUnique(total: int, n: nat, a: int)
    requires n > 0 && 0 <= 2 * (total - a * n) + n < 2 * n
    ensures a == RoundedAverage(total, n)
  {
    var r := RoundedAverage(total, n);
    assert (total - a * n) - (total - r * n) == (r - a) * n;
    StepTimes(r - a, n);
    StepTimes(a - r, n);
  }

  /** A positive number of steps of `n` covers at least `n`. */
  lemma StepTimes(d: int, n: int)
    requires n > 0
    ensures d <= 0 || d * n >= n
  {
    if d > 0 {
      assert d * n == (d - 1) * n + n;
      assert (d - 1) * n >= 0;
    }
  }

  /** The key `patientName || id` a receipt adds to the set of patients. */
  datatype PatientKey = Name(name: string) | ReceiptId(id: int)

  function KeyOf(r: ReceiptView): PatientKey
  {
    if r.patientName.Some? && r.patientName.value != "" then Name(r.patientName.value) else ReceiptId(r.id)
  }

  /** `new Set(dataset.map(key))`. */
  function Keys(rs: seq<ReceiptView>): (r: set<PatientKey>)
    ensures |r| <= |rs|
    ensures forall k :: k in r <==> exists i :: 0 <= i < |rs| && KeyOf(rs[i]) == k
  {
    if rs == [] then {}
    else
      var rest := Keys(rs[1..]);
      forall k | k in rest
        ensures exists i :: 0 <= i < |rs| && KeyOf(rs[i]) == k
      {
        var i :| 0 <= i < |rs[1..]| && KeyOf(rs[1..][i]) == k;
        assert KeyOf(rs[i + 1]) == k;
      }
      forall k | exists i :: 0 <= i < |rs| && KeyOf(rs[i]) == k
        ensures k == KeyOf(rs[0]) || k in rest
      {
        var i :| 0 <= i < |rs| && KeyOf(rs[i]) == k;
        if i > 0 {
          assert KeyOf(rs[1..][i - 1]) == k;
        }
      }
      {KeyOf(rs[0])} + rest
  }

  function Units(r: ReceiptView): int { r.totalItems }

  datatype Summary = Summary(totalReceipts: nat, totalItems: int, avgItems: int, uniquePatients: nat, todayReceiptsCount: nat)

  /** The `summary` memo, over all receipts whatever the filters. */
  function SummaryOf(rs: seq<ReceiptView>, todayStart: int): (r: Summary)
    ensures r.totalReceipts == |rs|
    ensures r.totalItems == Lists.Sum(rs, Units)
    ensures r.avgItems == RoundedAverage(r.totalItems, |rs|)
    ensures r.uniquePatients == |Keys(rs)|
    ensures r.uniquePatients <= |rs| && (rs != [] ==> r.uniquePatients >= 1)
    ensures r.todayReceiptsCount <= |rs|
    ensures r.todayReceiptsCount == |Filtered(rs, "", "today", todayStart, todayStart)|
  {
    assert rs != [] ==> KeyOf(rs[0]) in Keys(rs);
    var total := Lists.Sum(rs, Units);
    var today := Filtered(rs, "", "today", todayStart, todayStart);
    Summary(|rs|, total, RoundedAverage(total, |rs|), |Keys(rs)|, |today|)
  }

  /** Receipts with distinct patient names count one patient each; unnamed receipts count by id. */
  lemma UnnamedCountSeparately(rs: seq<ReceiptView>)
    requires forall i :: 0 <= i < |rs| ==> rs[i].patientName.None?
    requires forall i, j :: 0 <= i < j < |rs| ==> rs[i].id != rs[j].id
    ensures |Keys(rs)| == |rs|
  {
    var ids := set i | 0 <= i < |rs| :: KeyOf(rs[i]);
    assert Keys(rs) == ids;
    InjectiveImage(rs);
  }

  lemma {:induction false} InjectiveImage(rs: seq<ReceiptView>)
    requires forall i, j :: 0 <= i < j < |rs| ==> KeyOf(rs[i]) != KeyOf(rs[j])
    ensures |Keys(rs)| == |rs|
  {
    if rs != [] {
      var tail := rs[1..];
      forall i | 0 <= i < |tail|
        ensures KeyOf(tail[i]) != KeyOf(rs[0])
      {
        assert tail[i] == rs[i + 1];
      }
      InjectiveImage(tail);
    }
  }
}
