/**
 * The stock-log page's summary cards: number of logs, units in, units out
 * and adjustments, each found by a substring test on the action.
 */
module StockLogsPage {
  import Text
  import Lists
  import BatchesService
  import opened StockLogColumns

  datatype Summary = Summary(totalLogs: nat, totalIn: int, totalOut: int, adjustments: nat)

  function Change(l: LogRow): int { l.quantityChange }

  /** `action.includes("IN")`: "IN,ADJUST" is an IN action too. */
  predicate IsIn(l: LogRow) { Text.Includes(l.action, "IN") }
  predicate IsOut(l: LogRow) { Text.Includes(l.action, "OUT") }
  predicate IsAdjust(l: LogRow) { Text.Includes(l.action, "ADJUST") }

  /** The `summary` memo. */
  function SummaryOf(logs: seq<LogRow>): (r: Summary)
    ensures r.totalLogs == |logs|
    ensures r.adjustments == |Lists.Filter(logs, IsAdjust)| && r.adjustments <= r.totalLogs
    ensures r.totalIn == Lists.Sum(Lists.Filter(logs, IsIn), Change)
    ensures r.totalOut == Lists.Sum(Lists.Filter(logs, IsOut), Change)
    ensures logs == [] ==> r == Summary(0, 0, 0, 0)
  {
    Summary(|logs|, Lists.Sum(Lists.Filter(logs, IsIn), Change), Lists.Sum(Lists.Filter(logs, IsOut), Change),
            |Lists.Filter(logs, IsAdjust)|)
  }

  function Plus(a: Summary, b: Summary): Summary
  {
    Summary(a.totalLogs + b.totalLogs, a.totalIn + b.totalIn, a.totalOut + b.totalOut, a.adjustments + b.adjustments)
  }

  /** The summary of two log lists put together is the sum of their summaries. */
  lemma SummaryAppend(a: seq<LogRow>, b: seq<LogRow>)
    ensures SummaryOf(a + b) == Plus(SummaryOf(a), SummaryOf(b))
  {
    Lists.FilterAppend(a, b, IsIn);
    Lists.FilterAppend(a, b, IsOut);
    Lists.FilterAppend(a, b, IsAdjust);
    Lists.SumAppend(Lists.Filter(a, IsIn), Lists.Filter(b, IsIn), Change);
    Lists.SumAppend(Lists.Filter(a, IsOut), Lists.Filter(b, IsOut), Change);
  }

  /** "IN" and "OUT" occur in no action that does not contain them. */
  lemma SimpleActionWords()
    ensures Text.Includes("IN", "IN") && !Text.Includes("IN", "OUT") && !Text.Includes("IN", "ADJUST")
    ensures Text.Includes("OUT", "OUT") && !Text.Includes("OUT", "IN") && !Text.Includes("OUT", "ADJUST")
  {
    assert Text.OccursAt("IN", "IN", 0);
    assert Text.OccursAt("OUT", "OUT", 0);
    var out := "OUT";
    forall i | 0 <= i <= |out| - 2
      ensures !Text.OccursAt(out, "IN", i)
    {
      assert out[i..i + 2][0] == out[i];
    }
  }

  lemma IncreaseWords()
    ensures Text.Includes(BatchesService.IncreaseAction, "IN") && Text.Includes(BatchesService.IncreaseAction, "ADJUST")
    ensures !Text.Includes(BatchesService.IncreaseAction, "OUT")
  {
    var s := BatchesService.IncreaseAction;
    assert Text.OccursAt(s, "IN", 0);
    assert Text.OccursAt(s, "ADJUST", 3);
    forall i | 0 <= i <= |s| - 3
      ensures !Text.OccursAt(s, "OUT", i)
    {
      assert s[i..i + 3][0] == s[i];
    }
  }

  lemma DecreaseWords()
    ensures Text.Includes(BatchesService.DecreaseAction, "OUT") && Text.Includes(BatchesService.DecreaseAction, "ADJUST")
    ensures !Text.Includes(BatchesService.DecreaseAction, "IN")
  {
    var s := BatchesService.DecreaseAction;
    assert Text.OccursAt(s, "OUT", 0);
    assert Text.OccursAt(s, "ADJUST", 4);
    forall i | 0 <= i <= |s| - 2
      ensures !Text.OccursAt(s, "IN", i)
    {
      assert s[i..i + 2][0] == s[i];
    }
  }

  /**
   * What one log of each action the backend writes adds to the summary:
   * a new batch and an increase count as units in, a dispense and a
   * decrease as units out, and both corrections as adjustments.
   */
  lemma OneLogContribution(l: LogRow)
    ensures l.action == BatchesService.InAction ==> SummaryOf([l]) == Summary(1, l.quantityChange, 0, 0)
    ensures l.action == "OUT" ==> SummaryOf([l]) == Summary(1, 0, l.quantityChange, 0)
    ensures l.action == BatchesService.IncreaseAction ==> SummaryOf([l]) == Summary(1, l.quantityChange, 0, 1)
    ensures l.action == BatchesService.DecreaseAction ==> SummaryOf([l]) == Summary(1, 0, l.quantityChange, 1)
  {
    SimpleActionWords();
    IncreaseWords();
    DecreaseWords();
    assert [l][1..] == [];
  }
}
