/**
 * The stock-log table's columns: the action filter, which understands
 * compound actions such as "OUT,ADJUST", the signed quantity shown beside
 * an action, and the medicine-then-batch order.
 */
module StockLogColumns {
  import opened Wrappers
  import Text
  import Ledger
  import BatchesService

  /** A row of the stock-log table; the name and batch number may be missing. */
  datatype LogRow = LogRow(name: Option<string>, batchNumber: Option<string>, action: string, quantityChange: int)

  /** The parts of an action: "OUT,ADJUST" has two, a simple action one. */
  function Parts(action: string): (r: seq<string>)
    ensures ',' !in action ==> r == [action]
  {
    if ',' in action then Text.Split(action, ',')
    else
      Text.SplitNoSep(action, ',');
      Text.Split(action, ',')
  }

  /**
   * The action column's `filterFn`: no filter, or an empty one, passes
   * everything; a compound action passes when one of its parts is
   * selected; a simple action when it is selected itself.
   */
  predicate ActionPasses(filter: Option<seq<string>>, action: string)
  {
    if filter.None? || |filter.value| == 0 then true
    else if ',' in action then exists f :: f in filter.value && f in Text.Split(action, ',')
    else action in filter.value
  }

  /** Simple and compound actions obey one rule: some part of the action is selected. */
  lemma ActionPassesIffSomePart(filter: seq<string>, action: string)
    requires |filter| > 0
    ensures ActionPasses(Some(filter), action) <==> exists p :: p in Parts(action) && p in filter
  {
    if ',' !in action {
      assert Parts(action) == [action];
      if action in filter {
        assert action in Parts(action);
      }
    }
  }

  /** The parts of the action an increasing correction logs. */
  lemma IncreaseParts()
    ensures ',' in BatchesService.IncreaseAction
    ensures Text.Split(BatchesService.IncreaseAction, ',') == ["IN", "ADJUST"]
  {
    var inc, adj := "IN", "ADJUST";
    assert ',' !in inc && ',' !in adj;
    SplitsInto(inc, adj);
    assert BatchesService.IncreaseAction == inc + [','] + adj;
  }

  /** The parts of the action a decreasing correction logs. */
  lemma DecreaseParts()
    ensures ',' in BatchesService.DecreaseAction
    ensures Text.Split(BatchesService.DecreaseAction, ',') == ["OUT", "ADJUST"]
  {
    var dec, adj := "OUT", "ADJUST";
    assert ',' !in dec && ',' !in adj;
    SplitsInto(dec, adj);
    assert BatchesService.DecreaseAction == dec + [','] + adj;
  }

  lemma SplitsInto(a: string, b: string)
    requires ',' !in a && ',' !in b
    ensures ',' in a + [','] + b
    ensures Text.Split(a + [','] + b, ',') == [a, b]
  {
    Text.SplitNoSep(b, ',');
    Text.SplitFirst(a, b, ',');
    assert (a + [','] + b)[|a|] == ',';
  }

  /** The correction logs of a batch update show under both of their parts. */
  lemma AdjustActionsFilter(filter: seq<string>)
    requires |filter| > 0
    ensures ActionPasses(Some(filter), BatchesService.IncreaseAction) <==> "IN" in filter || "ADJUST" in filter
    ensures ActionPasses(Some(filter), BatchesService.DecreaseAction) <==> "OUT" in filter || "ADJUST" in filter
  {
    IncreaseParts();
    DecreaseParts();
  }

  /**
   * The signed quantity shown beside an action. A compound action with an
   * IN part shows `+q`, one with an OUT part `-q`, any other nothing; a
   * simple IN shows `+q`, OUT `-|q|` and anything else `q` as it is.
   */
  function DisplayValue(action: string, q: int): (r: string)
    ensures ',' in action && "IN" in Text.Split(action, ',') ==> r == "+" + Text.IntToString(q)
    ensures ',' in action && "IN" !in Text.Split(action, ',') && "OUT" in Text.Split(action, ',') ==> r == "-" + Text.IntToString(q)
    ensures ',' in action && "IN" !in Text.Split(action, ',') && "OUT" !in Text.Split(action, ',') ==> r == ""
    ensures ',' !in action && action == "OUT" ==> r == "-" + Text.IntToString(if q < 0 then -q else q)
    ensures ',' !in action && action == "IN" ==> r == "+" + Text.IntToString(q)
    ensures ',' !in action && action != "IN" && action != "OUT" ==> r == Text.IntToString(q)
  {
    if ',' in action then
      var parts := Text.Split(action, ',');
      if "IN" in parts then "+" + Text.IntToString(q)
      else if "OUT" in parts then "-" + Text.IntToString(q)
      else ""
    else if action == "IN" then "+" + Text.IntToString(q)
    else if action == "OUT" then "-" + Text.IntToString(if q < 0 then -q else q)
    else Text.IntToString(q)
  }

  /**
   * A correction log written by a batch update shows the signed change of
   * the quantity: `+(after − before)` or `-(before − after)`.
   */
  lemma AdjustLogDisplay(batchId: int, before: int, after: int, user: Option<int>)
    requires after != before
    ensures var log := BatchesService.AdjustLog(batchId, before, Some(after), user).value;
      DisplayValue(log.action, log.quantityChange)
        == (if after > before then "+" + Text.NatToString(after - before) else "-" + Text.NatToString(before - after))
  {
    var log := BatchesService.AdjustLog(batchId, before, Some(after), user).value;
    assert log.quantityChange == if after > before then after - before else before - after;
    AdjustDisplay(log.action, log.quantityChange, after > before);
  }

  /** The display of a correction log's action and its positive change. */
  lemma AdjustDisplay(action: string, q: nat, increase: bool)
    requires action == if increase then BatchesService.IncreaseAction else BatchesService.DecreaseAction
    ensures DisplayValue(action, q) == (if increase then "+" else "-") + Text.NatToString(q)
  {
    if increase {
      IncreaseDisplay(q);
    } else {
      DecreaseDisplay(q);
    }
  }

  lemma IncreaseDisplay(q: int)
    ensures DisplayValue(BatchesService.IncreaseAction, q) == "+" + Text.IntToString(q)
  {
    IncreaseParts();
    assert "IN" in ["IN", "ADJUST"];
  }

  lemma DecreaseDisplay(q: int)
    ensures DisplayValue(BatchesService.DecreaseAction, q) == "-" + Text.IntToString(q)
  {
    DecreaseParts();
    assert "IN" !in ["OUT", "ADJUST"] && "OUT" in ["OUT", "ADJUST"];
  }

  /** `name?.toLowerCase() || ""`. */
  function Key(s: Option<string>): string
  {
    if s.Some? then Text.Lower(s.value) else ""
  }

  /** `a > b ? 1 : a < b ? -1 : …` on two strings. */
  function Order(a: string, b: string): (r: int)
    ensures -1 <= r <= 1
    ensures r == 0 <==> a == b
    ensures r < 0 <==> a != b && Text.LessEq(a, b)
  {
    Text.LessEqTotal(a, a);
    if !Text.LessEq(a, b) then 1 else if a != b then -1 else 0
  }

  /** The medicine column's `sortingFn`: by lower-cased name, then by lower-cased batch number. */
  function MedicineCompare(x: LogRow, y: LogRow): (r: int)
    ensures -1 <= r <= 1
    ensures r == 0 <==> Key(x.name) == Key(y.name) && Key(x.batchNumber) == Key(y.batchNumber)
    ensures Key(x.name) != Key(y.name) ==> (r < 0 <==> Text.LessEq(Key(x.name), Key(y.name)))
    ensures Key(x.name) == Key(y.name) && Key(x.batchNumber) != Key(y.batchNumber) ==>
      (r < 0 <==> Text.LessEq(Key(x.batchNumber), Key(y.batchNumber)))
  {
    var byName := Order(Key(x.name), Key(y.name));
    if byName != 0 then byName else Order(Key(x.batchNumber), Key(y.batchNumber))
  }

  /** Swapping the rows flips the answer, so the order is the same whichever row comes first. */
  lemma MedicineCompareAntisymmetric(x: LogRow, y: LogRow)
    ensures MedicineCompare(x, y) == -MedicineCompare(y, x)
  {
    Text.LessEqTotal(Key(x.name), Key(y.name));
    Text.LessEqTotal(Key(x.batchNumber), Key(y.batchNumber));
    if Text.LessEq(Key(x.name), Key(y.name)) && Text.LessEq(Key(y.name), Key(x.name)) {
      Text.LessEqAntisymmetric(Key(x.name), Key(y.name));
    }
    if Text.LessEq(Key(x.batchNumber), Key(y.batchNumber)) && Text.LessEq(Key(y.batchNumber), Key(x.batchNumber)) {
      Text.LessEqAntisymmetric(Key(x.batchNumber), Key(y.batchNumber));
    }
  }
}
