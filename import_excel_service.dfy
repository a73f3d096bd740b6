/**
 * Confirming a spreadsheet import (`ImportExcelService`): the cached rows
 * are projected by import type, the selected ones are taken in the order
 * given, and each row creates a medicine, adds a batch to an existing one,
 * is recorded as an error, or is skipped. Existence is decided once, before
 * the loop, by a case-insensitive name match.
 */
module ImportExcelService {
  import opened Wrappers
  import opened Ledger
  import Text
  import CategoryService
  import UnitsService

  datatype ImportType = MedicineAndBatch | MedicineOnly | BatchOnly

  /**
   * `ExcelRowData`. A cell left out of the row is `None`; `expiry` is the
   * expiry cell already read as a day number, `None` when it is empty.
   */
  datatype ExcelRow = ExcelRow(
    name: string,
    genericName: Option<string>,
    categoryId: int,
    unitId: int,
    price: Option<int>,
    supplier: Option<string>,
    batchNumber: Option<string>,
    quantity: Option<int>,
    expiry: Option<int>)

  // ------------------------------------------------------------ projection

  predicate HasMedicineFields(t: ImportType) { t == MedicineAndBatch || t == MedicineOnly }

  predicate HasBatchFields(t: ImportType) { t == MedicineAndBatch || t == BatchOnly }

  /** One row of `filterByImportType`: the fields the import type does not use are left out. */
  function Project(row: ExcelRow, t: ImportType): (r: ExcelRow)
    ensures r.name == row.name && r.categoryId == row.categoryId && r.unitId == row.unitId
    ensures HasMedicineFields(t) ==> r.genericName == row.genericName && r.price == row.price && r.supplier == row.supplier
    ensures !HasMedicineFields(t) ==> r.genericName.None? && r.price.None? && r.supplier.None?
    ensures HasBatchFields(t) ==> r.batchNumber == row.batchNumber && r.quantity == row.quantity && r.expiry == row.expiry
    ensures !HasBatchFields(t) ==> r.batchNumber.None? && r.quantity.None? && r.expiry.None?
  {
    var medicine := HasMedicineFields(t);
    var batch := HasBatchFields(t);
    ExcelRow(row.name,
             if medicine then row.genericName else None,
             row.categoryId, row.unitId,
             if medicine then row.price else None,
             if medicine then row.supplier else None,
             if batch then row.batchNumber else None,
             if batch then row.quantity else None,
             if batch then row.expiry else None)
  }

  /** `filterByImportType`: each row projected, in the same order. */
  function FilterByImportType(rows: seq<ExcelRow>, t: ImportType): (r: seq<ExcelRow>)
    ensures |r| == |rows|
    ensures forall k :: 0 <= k < |rows| ==> r[k] == Project(rows[k], t)
  {
    if rows == [] then [] else [Project(rows[0], t)] + FilterByImportType(rows[1..], t)
  }

  /** Projecting twice is projecting once; the full import type keeps every row as it is. */
  lemma ProjectIdempotent(row: ExcelRow, t: ImportType)
    ensures Project(Project(row, t), t) == Project(row, t)
    ensures t == MedicineAndBatch ==> Project(row, t) == row
  {
  }

  // ------------------------------------------------------------ selection

  /** `selectedRows.map(i => allData[i]).filter(x => x !== undefined)`. */
  function Select(all: seq<ExcelRow>, indices: seq<int>): (r: seq<ExcelRow>)
    ensures |r| <= |indices|
    ensures forall x :: x in r ==> x in all
    ensures (forall k :: 0 <= k < |indices| ==> 0 <= indices[k] < |all|) ==>
      |r| == |indices| && forall k :: 0 <= k < |indices| ==> r[k] == all[indices[k]]
  {
    if indices == [] then []
    else
      var rest := Select(all, indices[1..]);
      if 0 <= indices[0] < |all| then [all[indices[0]]] + rest else rest
  }

  /** Indices outside the cached rows are dropped, the others kept in order. */
  lemma SelectDropsOutOfRange(all: seq<ExcelRow>, indices: seq<int>, i: int)
    requires i < 0 || i >= |all|
    ensures Select(all, [i] + indices) == Select(all, indices)
  {
    assert ([i] + indices)[1..] == indices;
  }

  // ------------------------------------------------------------ one row

  /** The tables a confirmation writes to. */
  datatype Tables = Tables(meds: seq<Medicine>, bs: seq<Batch>, nextMedicineId: int, nextBatchId: int)

  datatype RowError =
    | BatchIncomplete                 // "Batch information is incomplete"
    | NoSuchMedicine(name: string)    // "Medicine … not found"

  /** Where one selected row lands in the report. */
  datatype Landing = Created(name: string) | Updated(name: string) | Failed(name: string, error: RowError) | Skipped

  /** `getExistingMedicineNames`: every medicine name, lower-cased. */
  function ExistingNames(meds: seq<Medicine>): (r: set<string>)
    ensures forall m :: m in meds ==> Text.Lower(m.name) in r
    ensures forall n :: n in r ==> exists m :: m in meds && Text.Lower(m.name) == n
  {
    set m | m in meds :: Text.Lower(m.name)
  }

  /** `findOne({ where: { name } })`: an exact, case-sensitive match. */
  function FindByName(meds: seq<Medicine>, name: string): (r: Option<nat>)
    ensures r.Some? ==> r.value < |meds| && meds[r.value].name == name
    ensures r.None? ==> forall k :: 0 <= k < |meds| ==> meds[k].name != name
  {
    if meds == [] then None
    else if meds[0].name == name then Some(0)
    else
      var rest := FindByName(meds[1..], name);
      if rest.Some? then Some(rest.value + 1) else None
  }

  /** A batch is built only from a non-empty batch number, a quantity (0 counts) and a non-empty expiry. */
  predicate BatchComplete(row: ExcelRow)
  {
    row.batchNumber.Some? && row.batchNumber.value != "" && row.quantity.Some? && row.expiry.Some?
  }

  /** A reference that is set only when the id is truthy and found. */
  function Reference(id: int, found: bool): (r: Option<int>)
    ensures r.Some? <==> id != 0 && found
    ensures r.Some? ==> r.value == id
  {
    if id != 0 && found then Some(id) else None
  }

  /** `createMedicineOnly` / `createMedicineWithBatch`: the medicine, and its batch when asked for and complete. */
  function CreateMedicine(tb: Tables, row: ExcelRow, cats: seq<CategoryService.Category>, units: seq<UnitsService.Unit>,
                          withBatch: bool): (r: Tables)
    ensures var genericName := if row.genericName == Some("") then None else row.genericName;
      var m := Medicine(tb.nextMedicineId, row.name, genericName,
                        Reference(row.categoryId, CategoryService.IndexOfId(cats, row.categoryId).Some?),
                        Reference(row.unitId, UnitsService.IndexOfId(units, row.unitId).Some?),
                        row.price, row.supplier, None);
      r.meds == tb.meds + [m] && r.nextMedicineId == tb.nextMedicineId + 1
    ensures withBatch && BatchComplete(row) ==>
      && r.bs == tb.bs + [Batch(tb.nextBatchId, tb.nextMedicineId, row.batchNumber.value, row.quantity.value, row.expiry.value)]
      && r.nextBatchId == tb.nextBatchId + 1
    ensures !(withBatch && BatchComplete(row)) ==> r.bs == tb.bs && r.nextBatchId == tb.nextBatchId
  {
    var genericName := if row.genericName == Some("") then None else row.genericName;
    var m := Medicine(tb.nextMedicineId, row.name, genericName,
                      Reference(row.categoryId, CategoryService.IndexOfId(cats, row.categoryId).Some?),
                      Reference(row.unitId, UnitsService.IndexOfId(units, row.unitId).Some?),
                      row.price, row.supplier, None);
    var tb' := tb.(meds := tb.meds + [m], nextMedicineId := tb.nextMedicineId + 1);
    if withBatch && BatchComplete(row) then
      tb'.(bs := tb.bs + [Batch(tb.nextBatchId, m.id, row.batchNumber.value, row.quantity.value, row.expiry.value)],
           nextBatchId := tb.nextBatchId + 1)
    else tb'
  }

  /** `addBatchToExistingMedicine`: a complete batch for the medicine of exactly that name. */
  function AddBatch(tb: Tables, row: ExcelRow): (r: (Tables, Landing))
    ensures !BatchComplete(row) ==> r == (tb, Failed(row.name, BatchIncomplete))
    ensures BatchComplete(row) && FindByName(tb.meds, row.name).None? ==> r == (tb, Failed(row.name, NoSuchMedicine(row.name)))
    ensures BatchComplete(row) && FindByName(tb.meds, row.name).Some? ==>
      var m := tb.meds[FindByName(tb.meds, row.name).value];
      r == (tb.(bs := tb.bs + [Batch(tb.nextBatchId, m.id, row.batchNumber.value, row.quantity.value, row.expiry.value)],
                nextBatchId := tb.nextBatchId + 1),
            Updated(row.name))
  {
    if !BatchComplete(row) then (tb, Failed(row.name, BatchIncomplete))
    else
      var found := FindByName(tb.meds, row.name);
      if found.None? then (tb, Failed(row.name, NoSuchMedicine(row.name)))
      else
        var b := Batch(tb.nextBatchId, tb.meds[found.value].id, row.batchNumber.value, row.quantity.value, row.expiry.value);
        (tb.(bs := tb.bs + [b], nextBatchId := tb.nextBatchId + 1), Updated(row.name))
  }

  /** One pass of the loop of `confirmImport`. */
  function ImportRow(tb: Tables, row: ExcelRow, t: ImportType, names: set<string>,
                     cats: seq<CategoryService.Category>, units: seq<UnitsService.Unit>): (r: (Tables, Landing))
  {
    var known := Text.Lower(row.name) in names;
    match t
    case MedicineAndBatch =>
      if known then AddBatch(tb, row) else (CreateMedicine(tb, row, cats, units, true), Created(row.name))
    case MedicineOnly =>
      if !known then (CreateMedicine(tb, row, cats, units, false), Created(row.name)) else (tb, Skipped)
    case BatchOnly =>
      if known then AddBatch(tb, row) else (tb, Skipped)
  }

  /** A row is skipped exactly when its type does not apply to it: a known medicine-only row or an unknown batch-only row. */
  lemma SkippedIff(tb: Tables, row: ExcelRow, t: ImportType, names: set<string>,
                   cats: seq<CategoryService.Category>, units: seq<UnitsService.Unit>)
    ensures ImportRow(tb, row, t, names, cats, units).1 == Skipped <==>
      (t == MedicineOnly && Text.Lower(row.name) in names) || (t == BatchOnly && Text.Lower(row.name) !in names)
    ensures ImportRow(tb, row, t, names, cats, units).1 == Skipped ==> ImportRow(tb, row, t, names, cats, units).0 == tb
  {
  }

  /** A row the name set knows but whose exact name no medicine holds (it differs only in case) lands in the errors. */
  lemma CaseMismatchFails(tb: Tables, row: ExcelRow, t: ImportType, names: set<string>,
                          cats: seq<CategoryService.Category>, units: seq<UnitsService.Unit>)
    requires t != MedicineOnly && Text.Lower(row.name) in names && BatchComplete(row)
    requires forall m :: m in tb.meds ==> m.name != row.name
    ensures ImportRow(tb, row, t, names, cats, units) == (tb, Failed(row.name, NoSuchMedicine(row.name)))
  {
    assert forall k :: 0 <= k < |tb.meds| ==> tb.meds[k] in tb.meds;
  }

  // ------------------------------------------------------------ all rows

  datatype Progress = Progress(tables: Tables, landings: seq<Landing>)

  /** The rows processed one after another, each seeing the tables the earlier ones left. */
  function ImportAll(tb: Tables, rows: seq<ExcelRow>, t: ImportType, names: set<string>,
                     cats: seq<CategoryService.Category>, units: seq<UnitsService.Unit>): (r: Progress)
    ensures |r.landings| == |rows|
  {
    if rows == [] then Progress(tb, [])
    else
      var p := ImportAll(tb, rows[..|rows| - 1], t, names, cats, units);
      var step := ImportRow(p.tables, rows[|rows| - 1], t, names, cats, units);
      Progress(step.0, p.landings + [step.1])
  }

  /** A medicine-only import never touches the batch table and never fails. */
  lemma {:induction false} MedicineOnlyWritesNoBatch(tb: Tables, rows: seq<ExcelRow>, names: set<string>,
                                                     cats: seq<CategoryService.Category>, units: seq<UnitsService.Unit>)
    ensures ImportAll(tb, rows, MedicineOnly, names, cats, units).tables.bs == tb.bs
    ensures forall l :: l in ImportAll(tb, rows, MedicineOnly, names, cats, units).landings ==> !l.Failed?
  {
    if rows != [] {
      MedicineOnlyWritesNoBatch(tb, rows[..|rows| - 1], names, cats, units);
    }
  }

  /** A batch-only import never creates a medicine. */
  lemma {:induction false} BatchOnlyCreatesNoMedicine(tb: Tables, rows: seq<ExcelRow>, names: set<string>,
                                                      cats: seq<CategoryService.Category>, units: seq<UnitsService.Unit>)
    ensures ImportAll(tb, rows, BatchOnly, names, cats, units).tables.meds == tb.meds
    ensures forall l :: l in ImportAll(tb, rows, BatchOnly, names, cats, units).landings ==> !l.Created?
  {
    if rows != [] {
      BatchOnlyCreatesNoMedicine(tb, rows[..|rows| - 1], names, cats, units);
    }
  }

  /**
   * The name set is not refreshed inside the loop: of two medicine-only rows
   * with the same new name, the second is not skipped but goes down the
   * creation path again.
   */
  lemma NamesComputedOnce(tb: Tables, row: ExcelRow, names: set<string>,
                          cats: seq<CategoryService.Category>, units: seq<UnitsService.Unit>)
    requires Text.Lower(row.name) !in names
    ensures ImportAll(tb, [row, row], MedicineOnly, names, cats, units).landings[1] != Skipped
  {
    assert [row, row][..1] == [row];
    assert [row][..0] == [];
  }

  // ------------------------------------------------------------ report

  datatype ImportFailure = ImportFailure(name: string, error: RowError)

  /** `results`: the names created, the names updated and the failures, each in row order. */
  datatype ImportReport = ImportReport(created: seq<string>, updated: seq<string>, errors: seq<ImportFailure>)

  function Record(rep: ImportReport, l: Landing): ImportReport
  {
    match l
    case Created(n) => rep.(created := rep.created + [n])
    case Updated(n) => rep.(updated := rep.updated + [n])
    case Failed(n, e) => rep.(errors := rep.errors + [ImportFailure(n, e)])
    case Skipped => rep
  }

  function Skips(ls: seq<Landing>): (r: nat)
    ensures r <= |ls|
  {
    if ls == [] then 0 else Skips(ls[..|ls| - 1]) + (if ls[|ls| - 1] == Skipped then 1 else 0)
  }

  function ReportOf(ls: seq<Landing>): (r: ImportReport)
  {
    if ls == [] then ImportReport([], [], []) else Record(ReportOf(ls[..|ls| - 1]), ls[|ls| - 1])
  }

  /** Each row lands in exactly one list of the report, or is skipped. */
  lemma {:induction false} ReportCounts(ls: seq<Landing>)
    ensures |ReportOf(ls).created| + |ReportOf(ls).updated| + |ReportOf(ls).errors| + Skips(ls) == |ls|
  {
    if ls != [] {
      ReportCounts(ls[..|ls| - 1]);
    }
  }

  // ------------------------------------------------------------ confirmImport

  /** What the cache holds under the key: nothing, text that is not rows, or the rows. */
  datatype CacheEntry = Missing | Malformed | Cached(rows: seq<ExcelRow>)

  datatype ConfirmError =
    | CacheNotFound       // "Cache data not found or expired"
    | InvalidCache        // "Invalid cache data format"

  function TablesOf(meds: seq<Medicine>, bs: seq<Batch>, nextMedicineId: int, nextBatchId: int): Tables
  {
    Tables(meds, bs, nextMedicineId, nextBatchId)
  }

  /** The loop's state after the first `i` selected rows. */
  ghost predicate ImportedSoFar(tb: Tables, tb0: Tables, rows: seq<ExcelRow>, t: ImportType, names: set<string>,
                                cats: seq<CategoryService.Category>, units: seq<UnitsService.Unit>, i: nat, rep: ImportReport)
  {
    i <= |rows| &&
    var p := ImportAll(tb0, rows[..i], t, names, cats, units);
    tb == p.tables && rep == ReportOf(p.landings)
  }

  /** Every table the import writes keeps its identity column consistent. */
  ghost predicate TablesConsistent(tb: Tables)
  {
    1 <= tb.nextMedicineId && 1 <= tb.nextBatchId &&
    MedicineIdsFresh(tb.meds, tb.nextMedicineId) && BatchIdsFresh(tb.bs, tb.nextBatchId)
  }

  lemma ImportRowKeepsConsistent(tb: Tables, row: ExcelRow, t: ImportType, names: set<string>,
                                 cats: seq<CategoryService.Category>, units: seq<UnitsService.Unit>)
    requires TablesConsistent(tb)
    ensures TablesConsistent(ImportRow(tb, row, t, names, cats, units).0)
  {
    var r := ImportRow(tb, row, t, names, cats, units).0;
    if r.meds != tb.meds {
      AppendMedicineKeepsFresh(tb.meds, r.meds[|r.meds| - 1], tb.nextMedicineId);
      assert r.meds == tb.meds + [r.meds[|r.meds| - 1]];
    }
    if r.bs != tb.bs {
      AppendBatchKeepsFresh(tb.bs, r.bs[|r.bs| - 1], tb.nextBatchId);
      assert r.bs == tb.bs + [r.bs[|r.bs| - 1]];
    }
  }

  /** One more row: the import of the first `i + 1` rows extends that of the first `i`. */
  lemma ImportAllStep(tb0: Tables, rows: seq<ExcelRow>, t: ImportType, names: set<string>,
                      cats: seq<CategoryService.Category>, units: seq<UnitsService.Unit>, i: nat)
    requires i < |rows|
    ensures var p := ImportAll(tb0, rows[..i], t, names, cats, units);
      var step := ImportRow(p.tables, rows[i], t, names, cats, units);
      var q := ImportAll(tb0, rows[..i + 1], t, names, cats, units);
      q.tables == step.0 && ReportOf(q.landings) == Record(ReportOf(p.landings), step.1)
  {
    assert rows[..i + 1][..i] == rows[..i];
    var p := ImportAll(tb0, rows[..i], t, names, cats, units);
    var q := ImportAll(tb0, rows[..i + 1], t, names, cats, units);
    assert q.landings[..|q.landings| - 1] == p.landings;
  }

  method ImportRows(db: Database, rows: seq<ExcelRow>, t: ImportType, names: set<string>,
                    cats: seq<CategoryService.Category>, units: seq<UnitsService.Unit>) returns (rep: ImportReport)
    requires db.Valid()
    modifies db
    ensures db.Valid()
    ensures var p := ImportAll(TablesOf(old(db.medicines), old(db.batches), old(db.nextMedicineId), old(db.nextBatchId)),
                               rows, t, names, cats, units);
      TablesOf(db.medicines, db.batches, db.nextMedicineId, db.nextBatchId) == p.tables && rep == ReportOf(p.landings)
    ensures db.logs == old(db.logs) && db.receipts == old(db.receipts) && db.receiptItems == old(db.receiptItems)
    ensures db.users == old(db.users) && db.nextReceiptId == old(db.nextReceiptId)
  {
    var tb := TablesOf(db.medicines, db.batches, db.nextMedicineId, db.nextBatchId);
    ghost var tb0 := tb;
    rep := ImportReport([], [], []);
    var i := 0;
    assert rows[..0] == [];
    while i < |rows|
      invariant ImportedSoFar(tb, tb0, rows, t, names, cats, units, i, rep)
      invariant TablesConsistent(tb)
      modifies {}
    {
      var step := ImportRow(tb, rows[i], t, names, cats, units);
      ImportRowKeepsConsistent(tb, rows[i], t, names, cats, units);
      ImportAllStep(tb0, rows, t, names, cats, units, i);
      tb := step.0;
      rep := Record(rep, step.1);
      i := i + 1;
    }
    assert rows[..i] == rows;
    db.medicines, db.batches, db.nextMedicineId, db.nextBatchId := tb.meds, tb.bs, tb.nextMedicineId, tb.nextBatchId;
  }

  /**
   * `confirmImport`: a missing or unreadable cache entry fails before any
   * write; otherwise the selected rows are imported against the names that
   * existed when the confirmation began. No stock log is written.
   */
  method ConfirmImport(db: Database, cats: CategoryService.CategoryTable, units: UnitsService.UnitTable,
                       t: ImportType, selectedRows: seq<int>, cache: CacheEntry) returns (r: Result<ImportReport, ConfirmError>)
    requires db.Valid()
    modifies db
    ensures db.Valid()
    ensures db.logs == old(db.logs) && db.receipts == old(db.receipts) && db.receiptItems == old(db.receiptItems)
    ensures db.users == old(db.users) && db.nextReceiptId == old(db.nextReceiptId)
    ensures cache.Missing? ==> r == Failure(CacheNotFound) && db.medicines == old(db.medicines) && db.batches == old(db.batches)
    ensures cache.Malformed? ==> r == Failure(InvalidCache) && db.medicines == old(db.medicines) && db.batches == old(db.batches)
    ensures cache.Cached? ==>
      var p := ImportAll(TablesOf(old(db.medicines), old(db.batches), old(db.nextMedicineId), old(db.nextBatchId)),
                         Select(cache.rows, selectedRows), t, ExistingNames(old(db.medicines)), cats.rows, units.rows);
      && TablesOf(db.medicines, db.batches, db.nextMedicineId, db.nextBatchId) == p.tables
      && r == Success(ReportOf(p.landings))
  {
    if cache.Missing? {
      return Failure(CacheNotFound);
    }
    if cache.Malformed? {
      return Failure(InvalidCache);
    }
    var selected := Select(cache.rows, selectedRows);
    var names := ExistingNames(db.medicines);
    var rep := ImportRows(db, selected, t, names, cats.rows, units.rows);
    r := Success(rep);
  }
}
