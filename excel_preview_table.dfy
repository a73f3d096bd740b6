/**
 * The preview of a parsed spreadsheet (`ExcelPreviewTable`): which columns
 * each import type shows, what each cell prints, each row's status badge,
 * and the error and valid counts.
 */
module ExcelPreviewTable {
  import opened Wrappers
  import Text
  import Lists
  import ImportExcelService

  /**
   * A preview row as the parse endpoint returns it: the projected fields,
   * its position in the cached array, and the flags the page keeps.
   * `price` is carried as its printed form; `errorFields` are the keys of
   * `validationErrors`.
   */
  datatype PreviewRow = PreviewRow(
    index: int,
    name: string,
    genericName: Option<string>,
    categoryId: int,
    unitId: Option<int>,
    price: Option<string>,
    supplier: Option<string>,
    batchNumber: Option<string>,
    quantity: Option<int>,
    expiryDate: Option<string>,
    hasError: bool,
    errorFields: set<string>,
    isExists: bool,
    selected: bool)

  datatype Column = Name | CategoryId | GenericName | Unit | Supplier | Price | BatchNumber | Quantity | ExpiryDate

  /** The key each column reads from the row. */
  function Key(c: Column): string
  {
    match c
    case Name => "name"
    case CategoryId => "categoryId"
    case GenericName => "generic_name"
    case Unit => "unit"
    case Supplier => "supplier"
    case Price => "price"
    case BatchNumber => "batch_number"
    case Quantity => "quantity"
    case ExpiryDate => "expiry_date"
  }

  /** `getColumnLabel`. */
  function Label(c: Column): string
  {
    match c
    case Name => "Medicine Name"
    case CategoryId => "Category ID"
    case GenericName => "Generic Name"
    case Unit => "Unit"
    case Supplier => "Supplier"
    case Price => "Price"
    case BatchNumber => "Batch Number"
    case Quantity => "Quantity"
    case ExpiryDate => "Expiry Date"
  }

  /** Columns that only the medicine import types show. */
  predicate MedicineColumn(c: Column)
  {
    c == GenericName || c == Unit || c == Supplier || c == Price
  }

  /** Columns that only the batch import types show. */
  predicate BatchColumn(c: Column)
  {
    c == BatchNumber || c == Quantity || c == ExpiryDate
  }

  /** `getVisibleColumns`. */
  function VisibleColumns(t: ImportExcelService.ImportType): (r: seq<Column>)
    ensures |r| >= 2 && r[..2] == [Name, CategoryId]
    ensures |r| == match t case MedicineAndBatch => 9 case MedicineOnly => 6 case BatchOnly => 5
    ensures Lists.Distinct(r)
    ensures forall c :: c in r <==>
      c == Name || c == CategoryId ||
      (MedicineColumn(c) && ImportExcelService.HasMedicineFields(t)) ||
      (BatchColumn(c) && ImportExcelService.HasBatchFields(t))
  {
    var base := [Name, CategoryId];
    var withMedicine := if ImportExcelService.HasMedicineFields(t) then base + [GenericName, Unit, Supplier, Price] else base;
    if ImportExcelService.HasBatchFields(t) then withMedicine + [BatchNumber, Quantity, ExpiryDate] else withMedicine
  }

  /** Whether the projected backend row still has the field a column shows. */
  predicate Kept(row: ImportExcelService.ExcelRow, c: Column)
  {
    match c
    case GenericName => row.genericName.Some?
    case Supplier => row.supplier.Some?
    case Price => row.price.Some?
    case BatchNumber => row.batchNumber.Some?
    case Quantity => row.quantity.Some?
    case ExpiryDate => row.expiry.Some?
    case _ => true
  }

  /**
   * A column the table hides is a field the import type's projection has
   * dropped, except the unit: every projection keeps `unitId`, but only the
   * medicine import types show it.
   */
  lemma HiddenColumnsAreProjectedAway(row: ImportExcelService.ExcelRow, t: ImportExcelService.ImportType, c: Column)
    requires c !in VisibleColumns(t) && c != Unit
    ensures !Kept(ImportExcelService.Project(row, t), c)
  {
  }

  /** The price prefix as the file spells it: the three characters `à`, `¸`, `¿`. */
  const PricePrefix := "\U{E0}\U{B8}\U{BF}"

  /** The row's value for a column as `row[column]` reads it; the row has no `unit` key. */
  function FieldAsWritten(row: PreviewRow, c: Column): (r: Option<string>)
    ensures c == Unit ==> r.None?
    ensures c == Name ==> r == Some(row.name)
  {
    match c
    case Name => Some(row.name)
    case CategoryId => Some(Text.IntToString(row.categoryId))
    case GenericName => row.genericName
    case Unit => None
    case Supplier => row.supplier
    case Price => row.price
    case BatchNumber => row.batchNumber
    case Quantity => if row.quantity.Some? then Some(Text.IntToString(row.quantity.value)) else None
    case ExpiryDate => row.expiryDate
  }

  /** The row's value for a column, the unit column reading the row's `unitId`. */
  function Field(row: PreviewRow, c: Column): (r: Option<string>)
    ensures c != Unit ==> r == FieldAsWritten(row, c)
    ensures c == Unit ==> (r.Some? <==> row.unitId.Some?)
  {
    if c == Unit then
      if row.unitId.Some? then Some(Text.IntToString(row.unitId.value)) else None
    else FieldAsWritten(row, c)
  }

  /** `getCellValue`: "-" for a missing value, the prefix before a price, the value otherwise. */
  function CellText(value: Option<string>, c: Column): (r: string)
    ensures value.None? ==> r == "-"
    ensures value.Some? && c == Price ==> r == PricePrefix + value.value
    ensures value.Some? && c != Price ==> r == value.value
  {
    if value.None? then "-" else if c == Price then PricePrefix + value.value else value.value
  }

  /** As written, the unit column prints "-" on every row, even one with a unit. */
  lemma UnitColumnAlwaysDash(row: PreviewRow)
    ensures CellText(FieldAsWritten(row, Unit), Unit) == "-"
  {
  }

  /** Read through `unitId`, a row with a unit shows it, and the other columns print as before. */
  lemma UnitColumnShowsUnit(row: PreviewRow, c: Column)
    requires row.unitId.Some?
    ensures c == Unit ==> CellText(Field(row, c), c) == Text.IntToString(row.unitId.value)
    ensures c != Unit ==> CellText(Field(row, c), c) == CellText(FieldAsWritten(row, c), c)
  {
  }

  datatype RowStatus = Error | Exists | New

  /** `getRowStatus`: an error outranks "exists", which outranks "new". */
  function StatusOf(row: PreviewRow): (r: RowStatus)
    ensures r == Error <==> row.hasError
    ensures r == Exists <==> !row.hasError && row.isExists
    ensures r == New <==> !row.hasError && !row.isExists
  {
    if row.hasError then Error else if row.isExists then Exists else New
  }

  /** A row with an error cannot be ticked on its own. */
  predicate CheckboxDisabled(row: PreviewRow)
  {
    row.hasError
  }

  function ErrorCount(rows: seq<PreviewRow>): (r: nat)
    ensures r <= |rows|
  {
    if rows == [] then 0 else (if rows[0].hasError then 1 else 0) + ErrorCount(rows[1..])
  }

  function ValidCount(rows: seq<PreviewRow>): (r: nat)
    ensures r <= |rows|
  {
    if rows == [] then 0 else (if rows[0].hasError then 0 else 1) + ValidCount(rows[1..])
  }

  /** Every row is counted once, as an error or as valid. */
  lemma {:induction false} CountsAddUp(rows: seq<PreviewRow>)
    ensures ErrorCount(rows) + ValidCount(rows) == |rows|
    ensures ErrorCount(rows) == 0 <==> forall k :: 0 <= k < |rows| ==> !rows[k].hasError
  {
    if rows != [] {
      CountsAddUp(rows[1..]);
      if ErrorCount(rows) == 0 {
        forall k | 0 <= k < |rows|
          ensures !rows[k].hasError
        {
          if k > 0 {
            assert rows[k] == rows[1..][k - 1];
          }
        }
      }
    }
  }

  /** The header checkbox: ticked when there are rows and as many are selected. */
  predicate AllTicked(rows: seq<PreviewRow>, selectedCount: nat)
  {
    |rows| > 0 && selectedCount == |rows|
  }
}
