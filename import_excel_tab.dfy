/**
 * The spreadsheet import tab (`ImportExcelTab`): the file check, the preview
 * rows and their selection, the confirm guard, and the template it offers
 * for download.
 */
module ImportExcelTab {
  import opened Wrappers
  import Text
  import Lists
  import ImportExcelService
  import ExcelPreviewTable

  type ImportType = ImportExcelService.ImportType
  type PreviewRow = ExcelPreviewTable.PreviewRow

  // ---------------------------------------------------------------- the file

  /** The chosen file's MIME type and name. */
  datatype FileInfo = FileInfo(mimeType: string, name: string)

  /** `handleFileSelect`'s test: a spreadsheet MIME type or a spreadsheet extension. */
  predicate Accepted(f: Option<FileInfo>)
  {
    f.Some? &&
    (Text.Includes(f.value.mimeType, "spreadsheet") || Text.EndsWith(f.value.name, ".xlsx") ||
     Text.EndsWith(f.value.name, ".xls") || Text.EndsWith(f.value.name, ".csv"))
  }

  /** A `.csv` file is accepted whatever its MIME type; no file never is. */
  lemma CsvAccepted(mimeType: string, stem: string)
    ensures Accepted(Some(FileInfo(mimeType, stem + ".csv")))
    ensures !Accepted(None)
  {
    var name := stem + ".csv";
    assert name[|name| - 4..] == ".csv";
  }

  // ---------------------------------------------------------------- the selection

  /** Every row's `selected` flag tells whether its index is selected. */
  predicate Marked(rows: seq<PreviewRow>, selected: seq<int>)
  {
    forall k :: 0 <= k < |rows| ==> rows[k].selected == (rows[k].index in selected)
  }

  /** The rows with their flags set from the selection; nothing else changes. */
  function MarkedBy(rows: seq<PreviewRow>, selected: seq<int>): (r: seq<PreviewRow>)
    ensures |r| == |rows| && Marked(r, selected)
    ensures forall k :: 0 <= k < |rows| ==> r[k] == rows[k].(selected := rows[k].index in selected)
  {
    seq(|rows|, k requires 0 <= k < |rows| => rows[k].(selected := rows[k].index in selected))
  }

  /** The rows with every flag set to `flag`. */
  function AllSetTo(rows: seq<PreviewRow>, flag: bool): (r: seq<PreviewRow>)
    ensures |r| == |rows|
    ensures forall k :: 0 <= k < |rows| ==> r[k] == rows[k].(selected := flag)
  {
    seq(|rows|, k requires 0 <= k < |rows| => rows[k].(selected := flag))
  }

  /** The rows' indices, in row order. */
  function Indices(rows: seq<PreviewRow>): (r: seq<int>)
    ensures |r| == |rows|
    ensures forall k :: 0 <= k < |rows| ==> r[k] == rows[k].index
  {
    seq(|rows|, k requires 0 <= k < |rows| => rows[k].index)
  }

  /** `handleSelectAll`: clear a selection as large as the rows, otherwise select every row. */
  function SelectAll(rows: seq<PreviewRow>, selected: seq<int>): (r: (seq<int>, seq<PreviewRow>))
    ensures |selected| == |rows| ==> r.0 == [] && r.1 == AllSetTo(rows, false)
    ensures |selected| != |rows| ==> (forall k :: 0 <= k < |rows| ==> rows[k].index in r.0) && r.1 == AllSetTo(rows, true)
    ensures Lists.Distinct(r.0) && Marked(r.1, r.0)
    ensures forall i :: i in r.0 ==> i in Indices(rows)
  {
    if |selected| == |rows| then ([], AllSetTo(rows, false))
    else
      var all := Lists.Dedup(Indices(rows));
      assert forall k :: 0 <= k < |rows| ==> rows[k].index == Indices(rows)[k];
      (all, AllSetTo(rows, true))
  }

  /** `ConfirmImportPayload`. */
  datatype ConfirmPayload = ConfirmPayload(importType: ImportType, selectedRows: seq<int>, cacheKey: string)

  /** `handleConfirmImport`: nothing is sent for an empty selection. */
  function ConfirmRequest(importType: ImportType, selected: seq<int>, cacheKey: string): (r: Option<ConfirmPayload>)
    ensures r.None? <==> selected == []
    ensures r.Some? ==> r.value.selectedRows == selected && r.value.importType == importType && r.value.cacheKey == cacheKey
  {
    if |selected| == 0 then None else Some(ConfirmPayload(importType, selected, cacheKey))
  }

  datatype Step = SelectFile | Preview | Result

  class Tab {
    var importType: ImportType
    var file: Option<FileInfo>
    var cacheKey: string
    var previewData: seq<PreviewRow>
    var selectedRows: seq<int>
    var step: Step
    var result: Option<ImportExcelService.ImportReport>

    /** The selection is a set, and the rows' flags agree with it. */
    ghost predicate Valid()
      reads this
    {
      Lists.Distinct(selectedRows) && Marked(previewData, selectedRows)
    }

    constructor ()
      ensures Valid()
      ensures importType == ImportExcelService.MedicineAndBatch && file.None? && cacheKey == ""
      ensures previewData == [] && selectedRows == [] && step == SelectFile && result.None?
    {
      importType := ImportExcelService.MedicineAndBatch;
      file, cacheKey, previewData, selectedRows, step, result := None, "", [], [], SelectFile, None;
    }

    /** `handleFileSelect`: an accepted file is kept; anything else raises the alert and changes nothing. */
    method HandleFileSelect(f: Option<FileInfo>) returns (alert: bool)
      requires Valid()
      modifies this
      ensures Valid()
      ensures alert <==> !Accepted(f)
      ensures file == if Accepted(f) then f else old(file)
      ensures importType == old(importType) && cacheKey == old(cacheKey) && previewData == old(previewData)
      ensures selectedRows == old(selectedRows) && step == old(step) && result == old(result)
    {
      if Accepted(f) {
        file := f;
        alert := false;
      } else {
        alert := true;
      }
    }

    /** The import-type radio buttons. */
    method SetImportType(t: ImportType)
      requires Valid()
      modifies this
      ensures Valid()
      ensures importType == t && file == old(file) && cacheKey == old(cacheKey) && previewData == old(previewData)
      ensures selectedRows == old(selectedRows) && step == old(step) && result == old(result)
    {
      importType := t;
    }

    /** `handleUpload`: the file and type to post to the parse endpoint; nothing without a file. */
    method HandleUpload() returns (request: Option<(FileInfo, ImportType)>)
      requires Valid()
      ensures request.None? <==> file.None?
      ensures request.Some? ==> request.value == (file.value, importType)
    {
      if file.None? {
        request := None;
      } else {
        request := Some((file.value, importType));
      }
    }

    /** The parse endpoint answered: its rows are shown, none selected. */
    method Parsed(key: string, rows: seq<PreviewRow>)
      requires Valid()
      modifies this
      ensures Valid()
      ensures cacheKey == key && previewData == AllSetTo(rows, false) && selectedRows == [] && step == Preview
      ensures importType == old(importType) && file == old(file) && result == old(result)
    {
      cacheKey := key;
      previewData := AllSetTo(rows, false);
      selectedRows := [];
      step := Preview;
    }

    /** The preview's "Back" button: back to the file step with no rows, key or selection. */
    method Back()
      requires Valid()
      modifies this
      ensures Valid()
      ensures step == SelectFile && previewData == [] && cacheKey == "" && selectedRows == []
      ensures importType == old(importType) && file == old(file) && result == old(result)
    {
      step, previewData, cacheKey, selectedRows := SelectFile, [], "", [];
    }

    /** `handleRowSelection`: that index's membership flips and the flags follow. */
    method HandleRowSelection(index: int)
      requires Valid()
      modifies this
      ensures Valid()
      ensures selectedRows == Lists.Toggle(old(selectedRows), index)
      ensures index in selectedRows <==> index !in old(selectedRows)
      ensures previewData == MarkedBy(old(previewData), selectedRows)
      ensures importType == old(importType) && file == old(file) && cacheKey == old(cacheKey)
      ensures step == old(step) && result == old(result)
    {
      Lists.ToggleKeepsDistinct(selectedRows, index);
      selectedRows := Lists.Toggle(selectedRows, index);
      previewData := MarkedBy(previewData, selectedRows);
    }

    /** `handleSelectAll`. */
    method HandleSelectAll()
      requires Valid()
      modifies this
      ensures Valid()
      ensures (selectedRows, previewData) == SelectAll(old(previewData), old(selectedRows))
      ensures importType == old(importType) && file == old(file) && cacheKey == old(cacheKey)
      ensures step == old(step) && result == old(result)
    {
      var r := SelectAll(previewData, selectedRows);
      selectedRows, previewData := r.0, r.1;
    }

    /** `handleConfirmImport`: the request to send, if any; the indices go in selection order, each once. */
    method HandleConfirm() returns (request: Option<ConfirmPayload>)
      requires Valid()
      ensures request == ConfirmRequest(importType, selectedRows, cacheKey)
      ensures request.Some? ==> Lists.Distinct(request.value.selectedRows)
    {
      request := ConfirmRequest(importType, selectedRows, cacheKey);
    }

    /** The confirm endpoint answered: its report is shown. */
    method Imported(report: ImportExcelService.ImportReport)
      requires Valid()
      modifies this
      ensures Valid()
      ensures result == Some(report) && step == Result
      ensures importType == old(importType) && file == old(file) && cacheKey == old(cacheKey)
      ensures previewData == old(previewData) && selectedRows == old(selectedRows)
    {
      result := Some(report);
      step := Result;
    }
  }

  // ---------------------------------------------------------------- the template

  /** A template cell: text or a number. */
  datatype Value = Str(s: string) | Num(n: int)

  /** The template's header line, per import type. */
  function Headers(t: ImportType): (r: seq<string>)
    ensures |r| == match t case MedicineAndBatch => 9 case MedicineOnly => 6 case BatchOnly => 4
    ensures Lists.Distinct(r)
  {
    match t
    case MedicineAndBatch =>
      ["name", "generic_name", "category", "unit", "price", "supplier", "batch_number", "quantity", "expiry_date"]
    case MedicineOnly => ["name", "generic_name", "category", "unit", "price", "supplier"]
    case BatchOnly => ["medicine_name", "batch_number", "quantity", "expiry_date"]
  }

  /** The one example row, per import type; the price 3.5 is carried as its printed form. */
  function Example(t: ImportType): map<string, Value>
  {
    match t
    case MedicineAndBatch =>
      map["name" := Str("Lisinopril"), "generic_name" := Str("Lisinopril"), "category" := Str("Antihypertensive"),
          "unit" := Str("tablet"), "price" := Str("3.5"), "supplier" := Str("Pharma Corp"),
          "batch_number" := Str("BATCH001"), "quantity" := Num(100), "expiry_date" := Str("2025-12-31")]
    case MedicineOnly =>
      map["name" := Str("Lisinopril"), "generic_name" := Str("Lisinopril"), "category" := Str("Antihypertensive"),
          "unit" := Str("tablet"), "price" := Str("3.5"), "supplier" := Str("Pharma Corp")]
    case BatchOnly =>
      map["medicine_name" := Str("Lisinopril"), "batch_number" := Str("BATCH001"), "quantity" := Num(100),
          "expiry_date" := Str("2025-12-31")]
  }

  /** `row[header] || ""`: a missing or falsy value (`0`, `""`) is an empty field. */
  function FieldText(v: Option<Value>): (r: string)
    ensures v.None? || v == Some(Num(0)) || v == Some(Str("")) ==> r == ""
    ensures v.Some? && v.value.Str? ==> r == v.value.s
    ensures v.Some? && v.value.Num? && v.value.n != 0 ==> r == Text.IntToString(v.value.n)
  {
    if v.None? then ""
    else match v.value
      case Str(s) => s
      case Num(n) => if n == 0 then "" else Text.IntToString(n)
  }

  /** The example row's fields, in header order. */
  function Cells(headers: seq<string>, row: map<string, Value>): (r: seq<string>)
    ensures |r| == |headers|
    ensures forall k :: 0 <= k < |headers| ==> r[k] == FieldText(if headers[k] in row then Some(row[headers[k]]) else None)
  {
    seq(|headers|, k requires 0 <= k < |headers| => FieldText(if headers[k] in row then Some(row[headers[k]]) else None))
  }

  function HeaderLine(t: ImportType): string
  {
    Text.Join(Headers(t), ",")
  }

  function ExampleLine(t: ImportType): string
  {
    Text.Join(Cells(Headers(t), Example(t)), ",")
  }

  /** The downloaded CSV: the header line, then the example line. */
  function Csv(t: ImportType): string
  {
    Text.Join([HeaderLine(t), ExampleLine(t)], "\n")
  }

  lemma NoSeparators(parts: seq<string>, c: char)
    requires forall k :: 0 <= k < |parts| ==> c !in parts[k]
    requires c != ','
    ensures c !in Text.Join(parts, ",")
    decreases |parts|
  {
    if |parts| > 1 {
      NoSeparators(parts[1..], c);
    }
  }

  /** The example row's fields, as they print. */
  function ExampleFields(t: ImportType): seq<string>
  {
    match t
    case MedicineAndBatch => ["Lisinopril", "Lisinopril", "Antihypertensive", "tablet", "3.5", "Pharma Corp", "BATCH001", "100", "2025-12-31"]
    case MedicineOnly => ["Lisinopril", "Lisinopril", "Antihypertensive", "tablet", "3.5", "Pharma Corp"]
    case BatchOnly => ["Lisinopril", "BATCH001", "100", "2025-12-31"]
  }

  /** Each example field is the value stored under its header, with a number in decimal. */
  lemma ExampleCells(t: ImportType)
    ensures Cells(Headers(t), Example(t)) == ExampleFields(t)
  {
    assert Text.IntToString(100) == "100" by {
      assert Text.NatToString(1) == "1";
      assert Text.NatToString(10) == "10";
    }
    var h := Headers(t);
    var e := Example(t);
    match t
    case MedicineAndBatch =>
      assert e["name"] == Str("Lisinopril") && e["generic_name"] == Str("Lisinopril");
      assert e["category"] == Str("Antihypertensive") && e["unit"] == Str("tablet");
      assert e["price"] == Str("3.5") && e["supplier"] == Str("Pharma Corp");
      assert e["batch_number"] == Str("BATCH001") && e["quantity"] == Num(100) && e["expiry_date"] == Str("2025-12-31");
    case MedicineOnly =>
      assert e["name"] == Str("Lisinopril") && e["generic_name"] == Str("Lisinopril");
      assert e["category"] == Str("Antihypertensive") && e["unit"] == Str("tablet");
      assert e["price"] == Str("3.5") && e["supplier"] == Str("Pharma Corp");
    case BatchOnly =>
      assert e["medicine_name"] == Str("Lisinopril") && e["batch_number"] == Str("BATCH001");
      assert e["quantity"] == Num(100) && e["expiry_date"] == Str("2025-12-31");
  }

  /** The example fields hold neither a comma nor a line break. */
  lemma FieldsPlain(t: ImportType, c: char)
    requires c == ',' || c == '\n'
    ensures forall k :: 0 <= k < |ExampleFields(t)| ==> c !in ExampleFields(t)[k]
  {
  }

  /** Neither do the headers. */
  lemma HeadersPlain(t: ImportType, c: char)
    requires c == ',' || c == '\n'
    ensures forall k :: 0 <= k < |Headers(t)| ==> c !in Headers(t)[k]
  {
  }

  /** Two comma-joined lines of plain fields, joined by a line break, read back field by field. */
  lemma TwoLinesReadBack(hs: seq<string>, cs: seq<string>)
    requires |hs| > 0 && |cs| > 0
    requires forall k :: 0 <= k < |hs| ==> ',' !in hs[k] && '\n' !in hs[k]
    requires forall k :: 0 <= k < |cs| ==> ',' !in cs[k] && '\n' !in cs[k]
    ensures Text.Split(Text.Join([Text.Join(hs, ","), Text.Join(cs, ",")], "\n"), '\n') == [Text.Join(hs, ","), Text.Join(cs, ",")]
    ensures Text.Split(Text.Join(hs, ","), ',') == hs
    ensures Text.Split(Text.Join(cs, ","), ',') == cs
  {
    Text.SplitJoin(hs, ',');
    Text.SplitJoin(cs, ',');
    NoSeparators(hs, '\n');
    NoSeparators(cs, '\n');
    Text.SplitJoin([Text.Join(hs, ","), Text.Join(cs, ",")], '\n');
  }

  /**
   * The CSV reads back as two lines; splitting them at commas gives the
   * headers and, in the same order, the example row's fields.
   */
  lemma CsvReadsBack(t: ImportType)
    ensures Text.Split(Csv(t), '\n') == [HeaderLine(t), ExampleLine(t)]
    ensures Text.Split(HeaderLine(t), ',') == Headers(t)
    ensures Text.Split(ExampleLine(t), ',') == Cells(Headers(t), Example(t))
  {
    ExampleCells(t);
    FieldsPlain(t, ',');
    FieldsPlain(t, '\n');
    HeadersPlain(t, ',');
    HeadersPlain(t, '\n');
    TwoLinesReadBack(Headers(t), ExampleFields(t));
  }
}
