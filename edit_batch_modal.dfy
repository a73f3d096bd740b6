/**
 * The edit-batch modal (`EditBatchModal`): the form is filled from the batch
 * being edited, and saving sends only the fields that differ from it.
 *
 * The expiry field is the text of an `<input type="date">`: empty, or
 * `YYYY-MM-DD`. Saving compares the picked day with the batch's current
 * local day. As written, the picked text goes through `new Date(text)`,
 * which reads a date-only string as midnight UTC, and its local day is then
 * taken: west of UTC that is the day before the one picked.
 */
module EditBatchModal {
  import opened Wrappers
  import opened Views
  import Text
  import InventoryUI

  // ---------------------------------------------------------------- calendar

  predicate Leap(year: int)
  {
    (year % 4 == 0 && year % 100 != 0) || year % 400 == 0
  }

  function DaysInMonth(year: int, month: int): (r: int)
    requires 1 <= month <= 12
    ensures 28 <= r <= 31
    ensures r == 29 <==> month == 2 && Leap(year)
  {
    if month == 2 then (if Leap(year) then 29 else 28)
    else if month == 4 || month == 6 || month == 9 || month == 11 then 30
    else 31
  }

  /** A day that exists in the proleptic Gregorian calendar. */
  predicate RealDay(d: Date)
  {
    1 <= d.month <= 12 && 1 <= d.day <= DaysInMonth(d.year, d.month)
  }

  /** The day before. */
  function PrevDay(d: Date): (r: Date)
    requires RealDay(d)
    ensures RealDay(r)
    ensures r.year == d.year || (r.year == d.year - 1 && d.month == 1 && d.day == 1 && r.month == 12 && r.day == 31)
    ensures r != d
  {
    if d.day > 1 then Date(d.year, d.month, d.day - 1)
    else if d.month > 1 then Date(d.year, d.month - 1, DaysInMonth(d.year, d.month - 1))
    else Date(d.year - 1, 12, 31)
  }

  // ---------------------------------------------------------------- the date field

  /** `String(n).padStart(2, "0")`. */
  function Pad2(s: string): (r: string)
    ensures |r| == if |s| < 2 then 2 else |s|
    ensures r[|r| - |s|..] == s
    ensures forall i :: 0 <= i < |r| - |s| ==> r[i] == '0'
  {
    if |s| == 0 then "00" else if |s| == 1 then "0" + s else s
  }

  /** The text the prefill puts in the date field: `${yyyy}-${mm}-${dd}`, or empty. */
  function DateField(expiry: Option<Stamp>): (r: string)
    ensures r == "" <==> expiry.None?
  {
    if expiry.None? then ""
    else
      var d := expiry.value.date;
      Text.IntToString(d.year) + "-" + Pad2(Text.IntToString(d.month)) + "-" + Pad2(Text.IntToString(d.day))
  }

  predicate AllDigits(s: string)
  {
    forall i :: 0 <= i < |s| ==> Text.IsDigit(s[i])
  }

  /** The day an `<input type="date">` value names: `YYYY-MM-DD` of a real day, else `None`. */
  function ReadDateField(s: string): (r: Option<Date>)
    ensures r.Some? ==> RealDay(r.value) && 0 <= r.value.year <= 9999
    ensures r.Some? ==> |s| == 10
  {
    if |s| == 10 && s[4] == '-' && s[7] == '-' && AllDigits(s[..4]) && AllDigits(s[5..7]) && AllDigits(s[8..]) then
      var d := Date(Text.DigitsValue(s[..4]), Text.DigitsValue(s[5..7]), Text.DigitsValue(s[8..]));
      DigitsBounds(s[..4]);
      if RealDay(d) then Some(d) else None
    else None
  }

  lemma {:induction false} DigitsBounds(s: string)
    requires AllDigits(s)
    ensures 0 <= Text.DigitsValue(s) < Pow10(|s|)
  {
    if s != [] {
      DigitsBounds(s[..|s| - 1]);
    }
  }

  function Pow10(n: nat): (r: nat)
    ensures r >= 1
  {
    if n == 0 then 1 else 10 * Pow10(n - 1)
  }

  /** A two-digit field reads back as the number padded into it. */
  lemma PaddedReadsBack(n: int)
    requires 1 <= n <= 99
    ensures |Pad2(Text.IntToString(n))| == 2
    ensures AllDigits(Pad2(Text.IntToString(n)))
    ensures Text.DigitsValue(Pad2(Text.IntToString(n))) == n
  {
    var s := Text.NatToString(n);
    Text.NatToStringRoundTrip(n);
    if n < 10 {
      assert s == [Text.DigitChar(n)];
      var p := Pad2(s);
      assert p == ['0', Text.DigitChar(n)];
      assert p[..1] == ['0'];
      assert Text.DigitsValue(p[..1]) == 10 * Text.DigitsValue([]) + 0;
    } else {
      assert s == Text.NatToString(n / 10) + [Text.DigitChar(n % 10)];
    }
  }

  lemma {:induction false} FourDigits(n: int)
    requires 1000 <= n <= 9999
    ensures |Text.IntToString(n)| == 4
  {
    var a := n / 10;
    var b := a / 10;
    var c := b / 10;
    assert 1 <= c < 10;
    assert Text.NatToString(c) == [Text.DigitChar(c)];
    assert |Text.NatToString(b)| == 2;
    assert |Text.NatToString(a)| == 3;
  }

  /** A field assembled from four, two and two digits reads as those numbers. */
  lemma ReadAssembled(y: string, m: string, dd: string)
    requires |y| == 4 && |m| == 2 && |dd| == 2
    requires AllDigits(y) && AllDigits(m) && AllDigits(dd)
    ensures var d := Date(Text.DigitsValue(y), Text.DigitsValue(m), Text.DigitsValue(dd));
      ReadDateField(y + "-" + m + "-" + dd) == if RealDay(d) then Some(d) else None
  {
    var s := y + "-" + m + "-" + dd;
    assert s[..4] == y;
    assert s[5..7] == m;
    assert s[8..] == dd;
    assert s[4] == '-' && s[7] == '-';
  }

  /** The prefilled field reads back as the batch's local expiry day. */
  lemma DateFieldReadsBack(st: Stamp)
    requires RealDay(st.date) && 1000 <= st.date.year <= 9999
    ensures ReadDateField(DateField(Some(st))) == Some(st.date)
  {
    var d := st.date;
    FourDigits(d.year);
    Text.NatToStringRoundTrip(d.year);
    PaddedReadsBack(d.month);
    PaddedReadsBack(d.day);
    ReadAssembled(Text.IntToString(d.year), Pad2(Text.IntToString(d.month)), Pad2(Text.IntToString(d.day)));
  }

  // ---------------------------------------------------------------- the form

  /** The three fields; `quantity` is `None` while the number box is empty. */
  datatype FormData = FormData(batchNumber: string, quantity: Option<int>, expiry: string)

  /** The effect run when the batch changes: the batch's values, or all empty. */
  function Prefill(batch: Option<BatchView>): (r: FormData)
    ensures batch.None? ==> r == FormData("", None, "")
    ensures batch.Some? ==> r.batchNumber == batch.value.batchNumber && r.quantity == Some(batch.value.quantity)
    ensures batch.Some? ==> (r.expiry == "" <==> batch.value.expiry.None?)
  {
    if batch.None? then FormData("", None, "")
    else FormData(batch.value.batchNumber, Some(batch.value.quantity), DateField(batch.value.expiry))
  }

  /** `UpdateMedicineBatchPayload`; the expiry is sent as midnight UTC of the picked day. */
  datatype Changes = Changes(batchNumber: Option<string>, quantity: Option<int>, expiry: Option<Date>)

  predicate NoChanges(c: Changes)
  {
    c.batchNumber.None? && c.quantity.None? && c.expiry.None?
  }

  /** What `onSave` does: close the modal, send a request, or throw from `toISOString`. */
  datatype Outcome = Close | Send(id: int, changes: Changes) | Throws

  /** The local day of `new Date("YYYY-MM-DD")`: the picked day at or east of UTC, the day before west of it. */
  function ParsedLocalDay(picked: Date, westOfUtc: bool): (r: Date)
    requires RealDay(picked)
    ensures r == picked <==> !westOfUtc
  {
    if westOfUtc then PrevDay(picked) else picked
  }

  /** `onSave` as written, for a browser west of UTC or not. */
  function OnSaveAsWritten(batch: Option<BatchView>, f: FormData, westOfUtc: bool): (r: Outcome)
    ensures batch.None? || batch.value.id == 0 ==> r == Close
  {
    if batch.None? || batch.value.id == 0 then Close
    else
      var b := batch.value;
      var number := if f.batchNumber != "" && f.batchNumber != b.batchNumber then Some(f.batchNumber) else None;
      var quantity := if f.quantity.Some? && f.quantity.value != b.quantity then f.quantity else None;
      if f.expiry != "" && ReadDateField(f.expiry).None? then Throws
      else
        var expiry :=
          if f.expiry == "" then None
          else
            var picked := ReadDateField(f.expiry).value;
            if b.expiry.Some? && ParsedLocalDay(picked, westOfUtc) == b.expiry.value.date then None else Some(picked);
        var c := Changes(number, quantity, expiry);
        if NoChanges(c) then Close else Send(b.id, c)
  }

  /**
   * `onSave` comparing the picked day itself with the batch's local expiry
   * day: a batch with no valid expiry always takes the picked one.
   */
  function OnSave(batch: Option<BatchView>, f: FormData): (r: Outcome)
    ensures batch.None? || batch.value.id == 0 ==> r == Close
    ensures r.Throws? <==> batch.Some? && batch.value.id != 0 && f.expiry != "" && ReadDateField(f.expiry).None?
    ensures r.Send? ==> batch.Some? && r.id == batch.value.id && r.id != 0 && !NoChanges(r.changes)
    ensures r.Send? ==>
      (r.changes.batchNumber.Some? <==> f.batchNumber != "" && f.batchNumber != batch.value.batchNumber) &&
      (r.changes.batchNumber.Some? ==> r.changes.batchNumber.value == f.batchNumber) &&
      (r.changes.quantity.Some? <==> f.quantity.Some? && f.quantity.value != batch.value.quantity) &&
      (r.changes.quantity.Some? ==> r.changes.quantity == f.quantity) &&
      (r.changes.expiry.Some? <==> f.expiry != "" && (batch.value.expiry.None? || Some(batch.value.expiry.value.date) != ReadDateField(f.expiry))) &&
      (r.changes.expiry.Some? ==> r.changes.expiry == ReadDateField(f.expiry))
    ensures r == Close && batch.Some? && batch.value.id != 0 ==>
      (f.batchNumber == "" || f.batchNumber == batch.value.batchNumber) &&
      (f.quantity.None? || f.quantity.value == batch.value.quantity) &&
      (f.expiry == "" || (batch.value.expiry.Some? && ReadDateField(f.expiry) == Some(batch.value.expiry.value.date)))
  {
    if batch.None? || batch.value.id == 0 then Close
    else
      var b := batch.value;
      var number := if f.batchNumber != "" && f.batchNumber != b.batchNumber then Some(f.batchNumber) else None;
      var quantity := if f.quantity.Some? && f.quantity.value != b.quantity then f.quantity else None;
      var picked := ReadDateField(f.expiry);
      if f.expiry != "" && picked.None? then Throws
      else
        var expiry := if f.expiry == "" || (b.expiry.Some? && picked == Some(b.expiry.value.date)) then None else picked;
        var c := Changes(number, quantity, expiry);
        if NoChanges(c) then Close else Send(b.id, c)
  }

  /**
   * `onSave` step by step: `updateData` starts empty and each field that
   * differs is assigned into it before the emptiness test.
   */
  method BuildUpdate(batch: Option<BatchView>, f: FormData) returns (r: Outcome)
    ensures r == OnSave(batch, f)
  {
    if batch.None? || batch.value.id == 0 {
      return Close;
    }
    var b := batch.value;
    var updateData := Changes(None, None, None);
    if f.batchNumber != "" && f.batchNumber != b.batchNumber {
      updateData := updateData.(batchNumber := Some(f.batchNumber));
    }
    if f.quantity.Some? && f.quantity.value != b.quantity {
      updateData := updateData.(quantity := f.quantity);
    }
    if f.expiry != "" {
      var picked := ReadDateField(f.expiry);
      if picked.None? {
        return Throws;
      }
      if b.expiry.None? || picked.value != b.expiry.value.date {
        updateData := updateData.(expiry := picked);
      }
    }
    if NoChanges(updateData) {
      r := Close;
    } else {
      r := Send(b.id, updateData);
    }
  }

  /** The corrected save is what the code does at or east of UTC. */
  lemma OnSaveIsEastOfUtc(batch: Option<BatchView>, f: FormData)
    ensures OnSave(batch, f) == OnSaveAsWritten(batch, f, false)
  {
  }

  /** Saving the form as prefilled, untouched, only closes the modal. */
  lemma UntouchedFormCloses(b: BatchView)
    requires b.id != 0
    requires b.expiry.Some? ==> RealDay(b.expiry.value.date) && 1000 <= b.expiry.value.date.year <= 9999
    ensures OnSave(Some(b), Prefill(Some(b))) == Close
  {
    if b.expiry.Some? {
      DateFieldReadsBack(b.expiry.value);
    }
  }

  /**
   * As written, west of UTC, an untouched form with a batch expiring on
   * 9 March 2025 (local) sends that day as a new expiry.
   */
  lemma UntouchedFormResendsWestOfUtc(ms: int)
    ensures var b := BatchView(1, "Paracetamol", 1, "B-1", 10, Some(Stamp(ms, Date(2025, 3, 9))));
      OnSaveAsWritten(Some(b), Prefill(Some(b)), true) == Send(1, Changes(None, None, Some(Date(2025, 3, 9))))
  {
    var st := Stamp(ms, Date(2025, 3, 9));
    DateFieldReadsBack(st);
  }

  /** A successful save: the modal closes, the viewed batch list is patched, and the medicines are refetched. */
  method Saved(ui: InventoryUI.Store, result: Option<InventoryUI.BatchPatch>)
    requires ui.Valid()
    modifies ui
    ensures ui.Valid()
    ensures ui.State() == old(ui.State()).(
      editBatchOpen := false, editBatchPayload := None,
      viewBatchesPayload := if result.Some? then InventoryUI.BatchInView(old(ui.viewBatchesPayload), result.value) else old(ui.viewBatchesPayload),
      shouldRefetchMedicines := true)
  {
    ui.CloseEditBatch();
    if result.Some? {
      ui.UpdateBatchInView(result.value);
    }
    ui.TriggerRefetchMedicines();
  }
}
