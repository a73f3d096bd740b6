/**
 * The backend's tables (medicines, medicine_batches, stock_logs, receipts,
 * receipt_items, users) held in memory. Each service works on one
 * `Database`; a transaction that rolls back restores the tables it held
 * when it began.
 */
module Ledger {
  import opened Wrappers

  /** A row of `medicines`. `price` is in the smallest currency unit. */
  datatype Medicine = Medicine(
    id: int,
    name: string,
    genericName: Option<string>,
    categoryId: Option<int>,
    unitId: Option<int>,
    price: Option<int>,
    supplier: Option<string>,
    imageUrl: Option<string>)

  /**
   * A row of `medicine_batches`: one lot of a medicine. `expiry` is the
   * number of the `date` column's day; day `d` begins at instant
   * `d * DayMs` (milliseconds, midnight UTC).
   */
  datatype Batch = Batch(id: int, medicineId: int, batchNumber: string, quantity: int, expiry: int)

  /** Milliseconds in a day. */
  const DayMs: int := 86_400_000

  /**
   * The day number that stands for the clock instant `clock` (milliseconds)
   * in every `now` parameter: the first day whose midnight is not before
   * the clock. The source compares the `date` column, read as its midnight,
   * with `new Date()`; `ClockDayMatchesInstant` shows that comparing day
   * numbers with this day gives the same answer.
   */
  function ClockDay(clock: int): (r: int)
    ensures r * DayMs >= clock
    ensures (r - 1) * DayMs < clock
  {
    var q := (clock + DayMs - 1) / DayMs;
    assert q * DayMs + (clock + DayMs - 1) % DayMs == clock + DayMs - 1;
    q
  }

  /**
   * A batch is at or after the clock (`expiryDate >= now`) exactly when its
   * day is at or after `ClockDay(clock)`, and before it (`< now`) exactly
   * when its day is before. So from the start of its expiry day a batch is
   * already expired.
   */
  lemma {:induction false} ClockDayMatchesInstant(expiry: int, clock: int)
    ensures expiry * DayMs >= clock <==> expiry >= ClockDay(clock)
    ensures expiry * DayMs < clock <==> expiry < ClockDay(clock)
  {
    var d := ClockDay(clock);
    if expiry >= d {
      MulMonotone(d, expiry);
    } else {
      MulMonotone(expiry, d - 1);
    }
  }

  /** Multiplying by the day length keeps order. */
  lemma MulMonotone(a: int, b: int)
    requires a <= b
    ensures a * DayMs <= b * DayMs
  {
    assert b * DayMs - a * DayMs == (b - a) * DayMs;
  }

  /** A row of `stock_logs`; the batch reference is cleared when its batch is deleted. */
  datatype StockLog = StockLog(batchId: Option<int>, action: string, quantityChange: int, note: Option<string>, createdBy: Option<int>)

  /** A row of `receipts`. */
  datatype Receipt = Receipt(id: int, userId: Option<int>, patientName: string, totalItems: int)

  /** A row of `receipt_items`: what one batch gave to one receipt. */
  datatype ReceiptItem = ReceiptItem(receiptId: int, batchId: int, quantity: int, price: int)

  /** The index of the row with the given id, if there is one. */
  function FindMedicine(meds: seq<Medicine>, id: int): (r: Option<nat>)
    ensures r.Some? ==> r.value < |meds| && meds[r.value].id == id
    ensures r.None? ==> forall k :: 0 <= k < |meds| ==> meds[k].id != id
  {
    if meds == [] then None
    else if meds[|meds| - 1].id == id then Some(|meds| - 1)
    else FindMedicine(meds[..|meds| - 1], id)
  }

  function FindBatch(bs: seq<Batch>, id: int): (r: Option<nat>)
    ensures r.Some? ==> r.value < |bs| && bs[r.value].id == id
    ensures r.None? ==> forall k :: 0 <= k < |bs| ==> bs[k].id != id
  {
    if bs == [] then None
    else if bs[|bs| - 1].id == id then Some(|bs| - 1)
    else FindBatch(bs[..|bs| - 1], id)
  }

  /** `user` after `findOne(User, { where: { id } })`: only a known id resolves. */
  function ResolveUser(userId: Option<int>, users: set<int>): (r: Option<int>)
    ensures r.Some? <==> userId.Some? && userId.value != 0 && userId.value in users
    ensures r.Some? ==> r == userId
  {
    if userId.Some? && userId.value != 0 && userId.value in users then userId else None
  }

  /**
   * `ON DELETE SET NULL` on `stock_logs.medicineBatch`: the logs of deleted
   * batches stay, without their reference.
   */
  function DetachLogs(logs: seq<StockLog>, gone: set<int>): (r: seq<StockLog>)
    ensures |r| == |logs|
    ensures forall k :: 0 <= k < |logs| ==>
      r[k] == if logs[k].batchId.Some? && logs[k].batchId.value in gone then logs[k].(batchId := None) else logs[k]
    ensures forall k :: 0 <= k < |r| ==> r[k].batchId.None? || r[k].batchId.value !in gone
  {
    if logs == [] then []
    else
      var head := if logs[0].batchId.Some? && logs[0].batchId.value in gone then logs[0].(batchId := None) else logs[0];
      [head] + DetachLogs(logs[1..], gone)
  }

  /**
   * `ON DELETE RESTRICT` on `receipt_items.medicineBatch`: while some receipt
   * line names one of these batches, the database refuses to delete it.
   */
  predicate Referenced(items: seq<ReceiptItem>, ids: set<int>)
  {
    exists i :: 0 <= i < |items| && items[i].batchId in ids
  }

  /** Ids that tell rows apart, below the next id the table will hand out. */
  ghost predicate BatchIdsFresh(bs: seq<Batch>, next: int)
  {
    (forall i, j :: 0 <= i < j < |bs| ==> bs[i].id != bs[j].id) &&
    (forall i :: 0 <= i < |bs| ==> 1 <= bs[i].id < next)
  }

  ghost predicate MedicineIdsFresh(meds: seq<Medicine>, next: int)
  {
    (forall i, j :: 0 <= i < j < |meds| ==> meds[i].id != meds[j].id) &&
    (forall i :: 0 <= i < |meds| ==> 1 <= meds[i].id < next)
  }

  ghost predicate ReceiptIdsFresh(rs: seq<Receipt>, next: int)
  {
    (forall i, j :: 0 <= i < j < |rs| ==> rs[i].id != rs[j].id) &&
    (forall i :: 0 <= i < |rs| ==> 1 <= rs[i].id < next)
  }

  /** Every table's identity column is consistent with its sequence. */
  ghost predicate Consistent(meds: seq<Medicine>, bs: seq<Batch>, rs: seq<Receipt>,
                             nextMedicineId: int, nextBatchId: int, nextReceiptId: int)
  {
    1 <= nextMedicineId && 1 <= nextBatchId && 1 <= nextReceiptId &&
    MedicineIdsFresh(meds, nextMedicineId) &&
    BatchIdsFresh(bs, nextBatchId) &&
    ReceiptIdsFresh(rs, nextReceiptId)
  }

  /** A row appended under the next id keeps the identity column consistent. */
  lemma AppendBatchKeepsFresh(bs: seq<Batch>, b: Batch, next: int)
    requires BatchIdsFresh(bs, next) && 1 <= next && b.id == next
    ensures BatchIdsFresh(bs + [b], next + 1)
  {
  }

  lemma AppendMedicineKeepsFresh(meds: seq<Medicine>, m: Medicine, next: int)
    requires MedicineIdsFresh(meds, next) && 1 <= next && m.id == next
    ensures MedicineIdsFresh(meds + [m], next + 1)
  {
  }

  class Database {
    var medicines: seq<Medicine>
    var batches: seq<Batch>
    var logs: seq<StockLog>
    var receipts: seq<Receipt>
    var receiptItems: seq<ReceiptItem>
    var users: set<int>
    var nextMedicineId: int
    var nextBatchId: int
    var nextReceiptId: int

    /** Identity columns: every row's id is distinct and below the next one to be given out. */
    ghost predicate Valid()
      reads this
    {
      Consistent(medicines, batches, receipts, nextMedicineId, nextBatchId, nextReceiptId)
    }

    constructor (users: set<int>)
      ensures Valid()
      ensures medicines == [] && batches == [] && logs == [] && receipts == [] && receiptItems == []
      ensures this.users == users
    {
      medicines, batches, logs, receipts, receiptItems := [], [], [], [], [];
      this.users := users;
      nextMedicineId, nextBatchId, nextReceiptId := 1, 1, 1;
    }
  }
}
