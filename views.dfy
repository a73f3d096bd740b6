/**
 * The records the frontend receives from the API (`types/medicines.ts`),
 * with dates already parsed: a date string becomes a `Stamp` holding its
 * instant and its local calendar date, or `None` when it is empty or does
 * not parse.
 */
module Views {
  import opened Wrappers

  /** A local calendar date; `month` counts from 1. */
  datatype Date = Date(year: int, month: int, day: int)

  /** A parsed date string: milliseconds since the epoch and the local calendar date. */
  datatype Stamp = Stamp(ms: int, date: Date)

  /** `MedicineBatch`. */
  datatype BatchView = BatchView(id: int, medicineName: string, medicineId: int, batchNumber: string,
                                 quantity: int, expiry: Option<Stamp>)

  /** `Medicine`, with the summary fields the backend computes. */
  datatype MedicineView = MedicineView(id: int, name: string, genericName: string, categoryId: Option<int>,
                                       unitId: Option<int>, price: int, supplier: string, imageUrl: Option<string>,
                                       totalStock: int, nearestExpired: Option<Stamp>, isActive: bool)

  /** The batch a receipt line was drawn from, as far as the pages read it. */
  datatype SoldBatch = SoldBatch(medicineId: Option<int>, medicineName: Option<string>)

  /** `ReceiptItem`: the batch may be missing. */
  datatype ReceiptItemView = ReceiptItemView(batch: Option<SoldBatch>, quantity: int, price: int)

  /** `Receipt`. */
  datatype ReceiptView = ReceiptView(id: int, userName: Option<string>, patientName: Option<string>, totalItems: int,
                                     note: Option<string>, createdAt: Stamp, items: seq<ReceiptItemView>)

  /** The stock statuses the inventory and dispense tables show. */
  datatype Status = Normal | LowStock | Critical | OutOfStock | Expired

  /** The text shown for a status, which is also what the status filter holds. */
  function Label(s: Status): string
  {
    match s
    case Normal => "Normal"
    case LowStock => "Low Stock"
    case Critical => "Critical"
    case OutOfStock => "Out Of Stock"
    case Expired => "Expired"
  }

  /** Different statuses show different texts, so filtering by text is filtering by status. */
  lemma LabelInjective(a: Status, b: Status)
    requires Label(a) == Label(b)
    ensures a == b
  {
  }
}
