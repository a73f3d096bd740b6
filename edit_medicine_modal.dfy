/**
 * The "edit medicine" modal: the form filled from the medicine being
 * edited, the picture address it shows, and the update it sends.
 */
module EditMedicineModal {
  import opened Wrappers
  import opened Views
  import Text
  import AddMedicineForm

  const BucketUrl: string := "https://" + "storage.googleapis.com" + "/pharventory-bucket"
  const LocalImagePrefix: string := "/images/medicine"

  /** The address shown for a stored picture: local picture paths are served from the bucket. */
  function DisplayUrl(imageUrl: string): (r: string)
    ensures Text.StartsWith(imageUrl, LocalImagePrefix) ==> r == BucketUrl + imageUrl
    ensures !Text.StartsWith(imageUrl, LocalImagePrefix) ==> r == imageUrl
  {
    if Text.StartsWith(imageUrl, LocalImagePrefix) then BucketUrl + imageUrl else imageUrl
  }

  /** An address already pointing at the bucket is left alone, so the mapping is idempotent. */
  lemma DisplayUrlIdempotent(imageUrl: string)
    ensures DisplayUrl(DisplayUrl(imageUrl)) == DisplayUrl(imageUrl)
  {
    if Text.StartsWith(imageUrl, LocalImagePrefix) {
      var r := BucketUrl + imageUrl;
      assert r[0] == 'h';
      assert LocalImagePrefix[0] == '/';
      assert !Text.StartsWith(r, LocalImagePrefix);
    }
  }

  /**
   * The price field: the number it was filled with, or, once edited, the
   * text of the number input (`e.target.value`) with the amount `Number`
   * reads from it (decimal parsing is not modelled; the amount is given).
   */
  datatype PriceField = Loaded(amount: int) | Typed(text: string, amount: int)

  /** `formData.price ?`: a loaded 0 and an empty text are falsy; any other text, "0" included, is truthy. */
  predicate PriceGiven(p: PriceField)
  {
    if p.Loaded? then p.amount != 0 else p.text != ""
  }

  /** The form's fields; a select stores the chosen id, and a cleared category or unit is `None`. */
  datatype FormData = FormData(name: string, genericName: string, categoryId: Option<int>, unitId: Option<int>,
                               price: PriceField, supplier: string, imageUrl: string, gcsUrl: string)

  /** The form as the modal fills it from the medicine it edits. */
  function Prefill(m: MedicineView): (r: FormData)
    ensures r.name == m.name && r.categoryId == m.categoryId && r.unitId == m.unitId && r.price == Loaded(m.price)
    ensures r.genericName == m.genericName && r.supplier == m.supplier
    ensures r.imageUrl == m.imageUrl.GetOr("") && r.gcsUrl == DisplayUrl(r.imageUrl)
  {
    var imageUrl := m.imageUrl.GetOr("");
    FormData(m.name, m.genericName, m.categoryId, m.unitId, Loaded(m.price), m.supplier, imageUrl, DisplayUrl(imageUrl))
  }

  /** `handleChange` on the price input: the field now holds the typed text. */
  function TypePrice(f: FormData, text: string, amount: int): (r: FormData)
    ensures r.price == Typed(text, amount) && r.(price := f.price) == f
  {
    f.(price := Typed(text, amount))
  }

  /** `UpdateMedicinePayload`: a falsy category, unit or price is left out (`None`). */
  datatype Update = Update(name: string, genericName: string, categoryId: Option<int>, unitId: Option<int>,
                           price: Option<int>, supplier: string, imageUrl: string)

  /** A value JavaScript treats as false: absent or 0. */
  function Truthy(v: Option<int>): Option<int>
  {
    if v.Some? && v.value != 0 then v else None
  }

  /**
   * `onSubmit`: nothing without a medicine id (an id of 0 counts as none);
   * otherwise the update for that id. The picture is the stored one unless
   * a new file was uploaded.
   */
  function SubmitUpdate(editing: Option<MedicineView>, f: FormData, uploaded: Option<string>): (r: Option<(int, Update)>)
    ensures r.None? <==> editing.None? || editing.value.id == 0
    ensures r.Some? ==> r.value.0 == editing.value.id
    ensures r.Some? ==> r.value.1.name == f.name && r.value.1.supplier == f.supplier
    ensures r.Some? ==> r.value.1.genericName == f.genericName
    ensures r.Some? ==> (r.value.1.price.Some? <==> PriceGiven(f.price))
    ensures r.Some? && r.value.1.price.Some? ==> r.value.1.price.value == f.price.amount
    ensures r.Some? && f.price.Loaded? ==> r.value.1.price != Some(0)
    ensures r.Some? ==> (r.value.1.categoryId.Some? <==> f.categoryId.Some? && f.categoryId.value != 0)
    ensures r.Some? ==> (r.value.1.unitId.Some? <==> f.unitId.Some? && f.unitId.value != 0)
    ensures r.Some? && r.value.1.categoryId.Some? ==> r.value.1.categoryId == f.categoryId
    ensures r.Some? && r.value.1.unitId.Some? ==> r.value.1.unitId == f.unitId
    ensures r.Some? && uploaded.None? ==> r.value.1.imageUrl == f.imageUrl
    ensures r.Some? && uploaded.Some? ==> r.value.1.imageUrl == AddMedicineForm.UploadedPath(uploaded.value)
  {
    if editing.None? || editing.value.id == 0 then None
    else
      var image := if uploaded.Some? then AddMedicineForm.UploadedPath(uploaded.value) else f.imageUrl;
      Some((editing.value.id, Update(f.name, f.genericName, Truthy(f.categoryId), Truthy(f.unitId),
                                     if PriceGiven(f.price) then Some(f.price.amount) else None, f.supplier, image)))
  }

  /** Saving the form as it was filled sends the medicine's own values, except a zero price. */
  lemma UnchangedFormResends(m: MedicineView)
    requires m.id != 0
    ensures var u := SubmitUpdate(Some(m), Prefill(m), None).value.1;
      u.name == m.name && u.imageUrl == m.imageUrl.GetOr("") && (u.price.Some? <==> m.price != 0)
  {
  }

  /** A price typed as "0" is truthy text, so the update sets the price to 0. */
  lemma TypedZeroIsSent(m: MedicineView, f: FormData)
    requires m.id != 0
    ensures SubmitUpdate(Some(m), TypePrice(f, "0", 0), None).value.1.price == Some(0)
  {
  }
}
