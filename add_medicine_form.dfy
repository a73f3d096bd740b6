/**
 * The "add medicine" form: its fields, the validity flag behind the submit
 * button, the category search, the optional new batches, the picture, and
 * the request it sends.
 */
module AddMedicineForm {
  import opened Wrappers
  import Text
  import Lists
  import CategoryService
  import BatchDrafts
  import ImageUpload
  import UploadController

  /**
   * `CreateMedicinePayload` as the form holds it; a price that is not a
   * number (`NaN`) is `None`.
   */
  datatype FormData = FormData(name: string, genericName: string, categoryId: Option<int>, unitId: Option<int>,
                               price: Option<int>, supplier: string, imageUrl: string)

  const Empty := FormData("", "", None, None, Some(0), "", "")

  /** `validateForm`: a name that is not blank, a category, and a price that is a number of at least 0. */
  predicate IsValid(f: FormData)
  {
    Text.Trim(f.name) != "" && f.categoryId.Some? && f.price.Some? && f.price.value >= 0
  }

  /** The price box stores `Math.max(0, Number(value))`; `NaN` stays `NaN`. */
  function PriceInput(v: Option<int>): (r: Option<int>)
    ensures r.None? <==> v.None?
    ensures r.Some? ==> r.value >= 0 && (r.value == v.value || (r.value == 0 && v.value < 0))
  {
    if v.None? then None else if v.value < 0 then Some(0) else v
  }

  /** One edit of the form: a text field, the price box, or one of the two selects. */
  datatype Change =
    | Name(s: string) | GenericName(s: string) | Supplier(s: string) | ImageUrl(s: string)
    | Price(v: Option<int>) | Category(id: int) | Unit(id: int)

  function Apply(f: FormData, c: Change): FormData
  {
    match c
    case Name(s) => f.(name := s)
    case GenericName(s) => f.(genericName := s)
    case Supplier(s) => f.(supplier := s)
    case ImageUrl(s) => f.(imageUrl := s)
    case Price(v) => f.(price := PriceInput(v))
    case Category(id) => f.(categoryId := Some(id))
    case Unit(id) => f.(unitId := Some(id))
  }

  /** After any edit but a price that is not a number, the price is a number of at least 0. */
  lemma PriceStaysNonNegative(f: FormData, c: Change)
    requires f.price.Some? && f.price.value >= 0
    requires !(c.Price? && c.v.None?)
    ensures Apply(f, c).price.Some? && Apply(f, c).price.value >= 0
  {
  }

  /**
   * The flag `handleInputChange` and `handleSelectChange` set: `validateForm`
   * runs in the same event, before the new value is in the state, so it
   * judges the form as it was before the edit.
   */
  function FlagAsWritten(before: FormData, c: Change): (r: bool)
    ensures r == IsValid(before)
  {
    IsValid(before)
  }

  /** Pick a category, then type a one-letter name: the form is valid but the button stays disabled. */
  lemma StaleFlagExample()
    ensures var f := Apply(Empty, Category(1));
      IsValid(Apply(f, Name("A"))) && !FlagAsWritten(f, Name("A"))
  {
    var a := "A";
    assert Text.Trim(a) == a by {
      assert !Text.IsSpace(a[0]);
      Text.TrimSlice(a);
    }
  }

  /** The intended flag: the form's validity after the edit. */
  function FlagIntended(before: FormData, c: Change): (r: bool)
    ensures r <==> IsValid(Apply(before, c))
  {
    IsValid(Apply(before, c))
  }

  /** `filteredCategories`: all of them for a blank search, else those whose name contains it, ignoring case. */
  function FilteredCategories(cats: seq<CategoryService.Category>, search: string): (r: seq<CategoryService.Category>)
    ensures Text.IsBlank(search) ==> r == cats
    ensures !Text.IsBlank(search) ==> forall c :: c in r <==> c in cats && Text.IncludesIgnoringCase(c.name, search)
  {
    if Text.IsBlank(search) then cats
    else Lists.Filter(cats, (c: CategoryService.Category) => Text.IncludesIgnoringCase(c.name, search))
  }

  /**
   * The stored picture path after an upload: "/" and the returned local
   * path. The string is never empty, so the `/images/medicine/` fallback
   * after `||` is never taken.
   */
  function UploadedPath(localPath: string): (r: string)
    ensures |r| == |localPath| + 1 && r[0] == '/' && r[1..] == localPath
    ensures r != ""
  {
    "/" + localPath
  }

  /** The request body `onSubmit` builds; `Number(null)` sends 0 for a missing category or unit. */
  datatype Payload = Payload(name: string, genericName: string, categoryId: int, unitId: int, price: Option<int>,
                             supplier: string, imageUrl: string, batches: seq<BatchDrafts.Draft>)

  function PayloadOf(f: FormData, batches: seq<BatchDrafts.Draft>, uploaded: Option<string>): (r: Payload)
    ensures r.name == f.name && r.supplier == f.supplier && r.price == f.price && r.batches == batches
    ensures r.genericName == f.genericName
    ensures r.categoryId == f.categoryId.GetOr(0) && r.unitId == f.unitId.GetOr(0)
    ensures uploaded.None? ==> r.imageUrl == f.imageUrl
    ensures uploaded.Some? ==> r.imageUrl == UploadedPath(uploaded.value)
  {
    Payload(f.name, f.genericName, f.categoryId.GetOr(0), f.unitId.GetOr(0), f.price, f.supplier,
            if uploaded.Some? then UploadedPath(uploaded.value) else f.imageUrl, batches)
  }

  class Form {
    var formData: FormData
    var isFormValid: bool
    var categorySearch: string
    var batches: seq<BatchDrafts.Draft>
    var selectedFile: Option<UploadController.ImageFile>

    /** The submit button's flag tells the truth about the form. */
    ghost predicate Valid()
      reads this
    {
      isFormValid == IsValid(formData)
    }

    constructor ()
      ensures Valid() && formData == Empty && !isFormValid
      ensures categorySearch == "" && batches == [] && selectedFile.None?
    {
      formData, isFormValid, categorySearch, batches, selectedFile := Empty, false, "", [], None;
    }

    /** An edit of a field; choosing a category also clears the category search. */
    method Edit(c: Change)
      modifies this
      ensures Valid() && formData == Apply(old(formData), c) && isFormValid == FlagIntended(old(formData), c)
      ensures categorySearch == (if c.Category? then "" else old(categorySearch))
      ensures batches == old(batches) && selectedFile == old(selectedFile)
    {
      isFormValid := FlagIntended(formData, c);
      formData := Apply(formData, c);
      if c.Category? {
        categorySearch := "";
      }
    }

    method SetCategorySearch(s: string)
      modifies this
      ensures categorySearch == s
      ensures formData == old(formData) && isFormValid == old(isFormValid) && batches == old(batches) && selectedFile == old(selectedFile)
    {
      categorySearch := s;
    }

    /** `handleFileSelect`: a file that fails the image check is not kept. */
    method SelectFile(file: UploadController.ImageFile)
      modifies this
      ensures selectedFile == (if ImageUpload.ValidateImageFile(file).None? then Some(file) else old(selectedFile))
      ensures formData == old(formData) && isFormValid == old(isFormValid) && batches == old(batches) && categorySearch == old(categorySearch)
    {
      if ImageUpload.ValidateImageFile(file).None? {
        selectedFile := Some(file);
      }
    }

    /** `handleCancelNewImage`. */
    method CancelNewImage()
      modifies this
      ensures selectedFile.None?
      ensures formData == old(formData) && isFormValid == old(isFormValid) && batches == old(batches) && categorySearch == old(categorySearch)
    {
      selectedFile := None;
    }

    method AddBatch()
      modifies this
      ensures batches == old(batches) + [BatchDrafts.Blank]
      ensures formData == old(formData) && isFormValid == old(isFormValid) && categorySearch == old(categorySearch) && selectedFile == old(selectedFile)
    {
      batches := batches + [BatchDrafts.Blank];
    }

    method RemoveBatch(index: int)
      modifies this
      ensures batches == BatchDrafts.RemovedAt(old(batches), index)
      ensures formData == old(formData) && isFormValid == old(isFormValid) && categorySearch == old(categorySearch) && selectedFile == old(selectedFile)
    {
      batches := BatchDrafts.RemovedAt(batches, index);
    }

    method UpdateBatch(index: nat, f: BatchDrafts.Field)
      requires index < |batches|
      modifies this
      ensures batches == BatchDrafts.UpdatedAt(old(batches), index, f)
      ensures formData == old(formData) && isFormValid == old(isFormValid) && categorySearch == old(categorySearch) && selectedFile == old(selectedFile)
    {
      batches := BatchDrafts.UpdatedAt(batches, index, f);
    }

    /** After the medicine is created every field, the batches, the search and the file are reset. */
    method Succeeded()
      modifies this
      ensures Valid() && formData == Empty && batches == [] && categorySearch == "" && selectedFile.None?
    {
      formData, isFormValid, categorySearch, batches, selectedFile := Empty, false, "", [], None;
    }
  }
}
