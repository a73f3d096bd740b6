/**
 * The image upload endpoint (`UploadController.uploadImage`): a file must be
 * present, of an allowed image type and at most 5 MiB before it is handed to
 * the storage service, whose failures come back as a 400.
 */
module UploadController {
  import opened Wrappers

  /** What the endpoint sees of an uploaded file. */
  datatype ImageFile = ImageFile(mimeType: string, size: int)

  /** The 400 responses, in the order the guards run. */
  datatype UploadError =
    | NoFile                       // "No file uploaded"
    | BadType                      // "Only JPEG, PNG, and WebP images are allowed"
    | TooLarge                     // "File size must not exceed 5MB"
    | StorageFailed(message: string)

  /** What the storage service returns for a stored file. */
  datatype Stored = Stored(url: string, filename: string)

  /** The 200 answer. */
  datatype UploadSuccess = UploadSuccess(statusCode: int, message: string, data: Stored)

  const AllowedTypes: set<string> := {"image/jpeg", "image/jpg", "image/png", "image/webp"}
  const MaxImageSize: int := 5 * 1024 * 1024
  const UploadedMessage: string := "Image uploaded successfully"

  /** The guards of `uploadImage`: presence, then type, then size. */
  function Guard(file: Option<ImageFile>): (r: Option<UploadError>)
    ensures r == Some(NoFile) <==> file.None?
    ensures r == Some(BadType) <==> file.Some? && file.value.mimeType !in AllowedTypes
    ensures r == Some(TooLarge) <==> file.Some? && file.value.mimeType in AllowedTypes && file.value.size > MaxImageSize
    ensures r.None? <==> file.Some? && file.value.mimeType in AllowedTypes && file.value.size <= MaxImageSize
  {
    if file.None? then Some(NoFile)
    else if file.value.mimeType !in AllowedTypes then Some(BadType)
    else if file.value.size > MaxImageSize then Some(TooLarge)
    else None
  }

  /** The type is checked before the size; a file of exactly 5 MiB passes. */
  lemma GuardOrder(mimeType: string, size: int)
    ensures mimeType !in AllowedTypes ==> Guard(Some(ImageFile(mimeType, size))) == Some(BadType)
    ensures Guard(Some(ImageFile("image/png", MaxImageSize))).None?
    ensures Guard(Some(ImageFile("image/png", MaxImageSize + 1))) == Some(TooLarge)
  {
  }

  /**
   * `uploadImage`. `storage` stands for the answer the storage service
   * would give; it is consulted only when every guard passes.
   */
  function UploadImage(file: Option<ImageFile>, storage: Result<Stored, string>): (r: Result<UploadSuccess, UploadError>)
    ensures Guard(file).Some? ==> r == Failure(Guard(file).value)
    ensures Guard(file).None? && storage.Failure? ==> r == Failure(StorageFailed(storage.error))
    ensures Guard(file).None? && storage.Success? ==> r == Success(UploadSuccess(200, UploadedMessage, storage.value))
    ensures r.Success? ==> file.Some? && file.value.mimeType in AllowedTypes && file.value.size <= MaxImageSize
  {
    var guard := Guard(file);
    if guard.Some? then Failure(guard.value)
    else if storage.Failure? then Failure(StorageFailed(storage.error))
    else Success(UploadSuccess(200, UploadedMessage, storage.value))
  }
}
