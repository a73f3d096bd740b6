/**
 * The browser-side image check (`validateImageFile` in `useImageUpload`):
 * the same limits as the upload endpoint, but the size is checked first.
 */
module ImageUpload {
  import opened Wrappers
  import UploadController

  const SizeMessage: string := "Image file size must not exceed 5MB"
  const TypeMessage: string := "Only JPEG, PNG, and WebP image files are supported"

  /** `validateImageFile`: an error message, or none for an acceptable file. */
  function ValidateImageFile(file: UploadController.ImageFile): (r: Option<string>)
    ensures r == Some(SizeMessage) <==> file.size > UploadController.MaxImageSize
    ensures r == Some(TypeMessage) <==>
      file.size <= UploadController.MaxImageSize && file.mimeType !in UploadController.AllowedTypes
    ensures r.None? <==> file.size <= UploadController.MaxImageSize && file.mimeType in UploadController.AllowedTypes
  {
    if file.size > UploadController.MaxImageSize then Some(SizeMessage)
    else if file.mimeType !in UploadController.AllowedTypes then Some(TypeMessage)
    else None
  }

  /**
   * The browser and the endpoint accept the same files; an oversized file
   * of a wrong type is reported as too large here and as the wrong type there.
   */
  lemma AgreesWithEndpoint(file: UploadController.ImageFile)
    ensures ValidateImageFile(file).None? <==> UploadController.Guard(Some(file)).None?
    ensures file.size > UploadController.MaxImageSize && file.mimeType !in UploadController.AllowedTypes ==>
      ValidateImageFile(file) == Some(SizeMessage) && UploadController.Guard(Some(file)) == Some(UploadController.BadType)
  {
  }
}
