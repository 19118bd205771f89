/** The part of OCRService that the orchestrator routes on: whether an
    upload is an image. Text recognition itself is not part of this model;
    its result reaches the orchestrator as an input. */
module OcrService {
  import opened Wrappers
  import opened Strings
  import opened Domain

  /** The content types accepted as images, compared after lowercasing. */
  const SupportedImageTypes: set<string> := {"image/jpeg", "image/jpg", "image/png", "image/tiff", "image/bmp"}

  /** The file name endings accepted as images, compared after lowercasing. */
  const ImageExtensions: seq<string> := [".jpg", ".jpeg", ".png", ".tiff", ".bmp"]

  /** The name ends, in any case, with one of the five image endings. */
  function HasImageExtension(filename: string): (b: bool)
    ensures b <==> var lower := ToLower(filename);
              || EndsWith(lower, ".jpg") || EndsWith(lower, ".jpeg") || EndsWith(lower, ".png")
              || EndsWith(lower, ".tiff") || EndsWith(lower, ".bmp")
    ensures b ==> |filename| >= 4
  {
    assert ImageExtensions[0] == ".jpg" && ImageExtensions[1] == ".jpeg" && ImageExtensions[2] == ".png";
    assert ImageExtensions[3] == ".tiff" && ImageExtensions[4] == ".bmp";
    exists i :: 0 <= i < |ImageExtensions| && EndsWith(ToLower(filename), ImageExtensions[i])
  }

  /** `isImage`: a supported content type, or else a supported file name
      ending; a content type that is set but not supported does not stop the
      name from being checked. */
  function IsImage(file: MultipartFile): (b: bool)
    ensures file.contentType.Some? && ToLower(file.contentType.value) in SupportedImageTypes ==> b
    ensures file.contentType.None? || ToLower(file.contentType.value) !in SupportedImageTypes ==>
              (b <==> file.originalFilename.Some? && HasImageExtension(file.originalFilename.value))
  {
    || (file.contentType.Some? && ToLower(file.contentType.value) in SupportedImageTypes)
    || (file.originalFilename.Some? && HasImageExtension(file.originalFilename.value))
  }

  /** A file with neither a content type nor a name is not an image. */
  lemma NothingKnownNotImage(isEmpty: bool)
    ensures !IsImage(MultipartFile(None, None, isEmpty))
  {
  }

  /** The content type is compared without regard to case. */
  lemma ImageTypeAnyCase(isEmpty: bool)
    ensures IsImage(MultipartFile(Some("IMAGE/PNG"), None, isEmpty))
  {
    assert ToLower("IMAGE/PNG") == "image/png";
  }

  /** Both tests ignore case, for every content type and every name. */
  lemma ImageTestIgnoresCase(contentType: Option<string>, name: Option<string>, isEmpty: bool)
    ensures var lower := MultipartFile(if contentType.Some? then Some(ToLower(contentType.value)) else None,
                                       if name.Some? then Some(ToLower(name.value)) else None, isEmpty);
            IsImage(MultipartFile(contentType, name, isEmpty)) <==> IsImage(lower)
  {
    if contentType.Some? {
      ToLowerIdempotent(contentType.value);
    }
    if name.Some? {
      ToLowerIdempotent(name.value);
    }
  }

  /** An unsupported content type leaves the decision to the file name. */
  lemma NameDecidesForOtherTypes(contentType: Option<string>, name: string, isEmpty: bool)
    requires contentType.None? || ToLower(contentType.value) !in SupportedImageTypes
    ensures IsImage(MultipartFile(contentType, Some(name), isEmpty)) <==> HasImageExtension(name)
  {
  }

  /** `.tif` and `.gif` are not among the accepted endings. */
  lemma TifAndGifAreNotImages()
    ensures !HasImageExtension("scan.tif") && !HasImageExtension("scan.gif")
  {
    assert ToLower("scan.tif") == "scan.tif";
    assert ToLower("scan.gif") == "scan.gif";
    assert forall i :: 0 <= i < |ImageExtensions| ==> !EndsWith("scan.tif", ImageExtensions[i]);
    assert forall i :: 0 <= i < |ImageExtensions| ==> !EndsWith("scan.gif", ImageExtensions[i]);
  }

  /** An upper-case ending is accepted like a lower-case one. */
  lemma UpperCaseExtension()
    ensures HasImageExtension("SCAN.PNG")
  {
    assert ToLower("SCAN.PNG") == "scan.png";
    assert EndsWith("scan.png", ImageExtensions[2]);
  }
}
