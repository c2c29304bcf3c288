/**
 * Asset URLs (`KYPhotoLibrary+AssetURL.swift`). With the library scheme the URL
 * is the text `assets-library://asset/<filename>?id=<identifier>`; with the file
 * scheme the URL comes from a content-editing-input request (images) or an
 * AV-asset request (everything else), which the result names as a route.
 */
module AssetURLs {
  import opened Wrappers
  import opened Errors
  import opened Paths
  import opened Photos
  import opened AssetResources
  import opened AssetQuery

  /** `KYPhotoLibrary.URLScheme`. */
  datatype URLScheme = Library | File

  /** The outcome of a successful `assetURL`. */
  datatype AssetURL =
    | LibraryURL(text: string)
      /** The file URL is the one `_imageURL(of:)` requests for this asset. */
    | ImageFileURL(asset: Asset)
      /** The file URL is the one `_videoURL(of:)` requests for this asset. */
    | VideoFileURL(asset: Asset)

  const LibraryURLPrefix: string := "assets-library://asset/"

  /** `components(separatedBy: "/").first`: the identifier up to its first '/'. */
  function IdentifierPrefix(id: string): (r: string)
    ensures r <= id
    ensures '/' !in r
    ensures r == id || id[|r|] == '/'
    ensures '/' !in id ==> r == id
  {
    match FirstIndexOf(id, '/')
    case None => id
    case Some(i) => id[..i]
  }

  /** An identifier with a `/L0/001` suffix loses it. */
  lemma {:induction false} IdentifierPrefixExample()
    ensures IdentifierPrefix("A45B/L0/001") == "A45B"
  {
    var id := "A45B/L0/001";
    assert '/' !in id[..4] && id[4] == '/';
    assert id[..4] == "A45B";
  }

  /**
   * The filename part of a library URL: the percent-encoded original filename
   * (or the raw one when encoding fails), or `asset.<ext>` with the extension
   * of the resource's uniform type.
   */
  function LibraryFilename(platform: Platform, resource: Resource, mediaType: MediaType, useOriginalFilename: bool)
    : (r: Result<string, Error>)
    ensures useOriginalFilename ==> r.Success?
    ensures useOriginalFilename ==>
      r.value == platform.percentEncodedPath(resource.originalFilename).GetOr(resource.originalFilename)
    ensures !useOriginalFilename ==>
      (r.Failure? <==> platform.extensionForTypeIdentifier(resource.uniformTypeIdentifier).None?)
    ensures !useOriginalFilename && r.Failure? ==> r.error == OfAsset(UnsupportedMediaType(mediaType.RawValue()))
    ensures !useOriginalFilename && r.Success? ==>
      r.value == "asset." + platform.extensionForTypeIdentifier(resource.uniformTypeIdentifier).value
  {
    if useOriginalFilename then
      Success(platform.percentEncodedPath(resource.originalFilename).GetOr(resource.originalFilename))
    else match platform.extensionForTypeIdentifier(resource.uniformTypeIdentifier)
      case None => Failure(OfAsset(UnsupportedMediaType(mediaType.RawValue())))
      case Some(fileExtension) => Success("asset." + fileExtension)
  }

  /** The library URL text for a filename and an asset identifier. */
  function LibraryURLText(filename: string, assetIdentifier: string): string {
    LibraryURLPrefix + filename + "?id=" + IdentifierPrefix(assetIdentifier)
  }

  /**
   * `assetURL(with:for:scheme:useOriginalFilename:)`. Errors come in this order:
   * the asset is not found; (library scheme) it has no resource; its type has
   * no extension; the URL text does not parse.
   */
  function AssetURLOf(library: seq<Asset>, platform: Platform, assetIdentifier: string, mediaType: MediaType,
                      scheme: URLScheme, useOriginalFilename: bool): (r: Result<AssetURL, Error>)
    ensures AssetFromIdentifier(library, assetIdentifier, mediaType).None? ==>
      r == Failure(OfAsset(AssetError.AssetNotFound(assetIdentifier)))
    ensures scheme == File && AssetFromIdentifier(library, assetIdentifier, mediaType).Some? ==>
      r.Success? && (r.value.ImageFileURL? <==> mediaType == MediaType.Image)
    ensures r.Success? && !r.value.LibraryURL? ==>
      scheme == File && r.value.asset == AssetFromIdentifier(library, assetIdentifier, mediaType).value
    ensures r.Success? && r.value.LibraryURL? ==> scheme == URLScheme.Library && platform.isParsableURL(r.value.text)
    ensures r.Success? && r.value.LibraryURL? ==>
      exists filename :: r.value.text == LibraryURLText(filename, assetIdentifier)
    ensures r.Success? && r.value.LibraryURL? ==>
      var id := "?id=" + IdentifierPrefix(assetIdentifier);
      |r.value.text| >= |LibraryURLPrefix| + |id| && r.value.text[..|LibraryURLPrefix|] == LibraryURLPrefix
      && r.value.text[|r.value.text| - |id|..] == id && '/' !in IdentifierPrefix(assetIdentifier)
  {
    match AssetFromIdentifier(library, assetIdentifier, mediaType)
    case None => Failure(OfAsset(AssetError.AssetNotFound(assetIdentifier)))
    case Some(asset) =>
      if scheme.File? then
        if mediaType == MediaType.Image then Success(ImageFileURL(asset)) else Success(VideoFileURL(asset))
      else match AssetResource(asset)
        case None => Failure(OfAsset(AssetError.AssetNotFound(assetIdentifier)))
        case Some(resource) =>
          match LibraryFilename(platform, resource, mediaType, useOriginalFilename)
          case Failure(e) => Failure(e)
          case Success(filename) =>
            var filePath := LibraryURLText(filename, assetIdentifier);
            if platform.isParsableURL(filePath) then Success(LibraryURL(filePath))
            else Failure(OfAsset(InvalidFilePath(filePath)))
  }

  /** The file scheme ignores `useOriginalFilename`. */
  lemma FileSchemeIgnoresOriginalFilename(library: seq<Asset>, platform: Platform, assetIdentifier: string,
                                          mediaType: MediaType)
    ensures AssetURLOf(library, platform, assetIdentifier, mediaType, File, true)
         == AssetURLOf(library, platform, assetIdentifier, mediaType, File, false)
  {
  }

  /**
   * With the library scheme and a found asset, the outcome is decided by the
   * selected resource, its filename and the parser, in that order.
   */
  lemma {:induction false} LibrarySchemeOutcome(library: seq<Asset>, platform: Platform, assetIdentifier: string,
                                                mediaType: MediaType, useOriginalFilename: bool, asset: Asset)
    requires AssetFromIdentifier(library, assetIdentifier, mediaType) == Some(asset)
    ensures asset.resources == [] ==>
      AssetURLOf(library, platform, assetIdentifier, mediaType, URLScheme.Library, useOriginalFilename)
        == Failure(OfAsset(AssetError.AssetNotFound(assetIdentifier)))
    ensures asset.resources != [] ==>
      var filename := LibraryFilename(platform, AssetResource(asset).value, mediaType, useOriginalFilename);
      var text := if filename.Success? then LibraryURLText(filename.value, assetIdentifier) else "";
      AssetURLOf(library, platform, assetIdentifier, mediaType, URLScheme.Library, useOriginalFilename)
        == if filename.Failure? then Failure(filename.error)
           else if platform.isParsableURL(text) then Success(LibraryURL(text))
           else Failure(OfAsset(InvalidFilePath(text)))
  {
  }
}
