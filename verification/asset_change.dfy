/**
 * Saving and deleting assets (`KYPhotoLibrary+AssetChange.swift`). The photo
 * library's change block is modelled by its observable decisions: which
 * creation request is made, whether the new asset is added to the album, and
 * what the caller gets back. `placeholder` is the local identifier of the
 * placeholder the creation request yields, if any, and `collectionChangeable`
 * whether a change request can be made for the album.
 */
module AssetChange {
  import opened Wrappers
  import opened Errors
  import opened Paths
  import opened Photos
  import opened Albums
  import opened AssetQuery

  /** The one creation request made: from an image, an image file or a video file. */
  datatype SaveSource = FromImage(image: LibraryImage) | FromImageFile(imageURL: Path) | FromVideoFile(videoURL: Path)

  /** The precedence of the sources: the image first, then the image file, then the video file. */
  function Rank(s: SaveSource): nat {
    match s
    case FromImage(_) => 0
    case FromImageFile(_) => 1
    case FromVideoFile(_) => 2
  }

  /** Whether the caller supplied this source. */
  predicate Provided(s: SaveSource, image: Option<LibraryImage>, imageURL: Option<Path>, videoURL: Option<Path>) {
    match s
    case FromImage(i) => image == Some(i)
    case FromImageFile(u) => imageURL == Some(u)
    case FromVideoFile(u) => videoURL == Some(u)
  }

  /** The source the creation request is made from: the supplied one of highest precedence. */
  function PreferredSource(image: Option<LibraryImage>, imageURL: Option<Path>, videoURL: Option<Path>)
    : (r: Option<SaveSource>)
    ensures r.None? <==> image.None? && imageURL.None? && videoURL.None?
    ensures r.Some? ==> Provided(r.value, image, imageURL, videoURL)
    ensures r.Some? ==> forall s :: Provided(s, image, imageURL, videoURL) ==> Rank(r.value) <= Rank(s)
  {
    if image.Some? then Some(FromImage(image.value))
    else if imageURL.Some? then Some(FromImageFile(imageURL.value))
    else if videoURL.Some? then Some(FromVideoFile(videoURL.value))
    else None
  }

  /**
   * The result returned or thrown, the creation request made (at most one),
   * and the album the new asset was added to.
   */
  datatype SaveOutcome = SaveOutcome(result: Result<string, Error>, created: Option<SaveSource>, addedTo: Option<Album>)

  /**
   * `asset_save`, as written. Without an album name the asset is saved, but
   * the call still fails with `failedToAddSavedAssetToAlbum("")`.
   */
  function AssetSave(albums: seq<Album>, image: Option<LibraryImage>, imageURL: Option<Path>, videoURL: Option<Path>,
                     albumName: Option<string>, placeholder: Option<string>, collectionChangeable: bool)
    : (r: SaveOutcome)
    ensures PreferredSource(image, imageURL, videoURL).None? ==>
      r == SaveOutcome(Failure(OfAsset(AssetError.NoAssetProvided)), None, None)
    ensures (PreferredSource(image, imageURL, videoURL).Some? && albumName.Some?
             && FindAlbum(albums, albumName.value).None?) ==>
      r == SaveOutcome(Failure(OfAlbum(AlbumNotFound(albumName.value))), None, None)
    ensures r.created.Some? ==> r.created == PreferredSource(image, imageURL, videoURL)
    ensures r.created.Some? && placeholder.None? ==> r.result == Failure(OfAsset(FailedToSaveAssetToPhotoLibrary))
    ensures r.created.Some? && placeholder.Some? && (albumName.None? || !collectionChangeable) ==>
      r.result == Failure(OfAsset(AssetError.FailedToAddSavedAssetToAlbum(albumName.GetOr(""))))
    ensures r.result.Success? <==>
      (PreferredSource(image, imageURL, videoURL).Some? && placeholder.Some? && collectionChangeable
       && albumName.Some? && FindAlbum(albums, albumName.value).Some?)
    ensures r.result.Success? ==>
      (r.result.value == placeholder.value && r.created.Some?
       && r.addedTo.Some? && r.addedTo.value in albums && HasTitle(r.addedTo.value, albumName.value))
    ensures r.addedTo.Some? ==> r.result.Success?
  {
    var source := PreferredSource(image, imageURL, videoURL);
    if source.None? then SaveOutcome(Failure(OfAsset(AssetError.NoAssetProvided)), None, None)
    else
      var album := if albumName.Some? then FindAlbum(albums, albumName.value) else None;
      if albumName.Some? && album.None? then SaveOutcome(Failure(OfAlbum(AlbumNotFound(albumName.value))), None, None)
      else if placeholder.None? then SaveOutcome(Failure(OfAsset(FailedToSaveAssetToPhotoLibrary)), source, None)
      else if album.None? || !collectionChangeable then
        SaveOutcome(Failure(OfAsset(AssetError.FailedToAddSavedAssetToAlbum(albumName.GetOr("")))), source, None)
      else SaveOutcome(Success(placeholder.value), source, album)
  }

  /**
   * `saveImage(_:toAlbum: nil)` with a placeholder: the image is saved, and
   * the caller is told it failed.
   */
  lemma {:induction false} AssetSaveWithoutAlbumFails(albums: seq<Album>, image: LibraryImage, placeholder: string)
    ensures var r := AssetSave(albums, Some(image), None, None, None, Some(placeholder), true);
      r.created == Some(FromImage(image))
      && r.result == Failure(OfAsset(AssetError.FailedToAddSavedAssetToAlbum("")))
  {
  }

  /**
   * `asset_save` as evidently intended: the album is optional, so without an
   * album name the saved asset's identifier is returned and no album is
   * changed. With a name it behaves as written.
   */
  function AssetSaveIntended(albums: seq<Album>, image: Option<LibraryImage>, imageURL: Option<Path>,
                             videoURL: Option<Path>, albumName: Option<string>, placeholder: Option<string>,
                             collectionChangeable: bool)
    : (r: SaveOutcome)
    ensures albumName.None? ==>
      (r.result.Success? <==> PreferredSource(image, imageURL, videoURL).Some? && placeholder.Some?)
    ensures albumName.None? && r.result.Success? ==>
      r == SaveOutcome(Success(placeholder.value), PreferredSource(image, imageURL, videoURL), None)
    ensures albumName.Some? ==>
      r == AssetSave(albums, image, imageURL, videoURL, albumName, placeholder, collectionChangeable)
    ensures r.result.Success? ==> r.created.Some? && r.result.value == placeholder.value
    ensures r.addedTo.Some? ==> albumName.Some? && r.addedTo.value in albums && HasTitle(r.addedTo.value, albumName.value)
  {
    var source := PreferredSource(image, imageURL, videoURL);
    if source.None? then SaveOutcome(Failure(OfAsset(AssetError.NoAssetProvided)), None, None)
    else if albumName.None? then
      if placeholder.None? then SaveOutcome(Failure(OfAsset(FailedToSaveAssetToPhotoLibrary)), source, None)
      else SaveOutcome(Success(placeholder.value), source, None)
    else
      var album := FindAlbum(albums, albumName.value);
      if album.None? then SaveOutcome(Failure(OfAlbum(AlbumNotFound(albumName.value))), None, None)
      else if placeholder.None? then SaveOutcome(Failure(OfAsset(FailedToSaveAssetToPhotoLibrary)), source, None)
      else if !collectionChangeable then
        SaveOutcome(Failure(OfAsset(AssetError.FailedToAddSavedAssetToAlbum(albumName.value))), source, None)
      else SaveOutcome(Success(placeholder.value), source, album)
  }

  /** Under either definition, a request is made exactly when the call gets past both lookups. */
  lemma AssetSaveCreatesOnce(albums: seq<Album>, image: Option<LibraryImage>, imageURL: Option<Path>,
                             videoURL: Option<Path>, albumName: Option<string>, placeholder: Option<string>,
                             collectionChangeable: bool)
    ensures var r := AssetSave(albums, image, imageURL, videoURL, albumName, placeholder, collectionChangeable);
      r.created.Some? <==>
        (PreferredSource(image, imageURL, videoURL).Some?
         && (albumName.Some? ==> FindAlbum(albums, albumName.value).Some?))
    ensures var r := AssetSaveIntended(albums, image, imageURL, videoURL, albumName, placeholder, collectionChangeable);
      r.created.Some? <==>
        (PreferredSource(image, imageURL, videoURL).Some?
         && (albumName.Some? ==> FindAlbum(albums, albumName.value).Some?))
  {
  }

  /**
   * `saveAsset(for:with:toAlbum:)`: an image goes to the image-file slot, a
   * video to the video-file slot, and any other media type is refused with
   * its raw value. The album name is always given.
   */
  function SaveAsset(albums: seq<Album>, mediaType: MediaType, assetURL: Path, albumName: string,
                     placeholder: Option<string>, collectionChangeable: bool): (r: SaveOutcome)
    ensures mediaType == MediaType.Image ==>
      r == AssetSave(albums, None, Some(assetURL), None, Some(albumName), placeholder, collectionChangeable)
    ensures mediaType == MediaType.Video ==>
      r == AssetSave(albums, None, None, Some(assetURL), Some(albumName), placeholder, collectionChangeable)
    ensures mediaType != MediaType.Image && mediaType != MediaType.Video ==>
      r == SaveOutcome(Failure(OfAsset(UnsupportedMediaType(mediaType.RawValue()))), None, None)
    ensures r.created.Some? ==> r.created.value == (if mediaType == MediaType.Image then FromImageFile(assetURL)
                                                    else FromVideoFile(assetURL))
  {
    if mediaType == MediaType.Image then
      AssetSaveIntended(albums, None, Some(assetURL), None, Some(albumName), placeholder, collectionChangeable)
    else if mediaType == MediaType.Video then
      AssetSaveIntended(albums, None, None, Some(assetURL), Some(albumName), placeholder, collectionChangeable)
    else SaveOutcome(Failure(OfAsset(UnsupportedMediaType(mediaType.RawValue()))), None, None)
  }

  /** The asset deleted, if any, and the error thrown, if any. */
  datatype DeleteOutcome = DeleteOutcome(deleted: Option<Asset>, error: Option<Error>)

  /**
   * `asset_delete`: an unknown identifier, or one of another media type, is
   * `assetNotFound` and nothing is deleted; otherwise the deletion is
   * requested and `changeError` is whatever the change block throws.
   */
  function AssetDelete(library: seq<Asset>, mediaType: MediaType, assetIdentifier: string, changeError: Option<Error>)
    : (r: DeleteOutcome)
    ensures r.deleted.None? <==> forall a :: a in library ==> !(a.localIdentifier == assetIdentifier && a.mediaType == mediaType)
    ensures r.deleted.None? ==> r.error == Some(OfAsset(AssetError.AssetNotFound(assetIdentifier)))
    ensures r.deleted.Some? ==>
      (r.deleted.value in library && r.error == changeError
       && r.deleted.value.localIdentifier == assetIdentifier && r.deleted.value.mediaType == mediaType)
  {
    match AssetFromIdentifier(library, assetIdentifier, mediaType)
    case None => DeleteOutcome(None, Some(OfAsset(AssetError.AssetNotFound(assetIdentifier))))
    case Some(asset) => DeleteOutcome(Some(asset), changeError)
  }

  /** Deleting the first asset with an identifier deletes exactly that asset, whatever follows it. */
  lemma {:induction false} AssetDeleteFirstMatch(library: seq<Asset>, later: seq<Asset>, asset: Asset,
                                                 changeError: Option<Error>)
    requires forall a :: a in library ==> a.localIdentifier != asset.localIdentifier
    ensures AssetDelete(library + [asset] + later, asset.mediaType, asset.localIdentifier, changeError)
         == DeleteOutcome(Some(asset), changeError)
  {
    var s := library + [asset] + later;
    var p := (a: Asset) => a.localIdentifier == asset.localIdentifier && a.mediaType == asset.mediaType;
    assert s[|library|] == asset;
    forall j | 0 <= j < |library|
      ensures !p(s[j])
    {
      assert s[j] == library[j];
      assert library[j] in library;
    }
    FirstAt(s, p, |library|);
  }
}
