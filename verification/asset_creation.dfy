/**
 * The older `asset_save(image:videoURL:toAlbum:)`
 * (`KYPhotoLibrary+AssetCreation.swift`): the album name is required and
 * the album is looked up (or created) before the change block runs; its
 * outcome, `album`, is an input here.
 */
module AssetCreation {
  import opened Wrappers
  import opened Errors
  import opened Paths
  import opened Photos
  import opened Albums
  import opened AssetChange

  /** The image before the video file; never the image-file source. */
  function OlderSource(image: Option<LibraryImage>, videoURL: Option<Path>): (r: Option<SaveSource>)
    ensures r == PreferredSource(image, None, videoURL)
  {
    if image.Some? then Some(FromImage(image.value))
    else if videoURL.Some? then Some(FromVideoFile(videoURL.value))
    else None
  }

  /**
   * The older `asset_save`: no source, then an empty album name, then the
   * album lookup's error are checked in that order before any request; then
   * a missing placeholder is `failedToSaveAsset` and a missing collection
   * change request `failedToAddSavedAssetToAlbum(albumName)`.
   */
  function AssetSave(image: Option<LibraryImage>, videoURL: Option<Path>, albumName: string,
                     album: Result<Album, Error>, placeholder: Option<string>, collectionChangeable: bool)
    : (r: SaveOutcome)
    ensures image.None? && videoURL.None? ==> r == SaveOutcome(Failure(OfCommon(CommonError.NoAssetProvided)), None, None)
    ensures (image.Some? || videoURL.Some?) && albumName == "" ==>
      r == SaveOutcome(Failure(OfCommon(InvalidAlbumName(albumName))), None, None)
    ensures (image.Some? || videoURL.Some?) && albumName != "" && album.Failure? ==>
      r == SaveOutcome(Failure(album.error), None, None)
    ensures r.created.Some? <==> (image.Some? || videoURL.Some?) && albumName != "" && album.Success?
    ensures r.created.Some? ==> r.created == OlderSource(image, videoURL)
    ensures r.created.Some? && placeholder.None? ==> r.result == Failure(OfCommon(FailedToSaveAsset))
    ensures r.created.Some? && placeholder.Some? && !collectionChangeable ==>
      r.result == Failure(OfCommon(CommonError.FailedToAddSavedAssetToAlbum(albumName)))
    ensures r.result.Success? <==> r.created.Some? && placeholder.Some? && collectionChangeable
    ensures r.result.Success? ==> r.result.value == placeholder.value && r.addedTo == Some(album.value)
  {
    if image.None? && videoURL.None? then SaveOutcome(Failure(OfCommon(CommonError.NoAssetProvided)), None, None)
    else if albumName == "" then SaveOutcome(Failure(OfCommon(InvalidAlbumName(albumName))), None, None)
    else if album.Failure? then SaveOutcome(Failure(album.error), None, None)
    else
      var source := OlderSource(image, videoURL);
      if placeholder.None? then SaveOutcome(Failure(OfCommon(FailedToSaveAsset)), source, None)
      else if !collectionChangeable then
        SaveOutcome(Failure(OfCommon(CommonError.FailedToAddSavedAssetToAlbum(albumName))), source, None)
      else SaveOutcome(Success(placeholder.value), source, Some(album.value))
  }

  /**
   * The two versions agree on an existing album: the same request, the same
   * identifier on success, the same album changed. They differ only in the
   * error type they throw.
   */
  lemma {:induction false} AssetSaveVersionsAgree(albums: seq<Album>, image: Option<LibraryImage>,
                                                  videoURL: Option<Path>, albumName: string,
                                                  placeholder: Option<string>, collectionChangeable: bool)
    requires albumName != ""
    requires FindAlbum(albums, albumName).Some?
    ensures var older := AssetSave(image, videoURL, albumName, Success(FindAlbum(albums, albumName).value),
                                   placeholder, collectionChangeable);
      var newer := AssetChange.AssetSave(albums, image, None, videoURL, Some(albumName), placeholder,
                                         collectionChangeable);
      older.created == newer.created && older.addedTo == newer.addedTo
      && older.result.Success? == newer.result.Success?
      && (older.result.Success? ==> older.result.value == newer.result.value)
  {
    var older := AssetSave(image, videoURL, albumName, Success(FindAlbum(albums, albumName).value),
                           placeholder, collectionChangeable);
    var newer := AssetChange.AssetSave(albums, image, None, videoURL, Some(albumName), placeholder,
                                       collectionChangeable);
    assert OlderSource(image, videoURL) == PreferredSource(image, None, videoURL);
    if newer.result.Success? {
      assert newer.addedTo == FindAlbum(albums, albumName);
    }
  }
}
