/**
 * Asset queries (`KYPhotoLibrary+AssetQuery.swift`): the photo library is a
 * sequence of assets in fetch order, an album a sequence of its assets, and a
 * fetch with a media-type predicate and a fetch limit is a filter followed by a
 * limit.
 */
module AssetQuery {
  import opened Wrappers
  import opened Errors
  import opened Photos
  import opened Albums

  predicate HasMediaType(a: Asset, mediaType: MediaType) {
    a.mediaType == mediaType
  }

  /** `assetFromIdentifier`: the asset with that identifier, provided its media type matches. */
  function AssetFromIdentifier(library: seq<Asset>, assetIdentifier: string, mediaType: MediaType): (r: Option<Asset>)
    ensures r.Some? ==> r.value in library
    ensures r.Some? ==> r.value.localIdentifier == assetIdentifier && r.value.mediaType == mediaType
    ensures r.None? <==> forall a :: a in library ==> !(a.localIdentifier == assetIdentifier && a.mediaType == mediaType)
  {
    First(library, (a: Asset) => a.localIdentifier == assetIdentifier && a.mediaType == mediaType)
  }

  /** `assetsFromIdentifier`: every asset named in the list whose media type matches, with no limit. */
  function AssetsFromIdentifiers(library: seq<Asset>, assetIdentifiers: seq<string>, mediaType: MediaType): (r: seq<Asset>)
    ensures forall a :: a in r ==> a in library && a.localIdentifier in assetIdentifiers && a.mediaType == mediaType
    ensures forall a :: a in library && a.localIdentifier in assetIdentifiers && a.mediaType == mediaType ==> a in r
  {
    Filter(library, (a: Asset) => a.localIdentifier in assetIdentifiers && a.mediaType == mediaType)
  }

  /** The assets of an album that have the media type, in fetch order. */
  function AssetsOfType(assets: seq<Asset>, mediaType: MediaType): seq<Asset> {
    Filter(assets, (a: Asset) => HasMediaType(a, mediaType))
  }

  /**
   * `loadAssets`: an empty album name is invalid; a missing album gives no
   * assets; otherwise the album's assets of the media type, at most `limit` of
   * them unless `limit` is zero.
   */
  function LoadAssets(albums: seq<Album>, albumName: string, mediaType: MediaType, limit: nat): (r: Result<seq<Asset>, Error>)
    ensures albumName == "" <==> r == Failure(OfAlbum(InvalidName(albumName)))
    ensures r.Failure? ==> albumName == ""
    ensures albumName != "" && FindAlbum(albums, albumName).None? ==> r == Success([])
    ensures r.Success? ==> forall a :: a in r.value ==> a.mediaType == mediaType
    ensures r.Success? && r.value != [] ==>
      exists album :: album in albums && HasTitle(album, albumName) && forall a :: a in r.value ==> a in album.assets
    ensures r.Success? && limit != 0 ==> |r.value| <= limit
  {
    if albumName == "" then Failure(OfAlbum(InvalidName(albumName)))
    else match FindAlbum(albums, albumName)
      case None => Success([])
      case Some(album) =>
        var all := AssetsOfType(album.assets, mediaType);
        var limited := Limit(all, limit);
        assert forall a :: a in limited ==> a in all by {
          forall a | a in limited ensures a in all {
            var k :| 0 <= k < |limited| && limited[k] == a;
            assert all[k] == a;
          }
        }
        Success(limited)
  }

  /** With no limit, every asset of the found album that has the media type is loaded, in order. */
  lemma LoadAssetsUnlimited(albums: seq<Album>, albumName: string, mediaType: MediaType, i: nat)
    requires albumName != ""
    requires i < |albums| && HasTitle(albums[i], albumName)
    requires forall j :: 0 <= j < i ==> !HasTitle(albums[j], albumName)
    ensures LoadAssets(albums, albumName, mediaType, 0) == Success(AssetsOfType(albums[i].assets, mediaType))
  {
    FindAlbumIsFirst(albums, albumName, i);
  }

  /** A limit keeps the front of the unlimited result: raising the limit only appends. */
  lemma {:induction false} LoadAssetsLimitIsPrefix(albums: seq<Album>, albumName: string, mediaType: MediaType, limit: nat)
    ensures LoadAssets(albums, albumName, mediaType, limit).Success?
      ==> LoadAssets(albums, albumName, mediaType, limit).value <= LoadAssets(albums, albumName, mediaType, 0).value
  {
  }

  /** The identifiers of a sequence of assets, one per asset, in order. */
  function Identifiers(assets: seq<Asset>): (r: seq<string>)
    ensures |r| == |assets|
    ensures forall i :: 0 <= i < |r| ==> r[i] == assets[i].localIdentifier
  {
    seq(|assets|, i requires 0 <= i < |assets| => assets[i].localIdentifier)
  }

  /**
   * `loadAssetIdentifiers`: the same validation as `loadAssets`, then one
   * identifier per fetched asset, appended in fetch order.
   */
  method LoadAssetIdentifiers(albums: seq<Album>, albumName: string, mediaType: MediaType, limit: nat)
    returns (r: Result<seq<string>, Error>)
    ensures albumName == "" ==> r == Failure(OfAlbum(InvalidName(albumName)))
    ensures LoadAssets(albums, albumName, mediaType, limit).Success? ==>
      r == Success(Identifiers(LoadAssets(albums, albumName, mediaType, limit).value))
    ensures r.Success? ==> forall id :: id in r.value ==>
      exists a :: a in LoadAssets(albums, albumName, mediaType, limit).value && a.localIdentifier == id
  {
    if albumName == "" {
      return Failure(OfAlbum(InvalidName(albumName)));
    }
    var loaded := LoadAssets(albums, albumName, mediaType, limit);
    var assets := loaded.value;
    if assets == [] {
      return Success([]);
    }
    var assetIdentifiers: seq<string> := [];
    var i := 0;
    while i < |assets|
      invariant 0 <= i <= |assets|
      invariant assetIdentifiers == Identifiers(assets[..i])
    {
      assetIdentifiers := assetIdentifiers + [assets[i].localIdentifier];
      i := i + 1;
    }
    assert assets[..i] == assets;
    r := Success(assetIdentifiers);
    assert forall k :: 0 <= k < |assets| ==> assets[k] in assets && assets[k].localIdentifier == assetIdentifiers[k];
  }
}
