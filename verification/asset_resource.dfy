/** Choosing the asset resource that stands for an asset (`assetResource(for:)`). */
module AssetResources {
  import opened Wrappers
  import opened Photos

  /** The resource kinds that hold a photo. */
  predicate IsPhotoResource(r: Resource) {
    r.kind == ResourceType.Photo || r.kind == AlternatePhoto || r.kind == FullSizePhoto
    || r.kind == AdjustmentBasePhoto
  }

  /** The resource kinds that hold a video. */
  predicate IsVideoResource(r: Resource) {
    r.kind == ResourceType.Video || r.kind == FullSizeVideo || r.kind == PairedVideo
    || r.kind == FullSizePairedVideo || r.kind == AdjustmentBasePairedVideo || r.kind == AdjustmentBaseVideo
  }

  /**
   * The first resource whose kind suits the asset's media type, falling back to
   * the first resource; nothing only when the asset has no resources.
   */
  function AssetResource(asset: Asset): (r: Option<Resource>)
    ensures r.None? <==> asset.resources == []
    ensures r.Some? ==> r.value in asset.resources
  {
    var resources := asset.resources;
    var appropriate :=
      if asset.mediaType == MediaType.Image then First(resources, IsPhotoResource)
      else if asset.mediaType == MediaType.Video then First(resources, IsVideoResource)
      else None;
    if appropriate.Some? then appropriate
    else if |resources| > 0 then Some(resources[0])
    else None
  }

  /** For an image asset, the first photo resource is chosen. */
  lemma ImageAssetResource(asset: Asset, i: nat)
    requires asset.mediaType == MediaType.Image
    requires i < |asset.resources| && IsPhotoResource(asset.resources[i])
    requires forall j :: 0 <= j < i ==> !IsPhotoResource(asset.resources[j])
    ensures AssetResource(asset) == Some(asset.resources[i])
  {
    FirstAt(asset.resources, IsPhotoResource, i);
  }

  /** For a video asset, the first video resource is chosen. */
  lemma VideoAssetResource(asset: Asset, i: nat)
    requires asset.mediaType == MediaType.Video
    requires i < |asset.resources| && IsVideoResource(asset.resources[i])
    requires forall j :: 0 <= j < i ==> !IsVideoResource(asset.resources[j])
    ensures AssetResource(asset) == Some(asset.resources[i])
  {
    FirstAt(asset.resources, IsVideoResource, i);
  }

  /**
   * When no resource suits the media type, or the media type is neither image
   * nor video, the first resource is chosen.
   */
  lemma FallbackAssetResource(asset: Asset)
    requires asset.resources != []
    requires asset.mediaType == MediaType.Image ==> forall r :: r in asset.resources ==> !IsPhotoResource(r)
    requires asset.mediaType == MediaType.Video ==> forall r :: r in asset.resources ==> !IsVideoResource(r)
    ensures AssetResource(asset) == Some(asset.resources[0])
  {
  }

  /** `originalFilename(for:)`: the chosen resource's original filename. */
  function OriginalFilename(asset: Asset): (r: Option<string>)
    ensures r.None? <==> asset.resources == []
    ensures r.Some? ==> exists res :: res in asset.resources && res.originalFilename == r.value
  {
    match AssetResource(asset)
    case None => None
    case Some(res) => Some(res.originalFilename)
  }
}
