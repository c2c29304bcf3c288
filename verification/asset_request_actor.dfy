/**
 * `AssetRequestActor`: holds the handle of the pending image-manager request
 * and of the pending content-editing-input request. Each request sets its
 * handle; its completion clears it and maps the platform's answer to a result;
 * cancelling cancels and clears what is pending. The actor is a sequential
 * object here, and the platform calls it issues are recorded in `calls`.
 */
module AssetRequests {
  import opened Wrappers
  import opened Errors
  import opened Paths
  import opened Photos

  /** `PHContentEditingInput`, reduced to its full-size image URL. */
  datatype ContentEditingInput = ContentEditingInput(fullSizeImageURL: Option<Path>)

  /** The size asked of the image manager: the asset's pixel size when the expected size is zero. */
  function TargetSize(asset: Asset, expectedSize: Size): (r: Size)
    ensures expectedSize == Size(0, 0) ==> r == Size(asset.pixelWidth, asset.pixelHeight)
    ensures expectedSize != Size(0, 0) ==> r == expectedSize
  {
    if expectedSize == Size(0, 0) then Size(asset.pixelWidth, asset.pixelHeight) else expectedSize
  }

  /** The cancel calls `cancelRequst(_:)` issues for the given handles. */
  function CancelCalls(requestID: Option<RequestID>, contentEditingInputRequestID: Option<RequestID>,
                       asset: Option<Asset>): (r: seq<ForeignCall>)
    ensures |r| == (if requestID.Some? then 1 else 0)
                   + (if contentEditingInputRequestID.Some? && asset.Some? then 1 else 0)
    ensures forall c :: c in r && c.CancelImageRequest? ==> requestID == Some(c.requestID)
    ensures forall c :: c in r && c.CancelContentEditingInputRequest? ==>
      contentEditingInputRequestID == Some(c.requestID) && asset == Some(c.asset)
    ensures forall c :: c in r ==> c.CancelImageRequest? || c.CancelContentEditingInputRequest?
  {
    (if requestID.Some? then [CancelImageRequest(requestID.value)] else [])
    + (if contentEditingInputRequestID.Some? && asset.Some?
       then [CancelContentEditingInputRequest(asset.value, contentEditingInputRequestID.value)] else [])
  }

  class AssetRequestActor {
    var requestID: Option<RequestID>
    var contentEditingInputRequestID: Option<RequestID>
    /** The platform calls issued so far, in order. */
    var calls: seq<ForeignCall>

    constructor ()
      ensures requestID == None && contentEditingInputRequestID == None && calls == []
    {
      requestID := None;
      contentEditingInputRequestID := None;
      calls := [];
    }

    /** `requestImage`: issues the image request; `handle` is the identifier the image manager returns. */
    method RequestImage(asset: Asset, expectedSize: Size, handle: RequestID)
      modifies this
      ensures requestID == Some(handle) && contentEditingInputRequestID == old(contentEditingInputRequestID)
      ensures calls == old(calls) + [ForeignCall.RequestImage(asset, TargetSize(asset, expectedSize))]
    {
      var targetSize := TargetSize(asset, expectedSize);
      calls := calls + [ForeignCall.RequestImage(asset, targetSize)];
      requestID := Some(handle);
    }

    /** The result handler of `requestImage`: clears the handle; no image is `failedToLoadAsset`. */
    method CompleteImageRequest(result: Option<LibraryImage>) returns (r: Result<LibraryImage, Error>)
      modifies this
      ensures requestID == None && contentEditingInputRequestID == old(contentEditingInputRequestID)
      ensures calls == old(calls)
      ensures r == if result.Some? then Success(result.value) else Failure(OfAsset(FailedToLoadAsset))
    {
      requestID := None;
      if result.Some? {
        r := Success(result.value);
      } else {
        r := Failure(OfAsset(FailedToLoadAsset));
      }
    }

    /** `requestImageURL`: issues the content-editing-input request. */
    method RequestImageURL(asset: Asset, handle: RequestID)
      modifies this
      ensures contentEditingInputRequestID == Some(handle) && requestID == old(requestID)
      ensures calls == old(calls) + [RequestContentEditingInput(asset)]
    {
      calls := calls + [RequestContentEditingInput(asset)];
      contentEditingInputRequestID := Some(handle);
    }

    /**
     * The handler of `requestImageURL`: clears the content-editing handle; no
     * input, or an input without a full-size URL, is `failedToGetAssetURL`.
     */
    method CompleteImageURLRequest(input: Option<ContentEditingInput>) returns (r: Result<Path, Error>)
      modifies this
      ensures contentEditingInputRequestID == None && requestID == old(requestID)
      ensures calls == old(calls)
      ensures r.Success? <==> input.Some? && input.value.fullSizeImageURL.Some?
      ensures r.Success? ==> r.value == input.value.fullSizeImageURL.value
      ensures r.Failure? ==> r.error == OfAsset(FailedToGetAssetURL)
    {
      contentEditingInputRequestID := None;
      if input.Some? && input.value.fullSizeImageURL.Some? {
        r := Success(input.value.fullSizeImageURL.value);
      } else {
        r := Failure(OfAsset(FailedToGetAssetURL));
      }
    }

    /** `requestVideo` and `requestVideoURL`: issue the AV-asset request. */
    method RequestVideo(asset: Asset, handle: RequestID)
      modifies this
      ensures requestID == Some(handle) && contentEditingInputRequestID == old(contentEditingInputRequestID)
      ensures calls == old(calls) + [RequestAVAsset(asset)]
    {
      calls := calls + [RequestAVAsset(asset)];
      requestID := Some(handle);
    }

    /** The handler of `requestVideo`: clears the handle; no asset is `failedToLoadAsset`. */
    method CompleteVideoRequest(result: Option<MediaAsset>) returns (r: Result<MediaAsset, Error>)
      modifies this
      ensures requestID == None && contentEditingInputRequestID == old(contentEditingInputRequestID)
      ensures calls == old(calls)
      ensures r == if result.Some? then Success(result.value) else Failure(OfAsset(FailedToLoadAsset))
    {
      requestID := None;
      if result.Some? {
        r := Success(result.value);
      } else {
        r := Failure(OfAsset(FailedToLoadAsset));
      }
    }

    /**
     * The handler of `requestVideoURL`: clears the handle; only a file-backed
     * asset has a URL, anything else is `failedToGetAssetURL`.
     */
    method CompleteVideoURLRequest(result: Option<MediaAsset>) returns (r: Result<Path, Error>)
      modifies this
      ensures requestID == None && contentEditingInputRequestID == old(contentEditingInputRequestID)
      ensures calls == old(calls)
      ensures r.Success? <==> result.Some? && result.value.URLAsset?
      ensures r.Success? ==> r.value == result.value.url
      ensures r.Failure? ==> r.error == OfAsset(FailedToGetAssetURL)
    {
      requestID := None;
      if result.Some? && result.value.URLAsset? {
        r := Success(result.value.url);
      } else {
        r := Failure(OfAsset(FailedToGetAssetURL));
      }
    }

    /**
     * `cancelRequst(_:)`: a pending image-manager request is cancelled and
     * cleared; the content-editing request only when the asset is passed.
     */
    method CancelRequest(asset: Option<Asset>)
      modifies this
      ensures calls == old(calls) + CancelCalls(old(requestID), old(contentEditingInputRequestID), asset)
      ensures requestID == None
      ensures contentEditingInputRequestID == if asset.Some? then None else old(contentEditingInputRequestID)
    {
      if requestID.Some? {
        calls := calls + [CancelImageRequest(requestID.value)];
        requestID := None;
      }
      if contentEditingInputRequestID.Some? && asset.Some? {
        calls := calls + [CancelContentEditingInputRequest(asset.value, contentEditingInputRequestID.value)];
        contentEditingInputRequestID := None;
      }
    }
  }

  /**
   * A cancel that arrives after the image request completed issues no cancel
   * call: the completion already cleared the handle.
   */
  method CancelAfterImageCompletion(asset: Asset, expectedSize: Size, handle: RequestID, result: Option<LibraryImage>)
    returns (r: Result<LibraryImage, Error>, calls: seq<ForeignCall>)
    ensures calls == [ForeignCall.RequestImage(asset, TargetSize(asset, expectedSize))]
    ensures r.Success? <==> result.Some?
  {
    var actor := new AssetRequestActor();
    actor.RequestImage(asset, expectedSize, handle);
    r := actor.CompleteImageRequest(result);
    actor.CancelRequest(Some(asset));
    calls := actor.calls;
  }

  /**
   * A cancel while the video-URL request is pending cancels it exactly once;
   * a second cancel issues nothing more.
   */
  method CancelPendingVideoURLTwice(asset: Asset, handle: RequestID) returns (calls: seq<ForeignCall>)
    ensures calls == [RequestAVAsset(asset), CancelImageRequest(handle)]
  {
    var actor := new AssetRequestActor();
    actor.RequestVideo(asset, handle);
    actor.CancelRequest(None);
    actor.CancelRequest(None);
    calls := actor.calls;
  }

  /**
   * `_videoURL(of:)` cancels without passing the asset, so a pending
   * content-editing request of the same actor survives the cancel.
   */
  method CancelWithoutAssetKeepsContentEditingRequest(asset: Asset, handle: RequestID)
    returns (pending: Option<RequestID>, calls: seq<ForeignCall>)
    ensures pending == Some(handle)
    ensures calls == [RequestContentEditingInput(asset)]
  {
    var actor := new AssetRequestActor();
    actor.RequestImageURL(asset, handle);
    actor.CancelRequest(None);
    pending := actor.contentEditingInputRequestID;
    calls := actor.calls;
  }
}
