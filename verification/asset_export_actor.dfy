/**
 * `KYPhotoLibraryAssetExportActor`: the export-session request of the older
 * video export, which fails with `KYPhotoLibraryError`.
 */
module AssetExportActors {
  import opened Wrappers
  import opened Errors
  import opened Photos
  import opened ExportSessions

  class AssetExportActor {
    var requestID: Option<RequestID>
    /** The platform calls issued so far, in order. */
    var calls: seq<ForeignCall>

    constructor ()
      ensures requestID == None && calls == []
    {
      requestID := None;
      calls := [];
    }

    /** `requestExportSession`: asks for a session with the options' preset; `handle` is the request's identifier. */
    method RequestExportSession(asset: Asset, exportPreset: string, handle: RequestID)
      modifies this
      ensures requestID == Some(handle)
      ensures calls == old(calls) + [ForeignCall.RequestExportSession(asset, exportPreset)]
    {
      calls := calls + [ForeignCall.RequestExportSession(asset, exportPreset)];
      requestID := Some(handle);
    }

    /** The result handler: clears the handle; no session is `failedToPrepareExportSession`. */
    method CompleteExportSessionRequest(session: Option<ExportSession>) returns (r: Result<ExportSession, Error>)
      modifies this
      ensures requestID == None && calls == old(calls)
      ensures r == if session.Some? then Success(session.value)
                   else Failure(OfLibrary(LibraryError.FailedToPrepareExportSession))
    {
      requestID := None;
      if session.Some? {
        r := Success(session.value);
      } else {
        r := Failure(OfLibrary(LibraryError.FailedToPrepareExportSession));
      }
    }

    /** `cancelRequst`: nothing when no request is pending; otherwise one cancel, and the handle is cleared. */
    method CancelRequest()
      modifies this
      ensures requestID == None
      ensures calls == old(calls) + if old(requestID).Some? then [CancelImageRequest(old(requestID).value)] else []
    {
      if requestID.None? {
        return;
      }
      calls := calls + [CancelImageRequest(requestID.value)];
      requestID := None;
    }
  }

  /** A cancel after the session arrived issues no platform call: the handle was already cleared. */
  method CancelAfterSessionArrived(asset: Asset, exportPreset: string, handle: RequestID, session: Option<ExportSession>)
    returns (calls: seq<ForeignCall>, r: Result<ExportSession, Error>)
    ensures calls == [ForeignCall.RequestExportSession(asset, exportPreset)]
    ensures r.Failure? <==> session.None?
  {
    var actor := new AssetExportActor();
    actor.RequestExportSession(asset, exportPreset, handle);
    r := actor.CompleteExportSessionRequest(session);
    actor.CancelRequest();
    calls := actor.calls;
  }

  /** A cancel while the request is pending cancels that request, once. */
  method CancelPendingTwice(asset: Asset, exportPreset: string, handle: RequestID)
    returns (calls: seq<ForeignCall>)
    ensures calls == [ForeignCall.RequestExportSession(asset, exportPreset), CancelImageRequest(handle)]
  {
    var actor := new AssetExportActor();
    actor.RequestExportSession(asset, exportPreset, handle);
    actor.CancelRequest();
    actor.CancelRequest();
    calls := actor.calls;
  }
}
