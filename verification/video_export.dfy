/**
 * Video export (`Video/KYPhotoLibrary+VideoExport.swift`): the private
 * `VideoExportSessionRequestActor` and `exportVideoFromPhotoLibrary`, which
 * requests an export session, sets its output file type and URL from the
 * export options and runs it.
 */
module VideoExport {
  import opened Wrappers
  import opened Errors
  import opened Paths
  import opened Photos
  import opened FileSystems
  import opened AssetQuery
  import opened Destinations
  import opened Export
  import opened ExportSessions

  class VideoExportSessionRequestActor {
    var requestID: Option<RequestID>
    /** The platform calls issued so far, in order. */
    var calls: seq<ForeignCall>

    constructor ()
      ensures requestID == None && calls == []
    {
      requestID := None;
      calls := [];
    }

    /** `requestSession`: asks for a session with the options' preset; `handle` is the request's identifier. */
    method RequestSession(asset: Asset, exportPreset: string, handle: RequestID)
      modifies this
      ensures requestID == Some(handle)
      ensures calls == old(calls) + [RequestExportSession(asset, exportPreset)]
    {
      calls := calls + [RequestExportSession(asset, exportPreset)];
      requestID := Some(handle);
    }

    /** The result handler: clears the handle; no session is `failedToPrepareExportSession`. */
    method CompleteSessionRequest(session: Option<ExportSession>) returns (r: Result<ExportSession, Error>)
      modifies this
      ensures requestID == None && calls == old(calls)
      ensures r == if session.Some? then Success(session.value) else Failure(OfVideoExport(VideoExportError.FailedToPrepareExportSession))
    {
      requestID := None;
      if session.Some? {
        r := Success(session.value);
      } else {
        r := Failure(OfVideoExport(VideoExportError.FailedToPrepareExportSession));
      }
    }

    /** `cancelRequst`: nothing when no request is pending; otherwise one cancel, and the handle is cleared. */
    method CancelRequest()
      modifies this
      ensures requestID == None
      ensures calls == old(calls) + if old(requestID).Some? then [CancelImageRequest(old(requestID).value)] else []
    {
      if requestID.None? {
        return;
      }
      calls := calls + [CancelImageRequest(requestID.value)];
      requestID := None;
    }
  }

  /**
   * `exportVideoFromPhotoLibrary`, as written. `handle` and `granted` are what
   * the image manager answers, the two flags whether the calling `Task` is found
   * cancelled at its two checks, and `finalStatus` and `sessionError` the
   * outcome of the platform export. The session's output file type is the
   * options' value from before the destination is prepared.
   */
  method ExportVideoFromPhotoLibrary(library: seq<Asset>, assetIdentifier: string, options: ExportOptions,
                                     fs: FileSystem, platform: Platform, handle: RequestID,
                                     granted: Option<ExportSession>, cancelledBeforeDestination: bool,
                                     cancelledBeforeExport: bool, finalStatus: ExportStatus,
                                     sessionError: Option<Error>)
    returns (r: Result<Option<Path>, Error>, calls: seq<ForeignCall>)
    modifies options, fs, if granted.Some? then {granted.value} else {}
    ensures AssetFromIdentifier(library, assetIdentifier, MediaType.Video).None? ==>
      r == Failure(OfVideoExport(VideoExportError.AssetNotFound(assetIdentifier))) && calls == []
    ensures AssetFromIdentifier(library, assetIdentifier, MediaType.Video).Some? ==>
      calls == [RequestExportSession(AssetFromIdentifier(library, assetIdentifier, MediaType.Video).value,
                                     options.exportPreset)]
    ensures AssetFromIdentifier(library, assetIdentifier, MediaType.Video).Some? && granted.None? ==>
      r == Failure(OfVideoExport(VideoExportError.FailedToPrepareExportSession))
    ensures (AssetFromIdentifier(library, assetIdentifier, MediaType.Video).Some? && granted.Some?
             && cancelledBeforeDestination) ==> r == Failure(Cancellation) && fs.paths == old(fs.paths)
    ensures (AssetFromIdentifier(library, assetIdentifier, MediaType.Video).Some? && granted.Some?
             && !cancelledBeforeDestination) ==>
      var asset := AssetFromIdentifier(library, assetIdentifier, MediaType.Video).value;
      var prepared := PrepareOutput(old(fs.paths), fs.protected, options.destinationFolderURL, old(options.Naming()),
                                    ResourceFor(Some(asset)), options.Default(), platform, options.shouldRemoveDuplicates);
      granted.value.outputFileType == Some(old(options.outputFileType))
      && options.Naming() == prepared.naming && fs.paths == prepared.existing
      && (prepared.result.Failure? ==> r == Failure(prepared.result.error))
      && (prepared.result.Success? ==>
            granted.value.outputURL == Some(prepared.result.value)
            && r == if cancelledBeforeExport then Failure(Cancellation)
                    else ExportResult(finalStatus, Some(prepared.result.value), sessionError))
  {
    var found := AssetFromIdentifier(library, assetIdentifier, MediaType.Video);
    if found.None? {
      return Failure(OfVideoExport(VideoExportError.AssetNotFound(assetIdentifier))), [];
    }
    var asset := found.value;
    var actor := new VideoExportSessionRequestActor();
    actor.RequestSession(asset, options.exportPreset, handle);
    var requested := actor.CompleteSessionRequest(granted);
    calls := actor.calls;
    if requested.Failure? {
      return Failure(requested.error), calls;
    }
    var session := requested.value;
    if cancelledBeforeDestination {
      return Failure(Cancellation), calls;
    }
    session.outputFileType := Some(options.outputFileType);
    var outputURL := options.PrepareOutputURL(fs, Some(asset), platform);
    if outputURL.Failure? {
      return Failure(outputURL.error), calls;
    }
    session.outputURL := Some(outputURL.value);
    if cancelledBeforeExport {
      return Failure(Cancellation), calls;
    }
    r := ExportVideo(session, finalStatus, sessionError);
  }

  /**
   * `exportVideoFromPhotoLibrary` as evidently intended: the output file type
   * is assigned after the destination is prepared, so the session exports in
   * the file type of the file it writes.
   */
  method ExportVideoFromPhotoLibraryIntended(library: seq<Asset>, assetIdentifier: string, options: ExportOptions,
                                             fs: FileSystem, platform: Platform, handle: RequestID,
                                             granted: Option<ExportSession>, cancelledBeforeDestination: bool,
                                             cancelledBeforeExport: bool, finalStatus: ExportStatus,
                                             sessionError: Option<Error>)
    returns (r: Result<Option<Path>, Error>, calls: seq<ForeignCall>)
    modifies options, fs, if granted.Some? then {granted.value} else {}
    ensures AssetFromIdentifier(library, assetIdentifier, MediaType.Video).None? ==>
      r == Failure(OfVideoExport(VideoExportError.AssetNotFound(assetIdentifier))) && calls == []
    ensures AssetFromIdentifier(library, assetIdentifier, MediaType.Video).Some? && granted.None? ==>
      r == Failure(OfVideoExport(VideoExportError.FailedToPrepareExportSession))
    ensures (AssetFromIdentifier(library, assetIdentifier, MediaType.Video).Some? && granted.Some?
             && !cancelledBeforeDestination) ==>
      var asset := AssetFromIdentifier(library, assetIdentifier, MediaType.Video).value;
      var prepared := PrepareOutput(old(fs.paths), fs.protected, options.destinationFolderURL, old(options.Naming()),
                                    ResourceFor(Some(asset)), options.Default(), platform, options.shouldRemoveDuplicates);
      options.Naming() == prepared.naming && fs.paths == prepared.existing
      && (prepared.result.Failure? ==> r == Failure(prepared.result.error))
      && (prepared.result.Success? ==>
            granted.value.outputFileType == Some(prepared.naming.outputFileType)
            && granted.value.outputURL == Some(prepared.result.value)
            && r == if cancelledBeforeExport then Failure(Cancellation)
                    else ExportResult(finalStatus, Some(prepared.result.value), sessionError))
  {
    var found := AssetFromIdentifier(library, assetIdentifier, MediaType.Video);
    if found.None? {
      return Failure(OfVideoExport(VideoExportError.AssetNotFound(assetIdentifier))), [];
    }
    var asset := found.value;
    var actor := new VideoExportSessionRequestActor();
    actor.RequestSession(asset, options.exportPreset, handle);
    var requested := actor.CompleteSessionRequest(granted);
    calls := actor.calls;
    if requested.Failure? {
      return Failure(requested.error), calls;
    }
    var session := requested.value;
    if cancelledBeforeDestination {
      return Failure(Cancellation), calls;
    }
    var outputURL := options.PrepareOutputURL(fs, Some(asset), platform);
    if outputURL.Failure? {
      return Failure(outputURL.error), calls;
    }
    session.outputFileType := Some(options.outputFileType);
    session.outputURL := Some(outputURL.value);
    if cancelledBeforeExport {
      return Failure(Cancellation), calls;
    }
    r := ExportVideo(session, finalStatus, sessionError);
  }

  /** A platform that knows the `mov` extension only. */
  const MovOnlyPlatform: Platform :=
    Platform((ext: string) => if ext == "mov" then Some("com.apple.quicktime-movie") else None,
             (uti: string) => None, (path: string) => Some(path), (text: string) => true)

  /** The extension of "clip.mov". */
  lemma {:induction false} ClipMovExtension()
    ensures PathExtension("clip.mov") == "mov" && DeletingPathExtension("clip.mov") == "clip"
  {
    AppendedExtension("clip", "mov");
    assert "clip" + "." + "mov" == "clip.mov";
  }

  /** Preparing "clip.mov" in an empty file system with that platform names a QuickTime file. */
  lemma {:induction false} ClipMovPrepared(resource: Option<Resource>)
    ensures PrepareOutput({}, {}, "clips", Naming("clip.mov", "", Mp4), resource, UntitledVideo, MovOnlyPlatform, false)
         == Prepared(Success("clips/clip.mov"), Naming("clip.mov", "mov", FileType("com.apple.quicktime-movie")),
                     {"clips"})
  {
    ClipMovExtension();
    assert Lowercased("mov") == "mov";
    assert FileTypeFromExtension(MovOnlyPlatform, "mov") == Some(FileType("com.apple.quicktime-movie"));
    var none: set<Path> := {};
    assert Join("clips", "clip.mov") == "clips/clip.mov";
    assert "clips/clip.mov" !in {"clips"};
    assert none + {"clips"} == {"clips"};
    assert WithFolder(none, none, "clips") == Some(none + {"clips"});
  }

  /**
   * Fresh video options for "clip.mov": the session is told to write MPEG-4,
   * the initial output file type, into a file named and typed as QuickTime.
   */
  method ExportVideoSetsInitialType(finalStatus: ExportStatus)
    returns (sessionType: Option<FileType>, preparedType: FileType, result: Result<Option<Path>, Error>)
    ensures sessionType == Some(Mp4)
    ensures preparedType == FileType("com.apple.quicktime-movie")
    ensures finalStatus == Completed ==> result == Success(Some("clips/clip.mov"))
  {
    var video := Asset("V1", MediaType.Video, 1920, 1080, []);
    var options := new ExportOptions.ForVideo("clips", Some("clip.mov"), ExportPresetPassthrough, false);
    var fs := new FileSystem({}, {});
    var session := new ExportSession(video, ExportPresetPassthrough);
    ClipMovPrepared(ResourceFor(Some(video)));
    assert AssetFromIdentifier([video], "V1", MediaType.Video) == Some(video);
    var r, calls := ExportVideoFromPhotoLibrary([video], "V1", options, fs, MovOnlyPlatform, 1,
                                                Some(session), false, false, finalStatus, None);
    sessionType, preparedType, result := session.outputFileType, options.outputFileType, r;
  }
}
