/**
 * The older video export (`KYPhotoLibrary+VideoExport.swift`), driven by
 * `KYPhotoLibraryVideoExportOptions` and `KYPhotoLibraryAssetExportActor`:
 * one cancellation check, and a destination that is always produced.
 */
module LegacyVideoExport {
  import opened Wrappers
  import opened Errors
  import opened Paths
  import opened Photos
  import opened FileSystems
  import opened AssetQuery
  import opened Destinations
  import opened LegacyExport
  import opened ExportSessions
  import opened AssetExportActors

  /**
   * `exportVideoFromPhotoLibrary`, as written. `handle` and `granted` are what
   * the image manager answers, `cancelled` whether the calling `Task` is found
   * cancelled at its one check, and `finalStatus` and `sessionError` the
   * outcome of the platform export. As in the newer export, the session's
   * output file type is the options' value from before the destination is
   * prepared.
   */
  method ExportVideoFromPhotoLibrary(library: seq<Asset>, assetIdentifier: string, options: VideoExportOptions,
                                     fs: FileSystem, platform: Platform, handle: RequestID,
                                     granted: Option<ExportSession>, cancelled: bool, finalStatus: ExportStatus,
                                     sessionError: Option<Error>)
    returns (r: Result<Option<Path>, Error>, calls: seq<ForeignCall>)
    modifies options, fs, if granted.Some? then {granted.value} else {}
    ensures AssetFromIdentifier(library, assetIdentifier, MediaType.Video).None? ==>
      r == Failure(OfLibrary(LibraryError.AssetNotFound(assetIdentifier))) && calls == []
    ensures AssetFromIdentifier(library, assetIdentifier, MediaType.Video).Some? ==>
      calls == [ForeignCall.RequestExportSession(AssetFromIdentifier(library, assetIdentifier, MediaType.Video).value,
                                                 options.exportPreset)]
    ensures AssetFromIdentifier(library, assetIdentifier, MediaType.Video).Some? && granted.None? ==>
      r == Failure(OfLibrary(LibraryError.FailedToPrepareExportSession))
    ensures (AssetFromIdentifier(library, assetIdentifier, MediaType.Video).Some? && granted.Some? && cancelled) ==>
      r == Failure(Cancellation) && fs.paths == old(fs.paths) && options.Naming() == old(options.Naming())
    ensures (AssetFromIdentifier(library, assetIdentifier, MediaType.Video).Some? && granted.Some? && !cancelled) ==>
      var asset := AssetFromIdentifier(library, assetIdentifier, MediaType.Video).value;
      var prepared := PrepareUniqueDestination(old(fs.paths), fs.protected, options.folderURL, old(options.Naming()),
                                               ResourceFor(Some(asset)), platform, options.shouldRemoveDuplicates);
      granted.value.outputFileType == Some(old(options.outputFileType))
      && granted.value.outputURL == Some(prepared.result.value)
      && options.Naming() == prepared.naming && fs.paths == prepared.existing
      && r == ExportResult(finalStatus, Some(prepared.result.value), sessionError)
  {
    var found := AssetFromIdentifier(library, assetIdentifier, MediaType.Video);
    if found.None? {
      return Failure(OfLibrary(LibraryError.AssetNotFound(assetIdentifier))), [];
    }
    var asset := found.value;
    var actor := new AssetExportActor();
    actor.RequestExportSession(asset, options.exportPreset, handle);
    var requested := actor.CompleteExportSessionRequest(granted);
    calls := actor.calls;
    if requested.Failure? {
      return Failure(requested.error), calls;
    }
    var session := requested.value;
    if cancelled {
      return Failure(Cancellation), calls;
    }
    session.outputFileType := Some(options.outputFileType);
    var outputURL := options.PrepareUniqueDestinationURL(fs, asset, platform);
    session.outputURL := Some(outputURL);
    r := ExportVideo(session, finalStatus, sessionError);
  }
}
