/**
 * `AVAssetExportSession` as the video export code uses it: the fields it
 * assigns, and the mapping of the session's final status to the result of
 * `_exportVideo(with:)`, which both video export entry points share.
 */
module ExportSessions {
  import opened Wrappers
  import opened Errors
  import opened Paths
  import opened Photos

  /** `AVAssetExportSession.Status`. */
  datatype ExportStatus = Unknown | Waiting | Exporting | Completed | Failed | Cancelled

  class ExportSession {
    const asset: Asset
    const presetName: string
    var outputFileType: Option<FileType>
    var outputURL: Option<Path>
    var status: ExportStatus
    var error: Option<Error>

    constructor (asset: Asset, presetName: string)
      ensures this.asset == asset && this.presetName == presetName
      ensures outputFileType == None && outputURL == None && status == ExportStatus.Unknown && error == None
    {
      this.asset := asset;
      this.presetName := presetName;
      outputFileType := None;
      outputURL := None;
      status := ExportStatus.Unknown;
      error := None;
    }

    /** `export()`: the platform runs the export; its final status and error are inputs here. */
    method Export(finalStatus: ExportStatus, finalError: Option<Error>)
      modifies this
      ensures status == finalStatus && error == finalError
      ensures outputFileType == old(outputFileType) && outputURL == old(outputURL)
    {
      status := finalStatus;
      error := finalError;
    }
  }

  /**
   * The result of `_exportVideo(with:)` for a final status: the output URL when
   * completed, the session error when failed with one, and no URL otherwise.
   */
  function ExportResult(status: ExportStatus, outputURL: Option<Path>, error: Option<Error>)
    : (r: Result<Option<Path>, Error>)
    ensures r.Failure? <==> status == Failed && error.Some?
    ensures r.Failure? ==> r.error == error.value
    ensures status == Completed ==> r == Success(outputURL)
    ensures r.Success? && r.value.Some? ==> status == Completed && r.value == outputURL
    ensures status != Completed && r.Success? ==> r.value == None
  {
    match status
    case Completed => Success(outputURL)
    case Failed => if error.Some? then Failure(error.value) else Success(None)
    case Cancelled => Success(None)
    case _ => Success(None)
  }

  /** `_exportVideo(with:)`: runs the export and maps its final status. */
  method ExportVideo(session: ExportSession, finalStatus: ExportStatus, finalError: Option<Error>)
    returns (r: Result<Option<Path>, Error>)
    modifies session
    ensures r == ExportResult(finalStatus, session.outputURL, finalError)
    ensures session.status == finalStatus && session.error == finalError
    ensures session.outputFileType == old(session.outputFileType) && session.outputURL == old(session.outputURL)
  {
    session.Export(finalStatus, finalError);
    match session.status
    case Completed =>
      r := Success(session.outputURL);
    case Failed =>
      if session.error.Some? {
        r := Failure(session.error.value);
      } else {
        r := Success(None);
      }
    case Cancelled =>
      r := Success(None);
    case _ =>
      r := Success(None);
  }
}
