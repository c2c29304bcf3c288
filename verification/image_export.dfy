/**
 * Image export (`Image/KYPhotoLibrary+ImageExport.swift`): the private
 * `ImageDataRequestActor`, which requests image data and keeps the handle of
 * the request or the progress of the load, and the two export entry points.
 */
module ImageExport {
  import opened Wrappers
  import opened Errors
  import opened Paths
  import opened Photos
  import opened FileSystems
  import opened AssetQuery
  import opened Destinations
  import opened Export

  /** The cancel call `cancelRequst` issues: the image request if there is one, else the load progress. */
  function ImageDataCancelCalls(requestID: Option<RequestID>, progress: Option<ProgressID>): (r: seq<ForeignCall>)
    ensures |r| <= 1
    ensures r == [] <==> requestID.None? && progress.None?
    ensures requestID.Some? ==> r == [CancelImageRequest(requestID.value)]
    ensures requestID.None? && progress.Some? ==> r == [CancelProgress(progress.value)]
  {
    if requestID.Some? then [CancelImageRequest(requestID.value)]
    else if progress.Some? then [CancelProgress(progress.value)]
    else []
  }

  class ImageDataRequestActor {
    var requestID: Option<RequestID>
    var progress: Option<ProgressID>
    /** The platform calls issued so far, in order. */
    var calls: seq<ForeignCall>

    constructor ()
      ensures requestID == None && progress == None && calls == []
    {
      requestID := None;
      progress := None;
      calls := [];
    }

    /** `requestOriginalImageData`: issues the request; `handle` is what the image manager returns. */
    method RequestOriginalImageData(asset: Asset, handle: RequestID)
      modifies this
      ensures requestID == Some(handle) && progress == old(progress)
      ensures calls == old(calls) + [RequestImageDataAndOrientation(asset)]
    {
      calls := calls + [RequestImageDataAndOrientation(asset)];
      requestID := Some(handle);
    }

    /**
     * The result handler of `requestOriginalImageData`. It changes no field:
     * unlike `AssetRequestActor`, the request handle stays set.
     */
    method CompleteOriginalImageData(data: Option<ImageData>) returns (r: Result<ImageData, Error>)
      ensures r.Success? <==> data.Some?
      ensures r.Success? ==> r.value == data.value
      ensures r.Failure? ==> r.error == OfImageExport(FailedToRequestOriginalImageData)
    {
      if data.Some? {
        r := Success(data.value);
      } else {
        r := Failure(OfImageExport(FailedToRequestOriginalImageData));
      }
    }

    /** `requestImageData(forTpye:image:)`: starts the load; `loadProgress` is the `Progress` it returns. */
    method RequestImageData(typeIdentifier: string, image: LibraryImage, loadProgress: ProgressID)
      modifies this
      ensures progress == Some(loadProgress) && requestID == old(requestID)
      ensures calls == old(calls) + [LoadData(typeIdentifier)]
    {
      calls := calls + [LoadData(typeIdentifier)];
      progress := Some(loadProgress);
    }

    /**
     * The completion of the load: no data is an error naming the type and the
     * platform error's description, or "" when there is none. No field changes.
     */
    method CompleteImageData(typeIdentifier: string, data: Option<ImageData>, errorDescription: Option<string>)
      returns (r: Result<ImageData, Error>)
      ensures r.Success? <==> data.Some?
      ensures r.Success? ==> r.value == data.value
      ensures r.Failure? ==>
        r.error == OfImageExport(FailedToRequestImageDataForType(typeIdentifier, errorDescription.GetOr("")))
    {
      if data.Some? {
        r := Success(data.value);
      } else {
        r := Failure(OfImageExport(FailedToRequestImageDataForType(typeIdentifier, errorDescription.GetOr(""))));
      }
    }

    /**
     * `cancelRequst`: a set request handle is cancelled and cleared and the
     * progress is left alone; only without a handle is the progress cancelled
     * and cleared.
     */
    method CancelRequest()
      modifies this
      ensures calls == old(calls) + ImageDataCancelCalls(old(requestID), old(progress))
      ensures requestID == None
      ensures progress == if old(requestID).Some? then old(progress) else None
    {
      if requestID.Some? {
        calls := calls + [CancelImageRequest(requestID.value)];
        requestID := None;
      } else if progress.Some? {
        calls := calls + [CancelProgress(progress.value)];
        progress := None;
      }
    }
  }

  /**
   * Because the completion keeps the handle, a cancel that arrives after the
   * data came back still issues a cancel for the finished request.
   */
  method CancelAfterOriginalDataCompletion(asset: Asset, handle: RequestID, data: Option<ImageData>)
    returns (r: Result<ImageData, Error>, calls: seq<ForeignCall>)
    ensures calls == [RequestImageDataAndOrientation(asset), CancelImageRequest(handle)]
    ensures r.Success? <==> data.Some?
  {
    var actor := new ImageDataRequestActor();
    actor.RequestOriginalImageData(asset, handle);
    r := actor.CompleteOriginalImageData(data);
    actor.CancelRequest();
    calls := actor.calls;
  }

  /** The outcome once the data is written to a prepared URL: a failed write is thrown. */
  function AfterWrite(prepared: Prepared, protected: set<Path>): (r: Prepared)
    ensures r.naming == prepared.naming
    ensures r.result.Success? ==> prepared.result == r.result && r.existing == prepared.existing + {r.result.value}
    ensures prepared.result.Success? && prepared.result.value in protected ==>
      r.result == Failure(OfFileSystem(CannotWriteFile(prepared.result.value))) && r.existing == prepared.existing
    ensures prepared.result.Success? && prepared.result.value !in protected ==> r.result == prepared.result
    ensures prepared.result.Failure? ==> r == prepared
  {
    match prepared.result
    case Failure(_) => prepared
    case Success(url) =>
      if url in protected then prepared.(result := Failure(OfFileSystem(CannotWriteFile(url))))
      else prepared.(existing := prepared.existing + {url})
  }

  /** The file is written to the prepared URL; a failed write is thrown. */
  method WriteImageData(fs: FileSystem, outputURL: Path) returns (r: Result<Path, Error>)
    modifies fs
    ensures r == if outputURL in fs.protected then Failure(OfFileSystem(CannotWriteFile(outputURL))) else Success(outputURL)
    ensures fs.paths == if r.Success? then old(fs.paths) + {outputURL} else old(fs.paths)
  {
    var ok := fs.Write(outputURL);
    r := if ok then Success(outputURL) else Failure(OfFileSystem(CannotWriteFile(outputURL)));
  }

  /**
   * `exportImageFromPhotoLibrary`: finds the image asset (an unknown one is
   * `AssetError.assetNotFound`), requests its original data, checks for
   * cancellation, prepares the output URL for the asset and writes the data
   * there. `handle` and `data` are what the image manager answers and
   * `cancelled` whether the calling `Task` was cancelled by the time it is checked.
   */
  method ExportImageFromPhotoLibrary(library: seq<Asset>, assetIdentifier: string, options: ExportOptions,
                                     fs: FileSystem, platform: Platform, handle: RequestID, data: Option<ImageData>,
                                     cancelled: bool)
    returns (r: Result<Path, Error>)
    modifies options, fs
    ensures AssetFromIdentifier(library, assetIdentifier, MediaType.Image).None? ==>
      r == Failure(OfAsset(AssetError.AssetNotFound(assetIdentifier)))
    ensures AssetFromIdentifier(library, assetIdentifier, MediaType.Image).Some? && data.None? ==>
      r == Failure(OfImageExport(FailedToRequestOriginalImageData))
    ensures AssetFromIdentifier(library, assetIdentifier, MediaType.Image).Some? && data.Some? && cancelled ==>
      r == Failure(Cancellation)
    ensures AssetFromIdentifier(library, assetIdentifier, MediaType.Image).None? || data.None? || cancelled ==>
      fs.paths == old(fs.paths) && options.Naming() == old(options.Naming())
    ensures AssetFromIdentifier(library, assetIdentifier, MediaType.Image).Some? && data.Some? && !cancelled ==>
      var asset := AssetFromIdentifier(library, assetIdentifier, MediaType.Image).value;
      Prepared(r, options.Naming(), fs.paths)
        == AfterWrite(PrepareOutput(old(fs.paths), fs.protected, options.destinationFolderURL, old(options.Naming()),
                                    ResourceFor(Some(asset)), options.Default(), platform, options.shouldRemoveDuplicates),
                      fs.protected)
    ensures r.Success? ==> r.value == Join(options.destinationFolderURL, options.filename) && r.value in fs.paths
  {
    var found := AssetFromIdentifier(library, assetIdentifier, MediaType.Image);
    if found.None? {
      return Failure(OfAsset(AssetError.AssetNotFound(assetIdentifier)));
    }
    var asset := found.value;
    var actor := new ImageDataRequestActor();
    actor.RequestOriginalImageData(asset, handle);
    var imageData := actor.CompleteOriginalImageData(data);
    if imageData.Failure? {
      return Failure(imageData.error);
    }
    if cancelled {
      return Failure(Cancellation);
    }
    var outputURL := options.PrepareOutputURL(fs, Some(asset), platform);
    if outputURL.Failure? {
      return Failure(outputURL.error);
    }
    r := WriteImageData(fs, outputURL.value);
  }

  /** What `exportImage` did: its result and the type identifier it asked the image's data for. */
  datatype ImageExportRun = ImageExportRun(result: Result<Path, Error>, requestedType: string)

  /**
   * `exportImage`, as written: the image's data is requested for the options'
   * output file type as it stands before the output URL is prepared, and the
   * output URL is then prepared with no asset, so the naming falls back to the
   * filename given or the default.
   */
  method ExportImage(image: LibraryImage, options: ExportOptions, fs: FileSystem, platform: Platform,
                     loadProgress: ProgressID, data: Option<ImageData>, errorDescription: Option<string>,
                     cancelled: bool)
    returns (run: ImageExportRun)
    modifies options, fs
    ensures run.requestedType == old(options.outputFileType).rawValue
    ensures data.None? ==>
      run.result == Failure(OfImageExport(FailedToRequestImageDataForType(run.requestedType, errorDescription.GetOr(""))))
    ensures data.Some? && cancelled ==> run.result == Failure(Cancellation)
    ensures data.None? || cancelled ==> fs.paths == old(fs.paths) && options.Naming() == old(options.Naming())
    ensures data.Some? && !cancelled ==>
      Prepared(run.result, options.Naming(), fs.paths)
        == AfterWrite(PrepareOutput(old(fs.paths), fs.protected, options.destinationFolderURL, old(options.Naming()),
                                    None, options.Default(), platform, options.shouldRemoveDuplicates),
                      fs.protected)
    ensures run.result.Success? ==> run.result.value == Join(options.destinationFolderURL, options.filename)
  {
    var typeIdentifier := options.outputFileType.rawValue;
    var actor := new ImageDataRequestActor();
    actor.RequestImageData(typeIdentifier, image, loadProgress);
    var imageData := actor.CompleteImageData(typeIdentifier, data, errorDescription);
    if imageData.Failure? {
      return ImageExportRun(Failure(imageData.error), typeIdentifier);
    }
    if cancelled {
      return ImageExportRun(Failure(Cancellation), typeIdentifier);
    }
    var outputURL := options.PrepareOutputURL(fs, None, platform);
    if outputURL.Failure? {
      return ImageExportRun(Failure(outputURL.error), typeIdentifier);
    }
    var written := WriteImageData(fs, outputURL.value);
    run := ImageExportRun(written, typeIdentifier);
  }

  /** A platform that knows the `png` extension only. */
  const PngOnlyPlatform: Platform :=
    Platform((ext: string) => if ext == "png" then Some("public.png") else None,
             (uti: string) => None, (path: string) => Some(path), (text: string) => true)

  /** The extension of "photo.png". */
  lemma {:induction false} PhotoPngExtension()
    ensures PathExtension("photo.png") == "png" && DeletingPathExtension("photo.png") == "photo"
  {
    AppendedExtension("photo", "png");
    assert "photo" + "." + "png" == "photo.png";
  }

  /** With that platform, "photo.png" keeps its name and gets the PNG type. */
  lemma {:induction false} PhotoPngNamed()
    ensures PrepareNaming(Naming("photo.png", "", Mp4), None, UntitledImage, PngOnlyPlatform)
         == Naming("photo.png", "png", FileType("public.png"))
  {
    PhotoPngExtension();
    assert Lowercased("png") == "png";
    assert FileTypeFromExtension(PngOnlyPlatform, "png") == Some(FileType("public.png"));
  }

  /** Preparing "photo.png" in an empty file system with that platform names a PNG file. */
  lemma {:induction false} PhotoPngPrepared()
    ensures PrepareOutput({}, {}, "exports", Naming("photo.png", "", Mp4), None, UntitledImage, PngOnlyPlatform, false)
         == Prepared(Success("exports/photo.png"), Naming("photo.png", "png", FileType("public.png")), {"exports"})
  {
    PhotoPngNamed();
    var named := Naming("photo.png", "png", FileType("public.png"));
    var none: set<Path> := {};
    assert Join("exports", "photo.png") == "exports/photo.png";
    assert "exports/photo.png" !in {"exports"};
    assert none + {"exports"} == {"exports"};
    assert WithFolder(none, none, "exports") == Some(none + {"exports"});
  }

  /**
   * Fresh image options for "photo.png": `exportImage` asks the image for
   * MPEG-4 data, the initial output file type, although the file it writes is
   * named and typed as PNG.
   */
  method ExportImageRequestsInitialType(image: LibraryImage, loadProgress: ProgressID, data: ImageData)
    returns (requestedType: string, preparedType: FileType, result: Result<Path, Error>)
    ensures requestedType == "public.mpeg-4"
    ensures preparedType == FileType("public.png")
    ensures result == Success("exports/photo.png")
  {
    var options := new ExportOptions.ForImage("exports", Some("photo.png"), false);
    var fs := new FileSystem({}, {});
    PhotoPngPrepared();
    var run := ExportImage(image, options, fs, PngOnlyPlatform, loadProgress, Some(data), None, false);
    requestedType, preparedType, result := run.requestedType, options.outputFileType, run.result;
  }

  /**
   * `exportImage` as evidently intended: the output URL, and with it the
   * output file type, is prepared first, and the data is requested for that
   * type, so the data asked for always matches the file written.
   */
  method ExportImageIntended(image: LibraryImage, options: ExportOptions, fs: FileSystem, platform: Platform,
                             loadProgress: ProgressID, data: Option<ImageData>, errorDescription: Option<string>,
                             cancelled: bool)
    returns (run: ImageExportRun)
    modifies options, fs
    ensures run.result.Success? || run.requestedType != "" ==> run.requestedType == options.outputFileType.rawValue
    ensures var prepared := PrepareOutput(old(fs.paths), fs.protected, options.destinationFolderURL,
                                          old(options.Naming()), None, options.Default(), platform,
                                          options.shouldRemoveDuplicates);
      prepared.result.Success? && data.Some? && !cancelled ==>
        Prepared(run.result, options.Naming(), fs.paths) == AfterWrite(prepared, fs.protected)
        && run.requestedType == prepared.naming.outputFileType.rawValue
  {
    var outputURL := options.PrepareOutputURL(fs, None, platform);
    if outputURL.Failure? {
      return ImageExportRun(Failure(outputURL.error), "");
    }
    var typeIdentifier := options.outputFileType.rawValue;
    var actor := new ImageDataRequestActor();
    actor.RequestImageData(typeIdentifier, image, loadProgress);
    var imageData := actor.CompleteImageData(typeIdentifier, data, errorDescription);
    if imageData.Failure? {
      return ImageExportRun(Failure(imageData.error), typeIdentifier);
    }
    if cancelled {
      return ImageExportRun(Failure(Cancellation), typeIdentifier);
    }
    var written := WriteImageData(fs, outputURL.value);
    run := ImageExportRun(written, typeIdentifier);
  }
}
