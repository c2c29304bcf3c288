/**
 * `KYPhotoLibraryExportOptions` and its output-URL extension: an options
 * object whose naming fields are overwritten while the output URL is
 * prepared.
 */
module Export {
  import opened Wrappers
  import opened Errors
  import opened Paths
  import opened Photos
  import opened FileSystems
  import opened Destinations

  /** `CMTimeRange`, in whole time units; stored, never interpreted. */
  datatype TimeRange = TimeRange(start: int, duration: int)

  class ExportOptions {
    const assetMediaType: MediaType
    /** The URL of the destination folder. */
    const destinationFolderURL: Path
    /** The filename with its extension. */
    var filename: string
    var fileExtension: string
    /** Video export only: derived from the filename's extension. */
    var outputFileType: FileType
    /** Video export only: the export session preset. */
    const exportPreset: string
    /** Video export only: the part of the media to export; none means all of it. */
    var timeRange: Option<TimeRange>
    const shouldRemoveDuplicates: bool

    /** The image initialiser: no preset; a missing filename is left empty. */
    constructor ForImage(destinationFolderURL: Path, filename: Option<string>, shouldRemoveDuplicates: bool)
      ensures assetMediaType == MediaType.Image && exportPreset == ""
      ensures this.destinationFolderURL == destinationFolderURL && this.shouldRemoveDuplicates == shouldRemoveDuplicates
      ensures this.filename == filename.GetOr("")
      ensures fileExtension == "" && outputFileType == Mp4 && timeRange == None
    {
      this.assetMediaType := MediaType.Image;
      this.destinationFolderURL := destinationFolderURL;
      this.shouldRemoveDuplicates := shouldRemoveDuplicates;
      this.filename := filename.GetOr("");
      this.fileExtension := "";
      this.outputFileType := Mp4;
      this.timeRange := None;
      this.exportPreset := "";
    }

    /** The video initialiser: the given preset (passthrough by default at the call site). */
    constructor ForVideo(destinationFolderURL: Path, filename: Option<string>, exportPreset: string,
                         shouldRemoveDuplicates: bool)
      ensures assetMediaType == MediaType.Video && this.exportPreset == exportPreset
      ensures this.destinationFolderURL == destinationFolderURL && this.shouldRemoveDuplicates == shouldRemoveDuplicates
      ensures this.filename == filename.GetOr("")
      ensures fileExtension == "" && outputFileType == Mp4 && timeRange == None
    {
      this.assetMediaType := MediaType.Video;
      this.destinationFolderURL := destinationFolderURL;
      this.exportPreset := exportPreset;
      this.shouldRemoveDuplicates := shouldRemoveDuplicates;
      this.filename := filename.GetOr("");
      this.fileExtension := "";
      this.outputFileType := Mp4;
      this.timeRange := None;
    }

    function Naming(): Naming
      reads this
    {
      Destinations.Naming(filename, fileExtension, outputFileType)
    }

    /** Video options fall back to `Untitled.mp4`, all others to `Untitled.jpg`. */
    function Default(): DefaultFile {
      if assetMediaType == MediaType.Video then UntitledVideo else UntitledImage
    }

    /** `_resetFileToDefault(with:)`. */
    method ResetFileToDefault(title: Option<string>)
      modifies this
      ensures Naming() == ResetToDefault(Default(), title)
      ensures timeRange == old(timeRange)
    {
      if assetMediaType == MediaType.Video {
        filename := title.GetOr("Untitled") + ".mp4";
        fileExtension := "mp4";
        outputFileType := Mp4;
      } else {
        filename := title.GetOr("Untitled") + ".jpg";
        fileExtension := "jpg";
        outputFileType := Jpg;
      }
    }

    /** `_prepareFilename(with:)`: overwrites the naming fields as `PrepareNaming` says. */
    method PrepareFilename(asset: Option<Asset>, platform: Platform)
      modifies this
      ensures Naming() == PrepareNaming(old(Naming()), ResourceFor(asset), Default(), platform)
      ensures timeRange == old(timeRange)
    {
      var resource := ResourceFor(asset);
      if filename == "" {
        if resource.Some? {
          filename := resource.value.originalFilename;
          fileExtension := PathExtension(filename);
          outputFileType := FileType(resource.value.uniformTypeIdentifier);
        } else {
          ResetFileToDefault(None);
        }
      } else {
        var ext := PathExtension(filename);
        if ext == "" {
          if resource.Some? {
            fileExtension := PathExtension(resource.value.originalFilename);
            filename := filename + "." + fileExtension;
            outputFileType := FileType(resource.value.uniformTypeIdentifier);
          } else {
            ResetFileToDefault(Some(filename));
          }
        } else {
          fileExtension := Lowercased(ext);
          var fileType := FileTypeFromExtension(platform, fileExtension);
          if fileType.Some? {
            outputFileType := fileType.value;
          } else {
            ResetFileToDefault(Some(DeletingPathExtension(filename)));
          }
        }
      }
    }

    /** `_createFolderIfNeeded`: a failure to create the missing folder is thrown. */
    method CreateFolderIfNeeded(fs: FileSystem) returns (error: Option<Error>)
      modifies fs
      ensures error.Some? <==> WithFolder(old(fs.paths), fs.protected, destinationFolderURL).None?
      ensures error.Some? ==> error.value == OfFileSystem(CannotCreateDirectory(destinationFolderURL))
      ensures fs.paths == WithFolder(old(fs.paths), fs.protected, destinationFolderURL).GetOr(old(fs.paths))
    {
      if fs.FileExists(destinationFolderURL) {
        return None;
      }
      var ok := fs.CreateDirectory(destinationFolderURL);
      error := if ok then None else Some(OfFileSystem(CannotCreateDirectory(destinationFolderURL)));
    }

    /**
     * `prepareOutputURL(for:)`: folder, naming, then the destination. The
     * result, the new naming fields and the new paths are those of
     * `PrepareOutput`; a successful URL is the folder joined with the stored
     * filename, and without duplicate removal no file exists there.
     */
    method PrepareOutputURL(fs: FileSystem, asset: Option<Asset>, platform: Platform) returns (r: Result<Path, Error>)
      modifies this, fs
      ensures Prepared(r, Naming(), fs.paths)
           == PrepareOutput(old(fs.paths), fs.protected, destinationFolderURL, old(Naming()), ResourceFor(asset),
                            Default(), platform, shouldRemoveDuplicates)
      ensures r.Success? ==> r.value == Join(destinationFolderURL, filename)
      ensures r.Success? && !shouldRemoveDuplicates ==> r.value !in fs.paths
      ensures timeRange == old(timeRange)
    {
      ghost var existing, naming := fs.paths, Naming();
      var error := CreateFolderIfNeeded(fs);
      if error.Some? {
        return Failure(error.value);
      }
      ghost var withFolder := fs.paths;
      PrepareFilename(asset, platform);
      ghost var prepared := Naming();
      var url := Join(destinationFolderURL, filename);
      if !fs.FileExists(url) {
        r := Success(url);
      } else if shouldRemoveDuplicates {
        var _ := fs.RemoveItem(url);
        r := Success(url);
      } else {
        var title := DeletingPathExtension(filename);
        var uniqueFilename;
        uniqueFilename, url := ProbeUniqueFilename(fs, destinationFolderURL, title, fileExtension);
        filename := uniqueFilename;
        r := Success(url);
      }
      PlaceIsFree(withFolder, fs.protected, destinationFolderURL, prepared, shouldRemoveDuplicates);
    }
  }
}
