/**
 * The older, video-only `KYPhotoLibraryVideoExportOptions`: the same naming
 * and probing rules with `Unknown.mp4` as the default, and a folder-creation
 * failure that is only logged.
 */
module LegacyExport {
  import opened Wrappers
  import opened Paths
  import opened Photos
  import opened FileSystems
  import opened Destinations

  class VideoExportOptions {
    /** The URL of the destination folder. */
    const folderURL: Path
    var filename: string
    var fileExtension: string
    const exportPreset: string
    var outputFileType: FileType
    const shouldRemoveDuplicates: bool

    constructor (folderURL: Path, filename: Option<string>, exportPreset: string, shouldRemoveDuplicates: bool)
      ensures this.folderURL == folderURL && this.exportPreset == exportPreset
      ensures this.shouldRemoveDuplicates == shouldRemoveDuplicates
      ensures this.filename == filename.GetOr("") && fileExtension == "" && outputFileType == Mp4
    {
      this.folderURL := folderURL;
      this.exportPreset := exportPreset;
      this.shouldRemoveDuplicates := shouldRemoveDuplicates;
      this.filename := filename.GetOr("");
      this.fileExtension := "";
      this.outputFileType := Mp4;
    }

    function Naming(): Naming
      reads this
    {
      Destinations.Naming(filename, fileExtension, outputFileType)
    }

    /** `_resetFileToDefault(with:)`: always an `.mp4` file, titled `Unknown` when no title is given. */
    method ResetFileToDefault(title: Option<string>)
      modifies this
      ensures Naming() == ResetToDefault(UnknownVideo, title)
    {
      filename := title.GetOr("Unknown") + ".mp4";
      fileExtension := "mp4";
      outputFileType := Mp4;
    }

    /** `_prepareFilename(with:)`, for an asset that is always given. */
    method PrepareFilename(asset: Asset, platform: Platform)
      modifies this
      ensures Naming() == PrepareNaming(old(Naming()), ResourceFor(Some(asset)), UnknownVideo, platform)
    {
      var resource := ResourceFor(Some(asset));
      if filename == "" {
        if resource.Some? {
          filename := resource.value.originalFilename;
          fileExtension := PathExtension(filename);
          outputFileType := FileType(resource.value.uniformTypeIdentifier);
        } else {
          ResetFileToDefault(None);
        }
      } else {
        var ext := PathExtension(filename);
        if ext == "" {
          if resource.Some? {
            fileExtension := PathExtension(resource.value.originalFilename);
            filename := filename + "." + fileExtension;
            outputFileType := FileType(resource.value.uniformTypeIdentifier);
          } else {
            ResetFileToDefault(Some(filename));
          }
        } else {
          fileExtension := Lowercased(ext);
          var fileType := FileTypeFromExtension(platform, fileExtension);
          if fileType.Some? {
            outputFileType := fileType.value;
          } else {
            ResetFileToDefault(Some(DeletingPathExtension(filename)));
          }
        }
      }
    }

    /** `_createFolderIfNeeded`: a failure to create the folder is swallowed. */
    method CreateFolderIfNeeded(fs: FileSystem)
      modifies fs
      ensures fs.paths == WithFolder(old(fs.paths), fs.protected, folderURL).GetOr(old(fs.paths))
    {
      if fs.FileExists(folderURL) {
        return;
      }
      var _ := fs.CreateDirectory(folderURL);
    }

    /**
     * `prepareUniqueDestinationURL(for:)`: never fails. The URL, the new
     * naming fields and the new paths are those of `PrepareUniqueDestination`.
     */
    method PrepareUniqueDestinationURL(fs: FileSystem, asset: Asset, platform: Platform) returns (url: Path)
      modifies this, fs
      ensures Prepared(Success(url), Naming(), fs.paths)
           == PrepareUniqueDestination(old(fs.paths), fs.protected, folderURL, old(Naming()), ResourceFor(Some(asset)),
                                       platform, shouldRemoveDuplicates)
      ensures url == Join(folderURL, filename)
      ensures !shouldRemoveDuplicates ==> url !in fs.paths
    {
      CreateFolderIfNeeded(fs);
      ghost var withFolder := fs.paths;
      PrepareFilename(asset, platform);
      ghost var prepared := Naming();
      url := Join(folderURL, filename);
      if !fs.FileExists(url) {
      } else if shouldRemoveDuplicates {
        var _ := fs.RemoveItem(url);
      } else {
        var filenameWithoutExt := DeletingPathExtension(filename);
        var adjustedUniqueFilename;
        adjustedUniqueFilename, url := ProbeUniqueFilename(fs, folderURL, filenameWithoutExt, fileExtension);
        filename := adjustedUniqueFilename;
      }
      PlaceIsFree(withFolder, fs.protected, folderURL, prepared, shouldRemoveDuplicates);
    }
  }
}
