/**
 * The errors the library throws. Each Swift error enumeration is one datatype;
 * `Error` gathers them, so that a contract can tell `AssetError.assetNotFound`
 * apart from `ImageExportError.assetNotFound`.
 */
module Errors {

  /** `KYPhotoLibrary.AlbumError`. */
  datatype AlbumError =
    | InvalidName(name: string)
    | AlbumNotFound(name: string)
    | AlbumNotFoundForAsset(assetIdentifier: string)

  /** `KYPhotoLibrary.AssetError`, with the cases the asset-URL code and the request actor throw. */
  datatype AssetError =
    | UnsupportedMediaType(rawValue: int)
    | NoAssetProvided
    | AssetNotFound(assetIdentifier: string)
    | FailedToSaveAssetToPhotoLibrary
    | FailedToAddSavedAssetToAlbum(name: string)
    | FailedToLoadAsset
    | FailedToGetAssetURL
    | InvalidFilePath(filePath: string)

  /** `KYPhotoLibrary.ImageExportError`. */
  datatype ImageExportError =
    | AssetNotFound(assetIdentifier: string)
    | FailedToRequestOriginalImageData
    | FailedToRequestImageDataForType(typeIdentifier: string, errorMessage: string)

  /** `KYPhotoLibrary.VideoExportError`. */
  datatype VideoExportError =
    | AssetNotFound(assetIdentifier: string)
    | FailedToPrepareExportSession

  /** `KYPhotoLibraryError`, the error type of the older video export. */
  datatype LibraryError =
    | AssetNotFound(assetIdentifier: string)
    | FailedToPrepareExportSession
    | Others(message: string)

  /** The error type of the older `asset_save`. */
  datatype CommonError =
    | NoAssetProvided
    | InvalidAlbumName(name: string)
    | FailedToSaveAsset
    | FailedToAddSavedAssetToAlbum(name: string)

  /** Failures of the file manager calls that the export code makes. */
  datatype FileSystemError =
    | CannotCreateDirectory(path: string)
    | CannotWriteFile(path: string)

  datatype Error =
    | OfAlbum(album: AlbumError)
    | OfAsset(asset: AssetError)
    | OfImageExport(imageExport: ImageExportError)
    | OfVideoExport(videoExport: VideoExportError)
    | OfLibrary(library: LibraryError)
    | OfCommon(common: CommonError)
    | OfFileSystem(fileSystem: FileSystemError)
    /** `CancellationError`, thrown by `Task.checkCancellation()`. */
    | Cancellation
    /** An error raised inside the platform frameworks and passed on unchanged. */
    | Foreign(description: string)
}
