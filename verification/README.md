# KYPhotoLibrary, modelled in Dafny

KYPhotoLibrary is a Swift package that saves, loads, deletes and exports
images and videos in the platform photo library. Most of it forwards calls to
the Photos and AVFoundation frameworks. This project models the decision
logic around those calls and proves properties of it:

- **Export destination naming** (`Destinations`, `Export`, `LegacyExport`):
  - How an export options object derives its filename, extension and output
    file type from a user-supplied name, the asset's original filename and
    the media type.
  - How it then places the file in the destination folder, in one of three
    ways: the name is free; the existing file is removed; or the options
    probe `"<title> - 1.<ext>"`, `"<title> - 2.<ext>"`, … until a name is
    free.
  - The file system is a `FileSystem` object holding a finite set of paths.
    Creating, writing or removing fails on a fixed set of protected paths.
- **Asset-library URLs** (`AssetURLs`): `assets-library://asset/<filename>?id=<id>`.
  The error checks come in a fixed order.
- **Resource selection** (`AssetResources`): the first resource of the asset's
  kind, else the first resource.
- **Request-handle bookkeeping** of the four request actors
  (`AssetRequests`, `ImageExport`, `VideoExport`, `AssetExportActors`).
  - Each actor is a sequential class holding its optional handles.
  - Each also holds the list of platform calls it has issued, so the
    contracts can say which cancel calls a cancellation makes.
- **The export flows** (`ImageExport`, `VideoExport`, `LegacyVideoExport`) and
  the mapping from an export session's final status to a result (`ExportSessions`).
- **Saving and deleting assets** (`AssetChange`, `AssetCreation`): error
  precedence, source precedence and media-type dispatch.
- **Queries** (`AssetQuery`, `Albums`): first-match album lookup, and asset
  queries as filter and limit over an asset sequence.

Every platform object is plain data (`Photos`). The platform's answers are
parameters of the operations:
- a fetched image or session;
- whether a placeholder was produced;
- a session's final status;
- whether the calling `Task` was cancelled at each check.

The type database and the URL parser are the uninterpreted functions of `Photos.Platform`.
The path functions are given simple definitions of their own in `Paths`:
- `PathExtension` is the text after the last '.';
- `DeletingPathExtension` is the text before it;
- `Join(folder, name)` is `folder + "/" + name`;
- `Lowercased` folds ASCII letters only.

## Model

| member | source | states |
|---|---|---|
| Paths.PathExtension | KYPhotoLibrary/Sources/AssetExportOptions/KYPhotoLibraryExportOptions+OutputURL.swift:82 | the extension never contains a '.', and a name without '.' has none |
| Paths.DeletingPathExtension | KYPhotoLibrary/Sources/AssetExportOptions/KYPhotoLibraryExportOptions+OutputURL.swift:49 | a name without '.' is its own title; the title is never longer than the name |
| Paths.SplitAtExtension | KYPhotoLibrary/Sources/AssetExportOptions/KYPhotoLibraryExportOptions+OutputURL.swift:49-54 | a name with a '.' is its title, '.', and its extension |
| Paths.AppendedExtension | KYPhotoLibrary/Sources/AssetExportOptions/KYPhotoLibraryExportOptions+OutputURL.swift:85-86 | appending '.' and a dot-free extension is undone exactly by the two path functions |
| Paths.Lowercased | KYPhotoLibrary/Sources/AssetExportOptions/KYPhotoLibraryExportOptions+OutputURL.swift:93 | the same length, no upper-case ASCII letter, and dots exactly where the input had them |
| Paths.LowercasedIdempotent | KYPhotoLibrary/Sources/AssetExportOptions/KYPhotoLibraryExportOptions+OutputURL.swift:93 | lower-casing twice is lower-casing once |
| Paths.ParseNatToString | KYPhotoLibrary/Sources/AssetExportOptions/KYPhotoLibraryExportOptions+OutputURL.swift:54 | reading back the decimal index gives the index |
| Paths.NatToStringInjective | KYPhotoLibrary/Sources/AssetExportOptions/KYPhotoLibraryExportOptions+OutputURL.swift:54 | different indices are written differently |
| Paths.JoinInjective | KYPhotoLibrary/Sources/AssetExportOptions/KYPhotoLibraryExportOptions+OutputURL.swift:55 | in one folder, different names give different paths |
| Paths.IndexedFilenameInjective | KYPhotoLibrary/Sources/AssetExportOptions/KYPhotoLibraryExportOptions+OutputURL.swift:52-56 | each probe index gives its own name, so no name is tried twice |
| Photos.FileTypeFromExtension | KYPhotoLibrary/Sources/Extensions/AVFileType+KYPhotoLibrary.swift:15-23 | no type for an empty extension; for any other extension, exactly the type the type database gives, and none when it knows none |
| Photos.First | KYPhotoLibrary/Sources/KYPhotoLibrary+Album.swift:26-32 | a result is a member satisfying the test; none exactly when no member does |
| Photos.FirstAt | KYPhotoLibrary/Sources/KYPhotoLibrary+Album.swift:26-32 | the first element that passes, with none before it passing, is the one found |
| Photos.FirstIgnoresLater | KYPhotoLibrary/Sources/KYPhotoLibrary+Album.swift:28-30 | elements after the first match never change the result |
| Photos.Filter | KYPhotoLibrary/Sources/Asset/KYPhotoLibrary+AssetQuery.swift:101-105 | the result holds exactly the members that pass |
| Photos.FilterAppend | KYPhotoLibrary/Sources/Asset/KYPhotoLibrary+AssetQuery.swift:42 | filtering keeps the order: the filter of a concatenation concatenates the filters |
| Photos.Limit | KYPhotoLibrary/Sources/Asset/KYPhotoLibrary+AssetQuery.swift:43-45 | a limit of zero keeps everything; otherwise a prefix of length min(size, limit) |
| AssetResources.AssetResource | KYPhotoLibrary/Sources/Asset/KYPhotoLibrary+AssetResource.swift:21-43 | none exactly when the asset has no resources, otherwise one of its resources |
| AssetResources.ImageAssetResource | KYPhotoLibrary/Sources/Asset/KYPhotoLibrary+AssetResource.swift:25-31 | for an image, the first photo-kind resource is chosen |
| AssetResources.VideoAssetResource | KYPhotoLibrary/Sources/Asset/KYPhotoLibrary+AssetResource.swift:32-40 | for a video, the first of the six video kinds is chosen |
| AssetResources.FallbackAssetResource | KYPhotoLibrary/Sources/Asset/KYPhotoLibrary+AssetResource.swift:42 | with no resource of the media type's kind, or another media type, the first resource is chosen |
| AssetResources.OriginalFilename | KYPhotoLibrary/Sources/Asset/KYPhotoLibrary+AssetResource.swift:46-48 | none exactly when there is no resource; otherwise the original filename of one of the resources |
| Albums.FindAlbum | KYPhotoLibrary/Sources/KYPhotoLibrary+Album.swift:21-34 | a found album is in the list and has that title; none exactly when no album has it |
| Albums.GetAlbum | KYPhotoLibrary/Sources/KYPhotoLibrary+Album.swift:21-34 | the enumeration with a stop flag returns what FindAlbum finds |
| Albums.FindAlbumIsFirst | KYPhotoLibrary/Sources/KYPhotoLibrary+Album.swift:28-30 | the first album with the title is the one returned |
| Albums.FindAlbumIgnoresLater | KYPhotoLibrary/Sources/KYPhotoLibrary+Album.swift:28-30 | albums enumerated after a match do not matter |
| Albums.CreateAlbumCompletion | KYPhotoLibrary/Sources/KYPhotoLibrary+Album.swift:52-68 | the error is passed on; an album is given only on success with a placeholder, and it has the placeholder's identifier; if such an album exists it is given |
| AssetQuery.AssetFromIdentifier | KYPhotoLibrary/Sources/Asset/KYPhotoLibrary+AssetQuery.swift:88-93 | a found asset has the identifier and the media type; none exactly when no asset has both |
| AssetQuery.AssetsFromIdentifiers | KYPhotoLibrary/Sources/Asset/KYPhotoLibrary+AssetQuery.swift:101-105 | exactly the assets named in the list that have the media type |
| AssetQuery.LoadAssets | KYPhotoLibrary/Sources/Asset/KYPhotoLibrary+AssetQuery.swift:25-47 | an empty name, and only that, is `invalidName`; a missing album gives no assets; every asset has the media type and is in the album; at most `limit` assets |
| AssetQuery.LoadAssetsUnlimited | KYPhotoLibrary/Sources/Asset/KYPhotoLibrary+AssetQuery.swift:35-46 | with no limit, the assets of the first album with the name that have the media type |
| AssetQuery.LoadAssetsLimitIsPrefix | KYPhotoLibrary/Sources/Asset/KYPhotoLibrary+AssetQuery.swift:43-46 | a limited load is a prefix of the unlimited one |
| AssetQuery.Identifiers | KYPhotoLibrary/Sources/Asset/KYPhotoLibrary+AssetQuery.swift:73-77 | one identifier per asset, in order |
| AssetQuery.LoadAssetIdentifiers | KYPhotoLibrary/Sources/Asset/KYPhotoLibrary+AssetQuery.swift:58-78 | the loop collects the identifiers of what LoadAssets returns, in order; an empty name is `invalidName` |
| AssetURLs.IdentifierPrefix | KYPhotoLibrary/Sources/Asset/KYPhotoLibrary+AssetURL.swift:52 | a prefix with no '/', followed by '/' or the whole identifier |
| AssetURLs.IdentifierPrefixExample | KYPhotoLibrary/Sources/Asset/KYPhotoLibrary+AssetURL.swift:52 | `A45B/L0/001` gives `A45B` |
| AssetURLs.LibraryFilename | KYPhotoLibrary/Sources/Asset/KYPhotoLibrary+AssetURL.swift:61-69 | the original name percent-encoded, falling back to the raw name; otherwise `asset.<ext>`, or `unsupportedMediaType(raw value)` when the type has no extension |
| AssetURLs.AssetURLOf | KYPhotoLibrary/Sources/Asset/KYPhotoLibrary+AssetURL.swift:32-77 | an unknown asset is `assetNotFound` first; the file scheme sends images to the image route and everything else to the video route; a library URL is parsable, starts with `assets-library://asset/` and ends with `?id=` and the '/'-free id prefix |
| AssetURLs.FileSchemeIgnoresOriginalFilename | KYPhotoLibrary/Sources/Asset/KYPhotoLibrary+AssetURL.swift:43-49 | the file scheme does not depend on `useOriginalFilename` |
| AssetURLs.LibrarySchemeOutcome | KYPhotoLibrary/Sources/Asset/KYPhotoLibrary+AssetURL.swift:56-75 | no resource is `assetNotFound`; otherwise a filename error, `invalidFilePath(text)`, or the URL, in that order |
| FileSystems.FileSystem.CreateDirectory | KYPhotoLibrary/Sources/AssetExportOptions/KYPhotoLibraryExportOptions+OutputURL.swift:68 | succeeds unless the path is protected; the path is then present |
| FileSystems.FileSystem.RemoveItem | KYPhotoLibrary/Sources/AssetExportOptions/KYPhotoLibraryExportOptions+OutputURL.swift:43 | succeeds when the path exists and is not protected; the path is then gone |
| FileSystems.FileSystem.Write | KYPhotoLibrary/Sources/Image/KYPhotoLibrary+ImageExport.swift:93 | succeeds unless the path is protected; the path is then present |
| Destinations.ResetToDefault | KYPhotoLibrary/Sources/AssetExportOptions/KYPhotoLibraryExportOptions+OutputURL.swift:111-122 | `<title or default>.<ext>` with the default extension and type |
| Destinations.DefaultsValid | KYPhotoLibrary/Sources/AssetExportOptions/KYPhotoLibraryExportOptions+OutputURL.swift:112-121 | the defaults are non-empty titles with dot-free extensions |
| Destinations.PrepareNaming | KYPhotoLibrary/Sources/AssetExportOptions/KYPhotoLibraryExportOptions+OutputURL.swift:71-109 | the decision table: an empty name takes the resource's original name, not lower-cased, or the default; a name without an extension gets the resource's extension or the default; a recognised extension is lower-cased and the name kept; an unrecognised one resets to the title plus the default |
| Destinations.PrepareNamingExtensionHasNoDot | KYPhotoLibrary/Sources/AssetExportOptions/KYPhotoLibraryExportOptions+OutputURL.swift:75-99 | the derived extension never contains a '.' |
| Destinations.PrepareNamingExtensionAgrees | KYPhotoLibrary/Sources/AssetExportOptions/KYPhotoLibraryExportOptions+OutputURL.swift:71-109 | the name's extension and the recorded extension agree up to case |
| Destinations.PrepareNamingKeepsTitle | KYPhotoLibrary/Sources/AssetExportOptions/KYPhotoLibraryExportOptions+OutputURL.swift:82-100 | a non-empty name keeps its title: the title of the result is the user's name or its title |
| Destinations.PrepareNamingSettles | KYPhotoLibrary/Sources/AssetExportOptions/KYPhotoLibraryExportOptions+OutputURL.swift:92-96 | preparing a name with a recognised extension twice changes nothing more |
| Destinations.ResetToDefaultSettles | KYPhotoLibrary/Sources/AssetExportOptions/KYPhotoLibraryExportOptions+OutputURL.swift:111-122 | a default name is a fixed point of naming when the platform recognises the default extension |
| Destinations.CandidateInjective | KYPhotoLibrary/Sources/AssetExportOptions/KYPhotoLibraryExportOptions+OutputURL.swift:54-55 | different indices give different probe paths |
| Destinations.CandidatesBelowSize | KYPhotoLibrary/Sources/AssetExportOptions/KYPhotoLibraryExportOptions+OutputURL.swift:52-56 | the paths tried before index n are n - 1 distinct paths |
| Destinations.ProbeBound | KYPhotoLibrary/Sources/AssetExportOptions/KYPhotoLibraryExportOptions+OutputURL.swift:52-56 | while every path tried exists, the index stays within the number of existing paths plus one, so the probe ends |
| Destinations.FirstFreeFrom | KYPhotoLibrary/Sources/AssetExportOptions/KYPhotoLibraryExportOptions+OutputURL.swift:52-56 | the first index from i whose path is free; all before it exist |
| Destinations.FirstFree | KYPhotoLibrary/Sources/AssetExportOptions/KYPhotoLibraryExportOptions+OutputURL.swift:52-56 | the smallest index from 1 whose path is free |
| Destinations.FirstFreeIsLeast | KYPhotoLibrary/Sources/AssetExportOptions/KYPhotoLibraryExportOptions+OutputURL.swift:52-56 | any free index with every smaller index taken is the one chosen |
| Destinations.Place | KYPhotoLibrary/Sources/AssetExportOptions/KYPhotoLibraryExportOptions+OutputURL.swift:36-61 | a free name is returned as is; with duplicate removal the file is removed, if it can be, and the same name returned; otherwise `<title> - <first free index>.<ext>` |
| Destinations.PlaceIsFree | KYPhotoLibrary/Sources/AssetExportOptions/KYPhotoLibraryExportOptions+OutputURL.swift:48-59 | without duplicate removal the chosen path does not exist |
| Destinations.IndexedNameSplits | KYPhotoLibrary/Sources/AssetExportOptions/KYPhotoLibraryExportOptions+OutputURL.swift:54 | a probed name keeps the extension, and its title is `<title> - <index>` |
| Destinations.WithFolder | KYPhotoLibrary/Sources/AssetExportOptions/KYPhotoLibraryExportOptions+OutputURL.swift:64-69 | an existing folder is left alone; a missing one is created unless creation fails |
| Destinations.NameAndPlace | KYPhotoLibrary/Sources/AssetExportOptions/KYPhotoLibraryExportOptions+OutputURL.swift:34-61 | naming then placement; only the filename may change after naming |
| Destinations.PrepareOutput | KYPhotoLibrary/Sources/AssetExportOptions/KYPhotoLibraryExportOptions+OutputURL.swift:30-62 | a folder failure is thrown and nothing changes; otherwise naming and placement in the folder |
| Destinations.PrepareUniqueDestination | KYPhotoLibrary/Sources/KYPhotoLibraryVideoExportOptions.swift:69-101 | never fails; a folder failure is ignored; `Unknown.mp4` is the default |
| Destinations.PrepareUniqueDestinationFresh | KYPhotoLibrary/Sources/KYPhotoLibraryVideoExportOptions.swift:69-101 | without duplicate removal the chosen path is free and joins the folder and the stored filename, even when the folder could not be created |
| Destinations.PrepareOutputFrame | KYPhotoLibrary/Sources/AssetExportOptions/KYPhotoLibraryExportOptions+OutputURL.swift:30-62 | only the folder may appear and only the chosen file may disappear |
| Destinations.PrepareOutputFresh | KYPhotoLibrary/Sources/AssetExportOptions/KYPhotoLibraryExportOptions+OutputURL.swift:48-61 | without duplicate removal the returned path is free and is the folder joined with the stored filename |
| Destinations.ProbeUniqueFilename | KYPhotoLibrary/Sources/AssetExportOptions/KYPhotoLibraryExportOptions+OutputURL.swift:49-59 | the repeat loop ends at the smallest free index; the URL is free and joins the folder and the name |
| Export.ExportOptions.ForImage | KYPhotoLibrary/Sources/AssetExportOptions/KYPhotoLibraryExportOptions.swift:56-71 | image media type, empty preset, the given or empty filename, no extension, MPEG-4, no time range |
| Export.ExportOptions.ForVideo | KYPhotoLibrary/Sources/AssetExportOptions/KYPhotoLibraryExportOptions.swift:85-100 | video media type, the given preset, the given or empty filename, no extension, MPEG-4, no time range |
| Export.ExportOptions.ResetFileToDefault | KYPhotoLibrary/Sources/AssetExportOptions/KYPhotoLibraryExportOptions+OutputURL.swift:111-122 | the naming fields become `Untitled.mp4` or `Untitled.jpg` by media type, keeping a given title |
| Export.ExportOptions.PrepareFilename | KYPhotoLibrary/Sources/AssetExportOptions/KYPhotoLibraryExportOptions+OutputURL.swift:71-109 | the naming fields become what PrepareNaming decides |
| Export.ExportOptions.CreateFolderIfNeeded | KYPhotoLibrary/Sources/AssetExportOptions/KYPhotoLibraryExportOptions+OutputURL.swift:64-69 | an error exactly when the folder is missing and cannot be created |
| Export.ExportOptions.PrepareOutputURL | KYPhotoLibrary/Sources/AssetExportOptions/KYPhotoLibraryExportOptions+OutputURL.swift:30-62 | the result, the naming fields and the paths are those of PrepareOutput; the URL joins the folder and the stored filename, and is free without duplicate removal |
| LegacyExport.VideoExportOptions.constructor | KYPhotoLibrary/Sources/KYPhotoLibraryVideoExportOptions.swift:45-58 | stores the folder, the preset and the duplicate flag; the given or empty filename, no extension, MPEG-4 |
| LegacyExport.VideoExportOptions.ResetFileToDefault | KYPhotoLibrary/Sources/KYPhotoLibraryVideoExportOptions.swift:157-161 | always `<title or Unknown>.mp4`, `mp4`, MPEG-4 |
| LegacyExport.VideoExportOptions.PrepareFilename | KYPhotoLibrary/Sources/KYPhotoLibraryVideoExportOptions.swift:117-155 | the naming fields become what PrepareNaming decides with the `Unknown.mp4` default |
| LegacyExport.VideoExportOptions.CreateFolderIfNeeded | KYPhotoLibrary/Sources/KYPhotoLibraryVideoExportOptions.swift:105-115 | a missing folder is created if possible; a failure is swallowed |
| LegacyExport.VideoExportOptions.PrepareUniqueDestinationURL | KYPhotoLibrary/Sources/KYPhotoLibraryVideoExportOptions.swift:69-101 | the URL, the naming fields and the paths are those of PrepareUniqueDestination; the URL joins the folder and the stored filename, and is free without duplicate removal |
| AssetRequests.TargetSize | KYPhotoLibrary/Sources/Asset/AssetRequestActor.swift:26-28 | a zero expected size means the asset's pixel size; otherwise the expected size |
| AssetRequests.CancelCalls | KYPhotoLibrary/Sources/Asset/AssetRequestActor.swift:109-122 | one image cancel when a request is pending, one content-editing cancel when that request is pending and an asset is given, nothing else |
| AssetRequests.AssetRequestActor.RequestImage | KYPhotoLibrary/Sources/Asset/AssetRequestActor.swift:25-37 | the handle is set and the image is requested at the target size |
| AssetRequests.AssetRequestActor.CompleteImageRequest | KYPhotoLibrary/Sources/Asset/AssetRequestActor.swift:40-46 | the handle is cleared; no image is `failedToLoadAsset` |
| AssetRequests.AssetRequestActor.RequestImageURL | KYPhotoLibrary/Sources/Asset/AssetRequestActor.swift:52-54 | the content-editing handle is set and the input requested |
| AssetRequests.AssetRequestActor.CompleteImageURLRequest | KYPhotoLibrary/Sources/Asset/AssetRequestActor.swift:55-63 | that handle is cleared; a missing input or full-size URL is `failedToGetAssetURL` |
| AssetRequests.AssetRequestActor.RequestVideo | KYPhotoLibrary/Sources/Asset/AssetRequestActor.swift:71-73 | the handle is set and the video requested |
| AssetRequests.AssetRequestActor.CompleteVideoRequest | KYPhotoLibrary/Sources/Asset/AssetRequestActor.swift:77-83 | the handle is cleared; no video is `failedToLoadAsset` |
| AssetRequests.AssetRequestActor.CompleteVideoURLRequest | KYPhotoLibrary/Sources/Asset/AssetRequestActor.swift:89-104 | the handle is cleared; only a file-backed video gives its URL, anything else is `failedToGetAssetURL` |
| AssetRequests.AssetRequestActor.CancelRequest | KYPhotoLibrary/Sources/Asset/AssetRequestActor.swift:109-122 | issues exactly CancelCalls; the image handle ends cleared; the content-editing handle is cleared only when an asset is given |
| AssetRequests.CancelAfterImageCompletion | KYPhotoLibrary/Sources/Asset/AssetRequestActor.swift:40-113 | after a completion, a cancel issues no call |
| AssetRequests.CancelPendingVideoURLTwice | KYPhotoLibrary/Sources/Asset/AssetRequestActor.swift:110-113 | a pending request is cancelled once however often cancel is called |
| AssetRequests.CancelWithoutAssetKeepsContentEditingRequest | KYPhotoLibrary/Sources/Asset/AssetRequestActor.swift:115-121 | without an asset, a pending content-editing request is neither cancelled nor cleared |
| ImageExport.ImageDataCancelCalls | KYPhotoLibrary/Sources/Image/KYPhotoLibrary+ImageExport.swift:177-186 | at most one cancel: the request when pending, else the progress when present |
| ImageExport.ImageDataRequestActor.RequestOriginalImageData | KYPhotoLibrary/Sources/Image/KYPhotoLibrary+ImageExport.swift:143-148 | the handle is set and the data requested |
| ImageExport.ImageDataRequestActor.CompleteOriginalImageData | KYPhotoLibrary/Sources/Image/KYPhotoLibrary+ImageExport.swift:152-156 | changes nothing, so the handle is not reset; no data is `failedToRequestOriginalImageData` |
| ImageExport.ImageDataRequestActor.RequestImageData | KYPhotoLibrary/Sources/Image/KYPhotoLibrary+ImageExport.swift:161-163 | the progress is recorded and the load issued for the type |
| ImageExport.ImageDataRequestActor.CompleteImageData | KYPhotoLibrary/Sources/Image/KYPhotoLibrary+ImageExport.swift:167-172 | no data is `failedToRequestImageDataForType(type, description or "")` |
| ImageExport.ImageDataRequestActor.CancelRequest | KYPhotoLibrary/Sources/Image/KYPhotoLibrary+ImageExport.swift:177-186 | issues exactly ImageDataCancelCalls; the progress is kept while a request was pending |
| ImageExport.CancelAfterOriginalDataCompletion | KYPhotoLibrary/Sources/Image/KYPhotoLibrary+ImageExport.swift:145-181 | a completed request is still cancelled, because the handle was never reset |
| ImageExport.AfterWrite | KYPhotoLibrary/Sources/Image/KYPhotoLibrary+ImageExport.swift:89-95 | the write either adds the prepared path or fails with `CannotWriteFile` on that path |
| ImageExport.WriteImageData | KYPhotoLibrary/Sources/Image/KYPhotoLibrary+ImageExport.swift:93 | writes the file unless the path is protected |
| ImageExport.ExportImageFromPhotoLibrary | KYPhotoLibrary/Sources/Image/KYPhotoLibrary+ImageExport.swift:67-96 | an unknown asset is the asset error `assetNotFound`; then no data; then cancellation, with nothing changed; otherwise the output is prepared for the asset and written |
| ImageExport.ExportImage | KYPhotoLibrary/Sources/Image/KYPhotoLibrary+ImageExport.swift:106-133 | the data is requested for the type held before preparation; the output is prepared with no asset and written after the cancellation check |
| ImageExport.PhotoPngPrepared | KYPhotoLibrary/Sources/Image/KYPhotoLibrary+ImageExport.swift:129 | with a platform knowing `png`, "photo.png" is placed as `exports/photo.png` typed PNG |
| ImageExport.ExportImageRequestsInitialType | KYPhotoLibrary/Sources/Image/KYPhotoLibrary+ImageExport.swift:116-130 | fresh options for "photo.png": MPEG-4 data is requested for a PNG file |
| ImageExport.ExportImageIntended | KYPhotoLibrary/Sources/Image/KYPhotoLibrary+ImageExport.swift:106-133 | corrected order: the data is requested for the prepared output type |
| ExportSessions.ExportSession.constructor | KYPhotoLibrary/Sources/Video/KYPhotoLibrary+VideoExport.swift:71-83 | a new session has no output type or URL and status unknown |
| ExportSessions.ExportSession.Export | KYPhotoLibrary/Sources/Video/KYPhotoLibrary+VideoExport.swift:108 | only the status and error change |
| ExportSessions.ExportResult | KYPhotoLibrary/Sources/Video/KYPhotoLibrary+VideoExport.swift:107-131 | an error exactly when the export failed with one; completed gives the output URL; anything else gives no URL |
| ExportSessions.ExportVideo | KYPhotoLibrary/Sources/KYPhotoLibrary+VideoExport.swift:92-116 | runs the export and returns ExportResult of its final status |
| VideoExport.VideoExportSessionRequestActor.RequestSession | KYPhotoLibrary/Sources/Video/KYPhotoLibrary+VideoExport.swift:140-150 | the handle is set; the session is requested with the options' preset |
| VideoExport.VideoExportSessionRequestActor.CompleteSessionRequest | KYPhotoLibrary/Sources/Video/KYPhotoLibrary+VideoExport.swift:155-161 | the handle is cleared; no session is `VideoExportError.failedToPrepareExportSession` |
| VideoExport.VideoExportSessionRequestActor.CancelRequest | KYPhotoLibrary/Sources/Video/KYPhotoLibrary+VideoExport.swift:166-172 | nothing when idle; otherwise one cancel and the handle cleared |
| VideoExport.ExportVideoFromPhotoLibrary | KYPhotoLibrary/Sources/Video/KYPhotoLibrary+VideoExport.swift:60-102 | an unknown video is `assetNotFound`; one session request with the preset; cancellation checked twice; the session gets the output type from before preparation, the prepared URL, and the mapped result |
| VideoExport.ClipMovPrepared | KYPhotoLibrary/Sources/Video/KYPhotoLibrary+VideoExport.swift:92 | with a platform knowing `mov`, "clip.mov" is placed as `clips/clip.mov` typed QuickTime |
| VideoExport.ExportVideoSetsInitialType | KYPhotoLibrary/Sources/Video/KYPhotoLibrary+VideoExport.swift:91-92 | fresh options for "clip.mov": the session is told MPEG-4 for a QuickTime file |
| VideoExport.ExportVideoFromPhotoLibraryIntended | KYPhotoLibrary/Sources/Video/KYPhotoLibrary+VideoExport.swift:60-102 | corrected order: the session gets the prepared output type |
| AssetExportActors.AssetExportActor.RequestExportSession | KYPhotoLibrary/Sources/KYPhotoLibraryAssetExportActor.swift:20-31 | the handle is set; the options' preset is passed unchanged |
| AssetExportActors.AssetExportActor.CompleteExportSessionRequest | KYPhotoLibrary/Sources/KYPhotoLibraryAssetExportActor.swift:39-45 | the handle is cleared; no session is `KYPhotoLibraryError.failedToPrepareExportSession` |
| AssetExportActors.AssetExportActor.CancelRequest | KYPhotoLibrary/Sources/KYPhotoLibraryAssetExportActor.swift:50-56 | nothing when idle; otherwise exactly one cancel and the handle cleared |
| AssetExportActors.CancelAfterSessionArrived | KYPhotoLibrary/Sources/KYPhotoLibraryAssetExportActor.swift:39-53 | after the session arrives, a cancel issues no call |
| AssetExportActors.CancelPendingTwice | KYPhotoLibrary/Sources/KYPhotoLibraryAssetExportActor.swift:54-55 | a pending request is cancelled once however often cancel is called |
| LegacyVideoExport.ExportVideoFromPhotoLibrary | KYPhotoLibrary/Sources/KYPhotoLibrary+VideoExport.swift:44-87 | an unknown video is `KYPhotoLibraryError.assetNotFound`; one cancellation check, after the session and before the destination; the output type from before preparation; the mapped result |
| AssetChange.PreferredSource | KYPhotoLibrary/Sources/Asset/KYPhotoLibrary+AssetChange.swift:66-73 | none exactly when no source is given; otherwise a given source of highest precedence (image, image file, video file) |
| AssetChange.AssetSave | KYPhotoLibrary/Sources/Asset/KYPhotoLibrary+AssetChange.swift:50-98 | no source first, then a missing album, before any request; then a missing placeholder, then a missing album or collection change; success exactly when all are present, with the placeholder's identifier and the asset added to the album |
| AssetChange.AssetSaveWithoutAlbumFails | KYPhotoLibrary/Sources/Asset/KYPhotoLibrary+AssetChange.swift:85-91 | without an album name the image is saved and the call fails with `failedToAddSavedAssetToAlbum("")` |
| AssetChange.AssetSaveIntended | KYPhotoLibrary/Sources/Asset/KYPhotoLibrary+AssetChange.swift:50-98 | corrected: without an album name a saved asset is a success; with one it is AssetSave |
| AssetChange.AssetSaveCreatesOnce | KYPhotoLibrary/Sources/Asset/KYPhotoLibrary+AssetChange.swift:51-73 | a creation request is made exactly when a source is given and any named album exists |
| AssetChange.SaveAsset | KYPhotoLibrary/Sources/Asset/KYPhotoLibrary+AssetChange.swift:28-36 | images go to the image-file slot, videos to the video-file slot, other types are `unsupportedMediaType(raw value)` |
| AssetChange.AssetDelete | KYPhotoLibrary/Sources/Asset/KYPhotoLibrary+AssetChange.swift:106-115 | an unknown identifier or another media type is `assetNotFound` and nothing is deleted; otherwise that asset is deleted |
| AssetChange.AssetDeleteFirstMatch | KYPhotoLibrary/Sources/Asset/KYPhotoLibrary+AssetChange.swift:107-112 | the first asset with the identifier is the one deleted |
| AssetCreation.OlderSource | KYPhotoLibrary/Sources/Asset/KYPhotoLibrary+AssetCreation.swift:35-40 | the image before the video file, as PreferredSource with no image file |
| AssetCreation.AssetSave | KYPhotoLibrary/Sources/Asset/KYPhotoLibrary+AssetCreation.swift:24-62 | no source, then an empty name, then the album lookup's error, before any request; then `failedToSaveAsset`, then `failedToAddSavedAssetToAlbum(name)`; success exactly when all are present |
| AssetCreation.AssetSaveVersionsAgree | KYPhotoLibrary/Sources/Asset/KYPhotoLibrary+AssetCreation.swift:24-62 | on an existing album both versions make the same request and the same change and agree on success |

## Left out

- The SwiftUI demo app, logging, and the debug waits are not modelled. So are thumbnails, image loading (`KYPhotoLibrary+Image.swift`) and the deprecated export helpers in `VideoExport/`. All of these are outside the modelled logic.
- Actors, `async`, continuations and task cancellation are modelled as sequential steps. A cancellation check is a boolean input. Cancellation handlers run only when a scenario calls `CancelRequest`. Interleavings are not modelled.
- The platform's answers are parameters, not behaviour:
  - fetched images, data and sessions;
  - placeholders;
  - whether a collection can change;
  - a session's final status and error.
  The type database, percent encoding and the URL parser are uninterpreted functions.
- `CGSize` has whole-number dimensions. No floating point is modelled.
- `Lowercased` folds ASCII letters only, while Swift's `lowercased()` folds all of Unicode.
- `pathExtension` and `deletingPathExtension` follow the simple last-dot rule. The other `NSString` path rules are left out:
  - leading dots;
  - trailing slashes;
  - path components.
- File contents are not modelled. A file is only a path that exists.
- File-system failures are a fixed set of protected paths, and `createDirectory` creates only the folder itself.
- `loadAssets`: the fetch limit is a `nat`, where Swift's `Int` also admits negative limits.
- `timeRange` is only stored; nothing reads it.
- The file-scheme asset URL stops at the image or video route. Requesting that URL is the request actor's job, and the actor is modelled on its own.
- `asset(with:for:)` is not part of this model. It is taken to be `assetFromIdentifier`.
- `KYPhotoLibraryAssetExportOptions.prepareUniqueDestinationURL(for:)`, used by the newer video export, is not part of this model. `VideoExport.ExportVideoFromPhotoLibrary` therefore prepares its destination with `ExportOptions.PrepareOutputURL`, so it can also surface that method's folder error.
- The `getAlbum(with:)` that the older `asset_save` awaits is not part of this model. Its outcome is the `album` input of `AssetCreation.AssetSave`.
- AssetQuery.LoadAssets, AssetQuery.LoadAssetIdentifiers, AssetChange.AssetSave: the album lookups these await (`getAlbum(with:createIfNotFound: false)` in `loadAssets`, `getAlbum(with:)` in the newer `asset_save`) are not part of this model. They are taken to be the first-match `FindAlbum`, so they never create an album and never throw; an error they might throw is not modelled.
- AssetResources.OriginalFilename: states only that the name is one of the resources' names. `AssetResource` does not name which resource.

## Findings

| source | as written | input that shows it | evidently intended | confidence | as-written member | corrected member |
|---|---|---|---|---|---|---|
| KYPhotoLibrary/Sources/Asset/KYPhotoLibrary+AssetChange.swift:85-91 | with no album name the guard still demands an album, so the asset is saved and the call throws `failedToAddSavedAssetToAlbum("")` | `saveImage(image, toAlbum: nil)` with the creation producing a placeholder | the album is optional: return the saved asset's identifier and change no album | not executed | AssetChange.AssetSave, AssetChange.AssetSaveWithoutAlbumFails | AssetChange.AssetSaveIntended |
| KYPhotoLibrary/Sources/Image/KYPhotoLibrary+ImageExport.swift:116, 129 | `exportImage` requests data for `outputFileType` before `prepareOutputURL` derives it from the filename | fresh image options for "photo.png" on a platform that knows `png` | request the data for the output type of the file being written | not executed | ImageExport.ExportImage, ImageExport.ExportImageRequestsInitialType | ImageExport.ExportImageIntended |
| KYPhotoLibrary/Sources/Video/KYPhotoLibrary+VideoExport.swift:91-92 | the session's output type is copied from the options before the destination is prepared, which may change it; the older export does the same (KYPhotoLibrary/Sources/KYPhotoLibrary+VideoExport.swift:77-78) | fresh video options for "clip.mov" on a platform that knows `mov` | export in the file type the prepared filename implies | not executed | VideoExport.ExportVideoFromPhotoLibrary, VideoExport.ExportVideoSetsInitialType, LegacyVideoExport.ExportVideoFromPhotoLibrary | VideoExport.ExportVideoFromPhotoLibraryIntended |
