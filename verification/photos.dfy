/**
 * The values the library receives from the platform photo and media frameworks,
 * as plain data: media types, asset resources, assets, albums, file types, the
 * request handles the platform hands out, and the foreign calls the request
 * actors issue. The platform's type database and URL parser are `Platform`,
 * a record of functions the model leaves uninterpreted.
 */
module Photos {
  import opened Wrappers
  import opened Paths

  /** `PHAssetMediaType`. */
  datatype MediaType = Unknown | Image | Video | Audio {
    function RawValue(): int {
      match this
      case Unknown => 0
      case Image => 1
      case Video => 2
      case Audio => 3
    }
  }

  /** `PHAssetResourceType`. */
  datatype ResourceType =
    | Photo | Video | Audio | AlternatePhoto | FullSizePhoto | FullSizeVideo
    | AdjustmentData | AdjustmentBasePhoto | PairedVideo | FullSizePairedVideo
    | AdjustmentBasePairedVideo | PhotoProxy | AdjustmentBaseVideo

  /** `PHAssetResource`: one underlying data file of an asset. */
  datatype Resource = Resource(kind: ResourceType, originalFilename: string, uniformTypeIdentifier: string)

  /** `PHAsset`, with the resources `PHAssetResource.assetResources(for:)` lists for it. */
  datatype Asset = Asset(
    localIdentifier: string,
    mediaType: MediaType,
    pixelWidth: nat,
    pixelHeight: nat,
    resources: seq<Resource>)

  /** `PHAssetCollection` of type album, with the assets it holds in fetch order. */
  datatype Album = Album(localIdentifier: string, localizedTitle: Option<string>, assets: seq<Asset>)

  /** An in-memory image (`UIImage` / `NSImage`), known only by an opaque handle. */
  datatype LibraryImage = LibraryImage(handle: nat)

  /** Image bytes returned by a data request, known only by an opaque handle. */
  datatype ImageData = ImageData(handle: nat)

  /** `AVAsset` as returned for a video: either a file-backed `AVURLAsset` or another kind. */
  datatype MediaAsset = URLAsset(url: Path) | OtherAsset(handle: nat)

  /** `CGSize`, in whole pixels. */
  datatype Size = Size(width: int, height: int)

  /** `AVFileType`, a wrapper around a uniform type identifier. */
  datatype FileType = FileType(rawValue: string)

  const Mp4: FileType := FileType("public.mpeg-4")
  const Jpg: FileType := FileType("public.jpeg")

  /** `AVAssetExportPresetPassthrough`, the default video export preset. */
  const ExportPresetPassthrough: string := "AVAssetExportPresetPassthrough"

  /** The platform services the library consults, left uninterpreted. */
  datatype Platform = Platform(
    /** `UTType(filenameExtension:)?.identifier`. */
    typeForFilenameExtension: string -> Option<string>,
    /** `UTType.ky_getFileExtensionFromUniformTypeIdentifier`. */
    extensionForTypeIdentifier: string -> Option<string>,
    /** `addingPercentEncoding(withAllowedCharacters: .urlPathAllowed)`. */
    percentEncodedPath: string -> Option<string>,
    /** Whether `URL(string:)` accepts the text. */
    isParsableURL: string -> bool)

  /**
   * `AVFileType.ky_fromFileExtension`: no type for an empty extension;
   * otherwise exactly the type the type database knows for it.
   */
  function FileTypeFromExtension(platform: Platform, fileExtension: string): (r: Option<FileType>)
    ensures fileExtension == "" ==> r == None
    ensures r.Some? ==> platform.typeForFilenameExtension(fileExtension) == Some(r.value.rawValue)
    ensures fileExtension != "" && platform.typeForFilenameExtension(fileExtension).Some? ==>
      r == Some(FileType(platform.typeForFilenameExtension(fileExtension).value))
  {
    if fileExtension == "" then None
    else match platform.typeForFilenameExtension(fileExtension)
      case None => None
      case Some(identifier) => Some(FileType(identifier))
  }

  /** Opaque request handles (`PHImageRequestID`, `PHContentEditingInputRequestID`). */
  type RequestID = int

  /** An opaque `Progress` object returned by `loadData`. */
  type ProgressID = nat

  /** The calls into the platform that the request actors issue, in order. */
  datatype ForeignCall =
    | RequestImage(asset: Asset, targetSize: Size)
    | RequestContentEditingInput(asset: Asset)
    | RequestAVAsset(asset: Asset)
    | RequestImageDataAndOrientation(asset: Asset)
    | LoadData(typeIdentifier: string)
    | RequestExportSession(asset: Asset, exportPreset: string)
    | CancelImageRequest(requestID: RequestID)
    | CancelContentEditingInputRequest(asset: Asset, requestID: RequestID)
    | CancelProgress(progress: ProgressID)

  /** The index of the first element satisfying p (`firstIndex(where:)`). */
  function FirstIndex<T>(s: seq<T>, p: T -> bool): (r: Option<nat>)
    ensures r.Some? ==> r.value < |s| && p(s[r.value])
    ensures r.Some? ==> forall j :: 0 <= j < r.value ==> !p(s[j])
    ensures r.None? ==> forall j :: 0 <= j < |s| ==> !p(s[j])
    decreases |s|
  {
    if |s| == 0 then None
    else if p(s[0]) then Some(0)
    else match FirstIndex(s[1..], p)
      case None => None
      case Some(i) => Some(i + 1)
  }

  /** The first element satisfying p (`first(where:)`). */
  function First<T>(s: seq<T>, p: T -> bool): (r: Option<T>)
    ensures r.Some? ==> r.value in s && p(r.value)
    ensures r.None? <==> forall x :: x in s ==> !p(x)
  {
    match FirstIndex(s, p)
    case None => None
    case Some(i) => Some(s[i])
  }

  /** An element that satisfies p after none before it did is the one `First` finds. */
  lemma FirstAt<T>(s: seq<T>, p: T -> bool, i: nat)
    requires i < |s| && p(s[i])
    requires forall j :: 0 <= j < i ==> !p(s[j])
    ensures FirstIndex(s, p) == Some(i)
    ensures First(s, p) == Some(s[i])
  {
  }

  /** Elements after the first match do not change what `First` finds. */
  lemma {:induction false} FirstIgnoresLater<T>(s: seq<T>, later: seq<T>, p: T -> bool)
    requires First(s, p).Some?
    ensures First(s + later, p) == First(s, p)
  {
    var i := FirstIndex(s, p).value;
    assert forall j :: 0 <= j <= i ==> (s + later)[j] == s[j];
    FirstAt(s + later, p, i);
  }

  /** The elements satisfying p, in their original order (`filter`). */
  function Filter<T>(s: seq<T>, p: T -> bool): (r: seq<T>)
    ensures |r| <= |s|
    ensures forall x :: x in r ==> x in s && p(x)
    ensures forall x :: x in s && p(x) ==> x in r
    decreases |s|
  {
    if |s| == 0 then []
    else if p(s[0]) then [s[0]] + Filter(s[1..], p)
    else Filter(s[1..], p)
  }

  /** Filtering a concatenation filters each part: the filter keeps the order. */
  lemma {:induction false} FilterAppend<T>(s: seq<T>, t: seq<T>, p: T -> bool)
    ensures Filter(s + t, p) == Filter(s, p) + Filter(t, p)
    decreases |s|
  {
    if |s| > 0 {
      assert (s + t)[1..] == s[1..] + t;
      FilterAppend(s[1..], t, p);
    } else {
      assert s + t == t;
    }
  }

  /** At most `limit` elements, from the front; a limit of zero means no limit (`fetchLimit`). */
  function Limit<T>(s: seq<T>, limit: nat): (r: seq<T>)
    ensures limit == 0 ==> r == s
    ensures limit != 0 ==> |r| == if |s| < limit then |s| else limit
    ensures r <= s
  {
    if limit == 0 || |s| <= limit then s else s[..limit]
  }
}
