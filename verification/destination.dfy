/**
 * The rules that decide an export destination, shared by
 * `KYPhotoLibraryExportOptions` and the older `KYPhotoLibraryVideoExportOptions`:
 * how the filename, its extension and the output file type are derived
 * (`_prepareFilename`, `_resetFileToDefault`), and which path in the
 * destination folder is chosen when the name is taken (`prepareOutputURL`,
 * `prepareUniqueDestinationURL`).
 */
module Destinations {
  import opened Wrappers
  import opened Errors
  import opened Paths
  import opened Photos
  import opened AssetResources
  import opened FileSystems

  /** The three naming fields of an options object. */
  datatype Naming = Naming(filename: string, fileExtension: string, outputFileType: FileType)

  /** What `_resetFileToDefault` falls back to: a title, an extension and a file type. */
  datatype DefaultFile = DefaultFile(title: string, fileExtension: string, fileType: FileType)

  /** `_resetFileToDefault` of image export options. */
  const UntitledImage: DefaultFile := DefaultFile("Untitled", "jpg", Jpg)
  /** `_resetFileToDefault` of video export options. */
  const UntitledVideo: DefaultFile := DefaultFile("Untitled", "mp4", Mp4)
  /** `_resetFileToDefault` of the older video-only options. */
  const UnknownVideo: DefaultFile := DefaultFile("Unknown", "mp4", Mp4)

  /** The defaults have a lower-case extension without a dot. */
  predicate ValidDefault(d: DefaultFile) {
    '.' !in d.fileExtension && Lowercased(d.fileExtension) == d.fileExtension
  }

  lemma DefaultsValid()
    ensures ValidDefault(UntitledImage) && ValidDefault(UntitledVideo) && ValidDefault(UnknownVideo)
  {
    assert Lowercased("jpg") == "jpg";
    assert Lowercased("mp4") == "mp4";
  }

  /** `_resetFileToDefault(with:)`: the given title, or the default one, with the default extension. */
  function ResetToDefault(d: DefaultFile, title: Option<string>): (r: Naming)
    ensures r.fileExtension == d.fileExtension && r.outputFileType == d.fileType
    ensures r.filename == title.GetOr(d.title) + "." + d.fileExtension
  {
    Naming(title.GetOr(d.title) + "." + d.fileExtension, d.fileExtension, d.fileType)
  }

  /** `KYPhotoLibrary.assetResource(for:)` of an optional asset. */
  function ResourceFor(asset: Option<Asset>): Option<Resource> {
    if asset.Some? then AssetResource(asset.value) else None
  }

  /**
   * `_prepareFilename(with:)`: an empty filename takes the resource's original
   * filename (or the default); a filename without an extension gets the
   * resource's extension (or the default one); a filename with an extension
   * keeps it, lower-cased, when the platform recognises it, and otherwise its
   * title gets the default extension.
   */
  function PrepareNaming(n: Naming, resource: Option<Resource>, d: DefaultFile, platform: Platform): (r: Naming)
    ensures n.filename == "" && resource.Some? ==>
      r == Naming(resource.value.originalFilename, PathExtension(resource.value.originalFilename),
                  FileType(resource.value.uniformTypeIdentifier))
    ensures n.filename == "" && resource.None? ==> r == ResetToDefault(d, None)
    ensures n.filename != "" && PathExtension(n.filename) == "" && resource.Some? ==>
      r.filename == n.filename + "." + r.fileExtension && r.fileExtension == PathExtension(resource.value.originalFilename)
      && r.outputFileType == FileType(resource.value.uniformTypeIdentifier)
    ensures n.filename != "" && PathExtension(n.filename) == "" && resource.None? ==> r == ResetToDefault(d, Some(n.filename))
    ensures n.filename != "" && PathExtension(n.filename) != "" ==>
      var lower := Lowercased(PathExtension(n.filename));
      if FileTypeFromExtension(platform, lower).Some? then r == Naming(n.filename, lower, FileTypeFromExtension(platform, lower).value)
      else r == ResetToDefault(d, Some(DeletingPathExtension(n.filename)))
  {
    if n.filename == "" then
      match resource
      case Some(res) =>
        Naming(res.originalFilename, PathExtension(res.originalFilename), FileType(res.uniformTypeIdentifier))
      case None => ResetToDefault(d, None)
    else
      var fileExtension := PathExtension(n.filename);
      if fileExtension == "" then
        match resource
        case Some(res) =>
          var ext := PathExtension(res.originalFilename);
          Naming(n.filename + "." + ext, ext, FileType(res.uniformTypeIdentifier))
        case None => ResetToDefault(d, Some(n.filename))
      else
        var lower := Lowercased(fileExtension);
        match FileTypeFromExtension(platform, lower)
        case Some(fileType) => Naming(n.filename, lower, fileType)
        case None => ResetToDefault(d, Some(DeletingPathExtension(n.filename)))
  }

  /** The prepared extension never holds a dot, so it can be split off again. */
  lemma PrepareNamingExtensionHasNoDot(n: Naming, resource: Option<Resource>, d: DefaultFile, platform: Platform)
    requires ValidDefault(d)
    ensures '.' !in PrepareNaming(n, resource, d, platform).fileExtension
  {
    var ext := PathExtension(n.filename);
    if n.filename != "" && ext != "" {
      var lower := Lowercased(ext);
      assert forall i :: 0 <= i < |lower| ==> lower[i] != '.';
    }
  }

  /**
   * The prepared extension is the extension of the prepared filename, up to
   * case: lower-cased, the two agree in every branch.
   */
  lemma {:induction false} PrepareNamingExtensionAgrees(n: Naming, resource: Option<Resource>, d: DefaultFile,
                                                        platform: Platform)
    requires ValidDefault(d)
    ensures var r := PrepareNaming(n, resource, d, platform);
      Lowercased(PathExtension(r.filename)) == Lowercased(r.fileExtension)
  {
    var r := PrepareNaming(n, resource, d, platform);
    var ext := PathExtension(n.filename);
    if n.filename == "" {
      if resource.None? {
        AppendedExtension(d.title, d.fileExtension);
      }
    } else if ext == "" {
      if resource.Some? {
        AppendedExtension(n.filename, PathExtension(resource.value.originalFilename));
      } else {
        AppendedExtension(n.filename, d.fileExtension);
      }
    } else {
      var lower := Lowercased(ext);
      if FileTypeFromExtension(platform, lower).Some? {
        LowercasedIdempotent(ext);
      } else {
        AppendedExtension(DeletingPathExtension(n.filename), d.fileExtension);
      }
    }
  }

  /** A filename the caller supplied keeps its title: only its extension may change. */
  lemma {:induction false} PrepareNamingKeepsTitle(n: Naming, resource: Option<Resource>, d: DefaultFile,
                                                   platform: Platform)
    requires ValidDefault(d)
    requires n.filename != ""
    requires resource.Some? ==> '.' !in PathExtension(resource.value.originalFilename)
    ensures var r := PrepareNaming(n, resource, d, platform);
      DeletingPathExtension(r.filename)
        == if PathExtension(n.filename) == "" then n.filename else DeletingPathExtension(n.filename)
  {
    var ext := PathExtension(n.filename);
    if ext == "" {
      if resource.Some? {
        AppendedExtension(n.filename, PathExtension(resource.value.originalFilename));
      } else {
        AppendedExtension(n.filename, d.fileExtension);
      }
    } else if FileTypeFromExtension(platform, Lowercased(ext)).None? {
      AppendedExtension(DeletingPathExtension(n.filename), d.fileExtension);
    }
  }

  /**
   * A filename whose extension the platform recognises is settled: preparing
   * it again changes nothing.
   */
  lemma PrepareNamingSettles(n: Naming, resource: Option<Resource>, d: DefaultFile, platform: Platform)
    requires n.filename != "" && PathExtension(n.filename) != ""
    requires FileTypeFromExtension(platform, Lowercased(PathExtension(n.filename))).Some?
    ensures var r := PrepareNaming(n, resource, d, platform);
      PrepareNaming(r, resource, d, platform) == r
  {
  }

  /**
   * Once reset to a default whose extension the platform maps to the default
   * file type, preparing again keeps the default naming.
   */
  lemma {:induction false} ResetToDefaultSettles(d: DefaultFile, title: Option<string>, resource: Option<Resource>,
                                                 platform: Platform)
    requires ValidDefault(d) && d.fileExtension != ""
    requires FileTypeFromExtension(platform, d.fileExtension) == Some(d.fileType)
    ensures PrepareNaming(ResetToDefault(d, title), resource, d, platform) == ResetToDefault(d, title)
  {
    var r := ResetToDefault(d, title);
    AppendedExtension(title.GetOr(d.title), d.fileExtension);
    assert r.filename != "";
  }

  // The probe for a free name: "<title> - 1.<ext>", "<title> - 2.<ext>", ...

  /** The path tried at a probe index. */
  function Candidate(folder: Path, title: string, index: nat, fileExtension: string): Path {
    Join(folder, IndexedFilename(title, index, fileExtension))
  }

  lemma CandidateInjective(folder: Path, title: string, i: nat, j: nat, fileExtension: string)
    requires Candidate(folder, title, i, fileExtension) == Candidate(folder, title, j, fileExtension)
    ensures i == j
  {
    JoinInjective(folder, IndexedFilename(title, i, fileExtension), IndexedFilename(title, j, fileExtension));
    IndexedFilenameInjective(title, i, j, fileExtension);
  }

  /** The paths tried before index n. */
  function CandidatesBelow(folder: Path, title: string, fileExtension: string, n: nat): set<Path> {
    set j | 1 <= j < n :: Candidate(folder, title, j, fileExtension)
  }

  lemma {:induction false} CandidatesBelowSize(folder: Path, title: string, fileExtension: string, n: nat)
    requires n >= 1
    ensures |CandidatesBelow(folder, title, fileExtension, n)| == n - 1
    decreases n
  {
    if n > 1 {
      CandidatesBelowSize(folder, title, fileExtension, n - 1);
      var below := CandidatesBelow(folder, title, fileExtension, n - 1);
      var c := Candidate(folder, title, n - 1, fileExtension);
      assert CandidatesBelow(folder, title, fileExtension, n) == below + {c};
      if c in below {
        var j :| 1 <= j < n - 1 && Candidate(folder, title, j, fileExtension) == c;
        CandidateInjective(folder, title, j, n - 1, fileExtension);
      }
    } else {
      assert CandidatesBelow(folder, title, fileExtension, n) == {};
    }
  }

  /** Every taken index below i is a distinct existing path, so i - 1 cannot exceed the number of paths. */
  lemma ProbeBound(existing: set<Path>, folder: Path, title: string, fileExtension: string, i: nat)
    requires i >= 1
    requires forall j :: 1 <= j < i ==> Candidate(folder, title, j, fileExtension) in existing
    ensures i - 1 <= |existing|
  {
    var below := CandidatesBelow(folder, title, fileExtension, i);
    CandidatesBelowSize(folder, title, fileExtension, i);
    assert existing == below + (existing - below);
  }

  /** The smallest index from i on whose path does not exist. */
  function FirstFreeFrom(existing: set<Path>, folder: Path, title: string, fileExtension: string, i: nat): (r: nat)
    requires i >= 1
    requires forall j :: 1 <= j < i ==> Candidate(folder, title, j, fileExtension) in existing
    ensures r >= i
    ensures Candidate(folder, title, r, fileExtension) !in existing
    ensures forall j :: 1 <= j < r ==> Candidate(folder, title, j, fileExtension) in existing
    decreases |existing| + 1 - i
  {
    ProbeBound(existing, folder, title, fileExtension, i);
    if Candidate(folder, title, i, fileExtension) !in existing then i
    else
      ProbeBound(existing, folder, title, fileExtension, i + 1);
      FirstFreeFrom(existing, folder, title, fileExtension, i + 1)
  }

  /** The smallest index i >= 1 whose path does not exist. */
  function FirstFree(existing: set<Path>, folder: Path, title: string, fileExtension: string): (r: nat)
    ensures r >= 1 && Candidate(folder, title, r, fileExtension) !in existing
    ensures forall j :: 1 <= j < r ==> Candidate(folder, title, j, fileExtension) in existing
  {
    FirstFreeFrom(existing, folder, title, fileExtension, 1)
  }

  /** Any index that is free after every smaller one was taken is the one the probe finds. */
  lemma FirstFreeIsLeast(existing: set<Path>, folder: Path, title: string, fileExtension: string, k: nat)
    requires k >= 1 && Candidate(folder, title, k, fileExtension) !in existing
    requires forall j :: 1 <= j < k ==> Candidate(folder, title, j, fileExtension) in existing
    ensures FirstFree(existing, folder, title, fileExtension) == k
  {
  }

  /** The path chosen, the filename written back, and the set of paths afterwards. */
  datatype Placement = Placement(url: Path, filename: string, existing: set<Path>)

  /**
   * The choice of destination once the naming is prepared: the folder joined
   * with the filename when that is free; otherwise, with duplicate removal, the
   * same path after an attempt to remove the file there (its failure is
   * ignored); otherwise the first free indexed name.
   */
  function Place(existing: set<Path>, protected: set<Path>, folder: Path, n: Naming, removeDuplicates: bool)
    : (r: Placement)
    ensures var url := Join(folder, n.filename);
      url !in existing ==> r == Placement(url, n.filename, existing)
    ensures var url := Join(folder, n.filename);
      url in existing && removeDuplicates ==>
        r == Placement(url, n.filename, if url in protected then existing else existing - {url})
    ensures var url := Join(folder, n.filename);
      var title := DeletingPathExtension(n.filename);
      url in existing && !removeDuplicates ==>
        r.existing == existing && r.url == Join(folder, r.filename) && r.url !in existing
        && exists i :: (i >= 1 && r.filename == IndexedFilename(title, i, n.fileExtension)
                        && forall j :: 1 <= j < i ==> Candidate(folder, title, j, n.fileExtension) in existing)
  {
    var url := Join(folder, n.filename);
    if url !in existing then Placement(url, n.filename, existing)
    else if removeDuplicates then
      Placement(url, n.filename, if url in protected then existing else existing - {url})
    else
      var title := DeletingPathExtension(n.filename);
      var index := FirstFree(existing, folder, title, n.fileExtension);
      var unique := IndexedFilename(title, index, n.fileExtension);
      Placement(Join(folder, unique), unique, existing)
  }

  /**
   * The chosen path is the folder joined with the filename written back, and
   * no file is there, unless duplicate removal failed on a protected path.
   */
  lemma {:induction false} PlaceIsFree(existing: set<Path>, protected: set<Path>, folder: Path, n: Naming,
                                       removeDuplicates: bool)
    ensures var r := Place(existing, protected, folder, n, removeDuplicates);
      r.url == Join(folder, r.filename)
      && (r.url !in r.existing || (removeDuplicates && r.url in protected && r.filename == n.filename))
  {
  }

  /** The indexed name keeps the title and the extension of the prepared naming. */
  lemma {:induction false} IndexedNameSplits(title: string, index: nat, fileExtension: string)
    requires '.' !in fileExtension
    ensures PathExtension(IndexedFilename(title, index, fileExtension)) == fileExtension
    ensures DeletingPathExtension(IndexedFilename(title, index, fileExtension)) == title + " - " + NatToString(index)
  {
    assert IndexedFilename(title, index, fileExtension) == (title + " - " + NatToString(index)) + "." + fileExtension;
    AppendedExtension(title + " - " + NatToString(index), fileExtension);
  }

  /** `_createFolderIfNeeded`: the paths after the folder exists, or nothing when it cannot be created. */
  function WithFolder(existing: set<Path>, protected: set<Path>, folder: Path): (r: Option<set<Path>>)
    ensures r.None? <==> folder !in existing && folder in protected
    ensures r.Some? ==> r.value == existing + {folder}
  {
    if folder in existing then Some(existing)
    else if folder in protected then None
    else Some(existing + {folder})
  }

  /** The outcome of preparing an output URL: the result, the naming fields and the paths afterwards. */
  datatype Prepared = Prepared(result: Result<Path, Error>, naming: Naming, existing: set<Path>)

  /** Naming then placement, on the paths present once the folder step is done. */
  function NameAndPlace(existing: set<Path>, protected: set<Path>, folder: Path, n: Naming, resource: Option<Resource>,
                        d: DefaultFile, platform: Platform, removeDuplicates: bool): (r: Prepared)
    ensures r.result.Success?
    ensures r.naming == PrepareNaming(n, resource, d, platform).(filename := r.naming.filename)
    ensures var p := Place(existing, protected, folder, PrepareNaming(n, resource, d, platform), removeDuplicates);
      r.result.value == p.url && r.naming.filename == p.filename && r.existing == p.existing
  {
    var prepared := PrepareNaming(n, resource, d, platform);
    var p := Place(existing, protected, folder, prepared, removeDuplicates);
    Prepared(Success(p.url), prepared.(filename := p.filename), p.existing)
  }

  /**
   * `prepareOutputURL(for:)`: the folder is created when missing and a failure
   * to create it is thrown, leaving everything as it was; then the naming is
   * prepared and the destination placed.
   */
  function PrepareOutput(existing: set<Path>, protected: set<Path>, folder: Path, n: Naming, resource: Option<Resource>,
                         d: DefaultFile, platform: Platform, removeDuplicates: bool): (r: Prepared)
    ensures WithFolder(existing, protected, folder).None? ==>
      r == Prepared(Failure(OfFileSystem(CannotCreateDirectory(folder))), n, existing)
    ensures WithFolder(existing, protected, folder).Some? ==>
      r == NameAndPlace(existing + {folder}, protected, folder, n, resource, d, platform, removeDuplicates)
  {
    match WithFolder(existing, protected, folder)
    case None => Prepared(Failure(OfFileSystem(CannotCreateDirectory(folder))), n, existing)
    case Some(withFolder) => NameAndPlace(withFolder, protected, folder, n, resource, d, platform, removeDuplicates)
  }

  /**
   * `prepareUniqueDestinationURL(for:)` of the older options: the same, except
   * that a failure to create the folder is ignored.
   */
  function PrepareUniqueDestination(existing: set<Path>, protected: set<Path>, folder: Path, n: Naming,
                                    resource: Option<Resource>, platform: Platform, removeDuplicates: bool): (r: Prepared)
    ensures r.result.Success?
    ensures r == NameAndPlace(WithFolder(existing, protected, folder).GetOr(existing), protected, folder, n, resource,
                              UnknownVideo, platform, removeDuplicates)
  {
    NameAndPlace(WithFolder(existing, protected, folder).GetOr(existing), protected, folder, n, resource,
                 UnknownVideo, platform, removeDuplicates)
  }

  /**
   * Without duplicate removal the older options always name a path where no
   * file exists, whether or not the folder could be created.
   */
  lemma {:induction false} PrepareUniqueDestinationFresh(existing: set<Path>, protected: set<Path>, folder: Path,
                                                         n: Naming, resource: Option<Resource>, platform: Platform)
    ensures var r := PrepareUniqueDestination(existing, protected, folder, n, resource, platform, false);
      r.result.value !in r.existing && r.result.value == Join(folder, r.naming.filename)
  {
    PlaceIsFree(WithFolder(existing, protected, folder).GetOr(existing), protected, folder,
                PrepareNaming(n, resource, UnknownVideo, platform), false);
  }

  /**
   * Preparing an output leaves every other path alone: only the folder may
   * appear and only the chosen file may disappear.
   */
  lemma {:induction false} PrepareOutputFrame(existing: set<Path>, protected: set<Path>, folder: Path, n: Naming,
                                              resource: Option<Resource>, d: DefaultFile, platform: Platform,
                                              removeDuplicates: bool, p: Path)
    requires p != folder
    ensures var r := PrepareOutput(existing, protected, folder, n, resource, d, platform, removeDuplicates);
      r.result.Success? && p != r.result.value ==> (p in r.existing <==> p in existing)
  {
  }

  /**
   * Without duplicate removal a successful preparation always names a path
   * where no file exists, and the file type and extension are those the
   * naming rule chose.
   */
  lemma {:induction false} PrepareOutputFresh(existing: set<Path>, protected: set<Path>, folder: Path, n: Naming,
                                              resource: Option<Resource>, d: DefaultFile, platform: Platform)
    ensures var r := PrepareOutput(existing, protected, folder, n, resource, d, platform, false);
      r.result.Success? ==> r.result.value !in r.existing && r.result.value == Join(folder, r.naming.filename)
  {
    var r := PrepareOutput(existing, protected, folder, n, resource, d, platform, false);
    if WithFolder(existing, protected, folder).Some? {
      PlaceIsFree(existing + {folder}, protected, folder, PrepareNaming(n, resource, d, platform), false);
    }
  }

  /**
   * The index-probing loop shared by both options classes: tries
   * `"<title> - <index>.<ext>"` for index 1, 2, ... until no file exists at the
   * joined path. It ends because the tried paths are distinct and existing.
   */
  method ProbeUniqueFilename(fs: FileSystem, folder: Path, title: string, fileExtension: string)
    returns (uniqueFilename: string, url: Path)
    ensures uniqueFilename == IndexedFilename(title, FirstFree(fs.paths, folder, title, fileExtension), fileExtension)
    ensures url == Join(folder, uniqueFilename) && url !in fs.paths
  {
    var index := 1;
    uniqueFilename := IndexedFilename(title, index, fileExtension);
    url := Join(folder, uniqueFilename);
    while fs.FileExists(url)
      invariant index >= 1
      invariant uniqueFilename == IndexedFilename(title, index, fileExtension) && url == Join(folder, uniqueFilename)
      invariant forall j :: 1 <= j < index ==> Candidate(folder, title, j, fileExtension) in fs.paths
      decreases |fs.paths| + 1 - index
    {
      ProbeBound(fs.paths, folder, title, fileExtension, index + 1);
      index := index + 1;
      uniqueFilename := IndexedFilename(title, index, fileExtension);
      url := Join(folder, uniqueFilename);
    }
    FirstFreeIsLeast(fs.paths, folder, title, fileExtension, index);
  }
}
