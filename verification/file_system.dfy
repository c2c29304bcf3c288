/**
 * The file system as the export code sees it through `FileManager`: a finite
 * set of existing paths. Creating, removing or writing a path fails exactly
 * when the path is one of a fixed set of protected paths, which stands for
 * whatever makes the real operation fail (permissions, a full disk).
 */
module FileSystems {
  import opened Paths

  class FileSystem {
    var paths: set<Path>
    const protected: set<Path>

    constructor (paths: set<Path>, protected: set<Path>)
      ensures this.paths == paths && this.protected == protected
    {
      this.paths := paths;
      this.protected := protected;
    }

    /** `fileExists(atPath:)`. */
    predicate FileExists(path: Path)
      reads this
    {
      path in paths
    }

    /** `createDirectory(at:withIntermediateDirectories: true)`. */
    method CreateDirectory(path: Path) returns (ok: bool)
      modifies this
      ensures ok <==> path !in protected
      ensures paths == if ok then old(paths) + {path} else old(paths)
    {
      ok := path !in protected;
      if ok {
        paths := paths + {path};
      }
    }

    /** `removeItem(at:)`: fails for a missing or protected path. */
    method RemoveItem(path: Path) returns (ok: bool)
      modifies this
      ensures ok <==> path in old(paths) && path !in protected
      ensures paths == if ok then old(paths) - {path} else old(paths)
    {
      ok := path in paths && path !in protected;
      if ok {
        paths := paths - {path};
      }
    }

    /** `Data.write(to:)`: creates or replaces the file. */
    method Write(path: Path) returns (ok: bool)
      modifies this
      ensures ok <==> path !in protected
      ensures paths == if ok then old(paths) + {path} else old(paths)
    {
      ok := path !in protected;
      if ok {
        paths := paths + {path};
      }
    }
  }
}
