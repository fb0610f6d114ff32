/**
  The part of the operating system the bot touches: an abstract filesystem of
  regular files (each with its byte size) and directories, addressed by path
  strings, and Python's `os.path.join` for two components.
 */
module Os {
  import opened Strings
  import opened Errors

  type Path = string

  /** A snapshot of the filesystem. */
  datatype FsState = FsState(files: map<Path, nat>, dirs: set<Path>)

  /** `os.path.exists`: true for files and for directories. */
  predicate Exists(st: FsState, p: Path) {
    p in st.files || p in st.dirs
  }

  /** `os.path.join(a, b)` on POSIX: an absolute `b` replaces `a`; otherwise a
      separator is inserted unless `a` is empty or already ends with one. */
  function Join(a: Path, b: Path): (r: Path)
    ensures StartsWith(b, "/") ==> r == b
    ensures |b| <= |r| && r[|r| - |b|..] == b
    ensures !StartsWith(b, "/") ==> StartsWith(r, a)
  {
    if StartsWith(b, "/") then b
    else if a == [] || a[|a| - 1] == '/' then a + b
    else a + "/" + b
  }

  /** A directory path with no trailing separator and a relative name: the
      joined path is the directory, one separator, and the name. */
  lemma JoinUnder(dir: Path, name: Path)
    requires |dir| > 0 && dir[|dir| - 1] != '/'
    requires !StartsWith(name, "/")
    ensures Join(dir, name) == dir + "/" + name
    ensures StartsWith(Join(dir, name), dir + "/")
  {
    assert (dir + "/" + name)[..|dir + "/"|] == dir + "/";
  }

  /** The live filesystem, changed in place by the `os` calls the code makes. */
  class FileSystem {
    var files: map<Path, nat>
    var dirs: set<Path>

    function State(): (st: FsState)
      reads this
      ensures st.files == files && st.dirs == dirs
    {
      FsState(files, dirs)
    }

    constructor (st: FsState)
      ensures State() == st
    {
      files := st.files;
      dirs := st.dirs;
    }

    /** `os.path.exists(p)` */
    function PathExists(p: Path): (r: bool)
      reads this
      ensures r <==> Exists(State(), p)
    {
      p in files || p in dirs
    }

    /** `os.path.getsize(p)` for a regular file; `None` where it would raise. */
    function Size(p: Path): (r: Option<nat>)
      reads this
      ensures r.Some? <==> p in files
      ensures r.Some? ==> r.value == files[p]
    {
      if p in files then Some(files[p]) else None
    }

    /** `os.makedirs(dir, exist_ok=True)`: succeeds when the directory exists
        already, raises when a file occupies its path. Parent directories are
        not tracked. */
    method MakeDirs(dir: Path) returns (blocked: bool)
      modifies this
      ensures blocked <==> dir in old(files)
      ensures files == old(files)
      ensures dirs == if blocked then old(dirs) else old(dirs) + {dir}
    {
      blocked := dir in files;
      if !blocked {
        dirs := dirs + {dir};
      }
    }

    /** The effect of the extraction engine writing (or overwriting) files. */
    method Write(written: map<Path, nat>)
      modifies this
      ensures files == old(files) + written
      ensures dirs == old(dirs)
    {
      files := files + written;
    }

    /** `os.remove(p)`: deletes the file; `removed` is false where it would raise
        because `p` is not a regular file, and then nothing changes. */
    method Remove(p: Path) returns (removed: bool)
      modifies this
      ensures removed <==> p in old(files)
      ensures files == old(files) - {p}
      ensures dirs == old(dirs)
    {
      removed := p in files;
      files := files - {p};
    }
  }
}
