/** The local filesystem as the plugin sees it: regular files with their bytes
    and the set of directories that exist. */
module Filesystem {

  newtype byte = x: int | 0 <= x < 256

  datatype FsState = FsState(files: map<string, seq<byte>>, dirs: set<string>)

  /** os.MkdirAll: the directory exists afterwards unless a regular file is in
      the way, in which case the call fails and nothing changes (every caller
      in the program discards that error). Ancestors are not tracked. */
  function AfterMkdirAll(st: FsState, path: string): (st': FsState)
    ensures st'.files == st.files
    ensures path in st'.dirs <==> path in st.dirs || path !in st.files
    ensures st'.dirs - {path} == st.dirs - {path}
  {
    if path in st.files then st else st.(dirs := st.dirs + {path})
  }

  /** os.OpenFile with O_WRONLY|O_CREATE|O_TRUNC followed by a write of data:
      whatever was at path is replaced. */
  function AfterWrite(st: FsState, path: string, data: seq<byte>): (st': FsState)
    ensures path in st'.files && st'.files[path] == data
    ensures forall p :: p != path ==> (p in st'.files <==> p in st.files)
    ensures forall p :: p != path && p in st.files ==> st'.files[p] == st.files[p]
    ensures st'.dirs == st.dirs
  {
    st.(files := st.files[path := data])
  }

  /** os.Remove of a regular file. */
  function AfterRemove(st: FsState, path: string): (st': FsState)
    ensures path !in st'.files
    ensures forall p :: p != path ==> (p in st'.files <==> p in st.files)
    ensures forall p :: p != path && p in st.files ==> st'.files[p] == st.files[p]
    ensures st'.dirs == st.dirs
  {
    st.(files := st.files - {path})
  }

  class FileSystem {
    var files: map<string, seq<byte>>
    var dirs: set<string>
    /** Temporary files created by the download and not yet removed. */
    ghost var temps: set<string>

    function State(): FsState
      reads this
    {
      FsState(files, dirs)
    }

    constructor (files: map<string, seq<byte>>, dirs: set<string>)
      ensures State() == FsState(files, dirs) && temps == {}
    {
      this.files := files;
      this.dirs := dirs;
      temps := {};
    }

    method MkdirAll(path: string)
      modifies this
      ensures State() == AfterMkdirAll(old(State()), path)
      ensures temps == old(temps)
    {
      if path !in files {
        dirs := dirs + {path};
      }
    }

    method WriteFile(path: string, data: seq<byte>)
      modifies this
      ensures State() == AfterWrite(old(State()), path, data)
      ensures temps == old(temps)
    {
      files := files[path := data];
    }

    /** A file created by os.CreateTemp, which creates exclusively. */
    method CreateTemp(path: string, data: seq<byte>)
      requires path !in files
      modifies this
      ensures State() == AfterWrite(old(State()), path, data)
      ensures temps == old(temps) + {path}
    {
      files := files[path := data];
      temps := temps + {path};
    }

    method Remove(path: string)
      modifies this
      ensures State() == AfterRemove(old(State()), path)
      ensures temps == old(temps) - {path}
    {
      files := files - {path};
      temps := temps - {path};
    }
  }
}
