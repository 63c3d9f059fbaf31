/** Extraction of a downloaded zip archive into a destination directory
    (internal/crowdin/unzip.go). The archive is given as what zip.OpenReader
    makes of the file: either an error or its entries in archive order, each
    with the outcome that opening and writing it has. */
module Unzip {
  import opened Wrappers
  import opened Filesystem
  import opened Paths

  /** Result of f.Open() on one entry. */
  datatype OpenStatus = Opened | OpenFailed(error: string)

  /** Result of creating the destination file and copying the bytes into it:
      the create fails (nothing written), the copy fails after `copied` bytes
      (the truncated file keeps at most those), or everything is written. */
  datatype WriteStatus = Written | CreateFailed(error: string) | CopyFailed(error: string, copied: nat)

  datatype ZipEntry = ZipEntry(name: string, isDir: bool, data: seq<byte>, open: OpenStatus, write: WriteStatus)

  datatype Archive = Unopenable(error: string) | Entries(entries: seq<ZipEntry>)

  /** One entry goes through the closure without error. */
  predicate Succeeds(e: ZipEntry) {
    e.open.Opened? && (e.isDir || e.write.Written?)
  }

  /** The error the closure returns for an entry that does not succeed. */
  function EntryError(e: ZipEntry): string
    requires !Succeeds(e)
  {
    if e.open.OpenFailed? then e.open.error else e.write.error
  }

  /** Whether a successful entry leaves a regular file at path. */
  predicate WritesTo(dest: string, e: ZipEntry, path: string) {
    !e.isDir && Join(dest, e.name) == path
  }

  /** Names of the non-directory entries, in archive order, duplicates kept. */
  function FileNames(entries: seq<ZipEntry>): (names: seq<string>)
    ensures |names| <= |entries|
  {
    if entries == [] then []
    else (if entries[0].isDir then [] else [entries[0].name]) + FileNames(entries[1..])
  }

  /** The extractAndWriteFile closure on one entry: its outcome, the new
      filesystem and the new list of extracted names. */
  function ExtractStep(st: FsState, dest: string, e: ZipEntry, extracted: seq<string>): (Outcome, FsState, seq<string>)
  {
    match e.open
    case OpenFailed(err) => (Fail(err), st, extracted)
    case Opened =>
      var path := Join(dest, e.name);
      if e.isDir then (Pass, AfterMkdirAll(st, path), extracted)
      else
        var listed := extracted + [e.name];
        var prepared := AfterMkdirAll(st, Dir(path));
        match e.write
        case CreateFailed(err) => (Fail(err), prepared, listed)
        case CopyFailed(err, copied) =>
          (Fail(err), AfterWrite(prepared, path, e.data[..if copied < |e.data| then copied else |e.data|]), listed)
        case Written => (Pass, AfterWrite(prepared, path, e.data), listed)
  }

  /** The loop over r.File from the given entries on, with the names listed so far. */
  function ExtractFrom(st: FsState, dest: string, entries: seq<ZipEntry>, extracted: seq<string>): (Result<seq<string>>, FsState)
    decreases |entries|
  {
    if entries == [] then (Ok(extracted), st)
    else
      var (o, st', listed) := ExtractStep(st, dest, entries[0], extracted);
      if o.Fail? then (Err(o.error), st') else ExtractFrom(st', dest, entries[1..], listed)
  }

  /** What unzip returns for an archive and what the filesystem is afterwards. */
  function UnzipRun(st: FsState, dest: string, archive: Archive): (Result<seq<string>>, FsState)
  {
    match archive
    case Unopenable(err) => (Err(err), st)
    case Entries(entries) => ExtractFrom(AfterMkdirAll(st, dest), dest, entries, [])
  }

  /** The last entry that writes path, if any. */
  function LastWriter(dest: string, entries: seq<ZipEntry>, path: string): (w: Option<nat>)
    ensures w.Some? ==> w.value < |entries| && WritesTo(dest, entries[w.value], path)
    ensures w.Some? ==> forall k :: w.value < k < |entries| ==> !WritesTo(dest, entries[k], path)
    ensures w.None? ==> forall k :: 0 <= k < |entries| ==> !WritesTo(dest, entries[k], path)
  {
    if entries == [] then None
    else
      match LastWriter(dest, entries[1..], path)
      case Some(j) => Some(j + 1)
      case None => if WritesTo(dest, entries[0], path) then Some(0) else None
  }

  // ---------------------------------------------------------------------
  // Properties of the extraction

  /** The result of the loop over r.File, which does not depend on the
      filesystem: the first failing entry's error, or the names listed. */
  function Listing(entries: seq<ZipEntry>, extracted: seq<string>): Result<seq<string>>
    decreases |entries|
  {
    if entries == [] then Ok(extracted)
    else if !Succeeds(entries[0]) then Err(EntryError(entries[0]))
    else Listing(entries[1..], extracted + (if entries[0].isDir then [] else [entries[0].name]))
  }

  lemma {:induction false} ExtractResultIsListing(st: FsState, dest: string, entries: seq<ZipEntry>, extracted: seq<string>)
    ensures ExtractFrom(st, dest, entries, extracted).0 == Listing(entries, extracted)
    decreases |entries|
  {
    if entries != [] {
      var (o, st', listed) := ExtractStep(st, dest, entries[0], extracted);
      ExtractStepOutcome(st, dest, entries[0], extracted);
      if o.Pass? {
        ExtractResultIsListing(st', dest, entries[1..], listed);
      }
    }
  }

  lemma {:induction false} ListingReportsFileNames(entries: seq<ZipEntry>, extracted: seq<string>)
    ensures Listing(entries, extracted).Ok? <==> forall k :: 0 <= k < |entries| ==> Succeeds(entries[k])
    ensures Listing(entries, extracted).Ok? ==> Listing(entries, extracted).value == extracted + FileNames(entries)
    decreases |entries|
  {
    if entries != [] && Succeeds(entries[0]) {
      var rest := entries[1..];
      var own := if entries[0].isDir then [] else [entries[0].name];
      ListingReportsFileNames(rest, extracted + own);
      assert forall k :: 1 <= k < |entries| ==> entries[k] == rest[k - 1];
      assert (extracted + own) + FileNames(rest) == extracted + (own + FileNames(rest));
    }
  }

  /** Extraction succeeds exactly when every entry does, and then it reports
      the names of the file entries in archive order. */
  lemma ExtractReportsFileNames(st: FsState, dest: string, entries: seq<ZipEntry>, extracted: seq<string>)
    ensures ExtractFrom(st, dest, entries, extracted).0.Ok? <==> forall k :: 0 <= k < |entries| ==> Succeeds(entries[k])
    ensures ExtractFrom(st, dest, entries, extracted).0.Ok? ==>
              ExtractFrom(st, dest, entries, extracted).0.value == extracted + FileNames(entries)
  {
    ExtractResultIsListing(st, dest, entries, extracted);
    ListingReportsFileNames(entries, extracted);
  }

  /** One entry passes the closure exactly when it succeeds, and then it
      adds its own name to the list unless it is a directory. */
  lemma ExtractStepOutcome(st: FsState, dest: string, e: ZipEntry, extracted: seq<string>)
    ensures ExtractStep(st, dest, e, extracted).0.Pass? <==> Succeeds(e)
    ensures ExtractStep(st, dest, e, extracted).0.Fail? ==> ExtractStep(st, dest, e, extracted).0.error == EntryError(e)
    ensures ExtractStep(st, dest, e, extracted).0.Pass? ==>
              ExtractStep(st, dest, e, extracted).2 == extracted + (if e.isDir then [] else [e.name])
  {
  }

  /** The first entry that fails ends the extraction with its error: entries
      after it play no part, and what the entries before it wrote stays. */
  lemma {:induction false} ExtractStopsAtFirstFailure(st: FsState, dest: string, entries: seq<ZipEntry>, extracted: seq<string>, j: nat)
    requires j < |entries|
    requires forall k :: 0 <= k < j ==> Succeeds(entries[k])
    requires !Succeeds(entries[j])
    ensures ExtractFrom(st, dest, entries, extracted).0 == Err(EntryError(entries[j]))
    ensures ExtractFrom(st, dest, entries, extracted) == ExtractFrom(st, dest, entries[..j + 1], extracted)
    ensures var before := ExtractFrom(st, dest, entries[..j], extracted).1;
            ExtractFrom(st, dest, entries, extracted).1 == ExtractStep(before, dest, entries[j], []).1
    decreases j
  {
    var (o, st', listed) := ExtractStep(st, dest, entries[0], extracted);
    if j > 0 {
      assert entries[1..][..j] == entries[1..j + 1] && entries[..j + 1][1..] == entries[1..j + 1];
      assert entries[..j][1..] == entries[1..][..j - 1];
      ExtractStopsAtFirstFailure(st', dest, entries[1..], listed, j - 1);
    }
  }

  /** After a successful extraction every destination path holds the bytes of
      the last file entry that writes it (create with truncation, so later
      entries overwrite earlier ones), and every other file is as it was. */
  lemma {:induction false} ExtractLastWriteWins(st: FsState, dest: string, entries: seq<ZipEntry>, extracted: seq<string>, path: string)
    requires forall k :: 0 <= k < |entries| ==> Succeeds(entries[k])
    ensures var after := ExtractFrom(st, dest, entries, extracted).1;
            match LastWriter(dest, entries, path)
            case Some(j) => path in after.files && after.files[path] == entries[j].data
            case None => (path in after.files <==> path in st.files) &&
                         (path in st.files ==> after.files[path] == st.files[path])
    decreases |entries|
  {
    if entries != [] {
      var (o, st', listed) := ExtractStep(st, dest, entries[0], extracted);
      assert forall k :: 1 <= k < |entries| ==> entries[k] == entries[1..][k - 1];
      ExtractLastWriteWins(st', dest, entries[1..], listed, path);
    }
  }

  /** Directories are only ever added, never removed. */
  lemma {:induction false} ExtractKeepsDirectories(st: FsState, dest: string, entries: seq<ZipEntry>, extracted: seq<string>)
    ensures st.dirs <= ExtractFrom(st, dest, entries, extracted).1.dirs
    decreases |entries|
  {
    if entries != [] {
      var (o, st', listed) := ExtractStep(st, dest, entries[0], extracted);
      if o.Pass? {
        ExtractKeepsDirectories(st', dest, entries[1..], listed);
      }
    }
  }

  /** A path that is a directory or a regular file stays one or the other:
      extraction only adds directories and writes files, it removes nothing. */
  lemma {:induction false} ExtractKeepsPaths(st: FsState, dest: string, entries: seq<ZipEntry>, extracted: seq<string>, p: string)
    requires p in st.dirs || p in st.files
    ensures var after := ExtractFrom(st, dest, entries, extracted).1;
            p in after.dirs || p in after.files
    decreases |entries|
  {
    if entries != [] {
      var (o, st', listed) := ExtractStep(st, dest, entries[0], extracted);
      if o.Pass? {
        ExtractKeepsPaths(st', dest, entries[1..], listed, p);
      }
    }
  }

  /** After a successful extraction the joined path of every directory entry
      exists as a directory, unless a regular file occupies it (the MkdirAll
      whose failure the closure ignores). */
  lemma {:induction false} ExtractCreatesDirectories(st: FsState, dest: string, entries: seq<ZipEntry>, extracted: seq<string>)
    requires forall k :: 0 <= k < |entries| ==> Succeeds(entries[k])
    ensures var after := ExtractFrom(st, dest, entries, extracted).1;
            forall k :: 0 <= k < |entries| && entries[k].isDir ==>
              Join(dest, entries[k].name) in after.dirs || Join(dest, entries[k].name) in after.files
    decreases |entries|
  {
    if entries != [] {
      var (o, st', listed) := ExtractStep(st, dest, entries[0], extracted);
      var rest := entries[1..];
      var after := ExtractFrom(st', dest, rest, listed).1;
      assert forall k :: 1 <= k < |entries| ==> entries[k] == rest[k - 1];
      ExtractCreatesDirectories(st', dest, rest, listed);
      if entries[0].isDir {
        ExtractKeepsPaths(st', dest, rest, listed, Join(dest, entries[0].name));
      }
    }
  }

  /** For given open, create and copy outcomes of the entries, a MkdirAll
      failure never ends the extraction by itself: the result is the same
      whatever state the filesystem starts in. (In the program a failed
      MkdirAll can make the following OpenFile fail; here that is part of
      the given create outcome.) */
  lemma {:induction false} ExtractResultIgnoresMkdir(st1: FsState, st2: FsState, dest: string, entries: seq<ZipEntry>, extracted: seq<string>)
    ensures ExtractFrom(st1, dest, entries, extracted).0 == ExtractFrom(st2, dest, entries, extracted).0
    decreases |entries|
  {
    if entries != [] {
      var (o1, s1, l1) := ExtractStep(st1, dest, entries[0], extracted);
      var (o2, s2, l2) := ExtractStep(st2, dest, entries[0], extracted);
      ExtractResultIgnoresMkdir(s1, s2, dest, entries[1..], l1);
    }
  }

  /** An archive that cannot be opened yields its error and touches nothing;
      in particular the destination is not created. */
  lemma UnzipUnopenable(st: FsState, dest: string, err: string)
    ensures UnzipRun(st, dest, Unopenable(err)) == (Err(err), st)
  {
  }

  /** An archive without entries yields an empty list, and the destination
      exists afterwards unless a regular file occupies its path. */
  lemma UnzipEmptyArchive(st: FsState, dest: string)
    ensures UnzipRun(st, dest, Entries([])).0 == Ok([])
    ensures dest in UnzipRun(st, dest, Entries([])).1.dirs <==> dest in st.dirs || dest !in st.files
  {
  }

  /** Entries "a.txt", "dir/" and "dir/b.txt" give dest/a.txt and dest/dir/b.txt with their bytes, and the list
      ["a.txt", "dir/b.txt"]. */
  lemma UnzipExample(st: FsState, dest: string, a: seq<byte>, b: seq<byte>)
    requires dest != ""
    ensures var r := UnzipRun(st, dest, Entries([ZipEntry("a.txt", false, a, Opened, Written),
                                                 ZipEntry("dir/", true, [], Opened, Written),
                                                 ZipEntry("dir/b.txt", false, b, Opened, Written)]));
            && r.0 == Ok(["a.txt", "dir/b.txt"])
            && Join(dest, "a.txt") in r.1.files && r.1.files[Join(dest, "a.txt")] == a
            && Join(dest, "dir/b.txt") in r.1.files && r.1.files[Join(dest, "dir/b.txt")] == b
  {
    var e0 := ZipEntry("a.txt", false, a, Opened, Written);
    var e1 := ZipEntry("dir/", true, [], Opened, Written);
    var e2 := ZipEntry("dir/b.txt", false, b, Opened, Written);
    var entries := [e0, e1, e2];
    var start := AfterMkdirAll(st, dest);
    var x := Join(dest, "a.txt");
    var y := Join(dest, "dir/b.txt");
    assert x != y by {
      assert x[|dest| + 1] == 'a' && y[|dest| + 1] == 'd';
    }
    ExtractResultIsListing(start, dest, entries, []);
    assert entries[1..] == [e1, e2] && [e1, e2][1..] == [e2] && [e2][1..] == [];
    assert Listing(entries, []) == Ok(["a.txt", "dir/b.txt"]) by {
      assert Succeeds(e0) && Succeeds(e1) && Succeeds(e2);
      assert ["a.txt"] + ["dir/b.txt"] == ["a.txt", "dir/b.txt"];
      assert [] + ["a.txt"] == ["a.txt"] + [] == ["a.txt"];
      assert Listing([], ["a.txt", "dir/b.txt"]) == Ok(["a.txt", "dir/b.txt"]);
      assert Listing([e2], ["a.txt"]) == Listing([], ["a.txt", "dir/b.txt"]);
      assert Listing([e1, e2], ["a.txt"]) == Listing([e2], ["a.txt"] + []);
      assert Listing(entries, []) == Listing([e1, e2], [] + ["a.txt"]);
    }
    assert forall k :: 0 <= k < |entries| ==> Succeeds(entries[k]);
    assert LastWriter(dest, entries, x) == Some(0) by {
      assert LastWriter(dest, [e2], x) == None;
      assert LastWriter(dest, [e1, e2], x) == None;
    }
    ExtractLastWriteWins(start, dest, entries, [], x);
    assert LastWriter(dest, entries, y) == Some(2) by {
      assert LastWriter(dest, [e2], y) == Some(0);
      assert LastWriter(dest, [e1, e2], y) == Some(1);
    }
    ExtractLastWriteWins(start, dest, entries, [], y);
  }

  // ---------------------------------------------------------------------
  // The extraction as the program runs it

  /** The closure extractAndWriteFile: extracted is the slice it appends to. */
  method ExtractAndWriteFile(fs: FileSystem, dest: string, e: ZipEntry, extracted: seq<string>)
    returns (o: Outcome, extracted': seq<string>)
    modifies fs
    ensures (o, fs.State(), extracted') == ExtractStep(old(fs.State()), dest, e, extracted)
    ensures fs.temps == old(fs.temps)
  {
    extracted' := extracted;
    if e.open.OpenFailed? {
      return Fail(e.open.error), extracted';
    }
    var path := Join(dest, e.name);
    if e.isDir {
      fs.MkdirAll(path);
    } else {
      extracted' := extracted' + [e.name];
      fs.MkdirAll(Dir(path));
      match e.write {
        case CreateFailed(err) =>
          return Fail(err), extracted';
        case CopyFailed(err, copied) =>
          fs.WriteFile(path, e.data[..if copied < |e.data| then copied else |e.data|]);
          return Fail(err), extracted';
        case Written =>
          fs.WriteFile(path, e.data);
      }
    }
    o := Pass;
  }

  /** unzip(src, dest), where archive is what zip.OpenReader(src) gives. */
  method Unzip(fs: FileSystem, dest: string, archive: Archive) returns (r: Result<seq<string>>)
    modifies fs
    ensures (r, fs.State()) == UnzipRun(old(fs.State()), dest, archive)
    ensures fs.temps == old(fs.temps)
  {
    if archive.Unopenable? {
      return Err(archive.error);
    }
    fs.MkdirAll(dest);
    var entries := archive.entries;
    var extracted: seq<string> := [];
    var i := 0;
    while i < |entries|
      invariant 0 <= i <= |entries|
      invariant UnzipRun(old(fs.State()), dest, archive) == ExtractFrom(fs.State(), dest, entries[i..], extracted)
      invariant fs.temps == old(fs.temps)
    {
      assert entries[i..][1..] == entries[i + 1..];
      var o;
      o, extracted := ExtractAndWriteFile(fs, dest, entries[i], extracted);
      if o.Fail? {
        return Err(o.error);
      }
      i := i + 1;
    }
    r := Ok(extracted);
  }
}
