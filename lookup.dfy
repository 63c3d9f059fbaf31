/** Paginated first-match lookups of a project and of a project file
    (internal/crowdinapi/crowdin_project.go). The remote listing is a finite
    sequence of page replies indexed by offset; every offset past its end is
    an empty page, which is how the service signals the end of the listing. */
module Lookup {
  import opened Wrappers
  import Strconv

  /** Page size asked of the service (paginationLimit in internal/crowdin/crowdin.go). */
  const PaginationLimit: nat := 500

  const ProjectsPath := "/api/v2/projects"
  const ProjectsDecodeError := "crowdin api: GET /api/v2/projects: failed decode JSON: "

  function FilesPath(projectID: string): string {
    "/api/v2/projects/" + projectID + "/files"
  }

  function FilesDecodeError(projectID: string): string {
    "crowdin api: GET /api/v2/projects/" + projectID + "/files: failed decode JSON: "
  }

  /** One listed project or file: its numeric id and its name. */
  datatype Item = Item(id: int, name: string)

  /** What one GET of a page gives: the decoded items, the transport or
      status error of the GET, or the detail of a JSON decode failure. */
  datatype PageReply = Listed(items: seq<Item>) | GetFailed(error: string) | Undecodable(detail: string)

  function PageAt(listing: seq<PageReply>, offset: nat): PageReply {
    if offset < |listing| then listing[offset] else Listed([])
  }

  /** The path of the page request at an offset. */
  function PagePath(collection: string, offset: nat): string {
    collection + "?limit=" + Strconv.FormatInt(PaginationLimit) + "&offset=" + Strconv.FormatInt(offset)
  }

  /** The requests for offsets 0, 1, ..., n - 1. */
  function PagePaths(collection: string, n: nat): (paths: seq<string>)
    ensures |paths| == n
  {
    if n == 0 then [] else PagePaths(collection, n - 1) + [PagePath(collection, n - 1)]
  }

  /** The k-th request asks for offset k (the offset grows by one page, not
      by the page size) with the limit of 500 entries. */
  lemma {:induction false} PagePathsOffsets(collection: string, n: nat)
    ensures forall k :: 0 <= k < n ==> PagePaths(collection, n)[k] == PagePath(collection, k)
  {
    if n > 0 {
      PagePathsOffsets(collection, n - 1);
    }
  }

  /** A page at which the scan goes on: listed, not empty, and without an
      item of that name. */
  predicate Unmatched(page: PageReply, name: string) {
    page.Listed? && page.items != [] && forall n :: 0 <= n < |page.items| ==> page.items[n].name != name
  }

  /** How a scan ends. */
  datatype Stop = Found(id: int) | Exhausted | Aborted(error: string)

  /** Index of the first item named name, or |items| when there is none. */
  function FirstMatch(items: seq<Item>, name: string): (k: nat)
    ensures k <= |items|
    ensures forall j :: 0 <= j < k ==> items[j].name != name
    ensures k < |items| ==> items[k].name == name
  {
    if items == [] then 0 else if items[0].name == name then 0 else 1 + FirstMatch(items[1..], name)
  }

  /** Whether the scan stops at a page, and how; None means "go on to the next offset". */
  function PageStop(page: PageReply, name: string, decodeError: string): Option<Stop> {
    match page
    case GetFailed(err) => Some(Aborted(err))
    case Undecodable(detail) => Some(Aborted(decodeError + detail))
    case Listed(items) =>
      if items == [] then Some(Exhausted)
      else
        var k := FirstMatch(items, name);
        if k < |items| then Some(Found(items[k].id)) else None
  }

  /** The scan from an offset on: the offset of the last page requested and how it ends. */
  function ScanFrom(listing: seq<PageReply>, name: string, decodeError: string, offset: nat): (nat, Stop)
    decreases |listing| - offset
  {
    match PageStop(PageAt(listing, offset), name, decodeError)
    case Some(stop) => (offset, stop)
    case None => ScanFrom(listing, name, decodeError, offset + 1)
  }

  /** FindProjectIdByName as a function: its result and the paths it requests. */
  function ProjectLookup(projects: seq<PageReply>, name: string): (Result<string>, seq<string>) {
    var (last, stop) := ScanFrom(projects, name, ProjectsDecodeError, 0);
    var result := match stop
      case Found(id) => Ok(Strconv.FormatInt(id))
      case Exhausted => Err("crowdin api: project name not found: " + name)
      case Aborted(err) => Err(err);
    (result, PagePaths(ProjectsPath, last + 1))
  }

  /** FindFileId as a function: its result and the paths it requests. */
  function FileLookup(files: seq<PageReply>, projectID: string, fileName: string): (Result<string>, seq<string>) {
    var (last, stop) := ScanFrom(files, fileName, FilesDecodeError(projectID), 0);
    var result := match stop
      case Found(id) => Ok(Strconv.FormatInt(id))
      case Exhausted => Ok("")
      case Aborted(err) => Err(err);
    (result, PagePaths(FilesPath(projectID), last + 1))
  }

  // ---------------------------------------------------------------------
  // Properties of the scan

  /** The scan stops at the first page that is an error, an empty page or a
      page with a match; every earlier page was a non-empty page without a
      match. It never requests a page past the end of the listing's data. */
  lemma {:induction false} ScanStopsAtFirstStop(listing: seq<PageReply>, name: string, decodeError: string, offset: nat)
    ensures var (last, stop) := ScanFrom(listing, name, decodeError, offset);
            && offset <= last
            && (offset <= |listing| ==> last <= |listing|)
            && PageStop(PageAt(listing, last), name, decodeError) == Some(stop)
            && forall k :: offset <= k < last ==> PageStop(PageAt(listing, k), name, decodeError).None?
    decreases |listing| - offset
  {
    if PageStop(PageAt(listing, offset), name, decodeError).None? {
      ScanStopsAtFirstStop(listing, name, decodeError, offset + 1);
    }
  }

  /** Conversely, the first page at which the scan may stop is where it stops. */
  lemma {:induction false} ScanFindsFirstStop(listing: seq<PageReply>, name: string, decodeError: string, offset: nat, j: nat)
    requires offset <= j
    requires forall k :: offset <= k < j ==> PageStop(PageAt(listing, k), name, decodeError).None?
    requires PageStop(PageAt(listing, j), name, decodeError).Some?
    ensures ScanFrom(listing, name, decodeError, offset) == (j, PageStop(PageAt(listing, j), name, decodeError).value)
    decreases j - offset
  {
    if offset < j {
      ScanFindsFirstStop(listing, name, decodeError, offset + 1, j);
    }
  }

  /** A match is the first entry with that exact name, in page order and
      then entry order: both lookups report its decimal id and ask for no
      page after the one holding it. */
  lemma LookupFindsFirstMatch(listing: seq<PageReply>, projectID: string, name: string, j: nat, i: nat)
    requires j < |listing| && listing[j].Listed? && i < |listing[j].items|
    requires listing[j].items[i].name == name
    requires forall k :: 0 <= k < i ==> listing[j].items[k].name != name
    requires forall k :: 0 <= k < j ==> Unmatched(listing[k], name)
    ensures ProjectLookup(listing, name) ==
            (Ok(Strconv.FormatInt(listing[j].items[i].id)), PagePaths(ProjectsPath, j + 1))
    ensures FileLookup(listing, projectID, name) ==
            (Ok(Strconv.FormatInt(listing[j].items[i].id)), PagePaths(FilesPath(projectID), j + 1))
  {
    forall k | 0 <= k < j
      ensures PageStop(PageAt(listing, k), name, ProjectsDecodeError).None?
      ensures PageStop(PageAt(listing, k), name, FilesDecodeError(projectID)).None?
    {
      assert FirstMatch(listing[k].items, name) == |listing[k].items|;
    }
    assert FirstMatch(listing[j].items, name) == i;
    ScanFindsFirstStop(listing, name, ProjectsDecodeError, 0, j);
    ScanFindsFirstStop(listing, name, FilesDecodeError(projectID), 0, j);
  }

  /** A file id found by FindFileId is never the empty string, so the empty
      string means exactly "no such file" and never "found". */
  lemma FileLookupEmptyMeansAbsent(files: seq<PageReply>, projectID: string, fileName: string)
    ensures var (result, _) := FileLookup(files, projectID, fileName);
            var (last, stop) := ScanFrom(files, fileName, FilesDecodeError(projectID), 0);
            (result == Ok("") <==> stop.Exhausted?)
  {
  }

  /** With no match before the first empty page, FindProjectIdByName fails
      with "project name not found" and FindFileId gives "" without error;
      both have requested exactly the pages up to and including that one. */
  lemma LookupAbsent(listing: seq<PageReply>, projectID: string, name: string, j: nat)
    requires PageAt(listing, j) == Listed([])
    requires forall k :: 0 <= k < j ==> Unmatched(PageAt(listing, k), name)
    ensures ProjectLookup(listing, name) == (Err("crowdin api: project name not found: " + name), PagePaths(ProjectsPath, j + 1))
    ensures FileLookup(listing, projectID, name) == (Ok(""), PagePaths(FilesPath(projectID), j + 1))
  {
    forall k | 0 <= k < j
      ensures PageStop(PageAt(listing, k), name, ProjectsDecodeError).None?
      ensures PageStop(PageAt(listing, k), name, FilesDecodeError(projectID)).None?
    {
      assert FirstMatch(PageAt(listing, k).items, name) == |PageAt(listing, k).items|;
    }
    ScanFindsFirstStop(listing, name, ProjectsDecodeError, 0, j);
    ScanFindsFirstStop(listing, name, FilesDecodeError(projectID), 0, j);
  }

  /** A failing GET, or a page that does not decode, ends the lookup with
      that error; no page after it is requested. */
  lemma LookupAborts(listing: seq<PageReply>, projectID: string, name: string, j: nat)
    requires j < |listing| && !listing[j].Listed?
    requires forall k :: 0 <= k < j ==> Unmatched(PageAt(listing, k), name)
    ensures ProjectLookup(listing, name).0 ==
            Err(if listing[j].GetFailed? then listing[j].error else ProjectsDecodeError + listing[j].detail)
    ensures ProjectLookup(listing, name).1 == PagePaths(ProjectsPath, j + 1)
    ensures FileLookup(listing, projectID, name).0 ==
            Err(if listing[j].GetFailed? then listing[j].error else FilesDecodeError(projectID) + listing[j].detail)
    ensures FileLookup(listing, projectID, name).1 == PagePaths(FilesPath(projectID), j + 1)
  {
    forall k | 0 <= k < j
      ensures PageStop(PageAt(listing, k), name, ProjectsDecodeError).None?
      ensures PageStop(PageAt(listing, k), name, FilesDecodeError(projectID)).None?
    {
      assert FirstMatch(PageAt(listing, k).items, name) == |PageAt(listing, k).items|;
    }
    ScanFindsFirstStop(listing, name, ProjectsDecodeError, 0, j);
    ScanFindsFirstStop(listing, name, FilesDecodeError(projectID), 0, j);
  }

  // ---------------------------------------------------------------------
  // The lookups as the program runs them

  /** client.FindProjectIdByName: requests is the sequence of GET paths issued. */
  method FindProjectIdByName(projects: seq<PageReply>, name: string) returns (r: Result<string>, requests: seq<string>)
    ensures (r, requests) == ProjectLookup(projects, name)
  {
    requests := [];
    var offset: nat := 0;
    while true
      invariant offset <= |projects|
      invariant requests == PagePaths(ProjectsPath, offset)
      invariant ScanFrom(projects, name, ProjectsDecodeError, 0) == ScanFrom(projects, name, ProjectsDecodeError, offset)
      decreases |projects| - offset
    {
      requests := requests + [PagePath(ProjectsPath, offset)];
      var page := PageAt(projects, offset);
      if page.GetFailed? {
        return Err(page.error), requests;
      }
      if page.Undecodable? {
        return Err(ProjectsDecodeError + page.detail), requests;
      }
      if |page.items| == 0 {
        break;
      }
      var i := 0;
      while i < |page.items|
        invariant 0 <= i <= |page.items|
        invariant forall j :: 0 <= j < i ==> page.items[j].name != name
      {
        if page.items[i].name == name {
          assert FirstMatch(page.items, name) == i;
          return Ok(Strconv.FormatInt(page.items[i].id)), requests;
        }
        i := i + 1;
      }
      assert FirstMatch(page.items, name) == |page.items|;
      offset := offset + 1;
    }
    r := Err("crowdin api: project name not found: " + name);
  }

  /** client.FindFileId: requests is the sequence of GET paths issued. */
  method FindFileId(files: seq<PageReply>, projectID: string, fileName: string) returns (r: Result<string>, requests: seq<string>)
    ensures (r, requests) == FileLookup(files, projectID, fileName)
  {
    requests := [];
    var offset: nat := 0;
    while true
      invariant offset <= |files|
      invariant requests == PagePaths(FilesPath(projectID), offset)
      invariant ScanFrom(files, fileName, FilesDecodeError(projectID), 0) ==
                ScanFrom(files, fileName, FilesDecodeError(projectID), offset)
      decreases |files| - offset
    {
      requests := requests + [PagePath(FilesPath(projectID), offset)];
      var page := PageAt(files, offset);
      if page.GetFailed? {
        return Err(page.error), requests;
      }
      if page.Undecodable? {
        return Err(FilesDecodeError(projectID) + page.detail), requests;
      }
      if |page.items| == 0 {
        break;
      }
      var i := 0;
      while i < |page.items|
        invariant 0 <= i <= |page.items|
        invariant forall j :: 0 <= j < i ==> page.items[j].name != fileName
      {
        if page.items[i].name == fileName {
          assert FirstMatch(page.items, fileName) == i;
          return Ok(Strconv.FormatInt(page.items[i].id)), requests;
        }
        i := i + 1;
      }
      assert FirstMatch(page.items, fileName) == |page.items|;
      offset := offset + 1;
    }
    r := Ok("");
  }
}
