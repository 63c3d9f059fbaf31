/** The build-and-download orchestrator (Download in
    internal/crowdin/crowdin_download.go): submit a translation build, poll
    for its download link at most six times, fetch the archive into a
    temporary file, extract it and remove the temporary file. The remote
    service is given as the replies it sends, in the order they are asked for. */
module BuildDownload {
  import opened Wrappers
  import Strconv
  import opened Filesystem
  import Unzip

  /** The for loop's bound: at most six polls of the download endpoint. */
  const MaxPollAttempts: nat := 6
  const ExtractErrorPrefix := "crowdin api: failed extract archive: "

  /** The body of the build request, field for field (buildProjectReq). */
  datatype BuildRequest = BuildRequest(
    branchId: int,
    targetLanguageIds: seq<string>,
    skipUntranslatedStrings: bool,
    skipUntranslatedFiles: bool,
    exportApprovedOnly: bool)

  /** JSON keys the encoded request carries: branchId and targetLanguageIds
      are tagged omitempty, so they are left out when zero or empty. */
  function JsonKeys(req: BuildRequest): set<string> {
    {"skipUntranslatedStrings", "skipUntranslatedFiles", "exportApprovedOnly"}
      + (if req.branchId != 0 then {"branchId"} else {})
      + (if req.targetLanguageIds != [] then {"targetLanguageIds"} else {})
  }

  /** The requests the orchestrator issues. */
  datatype Request =
    | PostJson(path: string, body: BuildRequest)  // authenticated POST with a JSON body
    | Get(path: string)                           // authenticated GET
    | Fetch(url: string)                          // unauthenticated GET of the signed archive link

  /** Reply to the build submission: the decoded build id, the error of
      sendJSON (transport, or a status other than 201), or a decode failure. */
  datatype SubmitReply = BuildCreated(id: int) | SubmitFailed(error: string) | BuildUndecodable(detail: string)

  /** Reply to one poll: the error of the GET (transport, or a status other
      than 200), or a response whose body decodes to a link or fails to. */
  datatype PollReply = PollFailed(error: string) | PollAnswered(descriptor: DescriptorReply)

  datatype DescriptorReply = DownloadUrl(url: string) | DescriptorUndecodable(detail: string)

  /** Outcome of dlToTmpFile: the temporary file it created with the bytes
      saved and what zip.OpenReader makes of them; an error before any file
      was created; or an error while copying, which leaves the created file
      behind holding the bytes copied so far. */
  datatype FetchReply =
    | Fetched(tmpPath: string, bytes: seq<byte>, archive: Unzip.Archive)
    | FetchFailed(error: string)
    | CopyFailed(error: string, tmpPath: string, partial: seq<byte>)

  /** os.CreateTemp opens its file with O_EXCL, so the name it picks is in
      use neither by a regular file nor by a live temporary file. */
  ghost predicate FreshTempName(fetch: FetchReply, files: map<string, seq<byte>>, temps: set<string>) {
    !fetch.FetchFailed? ==> fetch.tmpPath !in files && fetch.tmpPath !in temps
  }

  function BuildsPath(projectID: string): string {
    "/api/v2/projects/" + projectID + "/translations/builds"
  }

  function BuildDownloadPath(projectID: string, buildID: string): string {
    BuildsPath(projectID) + "/" + buildID + "/download"
  }

  /** The request body built from the three export flags. */
  function BuildRequestFor(skipUntranslatedStrings: bool, skipUntranslatedFiles: bool, exportApprovedOnly: bool): BuildRequest {
    BuildRequest(0, [], skipUntranslatedStrings, skipUntranslatedFiles, exportApprovedOnly)
  }

  /** The index of the first poll, from `from` on, whose GET succeeds, or
      MaxPollAttempts when each of them fails. */
  function FirstAnswer(polls: seq<PollReply>, from: nat): (k: nat)
    requires from <= MaxPollAttempts <= |polls|
    ensures from <= k <= MaxPollAttempts
    ensures forall i :: from <= i < k ==> polls[i].PollFailed?
    ensures k < MaxPollAttempts ==> polls[k].PollAnswered?
    decreases MaxPollAttempts - from
  {
    if from == MaxPollAttempts || polls[from].PollAnswered? then from else FirstAnswer(polls, from + 1)
  }

  /** What one call of Download does: its result, the filesystem afterwards,
      how many poll attempts (each with its sleep) it made, the requests it
      issued in order, and the temporary files it left behind. */
  datatype Run = Run(
    result: Result<seq<string>>,
    fs: FsState,
    attempts: nat,
    requests: seq<Request>,
    leaked: set<string>)

  /** The part after the first answered poll: decode the link, fetch the
      archive to a temporary file, extract it, remove the file. */
  function Retrieve(st: FsState, destDir: string, projectID: string, buildID: string,
                    descriptor: DescriptorReply, fetch: FetchReply): (Result<seq<string>>, FsState, seq<Request>, set<string>)
  {
    match descriptor
    case DescriptorUndecodable(detail) =>
      (Err("crowdin api: GET " + BuildDownloadPath(projectID, buildID) + ": failed decode JSON: " + detail), st, [], {})
    case DownloadUrl(url) =>
      match fetch
      case FetchFailed(err) => (Err(err), st, [Fetch(url)], {})
      case CopyFailed(err, tmp, partial) => (Err(err), AfterWrite(st, tmp, partial), [Fetch(url)], {tmp})
      case Fetched(tmp, bytes, archive) =>
        var (extracted, st') := Unzip.UnzipRun(AfterWrite(st, tmp, bytes), destDir, archive);
        var result := if extracted.Err? then Err(ExtractErrorPrefix + extracted.error) else extracted;
        (result, AfterRemove(st', tmp), [Fetch(url)], {})
  }

  /** The n requests of n poll attempts: each a GET of the build's download path. */
  function Polls(projectID: string, buildID: string, n: nat): (reqs: seq<Request>)
    ensures |reqs| == n
  {
    if n == 0 then [] else Polls(projectID, buildID, n - 1) + [Get(BuildDownloadPath(projectID, buildID))]
  }

  lemma {:induction false} PollsAreGets(projectID: string, buildID: string, n: nat)
    ensures forall i :: 0 <= i < n ==> Polls(projectID, buildID, n)[i] == Get(BuildDownloadPath(projectID, buildID))
  {
    if n > 0 {
      PollsAreGets(projectID, buildID, n - 1);
    }
  }

  /** The poll loop for a created build, and what follows the first
      answered poll. */
  function PollRun(st: FsState, destDir: string, projectID: string, buildID: string,
                   polls: seq<PollReply>, fetch: FetchReply): Run
    requires |polls| >= MaxPollAttempts
  {
    var k := FirstAnswer(polls, 0);
    if k == MaxPollAttempts then
      Run(Err(polls[MaxPollAttempts - 1].error), st, MaxPollAttempts, Polls(projectID, buildID, MaxPollAttempts), {})
    else
      var ret := Retrieve(st, destDir, projectID, buildID, polls[k].descriptor, fetch);
      Run(ret.0, ret.1, k + 1, Polls(projectID, buildID, k + 1) + ret.2, ret.3)
  }

  /** PollRun when the (k+1)-th poll is the first one answered. */
  lemma PollRunAnswered(st: FsState, destDir: string, projectID: string, buildID: string,
                        polls: seq<PollReply>, fetch: FetchReply, k: nat)
    requires |polls| >= MaxPollAttempts
    requires k < MaxPollAttempts && polls[k].PollAnswered?
    requires forall j :: 0 <= j < k ==> polls[j].PollFailed?
    ensures var ret := Retrieve(st, destDir, projectID, buildID, polls[k].descriptor, fetch);
            PollRun(st, destDir, projectID, buildID, polls, fetch) == Run(ret.0, ret.1, k + 1, Polls(projectID, buildID, k + 1) + ret.2, ret.3)
  {
    assert FirstAnswer(polls, 0) == k;
  }

  /** PollRun when all six polls fail. */
  lemma PollRunExhausted(st: FsState, destDir: string, projectID: string, buildID: string,
                         polls: seq<PollReply>, fetch: FetchReply)
    requires |polls| >= MaxPollAttempts
    requires forall j :: 0 <= j < MaxPollAttempts ==> polls[j].PollFailed?
    ensures PollRun(st, destDir, projectID, buildID, polls, fetch) ==
            Run(Err(polls[MaxPollAttempts - 1].error), st, MaxPollAttempts, Polls(projectID, buildID, MaxPollAttempts), {})
  {
    assert FirstAnswer(polls, 0) == MaxPollAttempts;
  }

  function DownloadRun(st: FsState, destDir: string, projectID: string,
                    skipUntranslatedStrings: bool, skipUntranslatedFiles: bool, exportApprovedOnly: bool,
                    submit: SubmitReply, polls: seq<PollReply>, fetch: FetchReply): Run
    requires |polls| >= MaxPollAttempts
  {
    var post := PostJson(BuildsPath(projectID), BuildRequestFor(skipUntranslatedStrings, skipUntranslatedFiles, exportApprovedOnly));
    match submit
    case SubmitFailed(err) => Run(Err(err), st, 0, [post], {})
    case BuildUndecodable(detail) =>
      Run(Err("crowdin api: POST " + BuildsPath(projectID) + ": failed decode JSON: " + detail), st, 0, [post], {})
    case BuildCreated(id) =>
      var run := PollRun(st, destDir, projectID, Strconv.FormatInt(id), polls, fetch);
      run.(requests := [post] + run.requests)
  }

  // ---------------------------------------------------------------------
  // Properties of the orchestrator

  /** The build request is the first request, carries exactly the three
      flags as given and no branch or language filter; a failed submission
      or an undecodable build reply ends the call at once, with no poll. */
  lemma SubmitComesFirst(st: FsState, destDir: string, projectID: string, s: bool, f: bool, a: bool,
                         submit: SubmitReply, polls: seq<PollReply>, fetch: FetchReply)
    requires |polls| >= MaxPollAttempts
    ensures var run := DownloadRun(st, destDir, projectID, s, f, a, submit, polls, fetch);
            && |run.requests| > 0
            && run.requests[0] == PostJson(BuildsPath(projectID), BuildRequest(0, [], s, f, a))
            && JsonKeys(run.requests[0].body) == {"skipUntranslatedStrings", "skipUntranslatedFiles", "exportApprovedOnly"}
            && (!submit.BuildCreated? ==> run.result.Err? && run.attempts == 0 && |run.requests| == 1 && run.fs == st)
  {
  }

  /** Polling is bounded: once the build is created there are between one
      and six attempts; the attempts are exactly the polls up to and
      including the first answered one, each a GET of the build's download
      path, and polls after it are never made. */
  lemma PollsUntilFirstAnswer(st: FsState, destDir: string, projectID: string, s: bool, f: bool, a: bool,
                              id: int, polls: seq<PollReply>, fetch: FetchReply)
    requires |polls| >= MaxPollAttempts
    ensures var run := DownloadRun(st, destDir, projectID, s, f, a, BuildCreated(id), polls, fetch);
            var k := FirstAnswer(polls, 0);
            && 1 <= run.attempts <= MaxPollAttempts
            && run.attempts == (if k < MaxPollAttempts then k + 1 else MaxPollAttempts)
            && |run.requests| >= 1 + run.attempts
            && run.requests[1..1 + run.attempts] == Polls(projectID, Strconv.FormatInt(id), run.attempts)
            && (forall i :: 0 <= i < run.attempts - 1 ==> polls[i].PollFailed?)
  {
  }

  /** Whatever the polls after the first answered one would have been, the
      call does the same: the first successful poll ends the polling. */
  lemma LaterPollsIgnored(st: FsState, destDir: string, projectID: string, s: bool, f: bool, a: bool,
                          submit: SubmitReply, polls: seq<PollReply>, polls': seq<PollReply>, fetch: FetchReply, k: nat)
    requires |polls| >= MaxPollAttempts && |polls'| >= MaxPollAttempts
    requires k < MaxPollAttempts && polls[k].PollAnswered?
    requires polls[..k + 1] == polls'[..k + 1]
    ensures DownloadRun(st, destDir, projectID, s, f, a, submit, polls, fetch) ==
            DownloadRun(st, destDir, projectID, s, f, a, submit, polls', fetch)
  {
    if submit.BuildCreated? {
      assert forall i :: 0 <= i <= k ==> polls[i] == polls[..k + 1][i] == polls'[i];
      var j := FirstAnswer(polls, 0);
      assert j <= k;
      assert FirstAnswer(polls', 0) == j;
    }
  }

  /** When all six polls fail the call fails with the error of the last one,
      not wrapped, after six attempts and nothing else. */
  lemma AllPollsFail(st: FsState, destDir: string, projectID: string, s: bool, f: bool, a: bool,
                     id: int, polls: seq<PollReply>, fetch: FetchReply)
    requires |polls| >= MaxPollAttempts
    requires forall i :: 0 <= i < MaxPollAttempts ==> polls[i].PollFailed?
    ensures var run := DownloadRun(st, destDir, projectID, s, f, a, BuildCreated(id), polls, fetch);
            && run.result == Err(polls[MaxPollAttempts - 1].error)
            && run.attempts == MaxPollAttempts
            && run.requests == [run.requests[0]] + Polls(projectID, Strconv.FormatInt(id), MaxPollAttempts)
            && run.fs == st
  {
    assert FirstAnswer(polls, 0) == MaxPollAttempts;
  }

  /** An answered poll whose body does not decode, or a failing archive
      fetch, is fatal: the call fails right there, with no retry. */
  lemma AnsweredPollFailuresAreFatal(st: FsState, destDir: string, projectID: string, s: bool, f: bool, a: bool,
                                     id: int, polls: seq<PollReply>, fetch: FetchReply, k: nat)
    requires |polls| >= MaxPollAttempts
    requires k < MaxPollAttempts && polls[k].PollAnswered?
    requires forall i :: 0 <= i < k ==> polls[i].PollFailed?
    requires polls[k].descriptor.DescriptorUndecodable? || !fetch.Fetched?
    ensures var run := DownloadRun(st, destDir, projectID, s, f, a, BuildCreated(id), polls, fetch);
            && run.result.Err?
            && run.attempts == k + 1
            && (polls[k].descriptor.DescriptorUndecodable? ==> |run.requests| == k + 2 && run.fs == st)
  {
    assert FirstAnswer(polls, 0) == k;
  }

  /** Once dlToTmpFile has handed back a temporary file, that file is gone
      when the call returns, whether extraction succeeded or not, and no
      temporary file is left behind. */
  lemma TempFileRemoved(st: FsState, destDir: string, projectID: string, s: bool, f: bool, a: bool,
                        submit: SubmitReply, polls: seq<PollReply>, fetch: FetchReply)
    requires |polls| >= MaxPollAttempts
    requires fetch.Fetched?
    ensures var run := DownloadRun(st, destDir, projectID, s, f, a, submit, polls, fetch);
            && run.leaked == {}
            && (run.requests[|run.requests| - 1].Fetch? ==> fetch.tmpPath !in run.fs.files)
  {
  }

  /** Five failed polls and a sixth that succeeds: the call gets through,
      after six attempts and so six sleeps (one before every attempt). */
  lemma SixthPollSucceeds(st: FsState, destDir: string, projectID: string, s: bool, f: bool, a: bool,
                          id: int, polls: seq<PollReply>, tmp: string, bytes: seq<byte>, archive: Unzip.Archive)
    requires |polls| == MaxPollAttempts
    requires forall i :: 0 <= i < MaxPollAttempts - 1 ==> polls[i].PollFailed?
    requires polls[MaxPollAttempts - 1].PollAnswered? && polls[MaxPollAttempts - 1].descriptor.DownloadUrl?
    requires Unzip.UnzipRun(AfterWrite(st, tmp, bytes), destDir, archive).0.Ok?
    ensures var run := DownloadRun(st, destDir, projectID, s, f, a, BuildCreated(id), polls, Fetched(tmp, bytes, archive));
            run.result.Ok? && run.attempts == 6
  {
    assert FirstAnswer(polls, 0) == MaxPollAttempts - 1;
  }

  /** The only way a temporary file outlives the call: dlToTmpFile itself
      failed while copying the body into the file it had created. */
  lemma OnlyCopyFailureLeaks(st: FsState, destDir: string, projectID: string, s: bool, f: bool, a: bool,
                             submit: SubmitReply, polls: seq<PollReply>, fetch: FetchReply)
    requires |polls| >= MaxPollAttempts
    ensures var run := DownloadRun(st, destDir, projectID, s, f, a, submit, polls, fetch);
            run.leaked != {} ==> fetch.CopyFailed? && run.leaked == {fetch.tmpPath} && run.result == Err(fetch.error)
  {
  }

  /** Extraction's outcome is the call's outcome: its list unchanged on
      success, its error behind "crowdin api: failed extract archive: "
      otherwise, and the filesystem as extraction left it minus the
      temporary file. */
  lemma ExtractionDecides(st: FsState, destDir: string, projectID: string, s: bool, f: bool, a: bool,
                          id: int, polls: seq<PollReply>, tmp: string, bytes: seq<byte>, archive: Unzip.Archive, k: nat)
    requires |polls| >= MaxPollAttempts
    requires k < MaxPollAttempts && polls[k].PollAnswered? && polls[k].descriptor.DownloadUrl?
    requires forall i :: 0 <= i < k ==> polls[i].PollFailed?
    ensures var run := DownloadRun(st, destDir, projectID, s, f, a, BuildCreated(id), polls, Fetched(tmp, bytes, archive));
            var (extracted, st') := Unzip.UnzipRun(AfterWrite(st, tmp, bytes), destDir, archive);
            && run.result == (if extracted.Err? then Err(ExtractErrorPrefix + extracted.error) else extracted)
            && run.fs == AfterRemove(st', tmp)
            && run.requests[|run.requests| - 1] == Fetch(polls[k].descriptor.url)
  {
    assert FirstAnswer(polls, 0) == k;
  }

  // ---------------------------------------------------------------------
  // The orchestrator as the program runs it

  class Client {
    /** Five-second sleeps taken so far. */
    ghost var sleeps: nat
    /** Requests issued so far, in order. */
    ghost var requests: seq<Request>

    constructor ()
      ensures sleeps == 0 && requests == []
    {
      sleeps := 0;
      requests := [];
    }

    /** time.Sleep(5 * time.Second). */
    method Sleep()
      modifies this`sleeps
      ensures sleeps == old(sleeps) + 1
    {
      sleeps := sleeps + 1;
    }

    /** client.dlToTmpFile: GET the link and save the body in a fresh temporary file. */
    method DlToTmpFile(fs: FileSystem, url: string, fetch: FetchReply) returns (tmpPath: string, err: Option<string>)
      requires FreshTempName(fetch, fs.files, fs.temps)
      modifies this`requests, fs
      ensures requests == old(requests) + [Fetch(url)]
      ensures fetch.Fetched? ==> (tmpPath == fetch.tmpPath && err.None? &&
                                  fs.State() == AfterWrite(old(fs.State()), tmpPath, fetch.bytes) &&
                                  fs.temps == old(fs.temps) + {tmpPath})
      ensures fetch.FetchFailed? ==> err == Some(fetch.error) && unchanged(fs)
      ensures fetch.CopyFailed? ==> (err == Some(fetch.error) &&
                                     fs.State() == AfterWrite(old(fs.State()), fetch.tmpPath, fetch.partial) &&
                                     fs.temps == old(fs.temps) + {fetch.tmpPath})
    {
      requests := requests + [Fetch(url)];
      tmpPath := "";
      match fetch {
        case FetchFailed(e) =>
          err := Some(e);
        case CopyFailed(e, tmp, partial) =>
          fs.CreateTemp(tmp, partial);
          err := Some(e);
        case Fetched(tmp, bytes, _) =>
          fs.CreateTemp(tmp, bytes);
          tmpPath, err := tmp, None;
      }
    }

    /** The body of the poll loop after the first successful GET: decode
        the link, fetch the archive, extract it and remove the temporary
        file (the deferred os.Remove). */
    method RetrieveBuild(fs: FileSystem, destDir: string, projectID: string, buildID: string,
                         descriptor: DescriptorReply, fetch: FetchReply) returns (r: Result<seq<string>>)
      requires FreshTempName(fetch, fs.files, fs.temps)
      modifies this`requests, fs
      ensures var ret := Retrieve(old(fs.State()), destDir, projectID, buildID, descriptor, fetch);
              && r == ret.0
              && fs.State() == ret.1
              && fs.temps == old(fs.temps) + ret.3
              && requests == old(requests) + ret.2
    {
      if descriptor.DescriptorUndecodable? {
        return Err("crowdin api: GET " + BuildDownloadPath(projectID, buildID) + ": failed decode JSON: " + descriptor.detail);
      }
      var tmpFile, fetchErr := DlToTmpFile(fs, descriptor.url, fetch);
      if fetchErr.Some? {
        return Err(fetchErr.value);
      }
      var extracted := Unzip.Unzip(fs, destDir, fetch.archive);
      fs.Remove(tmpFile);
      if extracted.Err? {
        return Err(ExtractErrorPrefix + extracted.error);
      }
      return extracted;
    }

    /** The poll loop of client.Download for the build buildID: up to six
        rounds of a five-second sleep and a GET of the build's download
        link, retrying only when the GET fails; the first answer is
        retrieved and ends the loop. */
    method PollBuild(fs: FileSystem, destDir: string, projectID: string, buildID: string,
                     polls: seq<PollReply>, fetch: FetchReply) returns (r: Result<seq<string>>)
      requires |polls| >= MaxPollAttempts
      requires FreshTempName(fetch, fs.files, fs.temps)
      modifies this, fs
      ensures var run := PollRun(old(fs.State()), destDir, projectID, buildID, polls, fetch);
              && r == run.result
              && fs.State() == run.fs
              && fs.temps == old(fs.temps) + run.leaked
              && sleeps == old(sleeps) + run.attempts
              && requests == old(requests) + run.requests
    {
      var dlPath := BuildDownloadPath(projectID, buildID);
      var err := "";
      var i := 0;
      while i < MaxPollAttempts
        invariant 0 <= i <= MaxPollAttempts
        invariant forall j :: 0 <= j < i ==> polls[j].PollFailed?
        invariant i > 0 ==> err == polls[i - 1].error
        invariant sleeps == old(sleeps) + i
        invariant requests == old(requests) + Polls(projectID, buildID, i)
        invariant unchanged(fs)
      {
        Sleep();
        requests := requests + [Get(dlPath)];
        if polls[i].PollFailed? {
          err := polls[i].error;
          i := i + 1;
          continue;
        }
        PollRunAnswered(fs.State(), destDir, projectID, buildID, polls, fetch, i);
        ghost var polled := requests;
        ghost var ret := Retrieve(fs.State(), destDir, projectID, buildID, polls[i].descriptor, fetch);
        r := RetrieveBuild(fs, destDir, projectID, buildID, polls[i].descriptor, fetch);
        assert requests == polled + ret.2 == old(requests) + (Polls(projectID, buildID, i + 1) + ret.2);
        return;
      }
      PollRunExhausted(fs.State(), destDir, projectID, buildID, polls, fetch);
      r := Err(err);
    }

    /** client.Download. The replies of the service stand for the network:
        submit answers the build POST, polls[i] the (i+1)-th poll, fetch the
        archive download; the archive inside fetch is what zip.OpenReader
        reads from the temporary file. */
    method Download(fs: FileSystem, destDir: string, projectID: string,
                    skipUntranslatedStrings: bool, skipUntranslatedFiles: bool, exportApprovedOnly: bool,
                    submit: SubmitReply, polls: seq<PollReply>, fetch: FetchReply)
      returns (r: Result<seq<string>>)
      requires |polls| >= MaxPollAttempts
      requires FreshTempName(fetch, fs.files, fs.temps)
      modifies this, fs
      ensures var run := DownloadRun(old(fs.State()), destDir, projectID, skipUntranslatedStrings,
                                     skipUntranslatedFiles, exportApprovedOnly, submit, polls, fetch);
              && r == run.result
              && fs.State() == run.fs
              && fs.temps == old(fs.temps) + run.leaked
              && sleeps == old(sleeps) + run.attempts
              && requests == old(requests) + run.requests
    {
      var buildReq := BuildRequestFor(skipUntranslatedStrings, skipUntranslatedFiles, exportApprovedOnly);
      ghost var before := requests;
      requests := requests + [PostJson(BuildsPath(projectID), buildReq)];
      match submit {
        case SubmitFailed(err) =>
          r := Err(err);
        case BuildUndecodable(detail) =>
          r := Err("crowdin api: POST " + BuildsPath(projectID) + ": failed decode JSON: " + detail);
        case BuildCreated(id) =>
          var buildID := Strconv.FormatInt(id);
          ghost var run := PollRun(fs.State(), destDir, projectID, buildID, polls, fetch);
          r := PollBuild(fs, destDir, projectID, buildID, polls, fetch);
          assert requests == before + ([PostJson(BuildsPath(projectID), buildReq)] + run.requests);
      }
    }
  }
}
