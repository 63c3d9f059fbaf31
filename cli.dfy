/** The plugin's entry point (cmd/drone-crowdin-v2/main.go): parameter
    checks, the choice of target, the fail-fast validation of the upload
    mapping and the add-or-update dispatch. Environment variables arrive as
    parameters; exiting with a message is an Err or Fail result carrying the
    message. */
module Cli {
  import opened Wrappers
  import Lookup
  import BuildDownload
  import opened Filesystem

  /** Characters a file name on the service may not contain (BadSymbols in
      internal/crowdin/crowdin.go). */
  const BadSymbols: seq<char> := ['\\', '/', ':', '*', '?', '"', '<', '>', '|']

  const EmptyFilesListError := "upload files list cannot be empty"

  const SkipUntranslatedStringsEnv := "PLUGIN_DOWNLOAD_SKIP_UNTRANSLATED_STRINGS"
  const SkipUntranslatedFilesEnv := "PLUGIN_DOWNLOAD_SKIP_UNTRANSLATED_FILES"
  const ExportApprovedOnlyEnv := "PLUGIN_DOWNLOAD_EXPORT_APPROVED_ONLY"

  // ---------------------------------------------------------------------
  // Boolean parameters

  /** getBoolVal on the value valStr of the variable envName. */
  function GetBoolVal(envName: string, valStr: string): (r: Result<bool>)
    ensures r.Ok? <==> valStr in {"", "false", "true"}
    ensures r.Ok? ==> (r.value <==> valStr == "true")
    ensures r.Err? ==> r.error == "bad " + envName + " parameter value"
  {
    if valStr != "" && valStr != "false" && valStr != "true" then Err("bad " + envName + " parameter value")
    else Ok(valStr == "true")
  }

  // ---------------------------------------------------------------------
  // Upload: validation of the mapping

  /** strings.ContainsAny. */
  predicate ContainsAny(s: string, chars: seq<char>) {
    exists i :: 0 <= i < |s| && s[i] in chars
  }

  predicate ValidEntry(localPath: string, cloudName: string) {
    localPath != "" && cloudName != "" && !ContainsAny(cloudName, BadSymbols)
  }

  /** The three checks of the validation loop on one entry, in order. */
  function EntryCheck(localPath: string, cloudName: string): (o: Outcome)
    ensures o.Pass? <==> ValidEntry(localPath, cloudName)
  {
    if localPath == "" then Fail("local file path cannot be empty")
    else if cloudName == "" then Fail("Crowdin file name cannot be empty")
    else if ContainsAny(cloudName, BadSymbols) then Fail("Crowdin file name cannot contain '" + BadSymbols + "': " + cloudName)
    else Pass
  }

  /** A `for ... range` over a Go map visits every key exactly once in some order. */
  predicate IsEnumeration(order: seq<string>, m: map<string, string>) {
    && (forall i :: 0 <= i < |order| ==> order[i] in m)
    && (forall key :: key in m ==> key in order)
    && (forall i, j :: 0 <= i < j < |order| ==> order[i] != order[j])
  }

  /** The validation loop from position i of the iteration order on. */
  function CheckFrom(m: map<string, string>, order: seq<string>, i: nat): Outcome
    requires i <= |order| && forall j :: 0 <= j < |order| ==> order[j] in m
    decreases |order| - i
  {
    if i == |order| then Pass
    else
      var o := EntryCheck(order[i], m[order[i]]);
      if o.Fail? then o else CheckFrom(m, order, i + 1)
  }

  lemma {:induction false} CheckFromPassesIffValid(m: map<string, string>, order: seq<string>, i: nat)
    requires i <= |order| && forall j :: 0 <= j < |order| ==> order[j] in m
    ensures CheckFrom(m, order, i).Pass? <==> forall j :: i <= j < |order| ==> ValidEntry(order[j], m[order[j]])
    decreases |order| - i
  {
    if i < |order| {
      CheckFromPassesIffValid(m, order, i + 1);
    }
  }

  /** Validation passes exactly when every entry of the mapping is valid, so
      whether it passes does not depend on the order Go happens to iterate
      the map in. */
  lemma ValidationIgnoresOrder(m: map<string, string>, order1: seq<string>, order2: seq<string>)
    requires IsEnumeration(order1, m) && IsEnumeration(order2, m)
    ensures CheckFrom(m, order1, 0).Pass? <==> forall key :: key in m ==> ValidEntry(key, m[key])
    ensures CheckFrom(m, order1, 0).Pass? <==> CheckFrom(m, order2, 0).Pass?
  {
    CheckFromPassesIffValid(m, order1, 0);
    CheckFromPassesIffValid(m, order2, 0);
  }

  // ---------------------------------------------------------------------
  // Upload: add-or-update dispatch

  /** The calls into the API client that the upload makes. */
  datatype Call =
    | FindFileId(projectID: string, fileName: string)
    | AddFile(projectID: string, localPath: string, cloudName: string)
    | UpdateFile(projectID: string, localPath: string, cloudName: string, fileID: string)

  /** An empty id means the file is not in the project yet. */
  function WriteCall(projectID: string, localPath: string, cloudName: string, fileID: string): Call {
    if fileID == "" then AddFile(projectID, localPath, cloudName) else UpdateFile(projectID, localPath, cloudName, fileID)
  }

  /** One iteration of the dispatch loop, given what FindFileId returns and
      what the following AddFile or UpdateFile returns. */
  function EntryUpload(projectID: string, localPath: string, cloudName: string,
                       found: Result<string>, written: Outcome): (Outcome, seq<Call>)
  {
    var find := FindFileId(projectID, cloudName);
    if found.Err? then (Fail(found.error), [find])
    else (written, [find, WriteCall(projectID, localPath, cloudName, found.value)])
  }

  predicate EntryOk(found: Result<string>, written: Outcome) {
    found.Ok? && written.Pass?
  }

  /** The dispatch loop from position i of the iteration order on;
      found[i] and written[i] are the replies to the calls for order[i]. */
  function UploadFrom(projectID: string, m: map<string, string>, order: seq<string>,
                      found: seq<Result<string>>, written: seq<Outcome>, i: nat): (Outcome, seq<Call>)
    requires i <= |order| <= |found| && |order| <= |written|
    requires forall j :: 0 <= j < |order| ==> order[j] in m
    decreases |order| - i
  {
    if i == |order| then (Pass, [])
    else
      var (o, calls) := EntryUpload(projectID, order[i], m[order[i]], found[i], written[i]);
      if o.Fail? then (o, calls)
      else
        var (rest, more) := UploadFrom(projectID, m, order, found, written, i + 1);
        (rest, calls + more)
  }

  /** The first position from i on whose calls fail, or n when none does. */
  function FirstFailure(found: seq<Result<string>>, written: seq<Outcome>, i: nat, n: nat): (k: nat)
    requires i <= n <= |found| && n <= |written|
    ensures i <= k <= n
    ensures forall j :: i <= j < k ==> EntryOk(found[j], written[j])
    ensures k < n ==> !EntryOk(found[k], written[k])
    decreases n - i
  {
    if i == n || !EntryOk(found[i], written[i]) then i else FirstFailure(found, written, i + 1, n)
  }

  /** The dispatch's outcome and how many calls it makes: two per entry up
      to the first entry whose call fails, which ends the upload with that
      call's error (one call when FindFileId failed, two when the write
      did); nothing is called after it. */
  lemma {:induction false} UploadFromOutcome(projectID: string, m: map<string, string>, order: seq<string>,
                                             found: seq<Result<string>>, written: seq<Outcome>, i: nat)
    requires i <= |order| <= |found| && |order| <= |written|
    requires forall j :: 0 <= j < |order| ==> order[j] in m
    ensures var k := FirstFailure(found, written, i, |order|);
            && UploadFrom(projectID, m, order, found, written, i).0 ==
               (if k == |order| then Pass else if found[k].Err? then Fail(found[k].error) else Fail(written[k].error))
            && |UploadFrom(projectID, m, order, found, written, i).1| ==
               2 * (k - i) + (if k == |order| then 0 else if found[k].Err? then 1 else 2)
    decreases |order| - i
  {
    if i < |order| && EntryOk(found[i], written[i]) {
      UploadFromOutcome(projectID, m, order, found, written, i + 1);
    }
  }

  /** The calls made for the entry at position j, up to and including the
      first failing one: FindFileId with its name first, then, when an id
      came back, AddFile if the id is empty or UpdateFile with exactly that
      id. */
  lemma {:induction false} UploadFromCallAt(projectID: string, m: map<string, string>, order: seq<string>,
                                            found: seq<Result<string>>, written: seq<Outcome>, i: nat, j: nat)
    requires i <= |order| <= |found| && |order| <= |written|
    requires forall j :: 0 <= j < |order| ==> order[j] in m
    requires i <= j < |order| && j <= FirstFailure(found, written, i, |order|)
    ensures var calls := UploadFrom(projectID, m, order, found, written, i).1;
            && 2 * (j - i) < |calls|
            && calls[2 * (j - i)] == FindFileId(projectID, m[order[j]])
            && (found[j].Ok? ==> 2 * (j - i) + 1 < |calls| &&
                                 calls[2 * (j - i) + 1] == WriteCall(projectID, order[j], m[order[j]], found[j].value))
    decreases |order| - i
  {
    var (o, first) := EntryUpload(projectID, order[i], m[order[i]], found[i], written[i]);
    if j > i {
      assert EntryOk(found[i], written[i]);
      UploadFromCallAt(projectID, m, order, found, written, i + 1, j);
      var more := UploadFrom(projectID, m, order, found, written, i + 1).1;
      assert UploadFrom(projectID, m, order, found, written, i).1 == first + more;
      assert (first + more)[2 * (j - i)] == more[2 * (j - i - 1)];
    }
  }

  /** The decoded PLUGIN_UPLOAD_FILES value: a mapping from local path to
      name on the service, or the detail of a JSON decode failure. */
  datatype MappingDecode = Decoded(mapping: map<string, string>) | Malformed(detail: string)

  /** A step's outcome with the calls made before it in front. */
  function Prefixed(before: seq<Call>, step: (Outcome, seq<Call>)): (Outcome, seq<Call>) {
    (step.0, before + step.1)
  }

  /** What the replies must cover: both loops range over the decoded map,
      and there is a reply for every call the dispatch can make. */
  predicate UploadReplies(decoded: MappingDecode, checkOrder: seq<string>, uploadOrder: seq<string>,
                          found: seq<Result<string>>, written: seq<Outcome>) {
    decoded.Decoded? ==>
      && IsEnumeration(checkOrder, decoded.mapping)
      && IsEnumeration(uploadOrder, decoded.mapping)
      && |found| >= |uploadOrder| && |written| >= |uploadOrder|
  }

  /** targetUpload as a function: its outcome and the calls it makes. */
  function UploadRun(projectID: string, filesList: string, decoded: MappingDecode,
                     checkOrder: seq<string>, uploadOrder: seq<string>,
                     found: seq<Result<string>>, written: seq<Outcome>): (Outcome, seq<Call>)
    requires UploadReplies(decoded, checkOrder, uploadOrder, found, written)
  {
    if filesList == "" then (Fail(EmptyFilesListError), [])
    else
      match decoded
      case Malformed(detail) => (Fail("failed read upload files list: " + detail), [])
      case Decoded(m) =>
        // The source tests the raw text a second time here, not the map.
        if |filesList| == 0 then (Fail(EmptyFilesListError), [])
        else
          var checked := CheckFrom(m, checkOrder, 0);
          if checked.Fail? then (checked, []) else UploadFrom(projectID, m, uploadOrder, found, written, 0)
  }

  /** Fail-fast: one entry with an empty local path, an empty name, or a
      name holding a forbidden character aborts the upload before any call
      into the API client, whatever the iteration order. */
  lemma UploadFailsFast(projectID: string, filesList: string, m: map<string, string>,
                        checkOrder: seq<string>, uploadOrder: seq<string>,
                        found: seq<Result<string>>, written: seq<Outcome>, bad: string)
    requires UploadReplies(Decoded(m), checkOrder, uploadOrder, found, written)
    requires bad in m && !ValidEntry(bad, m[bad])
    ensures var (o, calls) := UploadRun(projectID, filesList, Decoded(m), checkOrder, uploadOrder, found, written);
            o.Fail? && calls == []
  {
    ValidationIgnoresOrder(m, checkOrder, checkOrder);
  }

  /** With a valid mapping the upload is exactly the dispatch loop, whose
      outcome and calls UploadFromOutcome and UploadFromCallAt describe. */
  lemma UploadDispatchesValidMapping(projectID: string, filesList: string, m: map<string, string>,
                                     checkOrder: seq<string>, uploadOrder: seq<string>,
                                     found: seq<Result<string>>, written: seq<Outcome>)
    requires UploadReplies(Decoded(m), checkOrder, uploadOrder, found, written)
    requires filesList != ""
    requires forall key :: key in m ==> ValidEntry(key, m[key])
    ensures UploadRun(projectID, filesList, Decoded(m), checkOrder, uploadOrder, found, written) ==
            UploadFrom(projectID, m, uploadOrder, found, written, 0)
  {
    ValidationIgnoresOrder(m, checkOrder, checkOrder);
  }

  /** An empty PLUGIN_UPLOAD_FILES is rejected before decoding; a non-empty
      text that decodes to an empty mapping passes, with no call at all. */
  lemma UploadEmptyInputs(projectID: string, filesList: string, decoded: MappingDecode,
                          checkOrder: seq<string>, uploadOrder: seq<string>,
                          found: seq<Result<string>>, written: seq<Outcome>)
    requires UploadReplies(decoded, checkOrder, uploadOrder, found, written)
    ensures filesList == "" ==>
              UploadRun(projectID, filesList, decoded, checkOrder, uploadOrder, found, written) == (Fail(EmptyFilesListError), [])
    ensures filesList != "" && decoded == Decoded(map[]) ==>
              UploadRun(projectID, filesList, decoded, checkOrder, uploadOrder, found, written) == (Pass, [])
  {
    if filesList != "" && decoded == Decoded(map[]) {
      EmptyMapEnumeration(checkOrder, decoded.mapping);
      EmptyMapEnumeration(uploadOrder, decoded.mapping);
    }
  }

  lemma EmptyMapEnumeration(order: seq<string>, m: map<string, string>)
    requires IsEnumeration(order, m)
    ensures order != [] ==> m != map[]
  {
    if order != [] {
      assert order[0] in m;
    }
  }

  /** The validation loop of targetUpload, visiting the map in the given order. */
  method ValidateMapping(targetFiles: map<string, string>, order: seq<string>) returns (r: Outcome)
    requires forall j :: 0 <= j < |order| ==> order[j] in targetFiles
    ensures r == CheckFrom(targetFiles, order, 0)
  {
    var i := 0;
    while i < |order|
      invariant 0 <= i <= |order|
      invariant CheckFrom(targetFiles, order, 0) == CheckFrom(targetFiles, order, i)
    {
      var localPath := order[i];
      var cloudName := targetFiles[localPath];
      if localPath == "" {
        return Fail("local file path cannot be empty");
      }
      if cloudName == "" {
        return Fail("Crowdin file name cannot be empty");
      }
      if ContainsAny(cloudName, BadSymbols) {
        return Fail("Crowdin file name cannot contain '" + BadSymbols + "': " + cloudName);
      }
      i := i + 1;
    }
    r := Pass;
  }

  /** The dispatch loop of targetUpload, visiting the map in the given order;
      found[i] and written[i] are the replies to the FindFileId and the
      AddFile or UpdateFile calls for order[i]. */
  method DispatchUploads(projectID: string, targetFiles: map<string, string>, order: seq<string>,
                         found: seq<Result<string>>, written: seq<Outcome>) returns (r: Outcome, calls: seq<Call>)
    requires |order| <= |found| && |order| <= |written|
    requires forall j :: 0 <= j < |order| ==> order[j] in targetFiles
    ensures (r, calls) == UploadFrom(projectID, targetFiles, order, found, written, 0)
  {
    calls := [];
    var i := 0;
    assert [] + UploadFrom(projectID, targetFiles, order, found, written, 0).1 ==
           UploadFrom(projectID, targetFiles, order, found, written, 0).1;
    while i < |order|
      invariant 0 <= i <= |order|
      invariant UploadFrom(projectID, targetFiles, order, found, written, 0) ==
                Prefixed(calls, UploadFrom(projectID, targetFiles, order, found, written, i))
    {
      var localPath := order[i];
      var cloudName := targetFiles[localPath];
      ghost var before := calls;
      ghost var step := EntryUpload(projectID, localPath, cloudName, found[i], written[i]);
      calls := calls + [FindFileId(projectID, cloudName)];
      var fileID := found[i];
      if fileID.Err? {
        return Fail(fileID.error), calls;
      }
      if fileID.value == "" {
        calls := calls + [AddFile(projectID, localPath, cloudName)];
      } else {
        calls := calls + [UpdateFile(projectID, localPath, cloudName, fileID.value)];
      }
      assert calls == before + step.1;
      if written[i].Fail? {
        return written[i], calls;
      }
      PrefixedStep(before, step.1, UploadFrom(projectID, targetFiles, order, found, written, i + 1));
      i := i + 1;
    }
    assert calls + [] == calls;
    r := Pass;
  }

  lemma PrefixedStep(before: seq<Call>, first: seq<Call>, rest: (Outcome, seq<Call>))
    ensures Prefixed(before, (rest.0, first + rest.1)) == Prefixed(before + first, rest)
  {
    assert before + (first + rest.1) == (before + first) + rest.1;
  }

  /** targetUpload. checkOrder and uploadOrder are the orders in which its two
      range loops visit the map; found and written are the replies to the
      calls the dispatch makes. */
  method TargetUpload(projectID: string, filesList: string, decoded: MappingDecode,
                      checkOrder: seq<string>, uploadOrder: seq<string>,
                      found: seq<Result<string>>, written: seq<Outcome>) returns (r: Outcome, calls: seq<Call>)
    requires UploadReplies(decoded, checkOrder, uploadOrder, found, written)
    ensures (r, calls) == UploadRun(projectID, filesList, decoded, checkOrder, uploadOrder, found, written)
  {
    calls := [];
    if filesList == "" {
      return Fail(EmptyFilesListError), calls;
    }
    if decoded.Malformed? {
      return Fail("failed read upload files list: " + decoded.detail), calls;
    }
    var targetFiles := decoded.mapping;
    // The source's second emptiness test of filesList cannot fire here.
    r := ValidateMapping(targetFiles, checkOrder);
    if r.Fail? {
      return r, calls;
    }
    r, calls := DispatchUploads(projectID, targetFiles, uploadOrder, found, written);
  }

  // ---------------------------------------------------------------------
  // Download parameters

  /** The checks targetDownload makes before calling Download, in order. */
  function DownloadParameters(downloadTo: string, skipStrings: string, skipFiles: string, approvedOnly: string): (r: Result<(bool, bool, bool)>)
    ensures r.Ok? <==> downloadTo != "" && skipStrings in {"", "false", "true"} &&
                       skipFiles in {"", "false", "true"} && approvedOnly in {"", "false", "true"}
    ensures r.Ok? ==> r.value == (skipStrings == "true", skipFiles == "true", approvedOnly == "true")
    ensures downloadTo == "" ==> r == Err("empty 'download to' parameter")
  {
    if downloadTo == "" then Err("empty 'download to' parameter")
    else
      match GetBoolVal(SkipUntranslatedStringsEnv, skipStrings)
      case Err(e) => Err(e)
      case Ok(s) =>
        match GetBoolVal(SkipUntranslatedFilesEnv, skipFiles)
        case Err(e) => Err(e)
        case Ok(f) =>
          match GetBoolVal(ExportApprovedOnlyEnv, approvedOnly)
          case Err(e) => Err(e)
          case Ok(a) => Ok((s, f, a))
  }

  /** targetDownload: a rejected parameter ends it before client.Download is
      called, so no request, sleep or file change happens. */
  method TargetDownload(client: BuildDownload.Client, fs: FileSystem, projectID: string,
                        downloadTo: string, skipStrings: string, skipFiles: string, approvedOnly: string,
                        submit: BuildDownload.SubmitReply, polls: seq<BuildDownload.PollReply>,
                        fetch: BuildDownload.FetchReply) returns (r: Result<seq<string>>)
    requires |polls| >= BuildDownload.MaxPollAttempts
    requires BuildDownload.FreshTempName(fetch, fs.files, fs.temps)
    modifies client, fs
    ensures match DownloadParameters(downloadTo, skipStrings, skipFiles, approvedOnly)
            case Err(e) => r == Err(e) && unchanged(client) && unchanged(fs)
            case Ok(flags) =>
              var run := BuildDownload.DownloadRun(old(fs.State()), downloadTo, projectID, flags.0, flags.1, flags.2,
                                                   submit, polls, fetch);
              && r == run.result
              && fs.State() == run.fs
              && fs.temps == old(fs.temps) + run.leaked
              && client.sleeps == old(client.sleeps) + run.attempts
              && client.requests == old(client.requests) + run.requests
  {
    if downloadTo == "" {
      return Err("empty 'download to' parameter");
    }
    var s := GetBoolVal(SkipUntranslatedStringsEnv, skipStrings);
    if s.Err? {
      return Err(s.error);
    }
    var f := GetBoolVal(SkipUntranslatedFilesEnv, skipFiles);
    if f.Err? {
      return Err(f.error);
    }
    var a := GetBoolVal(ExportApprovedOnlyEnv, approvedOnly);
    if a.Err? {
      return Err(a.error);
    }
    r := client.Download(fs, downloadTo, projectID, s.value, f.value, a.value, submit, polls, fetch);
  }

  // ---------------------------------------------------------------------
  // main

  /** PLUGIN_TARGET, PLUGIN_CROWDIN_KEY, PLUGIN_PROJECT_ID and PLUGIN_PROJECT_NAME. */
  datatype Env = Env(target: string, key: string, projectID: string, projectName: string)

  /** Which target routine main hands over to, and with which project id. */
  datatype Target = Upload(projectID: string) | Download(projectID: string)

  function SelectTarget(target: string, projectID: string): (r: Result<Target>)
    ensures r.Ok? <==> target in {"upload", "download"}
    ensures r.Ok? ==> r.value.projectID == projectID && (r.value.Upload? <==> target == "upload")
  {
    if target == "upload" then Ok(Upload(projectID))
    else if target == "download" then Ok(Download(projectID))
    else Err("unknown target '" + target + "' (possible targets: upload, download)")
  }

  /** main up to the switch on the target: the key and project checks, the
      project-name lookup when no id is given (projects is the project
      listing it pages through), and the choice of target. requests are the
      GET paths the lookup issues. */
  method Run(env: Env, projects: seq<Lookup.PageReply>) returns (r: Result<Target>, requests: seq<string>)
    ensures env.key == "" ==> r == Err("empty Crowdin API key") && requests == []
    ensures env.key != "" && env.projectID == "" && env.projectName == "" ==>
              r == Err("Crowdin project ID or name not set") && requests == []
    ensures env.key != "" && env.projectID != "" ==> r == SelectTarget(env.target, env.projectID) && requests == []
    ensures env.key != "" && env.projectID == "" && env.projectName != "" ==>
              var (found, paths) := Lookup.ProjectLookup(projects, env.projectName);
              && requests == paths
              && r == (if found.Err? then Err(found.error) else SelectTarget(env.target, found.value))
  {
    requests := [];
    if env.key == "" {
      return Err("empty Crowdin API key"), requests;
    }
    if env.projectID == "" && env.projectName == "" {
      return Err("Crowdin project ID or name not set"), requests;
    }
    var projectID := env.projectID;
    if projectID == "" {
      var found;
      found, requests := Lookup.FindProjectIdByName(projects, env.projectName);
      if found.Err? {
        return Err(found.error), requests;
      }
      projectID := found.value;
    }
    r := SelectTarget(env.target, projectID);
  }

  /** An unknown target is reported only after the name lookup has run, and
      the lookup runs only when no project id is given. */
  lemma UnknownTargetAfterLookup(env: Env, projects: seq<Lookup.PageReply>)
    requires env.key != "" && env.projectID == "" && env.projectName != ""
    requires env.target !in {"upload", "download"}
    ensures var (found, paths) := Lookup.ProjectLookup(projects, env.projectName);
            |paths| >= 1 && paths[0] == Lookup.PagePath(Lookup.ProjectsPath, 0) &&
            (found.Ok? ==> SelectTarget(env.target, found.value).Err?)
  {
    var (found, paths) := Lookup.ProjectLookup(projects, env.projectName);
    var (last, stop) := Lookup.ScanFrom(projects, env.projectName, Lookup.ProjectsDecodeError, 0);
    assert paths == Lookup.PagePaths(Lookup.ProjectsPath, last + 1);
    Lookup.PagePathsOffsets(Lookup.ProjectsPath, last + 1);
  }
}
