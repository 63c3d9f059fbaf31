# drone-crowdin-v2 in Dafny

A model of the decision logic of drone-crowdin-v2. This CI plugin uploads
source files to the Crowdin translation service, or downloads a built
translation bundle and extracts it. The model covers four parts of the
plugin:

- **Entry point (`cli.dfy`, module `Cli`).** Covers `cmd/drone-crowdin-v2/main.go`:
  - the boolean flag parser `getBoolVal`;
  - the checks on the API key, the project id or name, and the choice of target;
  - the fail-fast validation of the upload mapping (local path → name on the service);
  - the per-entry choice between adding and updating a file;
  - the parameter checks that run before a download starts.
- **Paginated lookups (`lookup.dfy`, module `Lookup`).** Covers `FindProjectIdByName`
  and `FindFileId`. Pages are requested at offsets 0, 1, 2, … with a limit of 500.
  - The scan stops at the first failing GET, the first undecodable page, the
    first empty page, or the first entry whose name matches exactly.
  - If nothing matches, the project lookup fails and the file lookup returns an empty id.
- **Build orchestrator (`download.dfy`, module `BuildDownload`, class `Client`).**
  Covers `Client.Download`:
  - submit a translation build;
  - make at most six attempts, each a five-second sleep followed by a GET;
  - retry only when that GET fails;
  - fetch the archive into a temporary file, extract it, and remove the file.
- **Extraction (`unzip.dfy`, module `Unzip`).** Covers `unzip` and its
  `extractAndWriteFile` closure. It walks the entries in archive order:
  - directories are created;
  - each file is written with truncation to its joined path;
  - the first error ends the extraction, with no rollback.

The remote service, the JSON decoder and the zip reader are not modelled.
Each appears only as the replies it gives:

- the page replies of a listing;
- the replies to the build POST, to each poll and to the archive fetch;
- the archive entries, with the outcome of opening and writing each one;
- the replies to `FindFileId` and to `AddFile`/`UpdateFile` during an upload.

Go's map iteration order is random. It is therefore a parameter: any
enumeration of the map's keys (`Cli.IsEnumeration`). The upload's two loops
each get their own enumeration.

The local filesystem is the class `Filesystem.FileSystem`. It has two fields:

- a map from path to bytes;
- a set of directories.

It also has a ghost set of live temporary files. The client has ghost
counters for its sleeps and for the requests it issues in order.

Every imperative method of the source is a Dafny method with its loops.
Each one is proved equal to a specification function:

| method | specification function |
|---|---|
| `Lookup.FindProjectIdByName` | `ProjectLookup` |
| `Lookup.FindFileId` | `FileLookup` |
| `Client.PollBuild` | `PollRun` |
| `Client.Download` | `DownloadRun` |
| `Unzip.Unzip` | `UnzipRun` |
| `Cli.TargetUpload` | `UploadRun` |

The properties the plugin promises are then proved as lemmas about those
functions.

Points of the code's behaviour that the model keeps as written:

- **Sleeps.** A sleep comes before each of the six attempts, so six
  attempts mean six sleeps.
- **All polls fail.** The result is the sixth poll's error, unwrapped.
- **Copy failure.** `dlToTmpFile` returns an empty path after `io.Copy`
  fails, so `Download` never registers the deferred `os.Remove` and the
  file stays behind. `BuildDownload.OnlyCopyFailureLeaks` states that this
  is the only way a temporary file survives.
- **The second emptiness test in `targetUpload`.** It tests the raw
  `PLUGIN_UPLOAD_FILES` text, not the decoded map, so it can never fire. A
  non-empty text that decodes to an empty map uploads nothing and succeeds.

## Model

| member | source | states |
|---|---|---|
| Cli.GetBoolVal | cmd/drone-crowdin-v2/main.go:44-56 | accepted exactly for "", "false" and "true"; the value is true only for "true"; anything else is the error "bad NAME parameter value" |
| Cli.EntryCheck | cmd/drone-crowdin-v2/main.go:78-88 | one mapping entry passes exactly when its local path and name are non-empty and the name holds none of `\ / : * ? " < > \|` |
| Cli.CheckFromPassesIffValid | cmd/drone-crowdin-v2/main.go:76-89 | the validation loop passes over an order exactly when every entry it visits is valid |
| Cli.ValidationIgnoresOrder | cmd/drone-crowdin-v2/main.go:77-89 | validation passes exactly when every entry of the map is valid, so two iteration orders always agree on pass or fail |
| Cli.ValidateMapping | cmd/drone-crowdin-v2/main.go:76-89 | the loop with its early exits returns what the validation specification gives, first failing entry's message included |
| Cli.UploadFromOutcome | cmd/drone-crowdin-v2/main.go:92-115 | the dispatch outcome is Pass when every entry's calls succeed, else the error of the first failing call; two calls per entry before it, then one or two, nothing after |
| Cli.UploadFromCallAt | cmd/drone-crowdin-v2/main.go:94-114 | for each entry up to the first failure, FindFileId with its name comes first; then AddFile when the id is empty, otherwise UpdateFile with exactly that id |
| Cli.DispatchUploads | cmd/drone-crowdin-v2/main.go:91-115 | the dispatch loop's outcome and call trace are those of the dispatch specification |
| Cli.UploadFailsFast | cmd/drone-crowdin-v2/main.go:76-92 | one invalid entry makes the upload fail with no call into the API client, whatever either iteration order is |
| Cli.UploadDispatchesValidMapping | cmd/drone-crowdin-v2/main.go:76-115 | with non-empty text and a valid map the upload is exactly the dispatch loop |
| Cli.UploadEmptyInputs | cmd/drone-crowdin-v2/main.go:62-74 | empty text fails with "upload files list cannot be empty" and no call; non-empty text decoding to an empty map passes with no call |
| Cli.TargetUpload | cmd/drone-crowdin-v2/main.go:58-116 | outcome and calls equal the upload specification: empty text, decode failure with its detail, validation, then dispatch |
| Cli.DownloadParameters | cmd/drone-crowdin-v2/main.go:120-127 | accepted exactly when the destination is non-empty and all three flags are acceptable; the flags are then their parsed values; an empty destination is "empty 'download to' parameter" |
| Cli.TargetDownload | cmd/drone-crowdin-v2/main.go:118-133 | a rejected parameter returns its error with client and filesystem unchanged (no request, no sleep); otherwise result, filesystem, sleeps and requests are those of Download with the parsed flags |
| Cli.SelectTarget | cmd/drone-crowdin-v2/main.go:178-185 | only "upload" and "download" are accepted, each selecting its own target with the given project id |
| Cli.Run | cmd/drone-crowdin-v2/main.go:154-185 | an empty key, or no id and no name, fails with its message and no request; a given id is used without any request; otherwise the name lookup's requests are made and its error or id decides |
| Cli.UnknownTargetAfterLookup | cmd/drone-crowdin-v2/main.go:166-185 | with no id, an unknown target is reported only after the lookup has requested at least its first page |
| Lookup.PagePathsOffsets | internal/crowdinapi/crowdin_project.go:66-67 | the k-th page request asks for offset k with limit 500 |
| Lookup.ScanStopsAtFirstStop | internal/crowdinapi/crowdin_project.go:66-88 | the scan stops at a page that is an error, empty or matching, and every earlier page was non-empty without a match |
| Lookup.ScanFindsFirstStop | internal/crowdinapi/crowdin_project.go:66-88 | conversely, the first page at which the scan may stop is where it stops |
| Lookup.LookupFindsFirstMatch | internal/crowdinapi/crowdin_project.go:83-87 | both lookups give the decimal id of the first exact match in page then entry order and request no page after it |
| Lookup.LookupAbsent | internal/crowdinapi/crowdin_project.go:79-118 | no match before an empty page: the project lookup fails with "project name not found", the file lookup gives "" without error, both after requesting exactly the pages up to the empty one |
| Lookup.LookupAborts | internal/crowdinapi/crowdin_project.go:67-77 | a failing GET or an undecodable page ends either lookup with that error and no later request |
| Lookup.FileLookupEmptyMeansAbsent | internal/crowdinapi/crowdin_project.go:111-118 | the file lookup returns "" exactly when the scan reached an empty page |
| Lookup.FindProjectIdByName | internal/crowdinapi/crowdin_project.go:65-91 | result and the paths requested are those of the project lookup specification |
| Lookup.FindFileId | internal/crowdinapi/crowdin_project.go:93-119 | result and the paths requested are those of the file lookup specification |
| Strconv.ParseFormatInt | internal/crowdinapi/crowdin_project.go:85 | the decimal text of an id reads back as that id |
| Strconv.FormatIntInjective | internal/crowdin/crowdin_download.go:75 | distinct build ids have distinct decimal texts |
| BuildDownload.SubmitComesFirst | internal/crowdin/crowdin_download.go:57-73 | the first request is the build POST with exactly the three flags and no branch or language keys; a failed or undecodable submission ends the call with no poll and no file change |
| BuildDownload.PollsAreGets | internal/crowdin/crowdin_download.go:84 | every poll is a GET of the build's download path |
| BuildDownload.PollsUntilFirstAnswer | internal/crowdin/crowdin_download.go:78-87 | between one and six attempts, exactly up to and including the first answered poll, each a GET of the build's download path, every earlier one failed |
| BuildDownload.LaterPollsIgnored | internal/crowdin/crowdin_download.go:89-108 | polls after the first answered one have no influence on anything the call does |
| BuildDownload.AllPollsFail | internal/crowdin/crowdin_download.go:78-111 | six failed polls give the sixth poll's error unwrapped, after six attempts, with the filesystem unchanged |
| BuildDownload.AnsweredPollFailuresAreFatal | internal/crowdin/crowdin_download.go:90-100 | an undecodable descriptor or a failed archive fetch after an answered poll ends the call with an error, with no further attempt |
| BuildDownload.TempFileRemoved | internal/crowdin/crowdin_download.go:97-108 | once the archive was saved to a temporary file, that file is gone afterwards and no temporary file is left |
| BuildDownload.OnlyCopyFailureLeaks | internal/crowdin/crowdin.go:103-112 | a temporary file survives only when copying the body into it failed, and the call then fails with that error |
| BuildDownload.SixthPollSucceeds | internal/crowdin/crowdin_download.go:78-108 | five failed polls and a sixth good one succeed after six attempts |
| BuildDownload.ExtractionDecides | internal/crowdin/crowdin_download.go:104-108 | the extracted list is returned unchanged, an extraction error is prefixed with "crowdin api: failed extract archive: ", and the filesystem is as extraction left it minus the temporary file |
| BuildDownload.Client.Sleep | internal/crowdin/crowdin_download.go:80 | one more five-second sleep |
| BuildDownload.Client.DlToTmpFile | internal/crowdin/crowdin.go:84-115 | one fetch request recorded; a saved archive is a new temporary file, under a name no file or live temporary file had, holding its bytes; a failure before creation changes nothing; a copy failure leaves the created file with the partial bytes |
| BuildDownload.Client.RetrieveBuild | internal/crowdin/crowdin_download.go:90-108 | after an answered poll: result, filesystem, live temporary files and requests are those of the retrieval specification |
| BuildDownload.Client.PollBuild | internal/crowdin/crowdin_download.go:78-111 | the poll loop's result, filesystem, temporary files, sleeps and requests are those of the poll specification |
| BuildDownload.Client.Download | internal/crowdin/crowdin_download.go:55-112 | result, filesystem, leaked temporary files, sleeps (one per attempt) and requests in order are those of the download specification |
| Unzip.ExtractAndWriteFile | internal/crowdin/unzip.go:41-68 | outcome, filesystem and list after one entry are those of the step specification; no temporary file is touched |
| Unzip.ExtractStepOutcome | internal/crowdin/unzip.go:41-68 | one entry passes exactly when it opens and, if it is a file, is written; its error is the open or write error; on success it adds its name unless it is a directory |
| Unzip.ExtractReportsFileNames | internal/crowdin/unzip.go:50-77 | extraction succeeds exactly when every entry does, and then lists the names of the file entries in archive order, duplicates included |
| Unzip.ExtractStopsAtFirstFailure | internal/crowdin/unzip.go:70-74 | the first failing entry's error is the result; later entries play no part; what earlier entries wrote stays |
| Unzip.ExtractLastWriteWins | internal/crowdin/unzip.go:48-62 | after success every path holds the bytes of the last file entry whose joined path it is; every other file is as before |
| Unzip.ExtractKeepsDirectories | internal/crowdin/unzip.go:50-55 | directories are only ever added |
| Unzip.ExtractKeepsPaths | internal/crowdin/unzip.go:41-75 | a path that is a directory or a file stays one or the other: extraction removes nothing |
| Unzip.ExtractCreatesDirectories | internal/crowdin/unzip.go:50-51 | after success the joined path of every directory entry exists, as a directory unless a regular file was in the way |
| Unzip.ExtractResultIgnoresMkdir | internal/crowdin/unzip.go:51-55 | for given open, create and copy outcomes of the entries, a MkdirAll failure never ends the extraction by itself: the result is the same whatever state the filesystem starts in |
| Unzip.UnzipUnopenable | internal/crowdin/unzip.go:32-38 | an unopenable archive gives its error and changes nothing; the destination is not created |
| Unzip.UnzipEmptyArchive | internal/crowdin/unzip.go:38-77 | an archive without entries gives an empty list, with the destination created unless a file occupies its path |
| Unzip.UnzipExample | internal/crowdin/unzip.go:29-78 | entries a.txt, dir/ and dir/b.txt give dest/a.txt and dest/dir/b.txt with their bytes and the list ["a.txt", "dir/b.txt"] |
| Unzip.Unzip | internal/crowdin/unzip.go:29-78 | result and filesystem are those of the extraction specification; no temporary file is touched |
| Paths.DirOfJoin | internal/crowdin/unzip.go:48-55 | the parent directory made for a file entry whose name has no separator is the destination itself |
| Filesystem.AfterMkdirAll | internal/crowdin/unzip.go:38 | the directory exists afterwards unless a regular file is at its path; files and other directories are unchanged |
| Filesystem.AfterWrite | internal/crowdin/unzip.go:56-62 | the path holds exactly the new bytes; every other file and every directory is unchanged |
| Filesystem.AfterRemove | internal/crowdin/crowdin_download.go:101 | the path no longer holds a file; every other file and every directory is unchanged |
| Filesystem.FileSystem.CreateTemp | internal/crowdin/crowdin.go:103-112 | created only at a path that holds no file (exclusive create); the new file holds the given bytes and is recorded as a live temporary file |
| Filesystem.FileSystem.Remove | internal/crowdin/crowdin_download.go:101 | the file is removed and no longer counts as a live temporary file |

## Left out

- HTTP transport (`get`, `sendJSON` and `uploadFileExtra` in `internal/crowdin/crowdin.go`): headers, the bearer token, the 5-second timeout and `readBody` are not modelled. Each request is a reply value that carries the transport, status or decode error text.
- JSON encoding and decoding: a reply is given as already decoded, or as undecodable together with the decoder's message. A build request is modelled by its fields and `JsonKeys` (the omitempty rule), not by its bytes.
- Zip decompression: an archive is its entries in order, and each entry records how opening it and copying it would turn out.
- `filepath.Join` and `filepath.Dir` are plain text operations here, without cleaning `..`, `.`, doubled separators or trailing separators (so `Join(dest, "dir/")` is `dest/dir/`, a different directory from `dest/dir`). The model therefore states no more than the source does about names that escape the destination.
- `os.MkdirAll`: ancestor directories and permission bits (`f.Mode()`, 0755) are not tracked. Its only failure mode is a regular file at the path, and it is ignored, as every caller in the source ignores it.
- `time.Sleep` is a ghost counter, and real time is not modelled.
- Console output (`fmt.Println`), `os.Exit`, and the TIP message after a name lookup are not modelled. Exiting with a message becomes an `Err` or `Fail` result that carries that message.
- Closing response bodies, archives and files (`defer ... Close()`) cannot be observed in the model.
- `internal/crowdinapi/crowdin_upload.go` (`AddFile`, `UpdateFile`, storage upload) is not part of this model. Those calls appear only as recorded calls with given outcomes.
- Cli.Run: this stops at the choice of target and returns it with the project id. Running the target is modelled separately, by `Cli.TargetUpload` and `Cli.TargetDownload`.
- Cli.TargetUpload: the file-id lookup for each entry is a given reply rather than a call to `Lookup.FindFileId`. The lookup itself is modelled and proved by that method.
- BuildDownload.Client.Download: the model requires at least six poll replies, and a temporary name that no file or live temporary file uses (`FreshTempName`). The first describes the oracle. The second is what `os.CreateTemp`'s exclusive create guarantees. Neither is a demand the source makes of its callers.
- Requests whose URL does not parse (`http.NewRequest` failing at `internal/crowdin/crowdin.go:65-68`, `86-89` and `123-126`) are still recorded as issued, though no request goes out; their failure is part of the given reply.
- An entry's create outcome (`os.OpenFile` at `internal/crowdin/unzip.go:56`) is a given value and is not tied to the filesystem. In the program, a regular file at `Dir(path)` or a directory at `path` makes that call fail. The model lets such an entry succeed if its given outcome says so.
- The page listing is a finite sequence, and every offset past its end reads as an empty page. The model therefore cannot show that the unbounded `for offset := 0; ; offset++` loops (`internal/crowdinapi/crowdin_project.go:66`, `:94`) run forever against a service that never returns an empty page.
- Go's `int` width for build ids and the page offset is not modelled; integers are unbounded.
