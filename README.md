# go-ncbi-dl-service: a Dafny model of the download service

The service takes a JSON download job over HTTP. A job names an accession, a
callback id, an e-mail address, a file name and a molecule type. The handler
answers at once and hands the job to an asynchronous executor. The executor:

1. builds an E-utilities `efetch` request for the accession: GenBank with
   parts for nucleotides, FASTA for proteins;
2. sets the job's `Filename` to the cleaned join of the callback id and
   `<accession>.gbk` or `<accession>.fa`, which is
   `<callback id>/<accession><ext>` for a clean relative callback id and just
   `<accession><ext>` for an empty one;
3. creates the directory `path.Join(".", <callback id>)`: the cleaned callback
   id, or `.` when it is empty;
4. stores the response in that file;
5. posts the job back to the local callback service.

The model follows `main.go` and is split into these files:

- `wrappers.dfy`: the `Option` type.
- `go_strings.dfy`: `strings.Trim` with a one-character cutset.
- `go_path.dfy`: `path.Clean` and `path.Join`, modelled as a stack of path
  segments.
- `go_url.dfy`: `url.Values` and its `Add`.
- `download.dfy` contains:
  - the molecule type and `UnmarshalText`;
  - the job, both as a value (`JobRecord`) and as an object updated in place
    (`Job`);
  - its JSON form at the level of field presence (`RawJob`, `EncodeJob`,
    `DecodeOnto`);
  - the query of the fetch (`FetchQuery`) and the output paths (`OutputDir`,
    `OutputFile`);
  - the executor itself (`Job.DownloadAndCall`).
- `executor_properties.dfy`: lemmas about what the executor does.
- `handler.dfy`: the HTTP handler (`DownloadByAccessionHandler`).

The executor runs against a `World`. A `World` holds one outcome (`Ok` or
`Err`) for each of its six fallible steps:

1. building the request;
2. `os.MkdirAll`;
3. `os.Create`;
4. the fetch;
5. `io.Copy`;
6. the callback post.

For the post it also holds whether a failed post still returned a response.
Go's HTTP client does that when its redirect check fails, and the executor
then closes that response as it closes the response of a successful post.

The `World` also holds a trace. Every step the executor attempts is appended
to the trace as an `Effect`, and so is every deferred `Close` when it runs.

The specification of a run is `ExecutorTrace(job, oracle)`. It mirrors Go's
`defer` nesting: a close follows everything that happens after it was
registered. `SaveAndNotifyTrace`, `FetchAndNotifyTrace` and
`CopyAndNotifyTrace` are its three deferral scopes. The executor's methods
follow the same scopes: `SaveAndNotify`, `FetchAndNotify` and `CopyAndNotify`.
Each runs its part of the body and then the close that part deferred.

The Go code has nothing matching the methods `SaveAndNotify`, `FetchAndNotify`
and `CopyAndNotify`. They keep each proof small. The deferred calls still run
in Go's order: last registered, first run, after the last step.

There is a second, independent reference form, `RunTrace(Plan(...), o, file)`:

- The six steps of a complete run, in order, listed as the `Plan`.
- Cut it after the first failing step (`Attempted`).
- Append the closes still pending, most recent first (`Unwound`).

`TraceFollowsPlan` proves that the two forms agree for every job with a known
molecule type and every outcome. For the other jobs the run stops right after
the request is built (`UnknownMoleculeTypeStopsEarly`). The properties in `executor_properties.dfy` are proved from those two
forms.

Decoding does not default an omitted `molecule_type`:

- The field stays empty (main.go:28).
- The executor's `default:` branch then stops the run right after the request
  is built (main.go:72-75). No file is written and no callback is sent
  (`OmittedMoleculeTypeStopsEarly`).
- Only a present, unrecognised value becomes `nucleotide` (main.go:40-42,
  `UnrecognisedMoleculeTypeIsNucleotide`).

## Model

| member | source | states |
|---|---|---|
| GoStrings.TrimLeft | main.go:35 | the result is a suffix of the input; every character dropped is the cutset character; the result does not start with it |
| GoStrings.TrimRight | main.go:35 | the result is a prefix of the input; every character dropped is the cutset character; the result does not end with it |
| GoStrings.Trim | main.go:35 | the result is no longer than the input and neither starts nor ends with the cutset character |
| GoStrings.TrimPadded | main.go:35 | trimming `"` from any number of quotes around a value that neither starts nor ends with one gives back exactly that value |
| GoPath.Split | main.go:79-81 | splitting at `/` gives at least one segment; no segment contains `/`; joining the segments restores the path; the path has a leading empty segment exactly when it is empty or rooted |
| GoPath.SplitSingle | main.go:79-81 | a path without `/` is a single segment |
| GoPath.SplitAppend | main.go:79-81 | splitting `a/b` gives the segments of `a` followed by those of `b` |
| GoPath.SplitOfJoin | main.go:79-81 | joining segments that contain no `/` and splitting again gives the same segments |
| GoPath.ReduceAllNormal | main.go:79-81 | ordinary segments (not empty, `.` or `..`) are pushed onto the clean stack unchanged |
| GoPath.Clean | main.go:79-81 | `path.Clean` never returns the empty path |
| GoPath.Join | main.go:79-81 | `path.Join` returns the empty path exactly when both arguments are empty |
| GoPath.CleanOfCleanRelative | main.go:79-81 | cleaning a path made only of ordinary segments leaves it unchanged |
| GoPath.ExtendCleanRelative | main.go:79-81 | appending an ordinary segment to such a path keeps it made only of ordinary segments |
| GoPath.CleanDropsDotPrefix | main.go:79 | for a path that is not rooted, a leading `./` changes nothing after cleaning |
| GoPath.JoinUnderCleanDirectory | main.go:79-81 | joining `.`, a clean relative directory and an ordinary file name gives `dir/name` |
| GoPath.JoinUnderEmptyDirectory | main.go:79-81 | joining `.`, the empty directory and an ordinary file name gives just the name |
| Download.UnmarshalText | main.go:34-45 | the molecule type read is always `nucleotide` or `protein`: the trimmed text when it is one of those, `nucleotide` otherwise |
| Download.UnmarshalQuoted | main.go:35-39 | a known molecule type survives any number of surrounding quote characters |
| Download.QuotedProteinIsProtein | main.go:35-39 | the text `"protein"` with its quotes is read as `protein` |
| Download.UnmarshalKnown | main.go:37-39 | a known molecule type is read as itself |
| Download.UnmarshalIdempotent | main.go:34-45 | reading a molecule type that was already read changes nothing |
| Download.DecodedMoleculeType | main.go:28 | after decoding, the molecule type is known when the body carried one and empty when it did not |
| Download.JobRoundTrip | main.go:23-45 | encoding then decoding a job gives it back, except that a non-empty molecule type is read through `UnmarshalText` |
| Download.JobRoundTripKnown | main.go:23-45 | a job whose molecule type is known or empty survives encoding and decoding unchanged |
| Download.FetchQuery | main.go:58-75 | a query and a file extension exist exactly for the two known molecule types |
| Download.BuildFetchQuery | main.go:58-75 | the executor's chain of `q.Add` calls and its switch build exactly the parameters of `FetchQuery`: `tool`, `retmode`, `id`, and `db`/`rettype` with `.gbk` or `.fa` by molecule type, or nothing for the default branch |
| Download.LeadingOks | main.go:51-106 | the count of leading successful steps is at most the number of steps |
| Download.LeadingOksSpec | main.go:51-106 | every one of the leading successful steps succeeded, and the step after them, if any, failed |
| Download.Attempted | main.go:51-112 | between one and six steps are attempted |
| Download.Plan | main.go:51-109 | a complete run has six steps, each at its own position |
| Download.Unwound | main.go:93-115 | the pending deferred calls are all closes; the callback response is among them exactly after a successful post or a failed post that returned a response, the fetch response exactly after a successful fetch, the file exactly after a successful create |
| Download.LeadingOksOf | main.go:51-112 | the number of leading successful steps, read off the six outcomes |
| Download.World.constructor | main.go:47 | a world starts with the given outcomes and an empty trace |
| Download.World.NewRequest | main.go:51-56 | building the request is logged and fails exactly when its outcome is `Err` |
| Download.World.MkdirAll | main.go:84-87 | creating the directory is logged and fails exactly when its outcome is `Err` |
| Download.World.Create | main.go:88-92 | creating the file is logged and fails exactly when its outcome is `Err` |
| Download.World.Do | main.go:95-99 | sending the fetch request is logged and fails exactly when its outcome is `Err` |
| Download.World.Copy | main.go:102-106 | copying the fetch response into the file is logged and fails exactly when its outcome is `Err` |
| Download.World.Post | main.go:109-114 | posting to the callback service is logged; it fails exactly when its outcome is `Err`, and it returns a response when it succeeds or when the world says a failed post still returned one |
| Download.World.Close | main.go:93 | a deferred close is logged when it runs |
| Download.Job.constructor | main.go:121 | a new job is the zero job |
| Download.Job.UnmarshalMoleculeType | main.go:34-45 | the method never reports an error and sets the molecule type to `UnmarshalText` of its text, which is always known |
| Download.Job.DecodeJson | main.go:123 | decoding a well-formed body overwrites exactly the fields the body carries |
| Download.Job.DownloadAndCall | main.go:47-116 | the executor appends exactly `ExecutorTrace(job, outcomes)` to the world's trace, and it changes only `Filename`, to the output file, once the request is built for a known molecule type |
| Download.Job.SaveAndNotify | main.go:79-93 | after the request is built, the run creates the directory and the file, fetches into the file, and closes the file last if it was created |
| Download.Job.FetchAndNotify | main.go:95-100 | the run fetches, then copies and notifies, and closes the fetch response after that if the fetch succeeded |
| Download.Job.CopyAndNotify | main.go:102-115 | the run copies, then marshals the job as it stands and posts it, and closes the callback response if the post returned one |
| ExecutorProperties.JobPlan | main.go:51-109 | a job's plan has six steps |
| ExecutorProperties.NestedRunFollowsPlan | main.go:84-115 | once the request is built, the nested deferral form of a run equals the plan cut after the first failing step followed by the pending closes, latest first |
| ExecutorProperties.NestedRunFollowsPlanUntilFetch | main.go:84-99 | the same, for runs that stop at or before the fetch |
| ExecutorProperties.NestedRunFollowsPlanAfterFetch | main.go:100-115 | the same, for runs whose fetch succeeds |
| ExecutorProperties.TraceFollowsPlan | main.go:51-115 | for every job with a known molecule type and every set of outcomes, the executor's trace is its plan cut after the first failing step, followed by the pending closes |
| ExecutorProperties.RunStepAttemptedIff | main.go:51-112 | in a run of a plan, step `i` is attempted if and only if every earlier step succeeded |
| ExecutorProperties.RunStepsThenCloses | main.go:51-115 | in a run of a plan, the attempted steps come first, each at its own position, and only closes follow them |
| ExecutorProperties.NestedClosesMatchOpens | main.go:88-115 | once the request is built, the file and the fetch response are closed if and only if the step that opened them was attempted and succeeded, and the callback response if and only if the post was attempted and returned a response |
| ExecutorProperties.StepAttemptedIffEarlierSucceeded | main.go:51-112 | for a job, step `i` of its plan is attempted if and only if every earlier step succeeded |
| ExecutorProperties.NestedCallbackIff | main.go:84-112 | once the request is built, a callback is posted if and only if the directory, the file, the fetch and the copy all succeeded, and the payload it carries is the job's |
| ExecutorProperties.CallbackIffEarlierStepsSucceed | main.go:51-112 | a job's run posts a callback if and only if all five earlier steps succeeded, and any callback it posts is the last step of its plan |
| ExecutorProperties.StepsThenCloses | main.go:51-115 | in every run, every step sits at its position in the plan and no step follows a close |
| ExecutorProperties.ClosesMatchOpens | main.go:88-115 | the file and the fetch response are each closed if and only if the step that opened them was attempted and succeeded; the callback response is closed if and only if the post was attempted and returned a response, whether or not it failed |
| ExecutorProperties.SuccessfulRun | main.go:47-116 | a run without failures performs all six steps, then closes the callback response, the fetch response and the file in that order, and sets `Filename` to the output file |
| ExecutorProperties.FailedPostClosesResponse | main.go:108-115 | a post that fails but still returns a response closes it, then the fetch response, then the file |
| ExecutorProperties.FailedFetchClosesFile | main.go:84-99 | a failed fetch leaves the created file behind and closes it; nothing is copied or posted |
| ExecutorProperties.FailedRequestStopsEarly | main.go:51-56 | a failure to build the request ends the run at once and leaves `Filename` unchanged |
| ExecutorProperties.UnknownMoleculeTypeStopsEarly | main.go:63-75 | an unhandled molecule type ends the run right after the request is built and leaves `Filename` unchanged |
| ExecutorProperties.OmittedMoleculeTypeStopsEarly | main.go:28 | a body without `molecule_type` is accepted, but its run stops right after the request is built |
| ExecutorProperties.UnrecognisedMoleculeTypeIsNucleotide | main.go:40-43 | a molecule type that is present but unrecognised decodes exactly as `nucleotide` would |
| ExecutorProperties.CallbackReportsFilename | main.go:82 | the job posted to the callback service decodes to the job with `Filename` set to the output file |
| ExecutorProperties.OutputExtension | main.go:63-71 | the output file extension is `.gbk` for nucleotides and `.fa` for proteins |
| ExecutorProperties.FilenameUnderCallbackId | main.go:79-82 | with a clean relative callback id and an accession without `/`, `Filename` becomes `CallbackId/Accession` plus the extension |
| ExecutorProperties.FilenameOfEmptyCallbackId | main.go:79-82 | with an empty callback id, `Filename` is the accession plus the extension |
| ExecutorProperties.NameIsNormal | main.go:81 | an accession without `/` followed by `.gbk` or `.fa` is one ordinary path segment |
| ExecutorProperties.ExampleRequestDecodes | main.go:121-123 | the body `{"accession":"AB123456","callback_id":"job1","molecule_type":"nucleotide"}` decodes to a nucleotide job for `job1` |
| ExecutorProperties.ExampleRequestRuns | main.go:47-116 | that job, run without failures, sets `Filename` to `job1/AB123456.gbk` and posts the job with that file name to the callback service |
| Handler.DownloadByAccessionHandler | main.go:118-131 | the response is always JSON; a body that does not decode gives `400` with no body and starts no executor; otherwise it gives `202`, starts one executor on the decoded job, and returns the decoded job as a body that decodes back to it |
| Handler.Serve | main.go:118-131 | served from end to end, a bad request never reaches the executor, and an accepted one runs it on the decoded job |

## Left out

- The HTTP server, the router and the listening port (main.go:133-137) are not modelled. The handler is called directly with the decoded body.
- The HTTP client, its 10-second timeout and the network itself are not modelled. Each outcome of the request, the fetch and the post is an input held by the `World`.
- The goroutine started by the handler, and the data race on `Filename` between the executor and the response encoder, are not modelled. `Handler.Serve` fixes one interleaving: the response is encoded first, then the executor runs.
- The filesystem is not modelled. `os.MkdirAll`, `os.Create` and `io.Copy` are reduced to their outcome and their trace entry. File contents, permissions and the bytes downloaded are left out.
- JSON is modelled only at the level of which fields are present. Byte-level parsing, escaping, unknown fields, `null` and type errors are not modelled; a malformed body is represented as `None`. The error that `json.Marshal` discards is never produced.
- `url.Values.Encode` and the order of keys in the encoded query are not modelled. The fetch effect carries the query as a map.
- Logging is not modelled.
- Go's strings are byte strings; the model uses `seq<char>`. Only the ASCII characters `"` and `/` are inspected, so nothing here depends on the encoding.
- The model does not check whether the callback id or the accession can make the output path escape the working directory (for example with `..`). The filename lemmas require a clean relative callback id and an accession without `/`.
- The `Close` calls deferred on the file and the response bodies are assumed to succeed. Their errors are ignored in the source as well.
- The TODO at main.go:54, sending a failure callback, is not implemented in the source and is not modelled.
