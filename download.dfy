/** The download service's job model and its asynchronous executor: a job names
    an accession, a callback id and a molecule type; the executor builds the
    sequence-database query, stores the result under a per-job directory and
    posts the job back to the callback service. Every I/O step is an outcome
    chosen by the `World` the executor runs in, and every step the executor
    attempts is logged in the world's effect trace. */
module Download {
  import opened Wrappers
  import GoStrings
  import GoPath
  import GoUrl

  // ---------------------------------------------------------------- molecule type

  /** A `MoleculeType` is a string; only two values of it are meaningful. */
  type MoleculeType = string

  const NUCLEOTIDE: MoleculeType := "nucleotide"
  const PROTEIN: MoleculeType := "protein"

  predicate IsKnown(m: MoleculeType)
  {
    m == NUCLEOTIDE || m == PROTEIN
  }

  /** `MoleculeType.UnmarshalText`: strip leading and trailing `"`, keep a known
      value, turn anything else into `nucleotide`. */
  function UnmarshalText(b: string): (m: MoleculeType)
    ensures IsKnown(m)
    ensures IsKnown(GoStrings.Trim(b, '"')) ==> m == GoStrings.Trim(b, '"')
    ensures !IsKnown(GoStrings.Trim(b, '"')) ==> m == NUCLEOTIDE
  {
    var str := GoStrings.Trim(b, '"');
    if str == NUCLEOTIDE || str == PROTEIN then str else NUCLEOTIDE
  }

  /** A known value survives any number of surrounding quote characters. */
  lemma UnmarshalQuoted(k: nat, v: MoleculeType, j: nat)
    requires IsKnown(v)
    ensures UnmarshalText(GoStrings.Repeat('"', k) + v + GoStrings.Repeat('"', j)) == v
  {
    GoStrings.TrimPadded('"', k, v, j);
  }

  /** The quoted text `"protein"` is read as `protein`. */
  lemma QuotedProteinIsProtein()
    ensures UnmarshalText("\"protein\"") == PROTEIN
  {
    assert "\"protein\"" == GoStrings.Repeat('"', 1) + PROTEIN + GoStrings.Repeat('"', 1);
    UnmarshalQuoted(1, PROTEIN, 1);
  }

  /** A known value without quotes is read as itself. */
  lemma UnmarshalKnown(m: MoleculeType)
    requires IsKnown(m)
    ensures UnmarshalText(m) == m
  {
    UnmarshalQuoted(0, m, 0);
    assert GoStrings.Repeat('"', 0) + m + GoStrings.Repeat('"', 0) == m;
  }

  /** Reading a value that was already read changes nothing. */
  lemma UnmarshalIdempotent(b: string)
    ensures UnmarshalText(UnmarshalText(b)) == UnmarshalText(b)
  {
    UnmarshalKnown(UnmarshalText(b));
  }

  // ---------------------------------------------------------------- jobs and their JSON form

  /** The value of a `DownloadJob`. */
  datatype JobRecord = JobRecord(
    accession: string,
    callbackId: string,
    email: string,
    filename: string,
    moleculeType: MoleculeType)

  /** The zero value of `DownloadJob`. */
  const ZERO_JOB := JobRecord("", "", "", "", "")

  /** A job's JSON object at the level of its fields: each of the five keys is
      either absent or holds a JSON string. */
  datatype RawJob = RawJob(
    accession: Option<string>,
    callbackId: Option<string>,
    email: Option<string>,
    filename: Option<string>,
    moleculeType: Option<string>)

  /** An `omitempty` string field: left out when empty. */
  function OmitEmpty(s: string): (r: Option<string>)
    ensures r.None? <==> s == ""
    ensures r.Some? ==> r.value == s
  {
    if s == "" then None else Some(s)
  }

  /** `json.Marshal` of a job: every empty field is omitted. */
  function EncodeJob(j: JobRecord): RawJob
  {
    RawJob(OmitEmpty(j.accession), OmitEmpty(j.callbackId), OmitEmpty(j.email),
           OmitEmpty(j.filename), OmitEmpty(j.moleculeType))
  }

  function Overwrite(current: string, field: Option<string>): string
  {
    if field.Some? then field.value else current
  }

  /** The JSON decoder storing an object into an existing job: a present field
      overwrites, an absent one leaves the old value, and `molecule_type` goes
      through `UnmarshalText`. */
  function DecodeOnto(j: JobRecord, raw: RawJob): JobRecord
  {
    JobRecord(
      Overwrite(j.accession, raw.accession),
      Overwrite(j.callbackId, raw.callbackId),
      Overwrite(j.email, raw.email),
      Overwrite(j.filename, raw.filename),
      if raw.moleculeType.Some? then UnmarshalText(raw.moleculeType.value) else j.moleculeType)
  }

  /** Decoding a request body into a fresh `DownloadJob`. */
  function DecodeJob(raw: RawJob): JobRecord
  {
    DecodeOnto(ZERO_JOB, raw)
  }

  /** After decoding, the molecule type is known exactly when the body carried
      one, and is the empty string otherwise. */
  lemma DecodedMoleculeType(raw: RawJob)
    ensures raw.moleculeType.Some? ==> IsKnown(DecodeJob(raw).moleculeType)
    ensures raw.moleculeType.None? ==> DecodeJob(raw).moleculeType == ""
  {
  }

  /** Encoding and decoding a job gives it back, except that the molecule type is
      read by `UnmarshalText` when it is not empty. */
  lemma JobRoundTrip(j: JobRecord)
    ensures DecodeJob(EncodeJob(j)) ==
      j.(moleculeType := if j.moleculeType == "" then "" else UnmarshalText(j.moleculeType))
  {
  }

  /** A job whose molecule type is known or empty survives encoding and decoding. */
  lemma JobRoundTripKnown(j: JobRecord)
    requires j.moleculeType == "" || IsKnown(j.moleculeType)
    ensures DecodeJob(EncodeJob(j)) == j
  {
    JobRoundTrip(j);
    if j.moleculeType != "" {
      UnmarshalKnown(j.moleculeType);
    }
  }

  // ---------------------------------------------------------------- the outbound query

  const NCBI_URL := "https://eutils.ncbi.nlm.nih.gov/entrez/eutils/efetch.fcgi"
  const CALLBACK_URL := "http://127.0.0.1:5020/api/v1.0/downloaded"
  const TOOL := "antiSMASH downloader"
  const HTTP_GET := "GET"
  const JSON_CONTENT_TYPE := "application/json"

  /** The query parameters of the fetch and the output file extension for a
      molecule type, or `None` for a molecule type the executor does not handle:
      `tool`, `retmode` and `id` always, `db` and `rettype` by molecule type. */
  function FetchQuery(accession: string, m: MoleculeType): (r: Option<(GoUrl.Values, string)>)
    ensures r.Some? <==> IsKnown(m)
  {
    if m == NUCLEOTIDE then
      Some((map["tool" := [TOOL], "retmode" := ["text"], "id" := [accession],
                "db" := ["nucleotide"], "rettype" := ["gbwithparts"]], ".gbk"))
    else if m == PROTEIN then
      Some((map["tool" := [TOOL], "retmode" := ["text"], "id" := [accession],
                "db" := ["protein"], "rettype" := ["fasta"]], ".fa"))
    else None
  }

  /** The executor's query building: `q.Add` of `tool`, `retmode` and `id` on
      the empty query of the request URL, then `db` and `rettype` and the file
      extension chosen by molecule type; `None` for the default branch of the
      switch. It builds exactly the parameters of `FetchQuery`. */
  method BuildFetchQuery(accession: string, m: MoleculeType) returns (r: Option<(GoUrl.Values, string)>)
    ensures r == FetchQuery(accession, m)
  {
    var q: GoUrl.Values := map[];
    q := GoUrl.Add(q, "tool", TOOL);
    q := GoUrl.Add(q, "retmode", "text");
    q := GoUrl.Add(q, "id", accession);
    if m == NUCLEOTIDE {
      q := GoUrl.Add(q, "db", "nucleotide");
      q := GoUrl.Add(q, "rettype", "gbwithparts");
      r := Some((q, ".gbk"));
    } else if m == PROTEIN {
      q := GoUrl.Add(q, "db", "protein");
      q := GoUrl.Add(q, "rettype", "fasta");
      r := Some((q, ".fa"));
    } else {
      r := None;
    }
  }

  /** The output directory `path.Join(".", CallbackId)`. */
  function OutputDir(j: JobRecord): string
  {
    GoPath.Join(".", j.callbackId)
  }

  /** The output file `path.Join(outdir, Accession + ext)`. */
  function OutputFile(j: JobRecord, ext: string): string
  {
    GoPath.Join(OutputDir(j), j.accession + ext)
  }

  // ---------------------------------------------------------------- effects and outcomes

  /** What the executor does to the world, in the order it does it. The three
      `Close` effects are the deferred calls that run when the executor returns. */
  datatype Effect =
    | NewRequest(httpMethod: string, url: string)
    | MkdirAll(dir: string)
    | CreateFile(path: string)
    | Fetch(url: string, query: GoUrl.Values)
    | CopyBody(path: string)
    | PostCallback(url: string, contentType: string, payload: RawJob)
    | CloseCallbackBody
    | CloseFetchBody
    | CloseFile(path: string)

  predicate IsClose(e: Effect)
  {
    e.CloseCallbackBody? || e.CloseFetchBody? || e.CloseFile?
  }

  /** The position of a step in a complete run. */
  function StepIndex(e: Effect): nat
  {
    match e
    case NewRequest(_, _) => 0
    case MkdirAll(_) => 1
    case CreateFile(_) => 2
    case Fetch(_, _) => 3
    case CopyBody(_) => 4
    case PostCallback(_, _, _) => 5
    case _ => 6
  }

  datatype Outcome = Ok | Err

  /** How each fallible step of the executor turns out. `postResponse` says
      whether a failed post still hands back a response, as Go's HTTP client
      does when its redirect check fails; a successful post always does. */
  datatype Oracle = Oracle(
    newRequest: Outcome,
    mkdir: Outcome,
    create: Outcome,
    fetch: Outcome,
    copy: Outcome,
    post: Outcome,
    postResponse: bool)

  /** Whether the post to the callback service returned a response, whose
      body the executor then closes on return. */
  predicate CallbackResponse(o: Oracle)
  {
    o.post.Ok? || o.postResponse
  }

  /** The outcomes in step order. */
  function Outcomes(o: Oracle): seq<Outcome>
  {
    [o.newRequest, o.mkdir, o.create, o.fetch, o.copy, o.post]
  }

  // ---------------------------------------------------------------- the executor's specification

  /** The effects of the executor once the request is built and the output
      paths are known: create `dir`, create `file` and fetch into it with
      query `q`, reporting `payload`. The first failing step ends the run. The
      file, once created, is closed last, when the run ends. */
  function SaveAndNotifyTrace(dir: string, file: string, q: GoUrl.Values, payload: RawJob, o: Oracle): seq<Effect>
  {
    [MkdirAll(dir)] +
    if o.mkdir.Err? then [] else
    [CreateFile(file)] +
    if o.create.Err? then [] else
    FetchAndNotifyTrace(file, q, payload, o) + [CloseFile(file)]
  }

  /** Fetch with query `q`, then copy into `file` and report `payload`; the
      fetch response, once received, is closed when the run ends. */
  function FetchAndNotifyTrace(file: string, q: GoUrl.Values, payload: RawJob, o: Oracle): seq<Effect>
  {
    [Fetch(NCBI_URL, q)] +
    if o.fetch.Err? then [] else
    CopyAndNotifyTrace(file, payload, o) + [CloseFetchBody]
  }

  /** Copy the fetch response into `file`, then post `payload` to the callback
      service; the callback response, when the post returned one, whether it
      succeeded or not, is closed when the run ends. */
  function CopyAndNotifyTrace(file: string, payload: RawJob, o: Oracle): seq<Effect>
  {
    [CopyBody(file)] +
    if o.copy.Err? then [] else
    [PostCallback(CALLBACK_URL, JSON_CONTENT_TYPE, payload)] +
    if CallbackResponse(o) then [CloseCallbackBody] else []
  }

  /** The effects of one run of the executor for job `j`. The request is built
      first; a failure there or an unknown molecule type stops the run;
      otherwise the job's output file is written and the callback reports the
      job with `Filename` set to that file. */
  function ExecutorTrace(j: JobRecord, o: Oracle): seq<Effect>
  {
    [NewRequest(HTTP_GET, NCBI_URL)] +
    if o.newRequest.Err? then [] else
    match FetchQuery(j.accession, j.moleculeType)
    case None => []
    case Some((q, ext)) =>
      var file := OutputFile(j, ext);
      SaveAndNotifyTrace(OutputDir(j), file, q, EncodeJob(j.(filename := file)), o)
  }

  /** The job's `Filename` after a run: the output file once the request was
      built for a known molecule type, the old value otherwise. */
  function ExecutorFilename(j: JobRecord, o: Oracle): string
  {
    match FetchQuery(j.accession, j.moleculeType)
    case None => j.filename
    case Some((_, ext)) => if o.newRequest.Ok? then OutputFile(j, ext) else j.filename
  }

  // ---------------------------------------------------------------- a reference form of the run

  /** The number of leading successful steps. */
  function LeadingOks(outs: seq<Outcome>): (k: nat)
    ensures k <= |outs|
  {
    if outs == [] || outs[0].Err? then 0 else 1 + LeadingOks(outs[1..])
  }

  /** The leading successful steps are all successful, and the one after them,
      if any, failed. */
  lemma {:induction false} LeadingOksSpec(outs: seq<Outcome>)
    ensures forall i :: 0 <= i < LeadingOks(outs) ==> outs[i].Ok?
    ensures LeadingOks(outs) < |outs| ==> outs[LeadingOks(outs)].Err?
  {
    if outs != [] && outs[0].Ok? {
      LeadingOksSpec(outs[1..]);
      forall i | 0 < i < LeadingOks(outs) ensures outs[i].Ok? {
        assert outs[i] == outs[1..][i - 1];
      }
    }
  }

  /** The number of steps attempted: all successful leading steps and the first
      failing one, if any. */
  function Attempted(o: Oracle): (n: nat)
    ensures 1 <= n <= 6
  {
    var k := LeadingOks(Outcomes(o));
    if k < 6 then k + 1 else 6
  }

  /** The six steps of a complete run that writes `file` under `dir`, fetches
      with query `q` and reports `payload` to the callback service. */
  function Plan(dir: string, file: string, q: GoUrl.Values, payload: RawJob): (p: seq<Effect>)
    ensures |p| == 6
    ensures StepIndex(p[0]) == 0 && StepIndex(p[1]) == 1 && StepIndex(p[2]) == 2
    ensures StepIndex(p[3]) == 3 && StepIndex(p[4]) == 4 && StepIndex(p[5]) == 5
  {
    [NewRequest(HTTP_GET, NCBI_URL), MkdirAll(dir), CreateFile(file), Fetch(NCBI_URL, q),
     CopyBody(file), PostCallback(CALLBACK_URL, JSON_CONTENT_TYPE, payload)]
  }

  /** The deferred calls that are pending once the first `k` steps succeeded,
      the most recently registered first: the callback response after a
      successful post, or after a failed one that returned a response
      (`postResponse`), the fetch response after it was received, the file
      after it was created. */
  function Unwound(k: nat, file: string, postResponse: bool): (r: seq<Effect>)
    ensures forall i :: 0 <= i < |r| ==> IsClose(r[i])
    ensures CloseCallbackBody in r <==> k > 5 || (k == 5 && postResponse)
    ensures CloseFetchBody in r <==> k > 3
    ensures CloseFile(file) in r <==> k > 2
  {
    (if k > 5 || (k == 5 && postResponse) then [CloseCallbackBody] else []) +
    (if k > 3 then [CloseFetchBody] else []) +
    (if k > 2 then [CloseFile(file)] else [])
  }

  /** A run of `plan` against `o`: the steps up to and including the first
      failing one, then the pending deferred calls. */
  function RunTrace(plan: seq<Effect>, o: Oracle, file: string): seq<Effect>
    requires |plan| == 6
  {
    plan[..Attempted(o)] + Unwound(LeadingOks(Outcomes(o)), file, o.postResponse)
  }

  /** The number of leading successful steps, read off the oracle. */
  lemma LeadingOksOf(o: Oracle)
    ensures LeadingOks(Outcomes(o)) ==
      if o.newRequest.Err? then 0 else if o.mkdir.Err? then 1 else if o.create.Err? then 2
      else if o.fetch.Err? then 3 else if o.copy.Err? then 4 else if o.post.Err? then 5 else 6
  {
    var outs := Outcomes(o);
    assert outs[0] == o.newRequest && outs[1] == o.mkdir && outs[2] == o.create;
    assert outs[3] == o.fetch && outs[4] == o.copy && outs[5] == o.post;
    LeadingOksSpec(outs);
  }

  // ---------------------------------------------------------------- the world and the job

  /** The environment of the executor: the outcomes it will see and the trace of
      what it has done. */
  class World {
    const oracle: Oracle
    var trace: seq<Effect>

    constructor (oracle: Oracle)
      ensures this.oracle == oracle && trace == []
    {
      this.oracle := oracle;
      trace := [];
    }

    /** `http.NewRequest`: logged, and reports whether it succeeded. */
    method NewRequest(httpMethod: string, url: string) returns (ok: bool)
      modifies this`trace
      ensures trace == old(trace) + [Effect.NewRequest(httpMethod, url)]
      ensures ok <==> oracle.newRequest.Ok?
    {
      trace := trace + [Effect.NewRequest(httpMethod, url)];
      ok := oracle.newRequest.Ok?;
    }

    /** `os.MkdirAll`: logged, and reports whether it succeeded. */
    method MkdirAll(dir: string) returns (ok: bool)
      modifies this`trace
      ensures trace == old(trace) + [Effect.MkdirAll(dir)]
      ensures ok <==> oracle.mkdir.Ok?
    {
      trace := trace + [Effect.MkdirAll(dir)];
      ok := oracle.mkdir.Ok?;
    }

    /** `os.Create`: logged, and reports whether it succeeded. */
    method Create(path: string) returns (ok: bool)
      modifies this`trace
      ensures trace == old(trace) + [Effect.CreateFile(path)]
      ensures ok <==> oracle.create.Ok?
    {
      trace := trace + [Effect.CreateFile(path)];
      ok := oracle.create.Ok?;
    }

    /** The HTTP client sending the fetch request: logged, and reports whether it succeeded. */
    method Do(url: string, query: GoUrl.Values) returns (ok: bool)
      modifies this`trace
      ensures trace == old(trace) + [Effect.Fetch(url, query)]
      ensures ok <==> oracle.fetch.Ok?
    {
      trace := trace + [Effect.Fetch(url, query)];
      ok := oracle.fetch.Ok?;
    }

    /** `io.Copy` of the fetch response into the file: logged, and reports whether it succeeded. */
    method Copy(path: string) returns (ok: bool)
      modifies this`trace
      ensures trace == old(trace) + [Effect.CopyBody(path)]
      ensures ok <==> oracle.copy.Ok?
    {
      trace := trace + [Effect.CopyBody(path)];
      ok := oracle.copy.Ok?;
    }

    /** The HTTP client posting to the callback service: logged, and reports
        whether it succeeded and whether it returned a response. */
    method Post(url: string, contentType: string, payload: RawJob) returns (ok: bool, response: bool)
      modifies this`trace
      ensures trace == old(trace) + [Effect.PostCallback(url, contentType, payload)]
      ensures ok <==> oracle.post.Ok?
      ensures response <==> oracle.post.Ok? || oracle.postResponse
    {
      trace := trace + [Effect.PostCallback(url, contentType, payload)];
      ok := oracle.post.Ok?;
      response := ok || oracle.postResponse;
    }

    /** A deferred `Close` running when the executor returns. */
    method Close(e: Effect)
      requires IsClose(e)
      modifies this`trace
      ensures trace == old(trace) + [e]
    {
      trace := trace + [e];
    }
  }

  /** A `DownloadJob` whose fields the decoder and the executor update in place. */
  class Job {
    var accession: string
    var callbackId: string
    var email: string
    var filename: string
    var moleculeType: MoleculeType

    function Record(): JobRecord
      reads this
    {
      JobRecord(accession, callbackId, email, filename, moleculeType)
    }

    /** `var job DownloadJob`. */
    constructor ()
      ensures Record() == ZERO_JOB
    {
      accession, callbackId, email, filename, moleculeType := "", "", "", "", "";
    }

    /** `UnmarshalText` called on `&job.MoleculeType`: always succeeds and leaves
      a known molecule type. */
    method UnmarshalMoleculeType(b: string) returns (err: Option<string>)
      modifies this`moleculeType
      ensures err == None
      ensures IsKnown(moleculeType)
      ensures moleculeType == UnmarshalText(b)
    {
      moleculeType := UnmarshalText(b);
      err := None;
    }

    /** The JSON decoder storing a well-formed body into this job. */
    method DecodeJson(raw: RawJob)
      modifies this
      ensures Record() == DecodeOnto(old(Record()), raw)
    {
      if raw.accession.Some? { accession := raw.accession.value; }
      if raw.callbackId.Some? { callbackId := raw.callbackId.value; }
      if raw.email.Some? { email := raw.email.value; }
      if raw.filename.Some? { filename := raw.filename.value; }
      if raw.moleculeType.Some? {
        var err := UnmarshalMoleculeType(raw.moleculeType.value);
      }
    }

    /** `DownloadAndCall`: the executor for this job. It changes only `Filename`
        and the world's trace, and does exactly what `ExecutorTrace` says. */
    method DownloadAndCall(world: World)
      modifies this`filename, world`trace
      ensures world.trace == old(world.trace) + ExecutorTrace(old(Record()), world.oracle)
      ensures Record() == old(Record()).(filename := ExecutorFilename(old(Record()), world.oracle))
    {
      ghost var j := Record();
      ghost var o := world.oracle;
      var ok := world.NewRequest(HTTP_GET, NCBI_URL);
      if !ok {
        return;
      }

      var query := BuildFetchQuery(accession, moleculeType);
      if query.None? {
        return;
      }
      var (q, fileEnding) := query.value;

      var outdir := GoPath.Join(".", callbackId);
      var outfile := GoPath.Join(outdir, accession + fileEnding);
      filename := outfile;
      ghost var afterRequest := world.trace;
      ghost var payload := EncodeJob(j.(filename := outfile));
      assert EncodeJob(Record()) == payload;
      SaveAndNotify(world, q, outdir, outfile);
      assert world.trace == afterRequest + SaveAndNotifyTrace(outdir, outfile, q, payload, o);
      assert ExecutorTrace(j, o) == [NewRequest(HTTP_GET, NCBI_URL)] + SaveAndNotifyTrace(outdir, outfile, q, payload, o);
    }

    /** The I/O part of `DownloadAndCall`, once the request is built and
        `Filename` is set: create the directory and the file, then fetch into
        it; `defer out.Close()` runs when that returns. */
    method SaveAndNotify(world: World, q: GoUrl.Values, outdir: string, outfile: string)
      modifies world`trace
      ensures world.trace == old(world.trace) +
        SaveAndNotifyTrace(outdir, outfile, q, EncodeJob(old(Record())), world.oracle)
    {
      var ok := world.MkdirAll(outdir);
      if !ok {
        return;
      }
      ok := world.Create(outfile);
      if !ok {
        return;
      }
      FetchAndNotify(world, q, outfile);
      world.Close(CloseFile(outfile));
    }

    /** Send the fetch request, then copy and notify; `defer
        response.Body.Close()` runs when that returns. */
    method FetchAndNotify(world: World, q: GoUrl.Values, outfile: string)
      modifies world`trace
      ensures world.trace == old(world.trace) +
        FetchAndNotifyTrace(outfile, q, EncodeJob(old(Record())), world.oracle)
    {
      var ok := world.Do(NCBI_URL, q);
      if !ok {
        return;
      }
      CopyAndNotify(world, outfile);
      world.Close(CloseFetchBody);
    }

    /** Copy the fetch response into the file, marshal the job and post it to
        the callback service; the callback response, when the post returned
        one, is closed on return. */
    method CopyAndNotify(world: World, outfile: string)
      modifies world`trace
      ensures world.trace == old(world.trace) +
        CopyAndNotifyTrace(outfile, EncodeJob(old(Record())), world.oracle)
    {
      var ok := world.Copy(outfile);
      if !ok {
        return;
      }
      var body := EncodeJob(Record());
      var response;
      ok, response := world.Post(CALLBACK_URL, JSON_CONTENT_TYPE, body);
      if response {
        world.Close(CloseCallbackBody);
      }
    }
  }
}
