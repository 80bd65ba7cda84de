/** Properties of the executor's effect trace: it follows the six-step plan up
    to the first failure and then closes what it opened, the callback is sent
    exactly when every earlier step succeeded and reports the job with its
    output file, and the output file sits under the callback id. */
module ExecutorProperties {
  import opened Wrappers
  import opened Download
  import GoStrings
  import GoPath
  import GoUrl

  /** The output file of a job whose molecule type the executor handles. */
  function JobFile(j: JobRecord): string
    requires IsKnown(j.moleculeType)
  {
    OutputFile(j, FetchQuery(j.accession, j.moleculeType).value.1)
  }

  /** The six steps of a complete run of the executor for `j`. */
  function JobPlan(j: JobRecord): (p: seq<Effect>)
    requires IsKnown(j.moleculeType)
    ensures |p| == 6
  {
    var file := JobFile(j);
    Plan(OutputDir(j), file, FetchQuery(j.accession, j.moleculeType).value.0, EncodeJob(j.(filename := file)))
  }

  /** The nested form of a run, in which each deferred close follows
      everything after its registration, is the plan cut after the first
      failing step followed by the pending closes, latest first. */
  lemma NestedRunFollowsPlan(dir: string, file: string, q: GoUrl.Values, payload: RawJob, o: Oracle)
    requires o.newRequest.Ok?
    ensures [NewRequest(HTTP_GET, NCBI_URL)] + SaveAndNotifyTrace(dir, file, q, payload, o) ==
      RunTrace(Plan(dir, file, q, payload), o, file)
  {
    if o.mkdir.Err? || o.create.Err? || o.fetch.Err? {
      NestedRunFollowsPlanUntilFetch(dir, file, q, payload, o);
    } else {
      NestedRunFollowsPlanAfterFetch(dir, file, q, payload, o);
    }
  }

  /** `NestedRunFollowsPlan` when the run stops at or before the fetch. */
  lemma NestedRunFollowsPlanUntilFetch(dir: string, file: string, q: GoUrl.Values, payload: RawJob, o: Oracle)
    requires o.newRequest.Ok? && (o.mkdir.Err? || o.create.Err? || o.fetch.Err?)
    ensures [NewRequest(HTTP_GET, NCBI_URL)] + SaveAndNotifyTrace(dir, file, q, payload, o) ==
      RunTrace(Plan(dir, file, q, payload), o, file)
  {
    LeadingOksOf(o);
    var p := Plan(dir, file, q, payload);
    if o.mkdir.Err? {
      assert p[..2] == [p[0]] + [p[1]];
    } else if o.create.Err? {
      assert p[..3] == [p[0]] + [p[1]] + [p[2]];
    } else {
      assert p[..4] == [p[0]] + [p[1]] + [p[2]] + [p[3]];
    }
  }

  /** `NestedRunFollowsPlan` when the fetch succeeds. */
  lemma NestedRunFollowsPlanAfterFetch(dir: string, file: string, q: GoUrl.Values, payload: RawJob, o: Oracle)
    requires o.newRequest.Ok? && o.mkdir.Ok? && o.create.Ok? && o.fetch.Ok?
    ensures [NewRequest(HTTP_GET, NCBI_URL)] + SaveAndNotifyTrace(dir, file, q, payload, o) ==
      RunTrace(Plan(dir, file, q, payload), o, file)
  {
    LeadingOksOf(o);
    var p := Plan(dir, file, q, payload);
    if o.copy.Err? {
      assert p[..5] == [p[0]] + [p[1]] + [p[2]] + [p[3]] + [p[4]];
    } else {
      assert p[..6] == p;
    }
  }

  /** The executor's trace for a job it handles is its plan cut after the
      first failing step, followed by the pending closes. */
  lemma TraceFollowsPlan(j: JobRecord, o: Oracle)
    requires IsKnown(j.moleculeType)
    ensures ExecutorTrace(j, o) == RunTrace(JobPlan(j), o, JobFile(j))
  {
    var file := JobFile(j);
    var q := FetchQuery(j.accession, j.moleculeType).value.0;
    var payload := EncodeJob(j.(filename := file));
    if o.newRequest.Ok? {
      NestedRunFollowsPlan(OutputDir(j), file, q, payload, o);
    } else {
      LeadingOksOf(o);
      var p := JobPlan(j);
      assert p[..1] == [p[0]];
    }
  }

  /** In a run of a plan, step `i` is attempted exactly when all steps before
      it succeeded. */
  lemma RunStepAttemptedIff(p: seq<Effect>, o: Oracle, file: string, i: nat)
    requires |p| == 6 && forall k :: 0 <= k < 6 ==> StepIndex(p[k]) == k
    requires i < 6
    ensures p[i] in RunTrace(p, o, file) <==> forall k :: 0 <= k < i ==> Outcomes(o)[k].Ok?
  {
    LeadingOksSpec(Outcomes(o));
    var n := Attempted(o);
    var u := Unwound(LeadingOks(Outcomes(o)), file, o.postResponse);
    assert StepIndex(p[i]) == i;
    if p[i] in RunTrace(p, o, file) {
      if p[i] in u {
        assert IsClose(p[i]);
      } else {
        var idx :| 0 <= idx < n && p[..n][idx] == p[i];
        assert StepIndex(p[idx]) == idx;
      }
      assert i < n;
    }
    if forall k :: 0 <= k < i ==> Outcomes(o)[k].Ok? {
      assert i <= LeadingOks(Outcomes(o));
      assert p[..n][i] == p[i];
    }
  }

  /** In a run of a plan, steps appear at their own positions, and every close
      comes after every step. */
  lemma RunStepsThenCloses(p: seq<Effect>, o: Oracle, file: string)
    requires |p| == 6 && forall k :: 0 <= k < 6 ==> StepIndex(p[k]) == k
    ensures forall i :: 0 <= i < |RunTrace(p, o, file)| ==>
      (i < Attempted(o) ==> RunTrace(p, o, file)[i] == p[i] && !IsClose(RunTrace(p, o, file)[i])) &&
      (i >= Attempted(o) ==> IsClose(RunTrace(p, o, file)[i]))
  {
    var n := Attempted(o);
    var u := Unwound(LeadingOks(Outcomes(o)), file, o.postResponse);
    var t := RunTrace(p, o, file);
    forall i | 0 <= i < |t|
      ensures (i < n ==> t[i] == p[i] && !IsClose(t[i])) && (i >= n ==> IsClose(t[i]))
    {
      if i < n {
        assert StepIndex(p[i]) == i;
      } else {
        assert t[i] == u[i - n];
      }
    }
  }

  /** After the request is built, each close appears exactly when the step
      that opened its resource was attempted and succeeded. */
  lemma NestedClosesMatchOpens(dir: string, file: string, q: GoUrl.Values, payload: RawJob, o: Oracle)
    ensures var t := SaveAndNotifyTrace(dir, file, q, payload, o);
      (CloseFile(file) in t <==> CreateFile(file) in t && o.create.Ok?) &&
      (CloseFetchBody in t <==> Fetch(NCBI_URL, q) in t && o.fetch.Ok?) &&
      (CloseCallbackBody in t <==> PostCallback(CALLBACK_URL, JSON_CONTENT_TYPE, payload) in t && CallbackResponse(o))
  {
    if o.mkdir.Err? {
    } else if o.create.Err? {
    } else if o.fetch.Err? {
    } else if o.copy.Err? {
    } else if o.post.Err? {
    } else {
    }
  }

  /** Step `i` of the plan is attempted exactly when all steps before it
      succeeded. */
  lemma StepAttemptedIffEarlierSucceeded(j: JobRecord, o: Oracle, i: nat)
    requires IsKnown(j.moleculeType)
    requires i < 6
    ensures JobPlan(j)[i] in ExecutorTrace(j, o) <==> forall k :: 0 <= k < i ==> Outcomes(o)[k].Ok?
  {
    TraceFollowsPlan(j, o);
    RunStepAttemptedIff(JobPlan(j), o, JobFile(j), i);
  }

  /** After the request is built, the callback service is notified exactly
      when creating the directory, creating the file, fetching and copying all
      succeeded, and only with `payload`. */
  lemma NestedCallbackIff(dir: string, file: string, q: GoUrl.Values, payload: RawJob, o: Oracle)
    ensures var t := SaveAndNotifyTrace(dir, file, q, payload, o);
      ((exists e :: e in t && e.PostCallback?) <==> o.mkdir.Ok? && o.create.Ok? && o.fetch.Ok? && o.copy.Ok?) &&
      (forall e :: e in t && e.PostCallback? ==> e == PostCallback(CALLBACK_URL, JSON_CONTENT_TYPE, payload))
  {
    var t := SaveAndNotifyTrace(dir, file, q, payload, o);
    if o.mkdir.Ok? && o.create.Ok? && o.fetch.Ok? && o.copy.Ok? {
      assert PostCallback(CALLBACK_URL, JSON_CONTENT_TYPE, payload) in t;
    }
  }

  /** The callback service is notified exactly when building the request,
      creating the directory, creating the file, fetching and copying all
      succeeded, and then with the job's payload, the last step of its plan. */
  lemma CallbackIffEarlierStepsSucceed(j: JobRecord, o: Oracle)
    requires IsKnown(j.moleculeType)
    ensures (exists e :: e in ExecutorTrace(j, o) && e.PostCallback?) <==>
      o.newRequest.Ok? && o.mkdir.Ok? && o.create.Ok? && o.fetch.Ok? && o.copy.Ok?
    ensures forall e :: e in ExecutorTrace(j, o) && e.PostCallback? ==> e == JobPlan(j)[5]
  {
    var file := JobFile(j);
    var q := FetchQuery(j.accession, j.moleculeType).value.0;
    var payload := EncodeJob(j.(filename := file));
    if o.newRequest.Ok? {
      NestedCallbackIff(OutputDir(j), file, q, payload, o);
    }
  }

  /** Steps appear in plan order at their own positions, and every close comes
      after every step. */
  lemma StepsThenCloses(j: JobRecord, o: Oracle)
    ensures forall i :: 0 <= i < |ExecutorTrace(j, o)| && !IsClose(ExecutorTrace(j, o)[i]) ==>
      StepIndex(ExecutorTrace(j, o)[i]) == i
    ensures forall a, b :: 0 <= a < b < |ExecutorTrace(j, o)| && IsClose(ExecutorTrace(j, o)[a]) ==>
      IsClose(ExecutorTrace(j, o)[b])
  {
    if IsKnown(j.moleculeType) {
      TraceFollowsPlan(j, o);
      RunStepsThenCloses(JobPlan(j), o, JobFile(j));
    }
  }

  /** Each deferred close runs exactly when the step that opened its resource
      was attempted and succeeded: the file after a successful create, the
      fetch response after a successful fetch, the callback response after a
      post that returned one. */
  lemma ClosesMatchOpens(j: JobRecord, o: Oracle)
    requires IsKnown(j.moleculeType)
    ensures CloseFile(JobFile(j)) in ExecutorTrace(j, o) <==> JobPlan(j)[2] in ExecutorTrace(j, o) && o.create.Ok?
    ensures CloseFetchBody in ExecutorTrace(j, o) <==> JobPlan(j)[3] in ExecutorTrace(j, o) && o.fetch.Ok?
    ensures CloseCallbackBody in ExecutorTrace(j, o) <==> JobPlan(j)[5] in ExecutorTrace(j, o) && CallbackResponse(o)
  {
    var file := JobFile(j);
    var q := FetchQuery(j.accession, j.moleculeType).value.0;
    var payload := EncodeJob(j.(filename := file));
    if o.newRequest.Ok? {
      NestedClosesMatchOpens(OutputDir(j), file, q, payload, o);
    }
  }

  /** A run in which every step succeeds: all six steps, then the callback
      response, the fetch response and the file are closed, in that order. */
  lemma SuccessfulRun(j: JobRecord, o: Oracle)
    requires IsKnown(j.moleculeType)
    requires o.newRequest.Ok? && o.mkdir.Ok? && o.create.Ok? && o.fetch.Ok? && o.copy.Ok? && o.post.Ok?
    ensures ExecutorTrace(j, o) == JobPlan(j) + [CloseCallbackBody, CloseFetchBody, CloseFile(JobFile(j))]
    ensures ExecutorFilename(j, o) == JobFile(j)
  {
    TraceFollowsPlan(j, o);
    LeadingOksOf(o);
    var p := JobPlan(j);
    assert p[..6] == p;
  }

  /** A post that fails but still returns a response, as when the callback
      service's redirects exceed the client's limit, closes that response
      before the fetch response and the file. */
  lemma FailedPostClosesResponse(j: JobRecord, o: Oracle)
    requires IsKnown(j.moleculeType)
    requires o.newRequest.Ok? && o.mkdir.Ok? && o.create.Ok? && o.fetch.Ok? && o.copy.Ok?
    requires o.post.Err? && o.postResponse
    ensures ExecutorTrace(j, o) == JobPlan(j) + [CloseCallbackBody, CloseFetchBody, CloseFile(JobFile(j))]
  {
    TraceFollowsPlan(j, o);
    LeadingOksOf(o);
    var p := JobPlan(j);
    assert p[..6] == p;
  }

  /** A failed fetch leaves the created file behind and closes it; nothing is
      copied and the callback service is not notified. */
  lemma FailedFetchClosesFile(j: JobRecord, o: Oracle)
    requires IsKnown(j.moleculeType)
    requires o.newRequest.Ok? && o.mkdir.Ok? && o.create.Ok? && o.fetch.Err?
    ensures ExecutorTrace(j, o) ==
      [NewRequest(HTTP_GET, NCBI_URL), MkdirAll(OutputDir(j)), CreateFile(JobFile(j)),
       Fetch(NCBI_URL, FetchQuery(j.accession, j.moleculeType).value.0), CloseFile(JobFile(j))]
    ensures ExecutorFilename(j, o) == JobFile(j)
  {
  }

  /** A failure to build the request ends the run at once and leaves the job
      unchanged. */
  lemma FailedRequestStopsEarly(j: JobRecord, o: Oracle)
    requires o.newRequest.Err?
    ensures ExecutorTrace(j, o) == [NewRequest(HTTP_GET, NCBI_URL)]
    ensures ExecutorFilename(j, o) == j.filename
  {
  }

  /** A molecule type the executor does not handle ends the run right after
      the request is built and leaves the job unchanged. */
  lemma UnknownMoleculeTypeStopsEarly(j: JobRecord, o: Oracle)
    requires !IsKnown(j.moleculeType)
    ensures ExecutorTrace(j, o) == [NewRequest(HTTP_GET, NCBI_URL)]
    ensures ExecutorFilename(j, o) == j.filename
  {
  }

  /** A request body without `molecule_type` leaves the molecule type empty,
      so the executor accepts the job but never fetches or notifies. */
  lemma OmittedMoleculeTypeStopsEarly(raw: RawJob, o: Oracle)
    requires raw.moleculeType.None?
    ensures ExecutorTrace(DecodeJob(raw), o) == [NewRequest(HTTP_GET, NCBI_URL)]
  {
    DecodedMoleculeType(raw);
    UnknownMoleculeTypeStopsEarly(DecodeJob(raw), o);
  }

  /** Any `molecule_type` other than the two known ones decodes as if it were
      `nucleotide`. */
  lemma UnrecognisedMoleculeTypeIsNucleotide(raw: RawJob, s: string)
    requires raw.moleculeType == Some(s) && !IsKnown(GoStrings.Trim(s, '"'))
    ensures DecodeJob(raw) == DecodeJob(raw.(moleculeType := Some(NUCLEOTIDE)))
  {
    UnmarshalKnown(NUCLEOTIDE);
  }

  /** The job posted to the callback service decodes to the job with
      `Filename` set to the output file. */
  lemma CallbackReportsFilename(j: JobRecord, o: Oracle)
    requires IsKnown(j.moleculeType)
    ensures forall e :: e in ExecutorTrace(j, o) && e.PostCallback? ==>
      DecodeJob(e.payload) == j.(filename := JobFile(j))
  {
    CallbackIffEarlierStepsSucceed(j, o);
    JobRoundTripKnown(j.(filename := JobFile(j)));
  }

  /** The extension of the output file: GenBank for nucleotides, FASTA for
      proteins. */
  lemma OutputExtension(j: JobRecord)
    requires IsKnown(j.moleculeType)
    ensures FetchQuery(j.accession, j.moleculeType).value.1 ==
      if j.moleculeType == NUCLEOTIDE then ".gbk" else ".fa"
  {
  }

  /** With a clean relative callback id and an accession without `/`, the
      executor sets `Filename` to `CallbackId/Accession` plus the extension. */
  lemma FilenameUnderCallbackId(j: JobRecord, o: Oracle)
    requires IsKnown(j.moleculeType) && o.newRequest.Ok?
    requires GoPath.IsCleanRelative(j.callbackId) && '/' !in j.accession
    ensures ExecutorFilename(j, o) ==
      j.callbackId + "/" + j.accession + (if j.moleculeType == NUCLEOTIDE then ".gbk" else ".fa")
  {
    var ext := if j.moleculeType == NUCLEOTIDE then ".gbk" else ".fa";
    NameIsNormal(j.accession, ext);
    GoPath.JoinUnderCleanDirectory(j.callbackId, j.accession + ext);
    assert j.callbackId + "/" + j.accession + ext == j.callbackId + "/" + (j.accession + ext);
  }

  /** With an empty callback id the file is written to the working directory:
      `Filename` is the accession plus the extension. */
  lemma FilenameOfEmptyCallbackId(j: JobRecord, o: Oracle)
    requires IsKnown(j.moleculeType) && o.newRequest.Ok?
    requires j.callbackId == "" && '/' !in j.accession
    ensures ExecutorFilename(j, o) == j.accession + (if j.moleculeType == NUCLEOTIDE then ".gbk" else ".fa")
  {
    var ext := if j.moleculeType == NUCLEOTIDE then ".gbk" else ".fa";
    NameIsNormal(j.accession, ext);
    GoPath.JoinUnderEmptyDirectory(j.accession + ext);
  }

  /** An accession without `/` followed by an extension is one ordinary path
      segment. */
  lemma NameIsNormal(accession: string, ext: string)
    requires '/' !in accession
    requires ext == ".gbk" || ext == ".fa"
    ensures GoPath.NormalSegment(accession + ext)
  {
    assert (accession + ext)[|accession + ext| - 1] == ext[|ext| - 1];
  }

  /** The request `{"accession":"AB123456","callback_id":"job1",
      "molecule_type":"nucleotide"}` decodes to a nucleotide job for `job1`. */
  lemma ExampleRequestDecodes()
    ensures DecodeJob(RawJob(Some("AB123456"), Some("job1"), None, None, Some("nucleotide"))) ==
      JobRecord("AB123456", "job1", "", "", NUCLEOTIDE)
  {
    UnmarshalKnown(NUCLEOTIDE);
  }

  /** That job, run without failures, writes `job1/AB123456.gbk` and reports
      that file to the callback service. */
  lemma ExampleRequestRuns(o: Oracle)
    requires o.newRequest.Ok? && o.mkdir.Ok? && o.create.Ok? && o.fetch.Ok? && o.copy.Ok? && o.post.Ok?
    ensures ExecutorFilename(JobRecord("AB123456", "job1", "", "", NUCLEOTIDE), o) == "job1" + "/" + "AB123456" + ".gbk"
    ensures ExecutorTrace(JobRecord("AB123456", "job1", "", "", NUCLEOTIDE), o)[5] ==
      PostCallback(CALLBACK_URL, JSON_CONTENT_TYPE,
        RawJob(Some("AB123456"), Some("job1"), None, Some("job1" + "/" + "AB123456" + ".gbk"), Some("nucleotide")))
  {
    var j := JobRecord("AB123456", "job1", "", "", NUCLEOTIDE);
    GoPath.SplitSingle("job1");
    FilenameUnderCallbackId(j, o);
    SuccessfulRun(j, o);
  }
}
