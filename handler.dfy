/** The HTTP handler of the download endpoint: it decodes the request body into
    a fresh job, answers `400 Bad Request` when the body does not decode, and
    otherwise hands the job to the executor and answers `202 Accepted` with the
    job as its body. */
module Handler {
  import opened Wrappers
  import opened Download

  const STATUS_BAD_REQUEST := 400
  const STATUS_ACCEPTED := 202
  const JSON_UTF8_CONTENT_TYPE := "application/json; charset=utf-8"

  /** What the handler writes back: a status, the `Content-Type` header and,
      for an accepted job, the job's JSON object. */
  datatype Response = Response(status: int, contentType: string, body: Option<RawJob>)

  /** `DownloadByAccessionHandler`. `payload` is the request body as the JSON
      decoder sees it: `None` when it is not a JSON object of the job's shape.
      `spawned` holds the job handed to the executor, if any. */
  method DownloadByAccessionHandler(payload: Option<RawJob>) returns (resp: Response, spawned: seq<Job>)
    ensures resp.contentType == JSON_UTF8_CONTENT_TYPE
    ensures payload.None? ==> resp.status == STATUS_BAD_REQUEST && resp.body.None? && spawned == []
    ensures payload.Some? ==>
      resp.status == STATUS_ACCEPTED && |spawned| == 1 &&
      spawned[0].Record() == DecodeJob(payload.value) &&
      resp.body == Some(EncodeJob(DecodeJob(payload.value)))
    ensures payload.Some? ==> DecodeJob(resp.body.value) == DecodeJob(payload.value)
    ensures forall i | 0 <= i < |spawned| :: fresh(spawned[i])
  {
    var job := new Job();
    if payload.Some? {
      job.DecodeJson(payload.value);
      var decoded := job.Record();
      DecodedMoleculeType(payload.value);
      JobRoundTripKnown(decoded);
      resp := Response(STATUS_ACCEPTED, JSON_UTF8_CONTENT_TYPE, Some(EncodeJob(decoded)));
      spawned := [job];
    } else {
      resp := Response(STATUS_BAD_REQUEST, JSON_UTF8_CONTENT_TYPE, None);
      spawned := [];
    }
  }

  /** One request served from end to end, with the executor running after the
      response is written: a body that does not decode never reaches the
      executor, and an accepted one runs it on the decoded job. */
  method Serve(payload: Option<RawJob>, world: World) returns (resp: Response)
    modifies world`trace
    ensures resp.status == (if payload.Some? then STATUS_ACCEPTED else STATUS_BAD_REQUEST)
    ensures payload.None? ==> world.trace == old(world.trace)
    ensures payload.Some? ==> world.trace == old(world.trace) + ExecutorTrace(DecodeJob(payload.value), world.oracle)
  {
    var spawned;
    resp, spawned := DownloadByAccessionHandler(payload);
    if spawned != [] {
      var job := spawned[0];
      ghost var before := world.trace;
      job.DownloadAndCall(world);
      assert world.trace == before + ExecutorTrace(DecodeJob(payload.value), world.oracle);
    }
  }
}
