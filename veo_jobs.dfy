/** The proxy's table of pending video-generation jobs: `POST /api/veo/generate` starts a job
    with the video service and records it under its operation id, and
    `GET /api/veo/status/:operationId` polls it, forgetting it once it is done. The video
    service is an oracle: a function from the request it is sent to its success or its thrown
    error, and the clock readings are parameters. */
module VeoJobs {
  import opened Wrappers
  import opened Js
  import opened Json

  const DefaultModel: string := "veo-2.0-generate-001"
  const NoKeyForGenerate: string := "Google API key not configured. Add GOOGLE_API_KEY to .env"
  const NoKeyForStatus: string := "Google API key not configured"
  const PromptRequired: string := "Prompt is required"
  const OperationNotFound: string := "Operation not found"
  const GenerationFailed: string := "Video generation failed"
  const Processing: string := "processing"

  /** The `prompt`, `referenceImage` and `model` fields of the request body. */
  datatype GenerateRequest = GenerateRequest(prompt: Json, referenceImage: Json, model: Json)

  /** What is handed to the video service; `image` is the `{imageUri}` object when present. */
  datatype GenerateConfig = GenerateConfig(model: Json, prompt: Json, image: Option<Json>)

  /** A stored entry: the service's operation handle, its status and its creation time. */
  datatype VeoJob = VeoJob(operation: Json, status: string, createdAt: nat)

  datatype GenerateReply =
    | Started(operationId: Json)
    | GenerateFailure(status: nat, error: Json)

  datatype StatusReply =
    | Completed(videoUrl: Json, videos: Json)
    | StillProcessing
    | StatusFailure(status: nat, error: Json)

  /** A thrown error object carrying `message`. */
  function ErrorObject(message: string): Json {
    Obj(map["message" := Str(message)])
  }

  /** The destructuring default for `model` applies only when the field is `undefined`, and
      the image is attached only when `referenceImage` is truthy. */
  function ConfigFor(req: GenerateRequest): (c: GenerateConfig)
    ensures c.prompt == req.prompt
    ensures c.image.Some? <==> Truthy(req.referenceImage)
    ensures c.image.Some? ==> Field(c.image.value, "imageUri") == req.referenceImage
    ensures req.model.Undefined? ==> c.model == Str(DefaultModel)
    ensures !req.model.Undefined? ==> c.model == req.model
  {
    GenerateConfig(
      if req.model.Undefined? then Str(DefaultModel) else req.model,
      req.prompt,
      if Truthy(req.referenceImage) then Some(Obj(map["imageUri" := req.referenceImage])) else None)
  }

  /** `operation.name || \`op_${Date.now()}\``: never falsy, and the service's own name
      whenever that is truthy. */
  function OperationId(operation: Json, clock: nat): (id: Json)
    ensures Truthy(id)
    ensures Truthy(Field(operation, "name")) ==> id == Field(operation, "name")
    ensures !Truthy(Field(operation, "name")) ==> id == Str("op_" + NatToDecimal(clock))
  {
    Or(Field(operation, "name"), Str("op_" + NatToDecimal(clock)))
  }

  /** The message reported for an error thrown while starting a job: the first truthy of
      `error.response.data.error.message`, `error.error.message` and `error.message`, else
      the fixed default. */
  function ReportedMessage(error: Json): (m: Json)
    ensures Truthy(m)
  {
    var deep := Field(Field(Field(Field(error, "response"), "data"), "error"), "message");
    var inner := Field(Field(error, "error"), "message");
    var own := Field(error, "message");
    if Truthy(deep) then deep
    else if Truthy(inner) then inner
    else if Truthy(own) then own
    else Str(GenerationFailed)
  }

  /** The catch block's successive reassignment: the default, overwritten by each present
      message from the shallowest to the deepest, leaves the deepest present one. */
  method UnwrapErrorMessage(error: Json) returns (message: Json)
    ensures message == ReportedMessage(error)
    ensures Truthy(Field(error, "message")) && !Truthy(Field(Field(error, "error"), "message"))
      && !Truthy(Field(Field(Field(Field(error, "response"), "data"), "error"), "message"))
      ==> message == Field(error, "message")
    ensures !Truthy(Field(error, "message")) && !Truthy(Field(Field(error, "error"), "message"))
      && !Truthy(Field(Field(Field(Field(error, "response"), "data"), "error"), "message"))
      ==> message == Str(GenerationFailed)
  {
    message := Str(GenerationFailed);
    if Truthy(Field(error, "message")) {
      message := Field(error, "message");
    }
    if Truthy(Field(Field(error, "error"), "message")) {
      message := Field(Field(error, "error"), "message");
    }
    if Truthy(Field(Field(Field(Field(error, "response"), "data"), "error"), "message")) {
      message := Field(Field(Field(Field(error, "response"), "data"), "error"), "message");
    }
  }

  /** A nested message always wins over a shallower one. */
  lemma DeeperMessageWins(message: string)
    requires message != []
    ensures ReportedMessage(Obj(map["message" := Str("outer"),
                                    "error" := ErrorObject(message)])) == Str(message)
    ensures ReportedMessage(Obj(map["error" := ErrorObject("middle"),
                                    "response" := Obj(map["data" := Obj(map["error" := ErrorObject(message)])])]))
      == Str(message)
  {
  }

  /** `operation.response?.generatedVideos || []` */
  function Videos(operation: Json): (videos: Json)
    ensures Truthy(videos)
    ensures Truthy(Field(Field(operation, "response"), "generatedVideos")) ==>
      videos == Field(Field(operation, "response"), "generatedVideos")
    ensures !Truthy(Field(Field(operation, "response"), "generatedVideos")) ==> videos == Arr([])
  {
    Or(Field(Field(operation, "response"), "generatedVideos"), Arr([]))
  }

  /** `videos[0]?.video?.uri || null`: the first video's uri, or `null` when there is none
      or it is falsy. */
  function VideoUrl(videos: Json): (url: Json)
    ensures Truthy(url) || url == Null
    ensures videos == Arr([]) ==> url == Null
    ensures Truthy(Field(Field(First(videos), "video"), "uri")) ==> url == Field(Field(First(videos), "video"), "uri")
    ensures !Truthy(Field(Field(First(videos), "video"), "uri")) ==> url == Null
    ensures videos.Arr? && videos.elems != [] && Truthy(Field(Field(videos.elems[0], "video"), "uri"))
      ==> url == Field(Field(videos.elems[0], "video"), "uri")
  {
    Or(Field(Field(First(videos), "video"), "uri"), Null)
  }

  class VeoOperations {
    /** `veoOperations`, a `Map` from operation id to the stored job. */
    var jobs: map<Json, VeoJob>

    /** Every stored job is still being processed: finished ones are removed. */
    ghost predicate Valid()
      reads this
    {
      forall id :: id in jobs ==> jobs[id].status == Processing
    }

    constructor ()
      ensures jobs == map[] && Valid()
    {
      jobs := map[];
    }

    /** Start a job. Without a configured service or without a truthy prompt the request is
        refused with 400 and the service is never called (`sent` is `None`). Otherwise the
        service is called with `ConfigFor(req)`; on success the job is stored under its
        operation id with status "processing", and any error is reported as 500. */
    method Generate(configured: bool, req: GenerateRequest, generate: GenerateConfig -> Result<Json, Json>,
                    idClock: nat, createdClock: nat)
      returns (reply: GenerateReply, sent: Option<GenerateConfig>)
      requires Valid()
      modifies this
      ensures Valid()
      ensures !configured ==> reply == GenerateFailure(400, Str(NoKeyForGenerate)) && sent == None
      ensures configured && !Truthy(req.prompt)
        ==> reply == GenerateFailure(400, Str(PromptRequired)) && sent == None
      ensures configured && Truthy(req.prompt) ==> sent == Some(ConfigFor(req))
      ensures reply.Started? <==> sent.Some? && generate(sent.value).Ok? && !IsNullish(generate(sent.value).value)
      ensures reply.Started? ==>
        var op := generate(sent.value).value;
        && reply.operationId == OperationId(op, idClock)
        && jobs == old(jobs)[reply.operationId := VeoJob(op, Processing, createdClock)]
      ensures !reply.Started? ==> jobs == old(jobs)
      ensures sent.Some? && generate(sent.value).Err?
        ==> reply == GenerateFailure(500, ReportedMessage(generate(sent.value).error))
      ensures sent.Some? && generate(sent.value).Ok? && IsNullish(generate(sent.value).value)
        ==> reply == GenerateFailure(500, Str(ReadError(generate(sent.value).value, "name")))
    {
      if !configured {
        return GenerateFailure(400, Str(NoKeyForGenerate)), None;
      }
      if !Truthy(req.prompt) {
        return GenerateFailure(400, Str(PromptRequired)), None;
      }
      var config := ConfigFor(req);
      sent := Some(config);
      var outcome := generate(config);
      var thrown: Json;
      match outcome {
        case Err(e) =>
          thrown := e;
        case Ok(op) =>
          if IsNullish(op) {
            thrown := ErrorObject(ReadError(op, "name"));
          } else {
            var id := OperationId(op, idClock);
            jobs := jobs[id := VeoJob(op, Processing, createdClock)];
            return Started(id), sent;
          }
      }
      var message := UnwrapErrorMessage(thrown);
      reply := GenerateFailure(500, message);
    }

    /** Poll a job. Without a configured service the answer is 400, and an id that is not in
        the table is 404. A stored job is handed to the service: a finished operation answers
        with its first video's uri and removes the job, an unfinished one leaves the table as
        it is, and an error thrown by the service is 500 with that error's message. */
    method Status(configured: bool, operationId: string, poll: Json -> Result<Json, Json>)
      returns (reply: StatusReply)
      requires Valid()
      modifies this
      ensures Valid()
      ensures !configured ==> reply == StatusFailure(400, Str(NoKeyForStatus)) && jobs == old(jobs)
      ensures configured && Str(operationId) !in old(jobs)
        ==> reply == StatusFailure(404, Str(OperationNotFound)) && jobs == old(jobs)
      ensures configured && Str(operationId) in old(jobs) ==>
        match poll(old(jobs)[Str(operationId)].operation)
        case Err(e) => reply == StatusFailure(500, Field(e, "message")) && jobs == old(jobs)
        case Ok(op) =>
          if IsNullish(op) then
            reply == StatusFailure(500, Str(ReadError(op, "done"))) && jobs == old(jobs)
          else if Truthy(Field(op, "done")) then
            && reply == Completed(VideoUrl(Videos(op)), Videos(op))
            && jobs == old(jobs) - {Str(operationId)}
          else
            reply == StillProcessing && jobs == old(jobs)
      ensures reply.Completed? ==> Str(operationId) !in jobs
    {
      if !configured {
        return StatusFailure(400, Str(NoKeyForStatus));
      }
      var key := Str(operationId);
      if key !in jobs {
        return StatusFailure(404, Str(OperationNotFound));
      }
      var stored := jobs[key];
      match poll(stored.operation) {
        case Err(e) =>
          reply := StatusFailure(500, Field(e, "message"));
        case Ok(op) =>
          if IsNullish(op) {
            reply := StatusFailure(500, Str(ReadError(op, "done")));
          } else if Truthy(Field(op, "done")) {
            var videos := Videos(op);
            var url := VideoUrl(videos);
            jobs := jobs - {key};
            reply := Completed(url, videos);
          } else {
            reply := StillProcessing;
          }
      }
    }
  }

  /** Once a poll has answered "completed", polling the same id again is answered 404. */
  method PollAfterCompletion(t: VeoOperations, operationId: string, poll: Json -> Result<Json, Json>)
    returns (first: StatusReply, second: StatusReply)
    requires t.Valid()
    modifies t
    ensures t.Valid()
    ensures first.Completed? ==> second == StatusFailure(404, Str(OperationNotFound))
  {
    first := t.Status(true, operationId, poll);
    second := t.Status(true, operationId, poll);
  }
}
