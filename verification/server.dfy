/** The route handlers of the server as transitions of the local mirror. Each
    handler receives the store, the platform's answers for this request, and
    the request, and yields the new store together with the response. */
module Server {
  import opened Sdk
  import opened Results
  import opened Js
  import opened Platform
  import opened Store
  import opened Validation
  import opened JobStatus

  /** A response: `200` with a JSON body, `400 {message}`, or a request that
      ended with an unhandled exception. */
  datatype Reply<+T> = Sent(body: T) | BadRequest(message: string) | ServerError(failure: Failure)

  datatype Outcome<+T> = Outcome(store: Store, reply: Reply<T>)

  datatype UploadReply = UploadReply(message: string, address: string)
  datatype SubmitReply = SubmitReply(message: string, jobId: string)
  datatype StatusReply = StatusReply(jobStatus: string, info: string, outputs: seq<Value>)

  const UploadedMessage: string := "file is uploaded"
  const SubmittedMessage: string := "job is submitted"
  const JobIdMissingMessage: string := "jobId is missing"

  // ---------------------------------------------------------------- /upload

  /** `request.files.file.data`, then the identity and the upload: the address
      the platform assigned. */
  function UploadToPlatform(p: Platform, files: map<string, seq<bv8>>, title: string): (r: Result<Address>)
    ensures "file" !in files ==> r == Thrown(TypeError)
    ensures r.Ok? <==>
              "file" in files && p.identity.Some? && p.uploadDataset(files["file"], title, p.identity.value).Some?
    ensures r.Ok? ==> r.value == p.uploadDataset(files["file"], title, p.identity.value).value
  {
    if "file" !in files then Thrown(TypeError) else
    var identity :- Await(p.identity);
    Await(p.uploadDataset(files["file"], title, identity))
  }

  /** `POST /upload` */
  function Upload(s: Store, p: Platform, req: UploadRequest): (r: Outcome<UploadReply>)
    ensures ValidateUpload(req).Invalid? ==> r == Outcome(s, BadRequest(ValidateUpload(req).message))
    ensures !r.reply.Sent? ==> r.store == s
    ensures r.reply.Sent? <==>
              ValidateUpload(req).Valid? && UploadToPlatform(p, req.files.value, ValidateUpload(req).value).Ok?
    ensures r.reply.Sent? ==>
              var address := UploadToPlatform(p, req.files.value, ValidateUpload(req).value).value;
              && r.reply.body == UploadReply(UploadedMessage, address.hex)
              && r.store.jobs == s.jobs
              && r.store.datasets == s.datasets + [DatasetRecord(req.body.value["title"], r.reply.body.address)]
  {
    match ValidateUpload(req)
    case Invalid(message) => Outcome(s, BadRequest(message))
    case Valid(title) =>
      match UploadToPlatform(p, req.files.value, title)
      case Thrown(e) => Outcome(s, ServerError(e))
      case Ok(address) =>
        Outcome(s.(datasets := s.datasets + [DatasetRecord(title, address.hex)]),
                Sent(UploadReply(UploadedMessage, address.hex)))
  }

  /** `GET /datasets` */
  function ListDatasets(s: Store): seq<DatasetRecord> {
    s.datasets
  }

  /** A successful upload is listed last by `/datasets`, with the title sent
      and the address returned, after everything that was listed before. */
  lemma UploadThenList(s: Store, p: Platform, req: UploadRequest)
    requires Upload(s, p, req).reply.Sent?
    ensures var r := Upload(s, p, req);
            && |ListDatasets(r.store)| == |ListDatasets(s)| + 1
            && ListDatasets(r.store)[..|ListDatasets(s)|] == ListDatasets(s)
            && ListDatasets(r.store)[|ListDatasets(s)|] == DatasetRecord(req.body.value["title"], r.reply.body.address)
  {
  }

  // --------------------------------------------------------------- /compute

  /** `datasets[i].address = new Parcel.Address(datasets[i].address)` */
  function ConvertAddress(p: Platform, e: Value): Result<Value> {
    var address :- Get(e, "address");
    var converted :- Await(p.toAddress(address));
    Set(e, "address", Addr(converted))
  }

  /** `datasets[i].owner = identity` */
  function StampOwner(identity: Identity, e: Value): Result<Value> {
    Set(e, "owner", Ident(identity))
  }

  /** `inputDatasets` is an array whose every descriptor has an address the
      `Address` constructor accepts. */
  predicate InputsConvertible(p: Platform, inputs: Value) {
    && inputs.Arr?
    && forall i :: 0 <= i < |inputs.items| ==>
         !Nullish(inputs.items[i]) && p.toAddress(Get(inputs.items[i], "address").value).Some?
  }

  /** `outputDatasets` is an array of descriptors that can take an owner. */
  predicate OutputsOwnable(outputs: Value) {
    outputs.Arr? && forall i :: 0 <= i < |outputs.items| ==> !Nullish(outputs.items[i])
  }

  /** The job request built from validated fields: every input descriptor's
      address converted to an address object, every output descriptor owned
      by the caller, both lists in their original length and order. */
  function BuildJobRequest(p: Platform, f: JobFields, identity: Identity): (r: Result<JobRequest>)
    ensures r.Ok? <==> InputsConvertible(p, f.inputDatasets) && OutputsOwnable(f.outputDatasets)
    ensures r.Ok? ==> f.inputDatasets.Arr? && f.outputDatasets.Arr?
    ensures r.Ok? ==>
              && r.value.name == f.name && r.value.dockerImage == f.dockerImage && r.value.cmd == f.cmd
              && |r.value.inputDatasets| == |f.inputDatasets.items|
              && |r.value.outputDatasets| == |f.outputDatasets.items|
    ensures r.Ok? ==> forall i :: 0 <= i < |f.inputDatasets.items| ==>
              var e := f.inputDatasets.items[i];
              && !Nullish(e)
              && p.toAddress(Get(e, "address").value).Some?
              && r.value.inputDatasets[i] ==
                   (if e.Obj? then Obj(e.props["address" := Addr(p.toAddress(Field(e.props, "address")).value)]) else e)
    ensures r.Ok? ==> forall i :: 0 <= i < |f.outputDatasets.items| ==>
              var e := f.outputDatasets.items[i];
              && !Nullish(e)
              && r.value.outputDatasets[i] == (if e.Obj? then Obj(e.props["owner" := Ident(identity)]) else e)
    ensures !f.inputDatasets.Arr? ==> r == Thrown(TypeError)
    ensures !f.outputDatasets.Arr? ==> r.Thrown?
  {
    var inputs :- RewriteArray(f.inputDatasets, e => ConvertAddress(p, e));
    var outputs :- RewriteArray(f.outputDatasets, e => StampOwner(identity, e));
    Ok(JobRequest(f.name, f.dockerImage, inputs, outputs, f.cmd))
  }

  /** Everything `/compute` does after validation and before the save: the
      identity, the rewrites, the submission, and the hex job id. */
  function SubmitToPlatform(p: Platform, f: JobFields): (r: Result<string>)
    ensures r.Ok? <==>
              && p.identity.Some?
              && InputsConvertible(p, f.inputDatasets)
              && OutputsOwnable(f.outputDatasets)
              && p.submitJob(BuildJobRequest(p, f, p.identity.value).value, p.identity.value).Some?
    ensures r.Ok? ==>
              r.value == p.encodeHex(p.submitJob(BuildJobRequest(p, f, p.identity.value).value, p.identity.value).value)
  {
    var identity :- Await(p.identity);
    var request :- BuildJobRequest(p, f, identity);
    var raw :- Await(p.submitJob(request, identity));
    Ok(p.encodeHex(raw))
  }

  /** `POST /compute` */
  function Compute(s: Store, p: Platform, body: map<string, Value>): (r: Outcome<SubmitReply>)
    ensures ValidateCompute(body).Invalid? ==> r == Outcome(s, BadRequest(ValidateCompute(body).message))
    ensures !r.reply.Sent? ==> r.store == s
    ensures r.reply.Sent? <==>
              ValidateCompute(body).Valid? && SubmitToPlatform(p, ValidateCompute(body).value).Ok?
    ensures r.reply.Sent? ==>
              && r.reply.body == SubmitReply(SubmittedMessage, SubmitToPlatform(p, ValidateCompute(body).value).value)
              && r.store.datasets == s.datasets
              && r.store.jobs == s.jobs + [NewJob(r.reply.body.jobId)]
  {
    match ValidateCompute(body)
    case Invalid(message) => Outcome(s, BadRequest(message))
    case Valid(fields) =>
      match SubmitToPlatform(p, fields)
      case Thrown(e) => Outcome(s, ServerError(e))
      case Ok(jobId) =>
        Outcome(s.(jobs := s.jobs + [NewJob(jobId)]), Sent(SubmitReply(SubmittedMessage, jobId)))
  }

  /** The job id `/compute` returns is the hex encoding of the raw id the
      dispatcher assigned to the request built from the body. */
  lemma SubmittedJobId(s: Store, p: Platform, body: map<string, Value>)
    requires Compute(s, p, body).reply.Sent?
    ensures p.identity.Some?
    ensures var request := BuildJobRequest(p, ValidateCompute(body).value, p.identity.value);
            && request.Ok?
            && p.submitJob(request.value, p.identity.value).Some?
            && Compute(s, p, body).reply.body.jobId == p.encodeHex(p.submitJob(request.value, p.identity.value).value)
  {
  }

  /** `GET /jobs` */
  function ListJobs(s: Store): seq<ComputeJobRecord> {
    s.jobs
  }

  /** A successful submission is listed last by `/jobs`, as a record with the
      returned id, status and info unset and no outputs, after everything
      listed before. */
  lemma SubmitThenList(s: Store, p: Platform, body: map<string, Value>)
    requires Compute(s, p, body).reply.Sent?
    ensures var r := Compute(s, p, body);
            && |ListJobs(r.store)| == |ListJobs(s)| + 1
            && ListJobs(r.store)[..|ListJobs(s)|] == ListJobs(s)
            && ListJobs(r.store)[|ListJobs(s)|] == ComputeJobRecord(r.reply.body.jobId, None, None, [])
            && ListDatasets(r.store) == ListDatasets(s)
  {
  }

  // ------------------------------------------------------------ /job/:jobId

  /** Everything `/job/:jobId` does before its write: decode, query, map the
      status, rewrite the outputs. */
  function QueryJob(p: Platform, jobId: string): (r: Result<StatusReply>)
    ensures r.Ok? <==>
              && p.decodeHex(jobId).Some?
              && p.identity.Some?
              && p.getJobInfo(p.decodeHex(jobId).value, p.identity.value).Some?
              && var outputs := p.getJobInfo(p.decodeHex(jobId).value, p.identity.value).value.outputs;
                 && outputs.Arr?
                 && forall i :: 0 <= i < |outputs.items| ==> HasReadableAddress(outputs.items[i])
    ensures r.Ok? ==>
              && p.decodeHex(jobId).Some?
              && p.identity.Some?
              && p.getJobInfo(p.decodeHex(jobId).value, p.identity.value).Some?
              && var job := p.getJobInfo(p.decodeHex(jobId).value, p.identity.value).value;
                 && r.value.jobStatus == StatusName(job.status)
                 && r.value.info == job.info
                 && HexOutputs(job.outputs.items) == Ok(r.value.outputs)
  {
    var raw :- Await(p.decodeHex(jobId));
    var identity :- Await(p.identity);
    var job :- Await(p.getJobInfo(raw, identity));
    var outputs :- if job.outputs.Arr? then HexOutputs(job.outputs.items) else Thrown(TypeError);
    Ok(StatusReply(StatusName(job.status), job.info, outputs))
  }

  function AsUpdate(reply: StatusReply): JobUpdate {
    JobUpdate(reply.jobStatus, reply.info, reply.outputs)
  }

  /** `GET /job/:jobId` */
  function PollJob(s: Store, p: Platform, jobId: string): (r: Outcome<StatusReply>)
    ensures jobId == "" ==> r == Outcome(s, BadRequest(JobIdMissingMessage))
    ensures !r.reply.Sent? ==> r.store == s
    ensures r.reply.Sent? <==> jobId != "" && QueryJob(p, jobId).Ok?
    ensures r.reply.Sent? ==>
              && r.reply.body == QueryJob(p, jobId).value
              && r.reply.body.jobStatus in StatusNames
              && r.store.datasets == s.datasets
              && |r.store.jobs| == |s.jobs|
              && (forall i :: IsFirstMatch(s.jobs, jobId, i) ==>
                    && r.store.jobs[i] == ComputeJobRecord(jobId, Some(r.reply.body.jobStatus), Some(r.reply.body.info), r.reply.body.outputs)
                    && forall j :: 0 <= j < |s.jobs| && j != i ==> r.store.jobs[j] == s.jobs[j])
              && ((forall i :: 0 <= i < |s.jobs| ==> s.jobs[i].jobId != jobId) ==> r.store == s)
  {
    if jobId == "" then Outcome(s, BadRequest(JobIdMissingMessage))
    else
      match QueryJob(p, jobId)
      case Thrown(e) => Outcome(s, ServerError(e))
      case Ok(reply) => Outcome(s.(jobs := UpdateFirst(s.jobs, jobId, AsUpdate(reply))), Sent(reply))
  }

  /** Polling twice with the platform's answers unchanged gives the same
      response twice and leaves the store as the first poll left it. */
  lemma PollIdempotent(s: Store, p: Platform, jobId: string)
    ensures var first := PollJob(s, p, jobId);
            PollJob(first.store, p, jobId) == first
  {
    if jobId != "" && QueryJob(p, jobId).Ok? {
      UpdateFirstIdempotent(s.jobs, jobId, AsUpdate(QueryJob(p, jobId).value));
    }
  }

  /** A poll never changes the stored job ids or their order. */
  lemma PollKeepsJobIds(s: Store, p: Platform, jobId: string)
    ensures JobIds(PollJob(s, p, jobId).store.jobs) == JobIds(s.jobs)
  {
    if jobId != "" && QueryJob(p, jobId).Ok? {
      UpdateKeepsJobIds(s.jobs, jobId, AsUpdate(QueryJob(p, jobId).value));
    }
  }

  /** When the dispatcher's ids are fresh, polling the id `/compute` returned
      updates exactly the record that submission created. */
  lemma SubmitThenPoll(s: Store, p: Platform, body: map<string, Value>)
    requires Compute(s, p, body).reply.Sent?
    requires forall i :: 0 <= i < |s.jobs| ==> s.jobs[i].jobId != Compute(s, p, body).reply.body.jobId
    ensures var submitted := Compute(s, p, body);
            var jobId := submitted.reply.body.jobId;
            var polled := PollJob(submitted.store, p, jobId);
            && polled.store.jobs[..|s.jobs|] == s.jobs
            && (polled.reply.Sent? ==>
                  polled.store.jobs[|s.jobs|] ==
                    ComputeJobRecord(jobId, Some(polled.reply.body.jobStatus), Some(polled.reply.body.info), polled.reply.body.outputs))
  {
    var submitted := Compute(s, p, body);
    var jobId := submitted.reply.body.jobId;
    var jobs := submitted.store.jobs;
    assert IsFirstMatch(jobs, jobId, |s.jobs|);
  }

  /** A poll of job `01` that the platform reports as pending, with empty info
      and no outputs, answers `Pending` and writes that into the job's record. */
  lemma PollPendingExample(p: Platform, s: Store)
    requires p.decodeHex("01") == Some([1])
    requires p.identity.Some?
    requires p.getJobInfo([1], p.identity.value) == Some(JobInfo(Pending, "", Arr([])))
    requires s.jobs == [NewJob("01")]
    ensures PollJob(s, p, "01") ==
              Outcome(Store(s.datasets, [ComputeJobRecord("01", Some("Pending"), Some(""), [])]),
                      Sent(StatusReply("Pending", "", [])))
  {
    assert IsFirstMatch(s.jobs, "01", 0);
  }
}
