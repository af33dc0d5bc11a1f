/** The platform SDK calls the handlers make, as the answers the platform gives
    to one request. A `None` answer is a rejected promise. */
module Platform {
  import opened Sdk
  import opened Results
  import opened Js

  /** The job specification passed to `submitJob`. */
  datatype JobRequest = JobRequest(
    name: Value,
    dockerImage: Value,
    inputDatasets: seq<Value>,
    outputDatasets: seq<Value>,
    cmd: Value)

  /** What `getJobInfo` reports about a job. `outputs` is whatever value the
      platform sends; the handler expects an array of output descriptors. */
  datatype JobInfo = JobInfo(status: JobCompletionStatus, info: string, outputs: Value)

  datatype Platform = Platform(
    /** `config.getTokenIdentity()` */
    identity: Option<Identity>,
    /** `Dataset.upload(file, {title}, identity, config)`: the new dataset's address */
    uploadDataset: (seq<bv8>, string, Identity) -> Option<Address>,
    /** `new Parcel.Address(v)`: `None` when the constructor throws */
    toAddress: Value -> Option<Address>,
    /** `Dispatcher.connect(...)` followed by `submitJob({job})` */
    submitJob: (JobRequest, Identity) -> Option<RawJobId>,
    /** `Dispatcher.connect(...)` followed by `getJobInfo(rawId)` */
    getJobInfo: (RawJobId, Identity) -> Option<JobInfo>,
    /** `utils.encodeHex` */
    encodeHex: RawJobId -> string,
    /** `utils.decodeHex`: `None` when it throws */
    decodeHex: string -> Option<RawJobId>)
}
