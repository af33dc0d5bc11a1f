/** How `/job/:jobId` turns the platform's job report into the fields it
    stores and returns: the status name and the hex-rewritten outputs. */
module JobStatus {
  import opened Sdk
  import opened Results
  import opened Js

  /** Every string the status mapping can produce; `""` is the fall-through. */
  const StatusNames: set<string> := {"Success", "JobSetupError", "RuntimeError", "Pending", "Cancelled", ""}

  /** The `instanceof` chain over the platform's status classes. */
  function StatusName(s: JobCompletionStatus): (r: string)
    ensures r in StatusNames
    ensures r == "" <==> s.Unrecognised?
  {
    match s
    case Success => "Success"
    case JobSetupError => "JobSetupError"
    case RuntimeError => "RuntimeError"
    case Pending => "Pending"
    case Cancelled => "Cancelled"
    case Unrecognised(_) => ""
  }

  /** Reference inverse of the mapping: the class a status name stands for. */
  function StatusOfName(name: string): (r: Option<JobCompletionStatus>)
    ensures r.Some? ==> !r.value.Unrecognised?
    ensures r.None? <==> name !in StatusNames - {""}
  {
    if name == "Success" then Some(Success)
    else if name == "JobSetupError" then Some(JobSetupError)
    else if name == "RuntimeError" then Some(RuntimeError)
    else if name == "Pending" then Some(Pending)
    else if name == "Cancelled" then Some(Cancelled)
    else None
  }

  /** Each of the five known classes gets a name of its own, and the name
      leads back to the class; every other status reads as `""`. */
  lemma StatusNameRoundTrip(s: JobCompletionStatus)
    ensures !s.Unrecognised? ==> StatusOfName(StatusName(s)) == Some(s)
    ensures s.Unrecognised? ==> StatusOfName(StatusName(s)) == None
  {
  }

  /** Distinct known classes never share a name. */
  lemma StatusNameInjective(s: JobCompletionStatus, t: JobCompletionStatus)
    requires !s.Unrecognised? && StatusName(s) == StatusName(t)
    ensures s == t
  {
    StatusNameRoundTrip(s);
    StatusNameRoundTrip(t);
  }

  /** The output descriptors the rewrite accepts: plain objects whose
      `address` can be asked for `_hex`. */
  predicate HasReadableAddress(e: Value) {
    e.Obj? && !Nullish(Field(e.props, "address"))
  }

  /** The hex form of an address value: what reading `_hex` gives. */
  function HexForm(address: Value): (r: Value)
    requires !Nullish(address)
    ensures address.Addr? ==> r == Str(address.address.hex)
  {
    Get(address, HexKey).value
  }

  /** `part.address = part.address._hex` for one output descriptor. */
  function HexAddress(e: Value): Result<Value> {
    var address :- Get(e, "address");
    var hex :- Get(address, HexKey);
    Set(e, "address", hex)
  }

  /** The `outputs.forEach` rewrite. It succeeds exactly when every descriptor
      has a readable address, keeps the length and order, and changes only the
      `address` property of each descriptor, to its hex form. */
  function HexOutputs(outputs: seq<Value>): (r: Result<seq<Value>>)
    ensures r.Ok? <==> forall i :: 0 <= i < |outputs| ==> HasReadableAddress(outputs[i])
    ensures r.Thrown? ==> r.failure == TypeError
    ensures r.Ok? ==> |r.value| == |outputs|
    ensures r.Ok? ==> forall i :: 0 <= i < |outputs| ==>
              r.value[i] == Obj(outputs[i].props["address" := HexForm(outputs[i].props["address"])])
  {
    var r := RewriteEach(outputs, HexAddress);
    forall i | 0 <= i < |outputs|
      ensures HexAddress(outputs[i]).Ok? <==> HasReadableAddress(outputs[i])
    {
    }
    r
  }
}
