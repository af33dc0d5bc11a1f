/** The request checks `/upload` and `/compute` make before touching the
    platform or the store. */
module Validation {
  import opened Results
  import opened Js

  /** A check either passes with the fields it read, or fails with the message
      of a `400` response. */
  datatype Validated<+T> = Valid(value: T) | Invalid(message: string)

  // ---------------------------------------------------------------- /upload

  /** A multipart upload: `files` is `request.files` (absent when no file part
      was sent), keyed by field name; `body` holds the text fields. */
  datatype UploadRequest = UploadRequest(
    files: Option<map<string, seq<bv8>>>,
    body: Option<map<string, string>>)

  const NoFileMessage: string := "No file uploaded"
  const TitleRequiredMessage: string := "title is required"

  /** `!request.body || !request.body.title` */
  predicate TitleMissing(body: Option<map<string, string>>) {
    body.None? || "title" !in body.value || body.value["title"] == ""
  }

  /** The two checks of `/upload`, file first; passes with the title. */
  function ValidateUpload(req: UploadRequest): (r: Validated<string>)
    ensures req.files.None? ==> r == Invalid(NoFileMessage)
    ensures r == Invalid(TitleRequiredMessage) <==> req.files.Some? && TitleMissing(req.body)
    ensures r.Valid? <==> req.files.Some? && !TitleMissing(req.body)
    ensures r.Valid? ==> r.value == req.body.value["title"] && r.value != ""
  {
    if req.files.None? then Invalid(NoFileMessage)
    else if TitleMissing(req.body) then Invalid(TitleRequiredMessage)
    else Valid(req.body.value["title"])
  }

  // --------------------------------------------------------------- /compute

  /** The five fields of a job submission, read from the JSON body. */
  datatype JobFields = JobFields(
    name: Value,
    dockerImage: Value,
    inputDatasets: Value,
    outputDatasets: Value,
    cmd: Value)

  /** The required body fields, in the order `/compute` checks them. */
  const RequiredJobFields: seq<string> := ["name", "dockerImage", "inputDatasets", "outputDatasets", "cmd"]

  function MissingMessage(field: string): string {
    field + " is missing"
  }

  /** The chain of checks of `/compute`: the first falsy field ends the
      request with its message. */
  function ValidateCompute(body: map<string, Value>): (r: Validated<JobFields>)
    ensures r.Valid? <==> forall j :: 0 <= j < |RequiredJobFields| ==> Truthy(Field(body, RequiredJobFields[j]))
    ensures r.Invalid? ==>
              exists i :: 0 <= i < |RequiredJobFields| && Falsy(Field(body, RequiredJobFields[i]))
                          && r.message == MissingMessage(RequiredJobFields[i])
  {
    assert RequiredJobFields[0] == "name" && RequiredJobFields[1] == "dockerImage";
    assert RequiredJobFields[2] == "inputDatasets" && RequiredJobFields[3] == "outputDatasets";
    assert RequiredJobFields[4] == "cmd" && |RequiredJobFields| == 5;
    var name := Field(body, "name");
    if Falsy(name) then Invalid(MissingMessage("name")) else
    var dockerImage := Field(body, "dockerImage");
    if Falsy(dockerImage) then Invalid(MissingMessage("dockerImage")) else
    var inputDatasets := Field(body, "inputDatasets");
    if Falsy(inputDatasets) then Invalid(MissingMessage("inputDatasets")) else
    var outputDatasets := Field(body, "outputDatasets");
    if Falsy(outputDatasets) then Invalid(MissingMessage("outputDatasets")) else
    var cmd := Field(body, "cmd");
    if Falsy(cmd) then Invalid(MissingMessage("cmd")) else
    Valid(JobFields(name, dockerImage, inputDatasets, outputDatasets, cmd))
  }

  /** `keys[i]` is missing from `body` and every key before it is present. */
  ghost predicate IsFirstMissing(body: map<string, Value>, keys: seq<string>, i: int) {
    && 0 <= i < |keys|
    && Falsy(Field(body, keys[i]))
    && forall j :: 0 <= j < i ==> Truthy(Field(body, keys[j]))
  }

  /** Reference definition: the position of the first missing key at or after
      `from`, by a left-to-right scan. */
  function FirstMissingFrom(body: map<string, Value>, keys: seq<string>, from: nat): (r: Option<nat>)
    requires from <= |keys|
    requires forall j :: 0 <= j < from ==> Truthy(Field(body, keys[j]))
    ensures r.Some? ==> IsFirstMissing(body, keys, r.value)
    ensures r.None? <==> forall j :: 0 <= j < |keys| ==> Truthy(Field(body, keys[j]))
    decreases |keys| - from
  {
    if from == |keys| then None
    else if Falsy(Field(body, keys[from])) then Some(from)
    else FirstMissingFrom(body, keys, from + 1)
  }

  function FirstMissing(body: map<string, Value>, keys: seq<string>): (r: Option<nat>)
    ensures r.Some? ==> IsFirstMissing(body, keys, r.value)
    ensures r.None? <==> forall j :: 0 <= j < |keys| ==> Truthy(Field(body, keys[j]))
  {
    FirstMissingFrom(body, keys, 0)
  }

  /** At most one position is the first missing one. */
  lemma FirstMissingUnique(body: map<string, Value>, keys: seq<string>, i: int, k: int)
    requires IsFirstMissing(body, keys, i) && IsFirstMissing(body, keys, k)
    ensures i == k
  {
  }

  /** `/compute` answers with the message of the first missing field in the
      fixed order, and passes exactly when all five fields are present. */
  lemma ComputeValidationOrder(body: map<string, Value>)
    ensures ValidateCompute(body).Valid? <==>
              forall j :: 0 <= j < |RequiredJobFields| ==> Truthy(Field(body, RequiredJobFields[j]))
    ensures forall i :: IsFirstMissing(body, RequiredJobFields, i) ==>
              ValidateCompute(body) == Invalid(MissingMessage(RequiredJobFields[i]))
    ensures ValidateCompute(body) ==
              match FirstMissing(body, RequiredJobFields)
              case None => Valid(JobFields(Field(body, "name"), Field(body, "dockerImage"),
                                           Field(body, "inputDatasets"), Field(body, "outputDatasets"),
                                           Field(body, "cmd")))
              case Some(i) => Invalid(MissingMessage(RequiredJobFields[i]))
    ensures ValidateCompute(body).Valid? ==>
              ValidateCompute(body).value ==
                JobFields(body["name"], body["dockerImage"], body["inputDatasets"], body["outputDatasets"], body["cmd"])
  {
    var keys := RequiredJobFields;
    var r := FirstMissing(body, keys);
    forall i | IsFirstMissing(body, keys, i)
      ensures ValidateCompute(body) == Invalid(MissingMessage(keys[i]))
    {
      assert r.Some? by {
        assert !Truthy(Field(body, keys[i]));
      }
      FirstMissingUnique(body, keys, i, r.value);
    }
  }

  /** Once a field is missing, what the later fields hold cannot change the
      answer. */
  lemma LaterFieldsIrrelevant(a: map<string, Value>, b: map<string, Value>, i: nat)
    requires i < |RequiredJobFields|
    requires forall j :: 0 <= j <= i ==> Field(a, RequiredJobFields[j]) == Field(b, RequiredJobFields[j])
    requires Falsy(Field(a, RequiredJobFields[i]))
    ensures ValidateCompute(a) == ValidateCompute(b)
    ensures ValidateCompute(a).Invalid?
  {
    var keys := RequiredJobFields;
    assert keys[0] == "name" && keys[1] == "dockerImage" && keys[2] == "inputDatasets";
    assert keys[3] == "outputDatasets" && keys[4] == "cmd";
    assert Field(a, keys[0]) == Field(b, keys[0]);
    if i >= 1 { assert Field(a, keys[1]) == Field(b, keys[1]); }
    if i >= 2 { assert Field(a, keys[2]) == Field(b, keys[2]); }
    if i >= 3 { assert Field(a, keys[3]) == Field(b, keys[3]); }
    if i >= 4 { assert Field(a, keys[4]) == Field(b, keys[4]); }
  }
}
