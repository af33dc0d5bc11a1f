# Request-handling core of the privacy compute platform server

A Dafny model of the request handlers in `server.js`. This is a small HTTP
façade over a confidential-computing platform SDK. It validates uploads and
job submissions. It mirrors dataset addresses and job statuses into a local
document store, and it maps the platform's job reports into status names and
hex-form outputs.

Each handler is a pure function. It takes the current store, the platform's
answers for this one request, and the request. It returns the new store and
the response:

- `Sdk`: the opaque SDK objects the server handles: addresses (with their
  `_hex` form), identities, raw job ids, and the job completion status classes.
- `Results`: `Option`, `Result`, and `Failure`. A `Failure` is either a
  JavaScript `TypeError` raised by handler code or a rejected platform call.
- `Js`: the JavaScript values the handlers inspect. It defines falsiness,
  property reads and writes (`undefined`/`null` throw, writes to primitives
  are dropped), and the in-place `forEach` rewrite as a map that stops at the
  first throw.
- `Platform`: the SDK calls as a datatype of answers and functions. This
  covers the identity, upload, the `Address` constructor, submit,
  `getJobInfo`, and hex encode/decode.
- `Store`: the two Mongoose collections as sequences of `DatasetRecord` and
  `ComputeJobRecord`. Also `findOneAndUpdate` as a first-match overwrite.
- `Validation`: the checks of `/upload` and `/compute`.
- `JobStatus`: the `instanceof` chain as a match, and the `outputs` address
  rewrite.
- `Server`: the handlers `Upload`, `Compute`, `PollJob` and the two listings.

A `ServerError` reply means the handler threw before sending anything of its
own. No write happens after such a throw. Express 4 does not catch rejected
async handlers, so the model does not say which status the client sees.

Details of the code that the model follows, some of them easy to overlook:

- A new job record has `outputs` equal to the empty sequence, not unset,
  because Mongoose gives array paths a default of `[]`. `status` and `info`
  are unset.
- `/compute` does not check that `inputDatasets` and `outputDatasets` are
  arrays. A truthy non-array has no `forEach`, so the request throws a
  `TypeError` after validation has passed.
- `/upload` with a file part under a field name other than `file` passes both
  checks. It then throws a `TypeError` reading `request.files.file.data`. It
  does not get the `400 No file uploaded` answer.
- A status poll stores `""` for a status of an unknown class.
- The platform's `outputs` may be any value. A non-array throws at
  `outputs.forEach`, before anything is written.

## Model

| member | source | states |
|---|---|---|
| Validation.ValidateUpload | server.js:42-52 | a missing file always yields 'No file uploaded', even when the title is missing too; 'title is required' comes exactly when a file is present and the body or its title is absent or empty; validation passes exactly otherwise, with the non-empty title |
| Validation.ValidateCompute | server.js:96-126 | the if-chain of `/compute` passes exactly when all five required fields are truthy; a failure message names a field that is falsy |
| Validation.ComputeValidationOrder | server.js:95-126 | `/compute` validation passes exactly when all five fields are truthy, with the body's five values; otherwise the message names the first falsy field in the order name, dockerImage, inputDatasets, outputDatasets, cmd; the if-chain equals the answer built from the left-to-right scan `FirstMissing` |
| Validation.LaterFieldsIrrelevant | server.js:96-126 | two bodies that agree up to a missing field get the same failure, whatever the later fields hold |
| Validation.FirstMissingFrom | server.js:97-126 | a left-to-right scan finds the first missing field, or none exactly when every field is present; `ComputeValidationOrder` proves the if-chain equal to the answer built from this scan |
| Js.RewriteEach | server.js:128-133 | the in-place `forEach` rewrite succeeds exactly when every element's rewrite does, keeps length and order, and element i becomes the rewrite of element i; a failure is some element's failure |
| Server.BuildJobRequest | server.js:127-141 | the build succeeds exactly when `inputDatasets` is an array of non-null descriptors whose addresses the `Address` constructor accepts and `outputDatasets` is an array of non-null descriptors; the submitted request keeps name, dockerImage and cmd; every input descriptor's `address` is replaced by the converted address object and every output descriptor gets `owner = identity`, with both lists keeping length and order; a non-array input list throws a TypeError |
| Server.SubmitToPlatform | server.js:127-144 | the steps after validation succeed exactly when an identity is obtained, the job request builds and the dispatcher returns a raw id; the result is the hex encoding of that raw id |
| Server.Compute | server.js:95-152 | a validation failure answers 400 with that message and leaves the store as it was; any later throw leaves it as it was; success happens exactly when validation and submission succeed, answers 'job is submitted' with the hex job id, and appends exactly one record with that id, status and info unset and no outputs |
| Server.SubmittedJobId | server.js:143-150 | the returned job id is the hex encoding of the raw id the dispatcher gave for the request built from the body under the request's identity |
| Server.SubmitThenList | server.js:146-159 | after a successful submission, `/jobs` lists everything it listed before, in the same order, followed by the new record with the returned job id, status and info unset, and `outputs` empty; `/datasets` is unchanged |
| Server.UploadToPlatform | server.js:53-62 | reading `request.files.file.data` throws a TypeError when there is no `file` part; otherwise the steps succeed exactly when an identity is obtained and the platform upload of that file with the title returns an address, which is the result |
| Server.Upload | server.js:42-68 | a validation failure answers 400 with its message and leaves the store as it was; a record is appended exactly when validation passes and the platform upload succeeds; the reply's address is the stored record's address, the hex form of the platform's address; existing records and the job records are untouched |
| Server.UploadThenList | server.js:62-76 | after a successful upload, `/datasets` lists everything it listed before, in the same order, followed by the new `{title, address}` |
| JobStatus.StatusName | server.js:175-186 | the status mapping always yields one of the six names, and it yields `""` exactly for a status of none of the five known classes |
| JobStatus.StatusNameRoundTrip | server.js:175-186 | each of the five known classes maps to its own name, and that name leads back to the class; an unknown status maps to no class |
| JobStatus.StatusNameInjective | server.js:175-186 | two statuses with the same name, one of them known, are the same class |
| JobStatus.HexOutputs | server.js:187-191 | the outputs rewrite succeeds exactly when every descriptor is an object with a non-null `address`, otherwise throws a TypeError; it keeps length and order and changes only each descriptor's `address`, to its `_hex` form |
| Server.QueryJob | server.js:169-191 | the query succeeds exactly when the hex id decodes, an identity is obtained, the platform reports the job, and the reported `outputs` is an array of descriptors with readable addresses; its status name, info and rewritten outputs are those of the report |
| Store.UpdateFirst | server.js:192-193 | `findOneAndUpdate` keeps the length; the record at the first position carrying the id has its status, info and outputs replaced wholesale and keeps its id; every other record is kept as it was |
| Store.UpdateWithoutMatch | server.js:192-193 | with no record carrying the id, the update leaves the jobs unchanged |
| Store.UpdateFirstIdempotent | server.js:192-193 | writing the same poll result twice gives the same jobs as writing it once |
| Store.UpdateKeepsJobIds | server.js:192-193 | a poll's write never changes the stored job ids or their order |
| Server.PollJob | server.js:162-199 | an empty job id answers 400 'jobId is missing'; any failure leaves the store as it was; success happens exactly when the query succeeds; the reply's status is one of the six names; the first record with the id gets the reply's status, info and outputs wholesale; other records and datasets are untouched; with no matching record the store is unchanged |
| Server.PollIdempotent | server.js:162-198 | polling twice with the same platform answers gives the same reply and leaves the store as the first poll left it |
| Server.PollKeepsJobIds | server.js:162-193 | a poll never changes which job ids are stored, nor their order |
| Server.SubmitThenPoll | server.js:143-193 | when the new job id is fresh, polling the id `/compute` returned overwrites exactly the record that submission appended and leaves earlier records as they were |
| Server.PollPendingExample | server.js:162-198 | a poll of job `01` reported pending with empty info and no outputs answers `Pending` and stores `{jobId: "01", status: "Pending", info: "", outputs: []}` |

## Left out

- Express routing and `app.listen`, `express-fileupload` multipart parsing, JSON body parsing, the `GET /` health answer `ok`: HTTP plumbing.
- `GET /dataset/:address` (server.js:79-92): it checks that the address is non-empty, then does SDK calls and writes a temporary file. Filesystem I/O with no other logic.
- The Mongoose connection and schema registration. Record-store failures are not modelled: every save and update succeeds.
- The listing handlers are modelled only as returning the stored sequence. Mongoose's storage order is taken to be insertion order.
- All platform SDK behaviour: identity, upload, dataset connect and download, dispatcher connect, submit and job query, the `Address` constructor, and `encodeHex`/`decodeHex`. Each is a parameter answering one request. The hex round trip is never proved, because its implementation is not visible.
- Concurrent interleaving of requests, environment configuration and `console.log`.
- JavaScript numbers are integers plus `NaN`; floating point is not modelled.
- Property reads on primitives and arrays are modelled as `undefined`, which is right for every property name the handlers read.
- Property writes to arrays and SDK objects are dropped, like writes to primitives. In JavaScript they add a non-index property.
- Multipart fields are text, so the upload body maps field names to strings. A file field sent more than once is not modelled.
- Mongoose's casting of stored values to the schema's `String` type is not modelled: the platform's `info` is a string.
