/** Opaque values handed out by the confidential-computing platform's SDK.
    Their internal structure is not visible to the server; only the parts the
    server reads are represented. */
module Sdk {

  /** A dataset address object; `hex` is the `_hex` string form the server reads. */
  datatype Address = Address(hex: string)

  /** A token identity obtained from the platform for one request. */
  datatype Identity = Identity(token: string)

  /** The dispatcher's raw (binary) job identifier. */
  type RawJobId = seq<bv8>

  /** The platform's job completion status classes. A status object that is an
      instance of none of the five known classes is `Unrecognised`. */
  datatype JobCompletionStatus =
    | Success
    | JobSetupError
    | RuntimeError
    | Pending
    | Cancelled
    | Unrecognised(className: string)
}
