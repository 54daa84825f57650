/**
 * The errors the upload session raises and the shapes of the responses the
 * remote store returns. Every remote call is outside the model: its response
 * is handed to the session as a parameter of the matching event method.
 */
module Remote {
  import opened Wrappers

  /** The error code that makes a part upload retryable. */
  const RequestTimeout: string := "RequestTimeout"

  datatype Error =
    | Remote(code: string)          // an error object the SDK or the stream produced
    | NoStream                      // "You must provide a readable stream."
    | MissingUploadId               // create-upload answered without UploadId
    | MissingPartETag               // upload-part answered without ETag
    | MissingParts                  // list-parts answered without Parts
    | MissingListedETag             // a listed part without ETag
    | MissingListedPartNumber       // a listed part without PartNumber
    | ETagMismatch                  // a listed ETag differs from the recorded one
    | NoUploadIdSet                 // finish called before an upload id exists
    | MissingFileETag               // complete-upload answered without ETag
    | AckTimeout                    // the remote store did not acknowledge in time

  /** JavaScript truthiness of an optional string: present and not empty. */
  predicate Truthy(s: Option<string>)
  {
    s.Some? && s.value != ""
  }

  /** JavaScript truthiness of an optional number: present and not zero. */
  predicate TruthyNumber(n: Option<nat>)
  {
    n.Some? && n.value != 0
  }

  datatype CreateResponse = Created(uploadId: Option<string>) | CreateFailed(code: string)

  datatype PartResponse = PartUploaded(etag: Option<string>) | PartFailed(code: string)

  /** One entry of a list-parts answer; either field may be missing. */
  datatype ListedPart = ListedPart(partNumber: Option<nat>, etag: Option<string>)

  datatype ListResponse = Listed(parts: Option<seq<ListedPart>>) | ListFailed(code: string)

  datatype CompleteResponse = Completed(etag: Option<string>) | CompleteFailed(code: string)
}
