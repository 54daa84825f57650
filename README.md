# streaming-s3 upload session, modelled in Dafny

`index.js` streams a readable byte source into an S3 multipart upload. An
upload session, the `StreamingS3` object, does the following:

- it cuts the incoming bytes into numbered parts of `maxPartSize` bytes;
- it uploads each part, retrying a part whose upload timed out;
- it drops finished parts from its queue;
- once the stream has ended, it polls the part listing, checks it against the
  ETags it recorded, and commits the upload with the ordered list of parts;
- an `'error'` latch ends the session on the first error and, when an upload
  id exists, aborts the upload.

This model is the session's bookkeeping only: its flags, its buffer, its part
queue, its ETag record and its timers.

- `Session.StreamingS3` is a class with the fields of the JavaScript object.
  Each of its methods is one event the session reacts to: a stream event, the
  answer to a remote request (passed in as a parameter), or a timer firing.
- Ghost fields keep what the source throws away:
  - `received`: every byte received;
  - `cut`: every part ever cut, in number order;
  - `streamEnded`;
  - `inFlight`: the part numbers with an outstanding upload request;
  - `attempts`: the number of upload requests per part;
  - the number of create, list and complete requests still awaiting an answer.
- `delivered` records every invocation of the terminal callback, in order.
- Modules:
  - `Options` holds `extendObj` and the option merge.
  - `Remote` holds the error values and the shapes of the remote answers.
  - `Parts` holds the part record, the cut (`Flush`) and the eviction filter
    (`Unfinished`).
  - `Reconcile` holds the listing check and the completion list.
  - `Session` holds the session itself.

The session's invariant `Valid()` has two halves:

- **`DataValid()`: byte conservation and the queue.**
  - The parts ever cut, concatenated in number order and followed by the
    buffer, are exactly the bytes received.
  - Until end of stream, every cut part is exactly `maxPartSize` long.
  - The queue is in strictly ascending number order.
  - Every queued part carries the bytes of its cut and a number in
    `1..totalChunks`.
  - A part is finished exactly when its number has an ETag.
  - Every part cut so far is either queued or has an ETag, and every ETag is
    non-empty.
  - A part has been sent at most `retries + 1` times.
- **`LifecycleValid()`: the lifecycle.**
  - A stored upload id is non-empty.
  - The session is initiated only with an upload id.
  - The stream handlers are attached only once the session is initiated.
  - A failed session is not waiting and has no armed timer.
  - An abort is owed only by a failed session.

Each handler requires and ensures the half over the fields it changes. Its
`modifies` clause leaves the other half's fields, and so that half, untouched.

Quirks of the code that the model keeps as written:

- `extendObj(options, defaultOptions)` lets the defaults overwrite every
  option the caller passes (`MergeOptions`).
- The count test at index.js:258 compares the listing's length with itself,
  so it never postpones the check (`CountTestNeverDefers`).
- A listing that leaves parts out still passes the check
  (`OmittedPartsStillPass`).
- When the abort request fails, the callback is called twice: first with
  the abort's error, then with the original one (`OnAbortResponse`).
- An empty buffer at end of stream is still cut into one empty part
  (`TrailingEmptyPart`). The buffer is empty then for an empty stream and
  when the last data event cut it down to nothing. A buffer holding exactly
  one part size at the end is cut whole, with no empty part after it
  (`FullBufferAtEnd`).
- The upload-part, list-parts and complete-upload answers are acted on even
  after the session has failed.
- A part whose upload ends with an error that is not retried stays marked
  uploading, so no later batch sends it again. The completion list, built
  from the ETag record, then leaves that part out
  (`CompletionOmitsUnfinished`).

Where the code's behaviour differs from what its own comments suggest, the
model follows the code:

- The option comments at index.js:19-22 describe settings a caller chooses,
  but the defaults overwrite the caller's options.
- The comment at index.js:22 says the session buffers about one part size,
  but a data event cuts at most one part, so the buffer can hold several
  part sizes (index.js:111-113, 148-150).
- The comment at index.js:78 reports the failed abort; the callback then
  fires a second time with the original error.
- The commit list is exactly `1..totalChunks` only once every queued part has
  finished (`CompletionCoversCutParts`). The code commits whatever it has
  recorded when the listing passes, and a listing sent while parts are still
  outstanding can pass.

## Model

| member | source | states |
|---|---|---|
| Options.ExtendObj | index.js:7-10 | the result has the keys of both objects; every key of `b` takes `b`'s value and every key only in `a` keeps `a`'s value |
| Options.MergeOptions | index.js:18-26 | whatever options object the caller passes, the effective options are the defaults: 5 concurrent parts, 60000 ms wait, 5 retries, 5 MiB parts |
| Session.StreamingS3.constructor | index.js:12-92 | the initial flags, buffer, queue, record and timers; without a stream the session has failed and the callback has received the no-stream error; with a callback one create-upload request is outstanding; the invariant holds |
| Session.StreamingS3.OnError | index.js:59-83 | a second error changes nothing. The first one stops both timers, clears `reading` and `waiting`, sets `failed`, detaches the stream handlers, and either owes an abort (when an upload id exists) or calls back once with the error |
| Session.StreamingS3.OnAbortResponse | index.js:77-80 | after the abort answer, the callback has received the abort's error (if any) followed by the original error |
| Session.StreamingS3.Begin | index.js:100-125 | an initiated session ignores the call; otherwise exactly one create-upload request is issued |
| Session.StreamingS3.OnCreateResponse | index.js:123-141 | an error, or an answer without an upload id, raises that error; otherwise the id is stored, the session is initiated, the handlers are attached, and nothing else of the lifecycle changes |
| Session.StreamingS3.OnStreamError | index.js:103-105 | a stream error is raised through the latch |
| Session.StreamingS3.OnData | index.js:107-114 | the fragment is appended to the received bytes and to the buffer. Exactly when the grown buffer reaches `maxPartSize`, one full-size part is cut, queued and handed to `sendToS3`. Byte conservation and the queue invariant are kept |
| Session.StreamingS3.OnEnd | index.js:116-119 | `reading` is cleared and the whole buffer is cut (one part, or two when it exceeds `maxPartSize`), leaving it empty and null after a second part; the parts are queued and sent in a batch that captured the end of reading |
| Session.StreamingS3.FlushChunk | index.js:145-175 | before initiation nothing changes; otherwise the cut `Flush` describes is appended to the history and queued with numbers `totalChunks+1, ...`, the finished parts are evicted, and a batch over the rest starts |
| Session.StreamingS3.CutBuffer | index.js:147-172 | the parts cut and the new buffer are exactly `Flush` of the old buffer; the history, `totalChunks` and the queue grow by those parts and no others; the null buffer is set exactly when a second part was cut |
| Session.StreamingS3.PushPart | index.js:157-172 | one part taken from the front of the buffer joins the history and the queue as a fresh record numbered `totalChunks+1`; the rest stays buffered; the invariant is kept |
| Parts.Flush | index.js:147-171 | one or two parts; the first is the first `max` bytes, or the whole buffer when that is not longer; a second part is cut exactly at end of stream when bytes remain after the first cut; at end of stream nothing stays buffered; the parts and the remainder rebuild the buffer |
| Parts.FlushConcat | index.js:147-171 | the cut loses and invents no byte: the parts concatenated, followed by the remainder, are the old buffer |
| Parts.TrailingEmptyPart | index.js:151-161 | an empty buffer at end of stream is cut into one empty part |
| Parts.FullBufferAtEnd | index.js:148-164 | a buffer of exactly `max` bytes at end of stream is cut whole into one part, with no empty part after it |
| Parts.FreshParts | index.js:157-170 | freshly cut parts are numbered consecutively from `first` and start not uploading, not finished, with no retries |
| Session.PushKeepsChunker | index.js:145-172 | moving one part from the buffer to the history keeps byte conservation, and before end of stream the full-size bound |
| Session.GrowKeepsChunker | index.js:107-111 | appending a fragment to both the buffer and the received bytes keeps byte conservation |
| Session.EmptyDataInv | index.js:38-42 | the empty session satisfies the data invariant |
| Session.QueueAppendKeeps | index.js:157-170 | queueing freshly cut parts numbered on from `totalChunks` keeps the queue ascending and consistent with the history and the record |
| Parts.Unfinished | index.js:222-224 | the filter keeps exactly the parts that are not finished |
| Parts.UnfinishedAscending | index.js:222-224 | the filter keeps the queue in number order |
| Parts.UnfinishedNumbers | index.js:222-224 | every unfinished part keeps its number in the filtered queue |
| Session.QueueFilterKeeps | index.js:222-224 | evicting the finished parts keeps the queue invariant; a part leaves the queue only once its ETag is recorded |
| Session.StreamingS3.SendToS3 | index.js:219-238 | an empty queue starts nothing; otherwise the queue becomes its unfinished parts and one batch starts over their numbers, capturing whether reading has ended |
| Session.StreamingS3.UploadChunk | index.js:181-198 | the part is sent exactly when the session has not failed, the part is queued, is not uploading and has a non-zero number; sending marks it uploading and counts one more attempt; a skipped part changes nothing |
| Session.StreamingS3.OnUploadPartResponse | index.js:198-215 | an answer with an ETag records it and finishes the part; one without an ETag is an error. A timeout with retries left resets `uploading`, counts the retry and sends the part again, unless the session has failed. Any other error, and a timeout at the cap, passes the error on and leaves the part marked uploading |
| Session.StreamingS3.Retry | index.js:200-206 | the retried part's count goes up by one; it is sent again (one more attempt) unless the session has failed, in which case the batch moves on with no error |
| Session.StreamingS3.PrepareRetry | index.js:202-204 | `uploading` is cleared, `retries` grows by one, and the part keeps its position |
| Session.StreamingS3.EndAttempt | index.js:199-211 | an answer that does not finish the part only retires its pending request |
| Session.StreamingS3.RecordPart | index.js:210-214 | the ETag is stored under the part's number, the part is finished, and nothing else in its record changes |
| Session.AttemptsBounded | index.js:199-207 | whatever the order of answers, a part number has been sent at most `retries + 1` times |
| Session.StreamingS3.OnBatchDone | index.js:228-236 | nothing once failed; an error is raised; otherwise the session is waiting, and `finish` is scheduled exactly when the batch started after the end of the stream |
| Session.StreamingS3.Finish | index.js:242-315 | nothing once failed; an error without an upload id; nothing once finished. Otherwise one list request is issued, the wait timer is armed if it was never set and `waitTime` is not 0, and the acknowledge interval is armed if it was never set |
| Session.StreamingS3.OnWaitTimerFired | index.js:304-310 | the timer is spent; a session still waiting fails with the acknowledge timeout; otherwise nothing else changes |
| Session.StreamingS3.OnAcknowledgeTick | index.js:314 | each tick runs `finish` again. Without an upload id it raises an error. Otherwise the interval stays armed, and the wait timer is armed only if it was never set, `waitTime` is not 0 and the session is not finished; an armed wait timer is left alone |
| Session.StreamingS3.OnListPartsResponse | index.js:251-289 | an error, a missing `Parts`, or the first listed part that fails its check raises that error; the count test is made and never defers. Otherwise complete-upload is requested with the recorded ETags in ascending part-number order, and nothing else of the lifecycle changes |
| Reconcile.PartCheck | index.js:261-271 | a listed part passes exactly when it has an ETag and a non-zero number and the ETag is the one recorded; a missing ETag is reported before a missing number |
| Reconcile.CheckListing | index.js:260-272 | the loop's outcome is the listing check: the error of the first failing part, or none |
| Reconcile.ListingCheckPassesIff | index.js:260-272 | the listing passes exactly when every listed part matches the record |
| Reconcile.ListingCheckReportsFirstFailure | index.js:260-272 | a failing listing reports the error of a part all of whose predecessors match |
| Reconcile.OmittedPartsStillPass | index.js:257-272 | any listing made of entries of a passing listing passes too, the empty listing included |
| Reconcile.CountTestNeverDefers | index.js:257-258 | the count test never postpones the check |
| Reconcile.CompletionList | index.js:282-285 | the list holds every recorded part exactly once, with its ETag, in strictly ascending part-number order |
| Reconcile.CompletionListIsOneToN | index.js:282-285 | when the record holds exactly parts 1..n, the list is exactly 1, 2, ..., n |
| Session.CompletionCoversCutParts | index.js:274-285 | once every queued part has finished, the completion list has `totalChunks` entries, numbered 1..`totalChunks` in order, each with the ETag its upload returned |
| Session.CompletionOmitsUnfinished | index.js:282-285 | a queued part that is not finished has no ETag, so the completion list leaves it out |
| Session.StreamingS3.OnCompleteResponse | index.js:289-299 | an error, or an answer without an ETag, raises that error. Otherwise both timers are cleared, the session stops waiting and is finished, and the callback receives the ETag |

## Left out

- The remote SDK calls are not modelled: creating, uploading, listing,
  completing and aborting the upload, `getNewS3Client`,
  `aws.config.update` and the per-part client `chunk.client`. Each answer is
  a parameter of the event method for it. Requests are counted in ghost
  fields.
- The request parameters are left out: which values go to each SDK call,
  `MaxParts`, and the `ACL`/`StorageClass` deletions.
- EventEmitter wiring, `pause`/`resume` and listener removal are left out.
  `emit('error', e)` is a call to `OnError`. Whether the stream handlers are
  attached is the boolean `listening`, so attaching them twice is not
  modelled.
- Stream events arrive only while the handlers are attached, and at most one
  end event arrives (the `listening` and `!streamEnded` requirements).
  - A data event after the end, whose `Buffer.concat` with a null buffer
    would throw, is outside the model.
  - So is `begin` without a stream, which would throw at `self.stream.on`.
    The model attaches nothing then.
- Time is not modelled:
  - OnBatchDone returns whether the 500 ms `setTimeout(finish)` is
    scheduled; its firing is the caller calling `Finish`.
  - The `waitTime` timeout and the 5000 ms interval fire as
    `OnWaitTimerFired` and `OnAcknowledgeTick`, whenever the caller chooses
    while the timer is armed.
- The concurrency cap of `async.eachLimit` is left out. A batch is the list
  of part numbers it walks plus the `finishedReading` it captured. The
  caller calls `UploadChunk` for each number and `OnBatchDone` with the
  batch's outcome. How many uploads run at once, and the order in which
  `eachLimit` starts them, are not modelled.
- String fragments and their UTF-8 conversion are left out. Fragments are
  bytes.
- The timeout message and its millisecond-to-second division are left out.
  Errors are values of `Remote.Error`, and a success delivers only the
  file's ETag.
- MergeOptions: the constructor called with neither options nor a callback
  is not modelled. `options` is then undefined and `extendObj` throws at
  index.js:8, so the constructor never completes. The model's options are
  always a map.
- The `typeof options == 'function'` argument shuffle is left out. The model
  takes the options and whether there is a callback.
- Option aliasing is left out: `extendObj` overwrites the caller's own
  object.
- The unused `chunkNumber` field is left out.
- `uploadedChunks` is a sparse JavaScript array, modelled as a map from part
  numbers. The commit list carries those numbers as numbers; the source
  passes the for-in keys, which are strings.
- Only the options the session reads (the merged defaults) are modelled.
