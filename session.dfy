/**
 * The upload session of index.js as a state machine. The object's fields are
 * the fields of `StreamingS3`; each method is one event the session reacts to
 * (a stream event, a remote response, a timer), with the remote response
 * passed in as a parameter. Ghost fields record what the source does not
 * keep: every byte received, every part ever cut, and the remote requests
 * still awaiting an answer.
 */
module Session {
  import opened Wrappers
  import opened Remote
  import opened Options
  import opened Parts
  import opened Reconcile

  /** A timer field: never set, set and pending, or cleared/fired. Only `Unset` is falsy. */
  datatype TimerState = Unset | Armed | Stopped

  /** `clearTimeout`/`clearInterval` on a timer field. */
  function Cleared(t: TimerState): TimerState
  {
    if t == Armed then Stopped else t
  }

  /** The abort request the failure latch may owe, with the error its callback still has to report. */
  datatype AbortState = NotIssued | Pending(cause: Error) | Answered

  /** One invocation of the terminal callback. */
  datatype Delivery = Failure(err: Error) | Success(etag: string)

  /** One `async.eachLimit` run started by `sendToS3`: the part numbers it walks and the `finishedReading` it captured. */
  datatype Batch = Batch(numbers: seq<nat>, finishedReading: bool)

  /** How an upload-part answer ends: `next` called (with an error or not), or the part sent again. */
  datatype Step = Next(err: Option<Error>) | Reissued

  ghost function AttemptsIn(attempts: map<nat, nat>, n: nat): nat
  {
    if n in attempts then attempts[n] else 0
  }

  /**
   * Part `i` of the history, if there is one, is `max` bytes long. The
   * invariants below quantify over positions and numbers through named
   * predicates like this one, so that a proof only unfolds them at the
   * positions and numbers it names.
   */
  ghost predicate FullSize(cut: seq<seq<bv8>>, max: nat, i: int)
  {
    0 <= i < |cut| ==> |cut[i]| == max
  }

  /**
   * Byte conservation: the parts ever cut, in number order, followed by the
   * buffer are exactly the bytes received. Until end of stream every cut
   * part is exactly `max` long.
   */
  ghost predicate ChunkerInv(max: nat, cut: seq<seq<bv8>>, buffer: seq<bv8>, received: seq<bv8>,
                             bufferIsNull: bool, streamEnded: bool, totalChunks: nat)
  {
    && max > 0
    && |cut| == totalChunks
    && Concat(cut) + buffer == received
    && (bufferIsNull ==> buffer == [] && streamEnded)
    && (!streamEnded ==> forall i :: FullSize(cut, max, i))
  }

  /** A queued part agrees with the history of cuts, the ETag record and the retry budget. */
  ghost predicate PartInv(p: Part, maxRetries: nat, totalChunks: nat, cut: seq<seq<bv8>>,
                          uploaded: map<nat, string>, attempts: map<nat, nat>, inFlight: set<nat>)
  {
    && 1 <= p.number <= totalChunks
    && p.number <= |cut|
    && p.bytes == cut[p.number - 1]
    && p.retries <= maxRetries
    && (p.finished ==> p.uploading)
    && (p.finished <==> p.number in uploaded)
    && AttemptsIn(attempts, p.number) <= p.retries + (if p.uploading then 1 else 0)
    && (p.number in inFlight ==> p.uploading && !p.finished)
  }

  /** `PartInv` for the part at position `i`. */
  ghost predicate PartInvAt(chunks: seq<Part>, i: int, maxRetries: nat, totalChunks: nat, cut: seq<seq<bv8>>,
                            uploaded: map<nat, string>, attempts: map<nat, nat>, inFlight: set<nat>)
  {
    0 <= i < |chunks| && PartInv(chunks[i], maxRetries, totalChunks, cut, uploaded, attempts, inFlight)
  }

  /**
   * What the records say about part number `n`: a part that was cut is
   * queued or uploaded; only cut parts have an ETag, and it is not empty;
   * only cut parts were attempted, at most `maxRetries + 1` times.
   */
  ghost predicate NumberInv(chunks: seq<Part>, maxRetries: nat, totalChunks: nat,
                            uploaded: map<nat, string>, attempts: map<nat, nat>, n: nat)
  {
    && (1 <= n <= totalChunks ==> n in NumberSet(chunks) || n in uploaded)
    && (n in uploaded ==> 1 <= n <= totalChunks && uploaded[n] != "")
    && (n in attempts ==> 1 <= n <= totalChunks && attempts[n] <= maxRetries + 1)
  }

  /**
   * The queue holds distinct parts in number order, each agreeing with the
   * records; the records agree with the history; a pending request is for
   * a queued part.
   */
  ghost predicate QueueInv(chunks: seq<Part>, maxRetries: nat, totalChunks: nat, cut: seq<seq<bv8>>,
                           uploaded: map<nat, string>, attempts: map<nat, nat>, inFlight: set<nat>)
  {
    && Ascending(chunks)
    && (forall i :: 0 <= i < |chunks| ==> PartInvAt(chunks, i, maxRetries, totalChunks, cut, uploaded, attempts, inFlight))
    && (forall n: nat :: NumberInv(chunks, maxRetries, totalChunks, uploaded, attempts, n))
    && inFlight <= NumberSet(chunks)
  }

  /**
   * The retry cap: whatever the interleaving of answers, a part number has
   * been sent at most `maxRetries + 1` times.
   */
  lemma AttemptsBounded(chunks: seq<Part>, maxRetries: nat, totalChunks: nat, cut: seq<seq<bv8>>,
                        uploaded: map<nat, string>, attempts: map<nat, nat>, inFlight: set<nat>, n: nat)
    requires QueueInv(chunks, maxRetries, totalChunks, cut, uploaded, attempts, inFlight)
    ensures AttemptsIn(attempts, n) <= maxRetries + 1
  {
    assert NumberInv(chunks, maxRetries, totalChunks, uploaded, attempts, n);
  }

  ghost predicate DataInv(max: nat, maxRetries: nat, cut: seq<seq<bv8>>, buffer: seq<bv8>, received: seq<bv8>,
                          bufferIsNull: bool, streamEnded: bool, totalChunks: nat, chunks: seq<Part>,
                          uploaded: map<nat, string>, attempts: map<nat, nat>, inFlight: set<nat>)
  {
    && ChunkerInv(max, cut, buffer, received, bufferIsNull, streamEnded, totalChunks)
    && QueueInv(chunks, maxRetries, totalChunks, cut, uploaded, attempts, inFlight)
  }

  /** A fresh session: nothing received, nothing cut, nothing queued. */
  lemma EmptyDataInv(max: nat, maxRetries: nat)
    requires max > 0
    ensures DataInv(max, maxRetries, [], [], [], false, false, 0, [], map[], map[], {})
  {
    assert Concat([]) == [];
  }

  /**
   * Moving one part from the front of the buffer to the end of the history
   * keeps byte conservation, and before end of stream the part-size bound.
   */
  lemma PushKeepsChunker(max: nat, cut: seq<seq<bv8>>, buffer: seq<bv8>, received: seq<bv8>,
                         streamEnded: bool, totalChunks: nat, part: seq<bv8>, rest: seq<bv8>, bufferIsNull': bool)
    requires ChunkerInv(max, cut, buffer, received, false, streamEnded, totalChunks)
    requires part + rest == buffer
    requires !streamEnded ==> |part| == max
    requires bufferIsNull' ==> rest == [] && streamEnded
    ensures ChunkerInv(max, cut + [part], rest, received, bufferIsNull', streamEnded, totalChunks + 1)
  {
    var cut' := cut + [part];
    assert cut'[..|cut|] == cut;
    assert Concat(cut') + rest == Concat(cut) + (part + rest);
    if !streamEnded {
      forall i ensures FullSize(cut', max, i) {
        if 0 <= i < |cut| {
          assert FullSize(cut, max, i);
          assert cut'[i] == cut[i];
        }
      }
    }
  }

  /** Appending a fragment to the buffer before end of stream keeps byte conservation. */
  lemma GrowKeepsChunker(max: nat, cut: seq<seq<bv8>>, buffer: seq<bv8>, received: seq<bv8>,
                         bufferIsNull: bool, streamEnded: bool, totalChunks: nat,
                         fragment: seq<bv8>, buffer': seq<bv8>, received': seq<bv8>)
    requires ChunkerInv(max, cut, buffer, received, bufferIsNull, streamEnded, totalChunks)
    requires !streamEnded
    requires buffer' == buffer + fragment && received' == received + fragment
    ensures ChunkerInv(max, cut, buffer', received', bufferIsNull, streamEnded, totalChunks)
  {
    assert Concat(cut) + buffer' == Concat(cut) + buffer + fragment;
  }

  /** The end of the stream keeps byte conservation; parts cut from now on may be short. */
  lemma EndKeepsChunker(max: nat, cut: seq<seq<bv8>>, buffer: seq<bv8>, received: seq<bv8>,
                        bufferIsNull: bool, totalChunks: nat)
    requires ChunkerInv(max, cut, buffer, received, bufferIsNull, false, totalChunks)
    ensures ChunkerInv(max, cut, buffer, received, bufferIsNull, true, totalChunks)
  {
  }

  /** Every queued part is numbered at most `totalChunks`, so the numbers after it are free. */
  lemma FreshNumbersNew(chunks: seq<Part>, maxRetries: nat, totalChunks: nat, cut: seq<seq<bv8>>,
                        uploaded: map<nat, string>, attempts: map<nat, nat>, inFlight: set<nat>)
    requires forall i :: 0 <= i < |chunks| ==> PartInvAt(chunks, i, maxRetries, totalChunks, cut, uploaded, attempts, inFlight)
    ensures forall n :: n in NumberSet(chunks) ==> 1 <= n <= totalChunks
  {
    forall n | n in NumberSet(chunks) ensures 1 <= n <= totalChunks {
      var i :| 0 <= i < |chunks| && chunks[i].number == n;
      assert PartInvAt(chunks, i, maxRetries, totalChunks, cut, uploaded, attempts, inFlight);
    }
  }

  /** The numbers in the queue after appending fresh parts. */
  lemma NumberSetFresh(chunks: seq<Part>, totalChunks: nat, ps: seq<seq<bv8>>)
    ensures var all := chunks + FreshParts(totalChunks + 1, ps);
            forall n :: n in NumberSet(all) <==> n in NumberSet(chunks) || totalChunks + 1 <= n <= totalChunks + |ps|
  {
    var added := FreshParts(totalChunks + 1, ps);
    var all := chunks + added;
    forall n | n in NumberSet(chunks) ensures n in NumberSet(all) {
      var i :| 0 <= i < |chunks| && chunks[i].number == n;
      assert all[i] == chunks[i];
    }
    forall n | totalChunks + 1 <= n <= totalChunks + |ps| ensures n in NumberSet(all) {
      assert all[|chunks| + n - totalChunks - 1] == added[n - totalChunks - 1];
    }
    forall n | n in NumberSet(all) ensures n in NumberSet(chunks) || totalChunks + 1 <= n <= totalChunks + |ps| {
      var i :| 0 <= i < |all| && all[i].number == n;
      if i < |chunks| {
        assert all[i] == chunks[i];
      } else {
        assert all[i] == added[i - |chunks|];
      }
    }
  }

  /** Every part of the grown queue agrees with the grown history of cuts. */
  lemma AppendPartsValid(chunks: seq<Part>, maxRetries: nat, totalChunks: nat, cut: seq<seq<bv8>>,
                         uploaded: map<nat, string>, attempts: map<nat, nat>, inFlight: set<nat>,
                         ps: seq<seq<bv8>>, chunks': seq<Part>, totalChunks': nat, cut': seq<seq<bv8>>)
    requires QueueInv(chunks, maxRetries, totalChunks, cut, uploaded, attempts, inFlight)
    requires |cut| == totalChunks
    requires chunks' == chunks + FreshParts(totalChunks + 1, ps)
    requires totalChunks' == totalChunks + |ps| && cut' == cut + ps
    ensures forall i :: 0 <= i < |chunks'| ==> PartInvAt(chunks', i, maxRetries, totalChunks', cut', uploaded, attempts, inFlight)
  {
    QueuedPartsStayValid(chunks, maxRetries, totalChunks, cut, uploaded, attempts, inFlight, ps, chunks', totalChunks', cut');
    FreshNumbersNew(chunks, maxRetries, totalChunks, cut, uploaded, attempts, inFlight);
    FreshPartsValid(chunks, maxRetries, totalChunks, cut, uploaded, attempts, inFlight, ps, chunks', totalChunks', cut');
  }

  /** The parts queued before a cut still agree with the history once it grows. */
  lemma QueuedPartsStayValid(chunks: seq<Part>, maxRetries: nat, totalChunks: nat, cut: seq<seq<bv8>>,
                             uploaded: map<nat, string>, attempts: map<nat, nat>, inFlight: set<nat>,
                             ps: seq<seq<bv8>>, chunks': seq<Part>, totalChunks': nat, cut': seq<seq<bv8>>)
    requires forall i :: 0 <= i < |chunks| ==> PartInvAt(chunks, i, maxRetries, totalChunks, cut, uploaded, attempts, inFlight)
    requires chunks' == chunks + FreshParts(totalChunks + 1, ps)
    requires totalChunks' == totalChunks + |ps| && cut' == cut + ps
    ensures forall i :: 0 <= i < |chunks| ==> PartInvAt(chunks', i, maxRetries, totalChunks', cut', uploaded, attempts, inFlight)
  {
    forall i | 0 <= i < |chunks|
      ensures PartInvAt(chunks', i, maxRetries, totalChunks', cut', uploaded, attempts, inFlight)
    {
      assert chunks'[i] == chunks[i];
      assert PartInvAt(chunks, i, maxRetries, totalChunks, cut, uploaded, attempts, inFlight);
      assert cut'[chunks[i].number - 1] == cut[chunks[i].number - 1];
    }
  }

  /** Freshly cut parts agree with the grown history: no ETag, no attempt and no request yet. */
  lemma FreshPartsValid(chunks: seq<Part>, maxRetries: nat, totalChunks: nat, cut: seq<seq<bv8>>,
                        uploaded: map<nat, string>, attempts: map<nat, nat>, inFlight: set<nat>,
                        ps: seq<seq<bv8>>, chunks': seq<Part>, totalChunks': nat, cut': seq<seq<bv8>>)
    requires forall n: nat :: NumberInv(chunks, maxRetries, totalChunks, uploaded, attempts, n)
    requires inFlight <= NumberSet(chunks)
    requires forall n :: n in NumberSet(chunks) ==> 1 <= n <= totalChunks
    requires |cut| == totalChunks
    requires chunks' == chunks + FreshParts(totalChunks + 1, ps)
    requires totalChunks' == totalChunks + |ps| && cut' == cut + ps
    ensures forall i :: |chunks| <= i < |chunks'| ==> PartInvAt(chunks', i, maxRetries, totalChunks', cut', uploaded, attempts, inFlight)
  {
    var added := FreshParts(totalChunks + 1, ps);
    forall i | |chunks| <= i < |chunks'|
      ensures PartInvAt(chunks', i, maxRetries, totalChunks', cut', uploaded, attempts, inFlight)
    {
      var k := i - |chunks|;
      var n: nat := totalChunks + 1 + k;
      assert chunks'[i] == added[k];
      assert cut'[totalChunks + k] == ps[k];
      assert n !in NumberSet(chunks);
      assert NumberInv(chunks, maxRetries, totalChunks, uploaded, attempts, n);
    }
  }

  /** Queueing freshly cut parts, numbered on from `totalChunks`, keeps the queue invariant. */
  lemma QueueAppendKeeps(chunks: seq<Part>, maxRetries: nat, totalChunks: nat, cut: seq<seq<bv8>>,
                         uploaded: map<nat, string>, attempts: map<nat, nat>, inFlight: set<nat>,
                         ps: seq<seq<bv8>>, chunks': seq<Part>, totalChunks': nat, cut': seq<seq<bv8>>)
    requires QueueInv(chunks, maxRetries, totalChunks, cut, uploaded, attempts, inFlight)
    requires |cut| == totalChunks
    requires chunks' == chunks + FreshParts(totalChunks + 1, ps)
    requires totalChunks' == totalChunks + |ps| && cut' == cut + ps
    ensures QueueInv(chunks', maxRetries, totalChunks', cut', uploaded, attempts, inFlight)
  {
    AppendPartsValid(chunks, maxRetries, totalChunks, cut, uploaded, attempts, inFlight, ps, chunks', totalChunks', cut');
    FreshNumbersNew(chunks, maxRetries, totalChunks, cut, uploaded, attempts, inFlight);
    NumberSetFresh(chunks, totalChunks, ps);
    forall i: nat, j: nat | i < j < |chunks'| ensures NumberOf(chunks', i) < NumberOf(chunks', j) {
      if j < |chunks| {
        assert chunks'[i] == chunks[i] && chunks'[j] == chunks[j];
        AscendingAt(chunks, i, j);
      } else if i < |chunks| {
        assert chunks'[i] == chunks[i];
        assert chunks'[i].number in NumberSet(chunks);
      }
    }
    forall n: nat ensures NumberInv(chunks', maxRetries, totalChunks', uploaded, attempts, n) {
      assert NumberInv(chunks, maxRetries, totalChunks, uploaded, attempts, n);
    }
  }

  /** The eviction filter keeps the queue invariant: only uploaded parts leave the queue. */
  lemma QueueFilterKeeps(chunks: seq<Part>, maxRetries: nat, totalChunks: nat, cut: seq<seq<bv8>>,
                         uploaded: map<nat, string>, attempts: map<nat, nat>, inFlight: set<nat>,
                         chunks': seq<Part>)
    requires QueueInv(chunks, maxRetries, totalChunks, cut, uploaded, attempts, inFlight)
    requires chunks' == Unfinished(chunks)
    ensures QueueInv(chunks', maxRetries, totalChunks, cut, uploaded, attempts, inFlight)
  {
    UnfinishedAscending(chunks);
    UnfinishedNumbers(chunks);
    forall i | 0 <= i < |chunks'| ensures PartInvAt(chunks', i, maxRetries, totalChunks, cut, uploaded, attempts, inFlight) {
      assert chunks'[i] in chunks;
      var j :| 0 <= j < |chunks| && chunks[j] == chunks'[i];
      assert PartInvAt(chunks, j, maxRetries, totalChunks, cut, uploaded, attempts, inFlight);
    }
    forall n | n in inFlight ensures n in NumberSet(chunks') {
      var j :| 0 <= j < |chunks| && chunks[j].number == n;
      assert PartInvAt(chunks, j, maxRetries, totalChunks, cut, uploaded, attempts, inFlight);
    }
    forall n: nat ensures NumberInv(chunks', maxRetries, totalChunks, uploaded, attempts, n) {
      assert NumberInv(chunks, maxRetries, totalChunks, uploaded, attempts, n);
      if 1 <= n <= totalChunks && n !in uploaded {
        var j :| 0 <= j < |chunks| && chunks[j].number == n;
        assert PartInvAt(chunks, j, maxRetries, totalChunks, cut, uploaded, attempts, inFlight);
      }
    }
  }

  /**
   * Replacing the part at position `i` by `q`, with the same number `n`,
   * keeps the queue invariant when `q` agrees with the new records and the
   * records change at `n` only.
   */
  lemma ReplaceKeeps(chunks: seq<Part>, maxRetries: nat, totalChunks: nat, cut: seq<seq<bv8>>,
                     uploaded: map<nat, string>, attempts: map<nat, nat>, inFlight: set<nat>,
                     i: nat, q: Part, uploaded': map<nat, string>, attempts': map<nat, nat>, inFlight': set<nat>)
    requires QueueInv(chunks, maxRetries, totalChunks, cut, uploaded, attempts, inFlight)
    requires i < |chunks| && q.number == chunks[i].number
    requires PartInv(q, maxRetries, totalChunks, cut, uploaded', attempts', inFlight')
    requires forall k :: k != q.number ==> (k in uploaded' <==> k in uploaded)
    requires forall k :: k != q.number && k in uploaded ==> uploaded'[k] == uploaded[k]
    requires q.number in uploaded' ==> uploaded'[q.number] != ""
    requires forall k :: k != q.number ==> (k in attempts' <==> k in attempts)
    requires forall k :: k != q.number && k in attempts ==> attempts'[k] == attempts[k]
    requires q.number in attempts' ==> attempts'[q.number] <= maxRetries + 1
    requires forall k :: k != q.number ==> (k in inFlight' <==> k in inFlight)
    ensures QueueInv(chunks[i := q], maxRetries, totalChunks, cut, uploaded', attempts', inFlight')
  {
    var chunks' := chunks[i := q];
    var n := q.number;
    forall a: nat, b: nat | a < b < |chunks'| ensures NumberOf(chunks', a) < NumberOf(chunks', b) {
      AscendingAt(chunks, a, b);
    }
    forall j | 0 <= j < |chunks'|
      ensures PartInvAt(chunks', j, maxRetries, totalChunks, cut, uploaded', attempts', inFlight')
    {
      if j != i {
        assert PartInvAt(chunks, j, maxRetries, totalChunks, cut, uploaded, attempts, inFlight);
        if j < i { AscendingAt(chunks, j, i); } else { AscendingAt(chunks, i, j); }
      }
    }
    assert chunks[i].number in NumberSet(chunks);
    forall k | k in NumberSet(chunks) ensures k in NumberSet(chunks') {
      var j :| 0 <= j < |chunks| && chunks[j].number == k;
      assert chunks'[j].number == k;
    }
    forall k | k in NumberSet(chunks') ensures k in NumberSet(chunks) {
      var j :| 0 <= j < |chunks'| && chunks'[j].number == k;
      assert chunks[j].number == k;
    }
    forall k: nat ensures NumberInv(chunks', maxRetries, totalChunks, uploaded', attempts', k) {
      assert NumberInv(chunks, maxRetries, totalChunks, uploaded, attempts, k);
    }
  }

  /**
   * Once every queued part is finished, every part ever cut has an ETag, so
   * the completion list names parts 1 to `totalChunks`, in order, each with
   * the ETag its upload returned.
   */
  lemma CompletionCoversCutParts(chunks: seq<Part>, maxRetries: nat, totalChunks: nat, cut: seq<seq<bv8>>,
                                 uploaded: map<nat, string>, attempts: map<nat, nat>, inFlight: set<nat>,
                                 list: seq<CompletedPart>)
    requires QueueInv(chunks, maxRetries, totalChunks, cut, uploaded, attempts, inFlight)
    requires forall i :: 0 <= i < |chunks| ==> chunks[i].finished
    requires IsCompletionList(list, uploaded)
    ensures |list| == totalChunks
    ensures forall i :: 0 <= i < |list| ==> list[i].partNumber == i + 1 && list[i].etag == uploaded[i + 1]
  {
    forall k: nat ensures k in uploaded <==> 1 <= k <= totalChunks {
      assert NumberInv(chunks, maxRetries, totalChunks, uploaded, attempts, k);
      if 1 <= k <= totalChunks && k in NumberSet(chunks) {
        var j :| 0 <= j < |chunks| && chunks[j].number == k;
        assert PartInvAt(chunks, j, maxRetries, totalChunks, cut, uploaded, attempts, inFlight);
      }
    }
    CompletionListIsOneToN(list, uploaded, totalChunks);
  }

  /**
   * A queued part that is not finished (still uploading, or ended by an
   * error other than a retried timeout) has no ETag, so a completion list
   * built now leaves it out.
   */
  lemma CompletionOmitsUnfinished(chunks: seq<Part>, maxRetries: nat, totalChunks: nat, cut: seq<seq<bv8>>,
                                  uploaded: map<nat, string>, attempts: map<nat, nat>, inFlight: set<nat>,
                                  list: seq<CompletedPart>, i: nat)
    requires QueueInv(chunks, maxRetries, totalChunks, cut, uploaded, attempts, inFlight)
    requires i < |chunks| && !chunks[i].finished
    requires IsCompletionList(list, uploaded)
    ensures forall j :: 0 <= j < |list| ==> list[j].partNumber != chunks[i].number
  {
    assert PartInvAt(chunks, i, maxRetries, totalChunks, cut, uploaded, attempts, inFlight);
  }

  /**
   * An upload id, once stored, is a real one; the session is initiated only
   * with an id; a failed session has no pending timer and is not waiting.
   */
  ghost predicate LifecycleInv(uploadId: Option<string>, initiated: bool, listening: bool, failed: bool,
                               waiting: bool, waitingTimer: TimerState, acknowledgeTimer: TimerState,
                               abort: AbortState)
  {
    && (uploadId.Some? ==> uploadId.value != "")
    && (initiated ==> uploadId.Some?)
    && (listening ==> initiated)
    && (failed ==> !waiting && waitingTimer != Armed && acknowledgeTimer != Armed)
    && (!failed ==> abort == NotIssued)
  }

  class StreamingS3 {
    const options: Effective
    const hasStream: bool
    const hasCallback: bool

    // States
    var waiting: bool
    var initiated: bool
    var failed: bool
    var reading: bool
    var finished: bool

    // Chunking and buffering
    var buffer: seq<bv8>
    var bufferIsNull: bool
    var chunks: seq<Part>
    var totalChunks: nat
    var uploadedChunks: map<nat, string>

    // Remote upload and timers
    var uploadId: Option<string>
    var waitingTimer: TimerState
    var acknowledgeTimer: TimerState

    // Whether the stream handlers are attached, the abort owed, and every callback invocation
    var listening: bool
    var abort: AbortState
    var delivered: seq<Delivery>

    ghost var received: seq<bv8>
    ghost var cut: seq<seq<bv8>>
    ghost var streamEnded: bool
    ghost var inFlight: set<nat>
    ghost var attempts: map<nat, nat>
    ghost var createRequests: nat
    ghost var listRequests: nat
    ghost var completeRequests: nat

    /** What `self.cb && self.cb(d)` delivers. */
    function Notify(d: Delivery): seq<Delivery>
    {
      if hasCallback then [d] else []
    }

    /** The chunker's and the queue's invariants, over the fields they read. */
    ghost predicate DataValid()
      reads this`cut, this`buffer, this`received, this`bufferIsNull, this`streamEnded,
            this`totalChunks, this`chunks, this`uploadedChunks, this`attempts, this`inFlight
    {
      DataInv(options.maxPartSize, options.retries, cut, buffer, received, bufferIsNull, streamEnded, totalChunks,
              chunks, uploadedChunks, attempts, inFlight)
    }

    ghost predicate LifecycleValid()
      reads this`uploadId, this`initiated, this`listening, this`failed, this`waiting,
            this`waitingTimer, this`acknowledgeTimer, this`abort
    {
      LifecycleInv(uploadId, initiated, listening, failed, waiting, waitingTimer, acknowledgeTimer, abort)
    }

    ghost predicate Valid()
      reads this
    {
      DataValid() && LifecycleValid()
    }

    /** The failure latch's own fields, other than `waiting` and the timers, did not change. */
    twostate predicate Quiet()
      reads this
    {
      && reading == old(reading)
      && failed == old(failed)
      && listening == old(listening)
      && abort == old(abort)
      && delivered == old(delivered)
    }

    /**
     * The effect of the `'error'` handler (index.js:59-83) on its fields: a
     * second error changes nothing; the first one stops both timers, clears
     * `reading` and `waiting`, sets `failed`, detaches the stream handlers
     * and either owes an abort (an upload id exists) or calls back with the
     * error at once.
     */
    twostate predicate Raised(e: Error)
      reads this
    {
      if old(failed) then
        && Quiet()
        && waiting == old(waiting)
        && waitingTimer == old(waitingTimer)
        && acknowledgeTimer == old(acknowledgeTimer)
      else
        && failed && !reading && !waiting && !listening
        && waitingTimer == Cleared(old(waitingTimer))
        && acknowledgeTimer == Cleared(old(acknowledgeTimer))
        && (if old(uploadId).Some? then abort == Pending(e) && delivered == old(delivered)
            else abort == old(abort) && delivered == old(delivered) + Notify(Failure(e)))
    }

    /**
     * The constructor (index.js:12-92). Whatever the caller passes, the
     * defaults win the merge. Without a stream the error handler runs at
     * once; with a callback, `begin` is called, which issues create-upload.
     */
    constructor (userOptions: map<string, OptionValue>, hasStream: bool, hasCallback: bool)
      ensures Valid()
      ensures options == Effective(DefaultConcurrentParts, DefaultWaitTime, DefaultRetries, DefaultMaxPartSize)
      ensures this.hasStream == hasStream && this.hasCallback == hasCallback
      ensures !waiting && !initiated && !reading && !finished && failed == !hasStream
      ensures buffer == [] && !bufferIsNull && chunks == [] && totalChunks == 0 && uploadedChunks == map[]
      ensures uploadId == None && waitingTimer == Unset && acknowledgeTimer == Unset
      ensures !listening && abort == NotIssued
      ensures delivered == if hasStream then [] else Notify(Failure(NoStream))
      ensures createRequests == if hasCallback then 1 else 0
      ensures received == [] && cut == [] && !streamEnded && inFlight == {} && attempts == map[]
      ensures listRequests == 0 && completeRequests == 0
    {
      var o := MergeOptions(userOptions);
      EmptyDataInv(o.maxPartSize, o.retries);
      options := o;
      this.hasStream := hasStream;
      this.hasCallback := hasCallback;
      waiting, initiated, reading, finished := false, false, false, false;
      failed := !hasStream;
      buffer, bufferIsNull, chunks, totalChunks, uploadedChunks := [], false, [], 0, map[];
      uploadId, waitingTimer, acknowledgeTimer := None, Unset, Unset;
      listening, abort := false, NotIssued;
      delivered := if !hasStream && hasCallback then [Failure(NoStream)] else [];
      received, cut, streamEnded, inFlight, attempts := [], [], false, {}, map[];
      createRequests := if hasCallback then 1 else 0;
      listRequests, completeRequests := 0, 0;
    }

    /** The `'error'` handler (index.js:59-83): a latch that acts on the first error only. */
    method OnError(e: Error)
      requires LifecycleValid()
      modifies this`waiting, this`reading, this`failed, this`listening, this`waitingTimer,
               this`acknowledgeTimer, this`abort, this`delivered
      ensures LifecycleValid()
      ensures Raised(e)
    {
      if failed {
        return;
      }
      waitingTimer, acknowledgeTimer := Cleared(waitingTimer), Cleared(acknowledgeTimer);
      reading, waiting, failed, listening := false, false, true, false;
      if uploadId.Some? {
        abort := Pending(e);
      } else {
        delivered := delivered + Notify(Failure(e));
      }
    }

    /**
     * The abort answer (index.js:77-80): a failed abort reports its own error
     * first, and then the original error is reported in every case.
     */
    method OnAbortResponse(err: Option<string>)
      requires LifecycleValid() && abort.Pending?
      modifies this`abort, this`delivered
      ensures LifecycleValid()
      ensures abort == Answered
      ensures delivered == old(delivered)
                           + (if err.Some? then Notify(Failure(Remote(err.value))) else [])
                           + Notify(Failure(old(abort).cause))
    {
      var cause := abort.cause;
      if err.Some? {
        delivered := delivered + Notify(Failure(Remote(err.value)));
      }
      delivered := delivered + Notify(Failure(cause));
      abort := Answered;
    }

    /** `begin` (index.js:100-143): ignored once initiated, otherwise issues create-upload. */
    method Begin() returns (issued: bool)
      requires LifecycleValid()
      modifies this`createRequests
      ensures LifecycleValid()
      ensures issued == !initiated
      ensures createRequests == old(createRequests) + (if issued then 1 else 0)
    {
      if initiated {
        return false;
      }
      createRequests := createRequests + 1;
      issued := true;
    }

    /**
     * The create-upload answer (index.js:125-141): an error or a missing
     * UploadId goes to the error handler; otherwise the id is stored, the
     * session is initiated and the stream handlers are attached.
     */
    method OnCreateResponse(resp: CreateResponse)
      requires LifecycleValid() && createRequests > 0
      modifies this`createRequests, this`uploadId, this`initiated,
               this`waiting, this`reading, this`failed, this`listening, this`waitingTimer,
               this`acknowledgeTimer, this`abort, this`delivered
      ensures LifecycleValid()
      ensures createRequests == old(createRequests) - 1
      ensures resp.CreateFailed? ==> Raised(Remote(resp.code))
      ensures resp.Created? && !Truthy(resp.uploadId) ==> Raised(MissingUploadId)
      ensures !(resp.Created? && Truthy(resp.uploadId)) ==> uploadId == old(uploadId) && initiated == old(initiated)
      ensures resp.Created? && Truthy(resp.uploadId) ==>
                && uploadId == resp.uploadId && initiated
                && listening == (old(listening) || hasStream)
                && reading == old(reading) && failed == old(failed) && abort == old(abort)
                && delivered == old(delivered) && waiting == old(waiting)
                && waitingTimer == old(waitingTimer) && acknowledgeTimer == old(acknowledgeTimer)
    {
      createRequests := createRequests - 1;
      match resp
      case CreateFailed(code) =>
        OnError(Remote(code));
      case Created(id) =>
        if !Truthy(id) {
          OnError(MissingUploadId);
        } else {
          uploadId := id;
          initiated := true;
          listening := listening || hasStream;
        }
    }

    /**
     * The data handler (index.js:107-114): the fragment is appended to the
     * buffer, and one part is cut when the buffer has reached `maxPartSize`.
     */
    method OnData(fragment: seq<bv8>) returns (batch: Option<Batch>)
      requires Valid() && listening && !streamEnded
      modifies this`reading, this`received, this`buffer, this`bufferIsNull, this`cut,
               this`totalChunks, this`chunks
      ensures DataValid()
      ensures reading && received == old(received) + fragment
      ensures var grown := old(buffer) + fragment;
              if |grown| >= options.maxPartSize then
                var (ps, rest) := Flush(grown, options.maxPartSize, false);
                && cut == old(cut) + ps && buffer == rest && !bufferIsNull
                && totalChunks == old(totalChunks) + 1
                && chunks == Unfinished(old(chunks) + FreshParts(old(totalChunks) + 1, ps))
                && batch == Some(Batch(NumberSeq(chunks), false))
              else
                && buffer == grown && cut == old(cut) && totalChunks == old(totalChunks)
                && chunks == old(chunks) && batch.None? && !bufferIsNull
    {
      ghost var received' := received + fragment;
      var buffer' := buffer + fragment;
      GrowKeepsChunker(options.maxPartSize, cut, buffer, received, bufferIsNull, streamEnded, totalChunks,
                       fragment, buffer', received');
      reading, received, buffer := true, received', buffer';
      if |buffer| >= options.maxPartSize {
        batch := FlushChunk();
      } else {
        batch := None;
      }
    }

    /** The end handler (index.js:116-119): the buffer is flushed with `reading` false. */
    method OnEnd() returns (batch: Option<Batch>)
      requires Valid() && listening && !streamEnded
      modifies this`reading, this`streamEnded, this`buffer, this`bufferIsNull, this`cut,
               this`totalChunks, this`chunks
      ensures DataValid()
      ensures !reading && streamEnded
      ensures buffer == []
      ensures var (ps, _) := Flush(old(buffer), options.maxPartSize, true);
              && cut == old(cut) + ps && bufferIsNull == (|ps| == 2)
              && totalChunks == old(totalChunks) + |ps|
              && chunks == Unfinished(old(chunks) + FreshParts(old(totalChunks) + 1, ps))
              && batch == Some(Batch(NumberSeq(chunks), true))
    {
      EndKeepsChunker(options.maxPartSize, cut, buffer, received, bufferIsNull, totalChunks);
      reading, streamEnded := false, true;
      batch := FlushChunk();
    }

    /** The stream's error handler (index.js:103-105). */
    method OnStreamError(code: string)
      requires LifecycleValid() && listening
      modifies this`waiting, this`reading, this`failed, this`listening, this`waitingTimer,
               this`acknowledgeTimer, this`abort, this`delivered
      ensures LifecycleValid()
      ensures Raised(Remote(code))
    {
      OnError(Remote(code));
    }

    /**
     * `flushChunk` (index.js:145-175): nothing before initiation; otherwise
     * one cut as `Flush` describes, the new parts queued with consecutive
     * numbers, and the queue handed to `sendToS3`.
     */
    method FlushChunk() returns (batch: Option<Batch>)
      requires DataValid() && !bufferIsNull
      requires reading <==> !streamEnded
      requires reading ==> |buffer| >= options.maxPartSize
      modifies this`buffer, this`bufferIsNull, this`cut, this`totalChunks, this`chunks
      ensures DataValid()
      ensures !initiated ==> && buffer == old(buffer) && !bufferIsNull && cut == old(cut)
                             && totalChunks == old(totalChunks) && chunks == old(chunks) && batch.None?
      ensures initiated ==>
                var ps := Flush(old(buffer), options.maxPartSize, !reading).0;
                && cut == old(cut) + ps && totalChunks == old(totalChunks) + |ps|
                && buffer == Flush(old(buffer), options.maxPartSize, !reading).1
                && bufferIsNull == (|ps| == 2)
                && chunks == Unfinished(old(chunks) + FreshParts(old(totalChunks) + 1, ps))
                && batch == Some(Batch(NumberSeq(chunks), !reading))
    {
      if !initiated {
        return None;
      }
      var ps := CutBuffer();
      batch := SendToS3();
    }

    /**
     * The cut itself (index.js:147-172): the first `maxPartSize` bytes, or the
     * whole buffer, are queued as a part; at end of stream a non-empty
     * remainder is queued as one more part and the buffer becomes null.
     */
    method CutBuffer() returns (ps: seq<seq<bv8>>)
      requires DataValid() && !bufferIsNull && initiated
      requires reading <==> !streamEnded
      requires reading ==> |buffer| >= options.maxPartSize
      modifies this`buffer, this`bufferIsNull, this`cut, this`totalChunks, this`chunks
      ensures DataValid()
      ensures (ps, buffer) == Flush(old(buffer), options.maxPartSize, !reading)
      ensures cut == old(cut) + ps && totalChunks == old(totalChunks) + |ps| && bufferIsNull == (|ps| == 2)
      ensures chunks == old(chunks) + FreshParts(old(totalChunks) + 1, ps)
    {
      var max := options.maxPartSize;
      var first := if |buffer| > max then buffer[..max] else buffer;
      var rest := if |buffer| > max then buffer[max..] else [];
      assert first + rest == buffer;
      PushPart(first, rest, false);
      ps := [first];
      if !reading && buffer != [] {
        PushPart(buffer, [], true);
        ps := [first, rest];
      }
    }

    /** Queues one part cut from the front of the buffer (index.js:157-161, 165-170). */
    method PushPart(part: seq<bv8>, rest: seq<bv8>, isNull: bool)
      requires DataValid() && !bufferIsNull
      requires part + rest == buffer
      requires !streamEnded ==> |part| == options.maxPartSize
      requires isNull ==> rest == [] && streamEnded
      modifies this`buffer, this`bufferIsNull, this`cut, this`totalChunks, this`chunks
      ensures DataValid()
      ensures buffer == rest && bufferIsNull == isNull
      ensures cut == old(cut) + [part] && totalChunks == old(totalChunks) + 1
      ensures chunks == old(chunks) + FreshParts(old(totalChunks) + 1, [part])
    {
      var queued := chunks + FreshParts(totalChunks + 1, [part]);
      PushKeepsChunker(options.maxPartSize, cut, buffer, received, streamEnded, totalChunks, part, rest, isNull);
      QueueAppendKeeps(chunks, options.retries, totalChunks, cut, uploadedChunks, attempts, inFlight, [part],
                       queued, totalChunks + 1, cut + [part]);
      chunks, cut, totalChunks, buffer, bufferIsNull := queued, cut + [part], totalChunks + 1, rest, isNull;
    }

    /** `sendToS3` (index.js:219-238): evicts the finished parts and starts one batch over the rest. */
    method SendToS3() returns (batch: Option<Batch>)
      requires DataValid()
      modifies this`chunks
      ensures DataValid()
      ensures old(chunks) == [] ==> chunks == [] && batch.None?
      ensures old(chunks) != [] ==> chunks == Unfinished(old(chunks)) && batch == Some(Batch(NumberSeq(chunks), !reading))
    {
      if chunks == [] {
        return None;
      }
      var kept := Unfinished(chunks);
      QueueFilterKeeps(chunks, options.retries, totalChunks, cut, uploadedChunks, attempts, inFlight, kept);
      chunks := kept;
      batch := Some(Batch(NumberSeq(chunks), !reading));
    }

    /**
     * `uploadChunk` (index.js:181-186): a failed session, a part that is
     * already uploading (a finished part, evicted from the queue, was
     * uploading too) and a part without a number are skipped; otherwise the
     * part is marked uploading and one upload-part request is issued for it.
     */
    method UploadChunk(n: nat) returns (started: bool)
      requires DataValid()
      modifies this`chunks, this`inFlight, this`attempts
      ensures DataValid()
      ensures var i := Find(old(chunks), n);
              started <==> !failed && i >= 0 && !old(chunks)[i].uploading && n != 0
      ensures started ==>
                var i := Find(old(chunks), n);
                && chunks == old(chunks)[i := old(chunks)[i].(uploading := true)]
                && inFlight == old(inFlight) + {n}
                && attempts == old(attempts)[n := AttemptsIn(old(attempts), n) + 1]
      ensures !started ==> chunks == old(chunks) && inFlight == old(inFlight) && attempts == old(attempts)
    {
      var i := Find(chunks, n);
      if failed || i < 0 || chunks[i].uploading || n == 0 {
        return false;
      }
      var q := chunks[i].(uploading := true);
      ghost var attempts' := attempts[n := AttemptsIn(attempts, n) + 1];
      assert PartInvAt(chunks, i, options.retries, totalChunks, cut, uploadedChunks, attempts, inFlight);
      ReplaceKeeps(chunks, options.retries, totalChunks, cut, uploadedChunks, attempts, inFlight,
                   i, q, uploadedChunks, attempts', inFlight + {n});
      chunks, inFlight, attempts := chunks[i := q], inFlight + {n}, attempts';
      started := true;
    }

    /**
     * The upload-part answer (index.js:198-214). A `RequestTimeout` with
     * retries left clears `uploading`, counts the retry and sends the part
     * again; any other error, or a timeout with no retries left, ends the
     * part with that error and leaves it marked uploading. A success without
     * an ETag is an error; with one, the ETag is recorded and the part is
     * finished. The session's `failed` latch is not consulted here.
     */
    method OnUploadPartResponse(n: nat, resp: PartResponse) returns (step: Step)
      requires DataValid() && n in inFlight
      modifies this`chunks, this`uploadedChunks, this`inFlight, this`attempts
      ensures DataValid()
      ensures var i := Find(old(chunks), n);
              var p := old(chunks)[i];
              match resp
              case PartUploaded(etag) =>
                && inFlight == old(inFlight) - {n} && attempts == old(attempts)
                && if Truthy(etag) then
                     && step == Next(None)
                     && chunks == old(chunks)[i := p.(finished := true)]
                     && uploadedChunks == old(uploadedChunks)[n := etag.value]
                   else
                     && step == Next(Some(MissingPartETag))
                     && chunks == old(chunks) && uploadedChunks == old(uploadedChunks)
              case PartFailed(code) =>
                && uploadedChunks == old(uploadedChunks)
                && if code == RequestTimeout && p.retries < options.retries then
                     if failed then
                       && step == Next(None)
                       && chunks == old(chunks)[i := p.(uploading := false, retries := p.retries + 1)]
                       && inFlight == old(inFlight) - {n} && attempts == old(attempts)
                     else
                       && step == Reissued
                       && chunks == old(chunks)[i := p.(uploading := true, retries := p.retries + 1)]
                       && inFlight == old(inFlight)
                       && attempts == old(attempts)[n := AttemptsIn(old(attempts), n) + 1]
                   else
                     && step == Next(Some(Remote(code)))
                     && chunks == old(chunks) && inFlight == old(inFlight) - {n} && attempts == old(attempts)
    {
      var i := Find(chunks, n);
      var p := chunks[i];
      match resp
      case PartUploaded(etag) =>
        if !Truthy(etag) {
          EndAttempt(n);
          return Next(Some(MissingPartETag));
        }
        RecordPart(n, etag.value);
        step := Next(None);
      case PartFailed(code) =>
        if code == RequestTimeout && p.retries < options.retries {
          step := Retry(n);
        } else {
          EndAttempt(n);
          step := Next(Some(Remote(code)));
        }
    }

    /**
     * The retry itself (index.js:202-205): the part is marked not uploading,
     * its retry counted, and `uploadChunk` called again, which sends it
     * unless the session has failed in the meantime.
     */
    method Retry(n: nat) returns (step: Step)
      requires DataValid() && n in inFlight
      requires chunks[Find(chunks, n)].retries < options.retries
      modifies this`chunks, this`inFlight, this`attempts
      ensures DataValid()
      ensures var i := Find(old(chunks), n);
              var p := old(chunks)[i];
              if failed then
                && step == Next(None)
                && chunks == old(chunks)[i := p.(uploading := false, retries := p.retries + 1)]
                && inFlight == old(inFlight) - {n} && attempts == old(attempts)
              else
                && step == Reissued
                && chunks == old(chunks)[i := p.(uploading := true, retries := p.retries + 1)]
                && inFlight == old(inFlight)
                && attempts == old(attempts)[n := AttemptsIn(old(attempts), n) + 1]
    {
      var i := Find(chunks, n);
      var p := chunks[i];
      assert PartInvAt(chunks, i, options.retries, totalChunks, cut, uploadedChunks, attempts, inFlight);
      ghost var chunks0, inFlight0 := chunks, inFlight;
      PrepareRetry(n);
      ghost var chunks1 := chunks;
      var started := UploadChunk(n);
      if started {
        assert chunks == chunks1[i := chunks1[i].(uploading := true)];
        assert chunks == chunks0[i := p.(uploading := true, retries := p.retries + 1)];
        assert inFlight == inFlight0 - {n} + {n} == inFlight0;
        step := Reissued;
      } else {
        step := Next(None);
      }
    }

    /** An answer that ends the part's attempt without finishing it: only the pending request is gone. */
    method EndAttempt(n: nat)
      requires DataValid() && n in inFlight
      modifies this`inFlight
      ensures DataValid()
      ensures inFlight == old(inFlight) - {n}
    {
      var i := Find(chunks, n);
      var p := chunks[i];
      assert PartInvAt(chunks, i, options.retries, totalChunks, cut, uploadedChunks, attempts, inFlight);
      assert chunks[i := p] == chunks;
      ReplaceKeeps(chunks, options.retries, totalChunks, cut, uploadedChunks, attempts, inFlight,
                   i, p, uploadedChunks, attempts, inFlight - {n});
      inFlight := inFlight - {n};
    }

    /** A successful upload (index.js:210-213): the ETag is recorded under the part's number and the part is finished. */
    method RecordPart(n: nat, etag: string)
      requires DataValid() && n in inFlight && etag != ""
      modifies this`chunks, this`uploadedChunks, this`inFlight
      ensures DataValid()
      ensures var i := Find(old(chunks), n);
              && chunks == old(chunks)[i := old(chunks)[i].(finished := true)]
              && uploadedChunks == old(uploadedChunks)[n := etag]
              && inFlight == old(inFlight) - {n}
    {
      var i := Find(chunks, n);
      var q := chunks[i].(finished := true);
      var uploaded' := uploadedChunks[n := etag];
      assert PartInvAt(chunks, i, options.retries, totalChunks, cut, uploadedChunks, attempts, inFlight);
      ReplaceKeeps(chunks, options.retries, totalChunks, cut, uploadedChunks, attempts, inFlight,
                   i, q, uploaded', attempts, inFlight - {n});
      chunks, uploadedChunks, inFlight := chunks[i := q], uploaded', inFlight - {n};
    }

    /** A timeout with retries left (index.js:202-205): `uploading` is cleared and the retry counted. */
    method PrepareRetry(n: nat)
      requires DataValid() && n in inFlight
      requires chunks[Find(chunks, n)].retries < options.retries
      modifies this`chunks, this`inFlight
      ensures DataValid()
      ensures var i := Find(old(chunks), n);
              && chunks == old(chunks)[i := old(chunks)[i].(uploading := false, retries := old(chunks)[i].retries + 1)]
              && inFlight == old(inFlight) - {n}
              && Find(chunks, n) == i
    {
      var i := Find(chunks, n);
      var p := chunks[i];
      var q := p.(uploading := false, retries := p.retries + 1);
      assert PartInvAt(chunks, i, options.retries, totalChunks, cut, uploadedChunks, attempts, inFlight);
      ReplaceKeeps(chunks, options.retries, totalChunks, cut, uploadedChunks, attempts, inFlight,
                   i, q, uploadedChunks, attempts, inFlight - {n});
      chunks, inFlight := chunks[i := q], inFlight - {n};
      FindUnique(chunks, i);
    }

    /**
     * The final callback of one batch (index.js:228-235): nothing once the
     * session has failed; an error goes to the error handler; otherwise the
     * session is waiting, and a batch that started after the end of the
     * stream schedules `finish` (the 500 ms timeout, whose firing is a call
     * to `Finish`).
     */
    method OnBatchDone(batch: Batch, err: Option<Error>) returns (scheduleFinish: bool)
      requires LifecycleValid()
      modifies this`waiting, this`reading, this`failed, this`listening, this`waitingTimer,
               this`acknowledgeTimer, this`abort, this`delivered
      ensures LifecycleValid()
      ensures scheduleFinish <==> !old(failed) && err.None? && batch.finishedReading
      ensures old(failed) ==>
                && Quiet() && waiting == old(waiting)
                && waitingTimer == old(waitingTimer) && acknowledgeTimer == old(acknowledgeTimer)
      ensures !old(failed) && err.Some? ==> Raised(err.value)
      ensures !old(failed) && err.None? ==>
                && waiting && Quiet()
                && waitingTimer == old(waitingTimer) && acknowledgeTimer == old(acknowledgeTimer)
    {
      if failed {
        return false;
      }
      if err.Some? {
        OnError(err.value);
        return false;
      }
      waiting := true;
      scheduleFinish := batch.finishedReading;
    }

    /**
     * `finish` (index.js:242-314): nothing once failed; an error without an
     * upload id; nothing once finished. Otherwise the parts are listed, the
     * wait timer is armed if it was never set and `waitTime` is not zero,
     * and the acknowledge interval is armed if it was never set.
     */
    method Finish() returns (listRequested: bool)
      requires LifecycleValid()
      modifies this`listRequests,
               this`waiting, this`reading, this`failed, this`listening, this`waitingTimer,
               this`acknowledgeTimer, this`abort, this`delivered
      ensures LifecycleValid()
      ensures listRequested <==> !old(failed) && old(uploadId).Some? && !finished
      ensures listRequests == old(listRequests) + (if listRequested then 1 else 0)
      ensures !old(failed) && old(uploadId).None? ==> Raised(NoUploadIdSet)
      ensures !(!old(failed) && old(uploadId).None?) ==> Quiet() && waiting == old(waiting)
      ensures !listRequested && !(!old(failed) && old(uploadId).None?) ==>
                waitingTimer == old(waitingTimer) && acknowledgeTimer == old(acknowledgeTimer)
      ensures listRequested ==>
                && waitingTimer == (if old(waitingTimer) == Unset && options.waitTime != 0 then Armed else old(waitingTimer))
                && acknowledgeTimer == (if old(acknowledgeTimer) == Unset then Armed else old(acknowledgeTimer))
    {
      if failed {
        return false;
      }
      if uploadId.None? {
        OnError(NoUploadIdSet);
        return false;
      }
      if finished {
        return false;
      }
      listRequests := listRequests + 1;
      if waitingTimer == Unset && options.waitTime != 0 {
        waitingTimer := Armed;
      }
      if acknowledgeTimer == Unset {
        acknowledgeTimer := Armed;
      }
      listRequested := true;
    }

    /**
     * The wait timer fires (index.js:304-309): the timer is spent, and a
     * session still waiting fails with the acknowledge timeout.
     */
    method OnWaitTimerFired()
      requires LifecycleValid() && waitingTimer == Armed
      modifies this`waiting, this`reading, this`failed, this`listening, this`waitingTimer,
               this`acknowledgeTimer, this`abort, this`delivered
      ensures LifecycleValid()
      ensures waitingTimer == Stopped
      ensures old(waiting) ==> Raised(AckTimeout)
      ensures !old(waiting) ==> Quiet() && !waiting && acknowledgeTimer == old(acknowledgeTimer)
    {
      waitingTimer := Stopped;
      if waiting {
        OnError(AckTimeout);
      }
    }

    /**
     * One tick of the acknowledge interval (index.js:313): `finish` again.
     * The interval keeps running until it is cleared.
     */
    method OnAcknowledgeTick() returns (listRequested: bool)
      requires LifecycleValid() && acknowledgeTimer == Armed
      modifies this`listRequests,
               this`waiting, this`reading, this`failed, this`listening, this`waitingTimer,
               this`acknowledgeTimer, this`abort, this`delivered
      ensures LifecycleValid()
      ensures listRequested <==> old(uploadId).Some? && !finished
      ensures listRequests == old(listRequests) + (if listRequested then 1 else 0)
      ensures old(uploadId).None? ==> Raised(NoUploadIdSet)
      ensures old(uploadId).Some? ==>
                && Quiet() && waiting == old(waiting) && acknowledgeTimer == Armed
                && waitingTimer == (if !finished && old(waitingTimer) == Unset && options.waitTime != 0 then Armed
                                    else old(waitingTimer))
    {
      listRequested := Finish();
    }

    /**
     * The list-parts answer (index.js:251-299): an error, a missing `Parts`
     * or the first listed part that fails its check goes to the error
     * handler, after a count test that never defers. Otherwise the
     * completion list is built from the recorded ETags and complete-upload
     * is requested with it. The `failed` latch is not consulted, and parts
     * the listing omits are not noticed.
     */
    method OnListPartsResponse(resp: ListResponse) returns (completion: Option<seq<CompletedPart>>)
      requires LifecycleValid() && listRequests > 0
      modifies this`listRequests, this`completeRequests,
               this`waiting, this`reading, this`failed, this`listening, this`waitingTimer,
               this`acknowledgeTimer, this`abort, this`delivered
      ensures LifecycleValid()
      ensures listRequests == old(listRequests) - 1
      ensures completeRequests == old(completeRequests) + (if completion.Some? then 1 else 0)
      ensures match resp
              case ListFailed(code) => completion.None? && Raised(Remote(code))
              case Listed(parts) =>
                if parts.None? then completion.None? && Raised(MissingParts)
                else if ListingCheck(parts.value, uploadedChunks).Some? then
                  completion.None? && Raised(ListingCheck(parts.value, uploadedChunks).value)
                else
                  && completion.Some? && IsCompletionList(completion.value, uploadedChunks)
                  && Quiet() && waiting == old(waiting)
                  && waitingTimer == old(waitingTimer) && acknowledgeTimer == old(acknowledgeTimer)
    {
      listRequests := listRequests - 1;
      match resp
      case ListFailed(code) =>
        OnError(Remote(code));
        completion := None;
      case Listed(parts) =>
        if parts.None? {
          OnError(MissingParts);
          return None;
        }
        if CountTestDefers(parts.value) {
          return None;
        }
        var problem := CheckListing(parts.value, uploadedChunks);
        if problem.Some? {
          OnError(problem.value);
          return None;
        }
        var list := CompletionList(uploadedChunks);
        completeRequests := completeRequests + 1;
        completion := Some(list);
    }

    /**
     * The complete-upload answer (index.js:288-297): an error or a missing
     * ETag goes to the error handler; otherwise both timers are cleared, the
     * session is finished and the callback gets the result. The `failed`
     * latch is not consulted.
     */
    method OnCompleteResponse(resp: CompleteResponse)
      requires LifecycleValid() && completeRequests > 0
      modifies this`completeRequests, this`finished,
               this`waiting, this`reading, this`failed, this`listening, this`waitingTimer,
               this`acknowledgeTimer, this`abort, this`delivered
      ensures LifecycleValid()
      ensures completeRequests == old(completeRequests) - 1
      ensures resp.CompleteFailed? ==> Raised(Remote(resp.code)) && finished == old(finished)
      ensures resp.Completed? && !Truthy(resp.etag) ==> Raised(MissingFileETag) && finished == old(finished)
      ensures resp.Completed? && Truthy(resp.etag) ==>
                && finished && !waiting
                && waitingTimer == Cleared(old(waitingTimer)) && acknowledgeTimer == Cleared(old(acknowledgeTimer))
                && delivered == old(delivered) + Notify(Success(resp.etag.value))
                && reading == old(reading) && failed == old(failed) && listening == old(listening)
                && abort == old(abort)
    {
      completeRequests := completeRequests - 1;
      match resp
      case CompleteFailed(code) =>
        OnError(Remote(code));
      case Completed(etag) =>
        if !Truthy(etag) {
          OnError(MissingFileETag);
          return;
        }
        acknowledgeTimer, waitingTimer := Cleared(acknowledgeTimer), Cleared(waitingTimer);
        waiting, finished := false, true;
        delivered := delivered + Notify(Success(etag.value));
    }
  }
}
