/**
 * Parts cut from the input stream: each carries its number, its bytes and the
 * upload flags the scheduler sets on it. The functions here specify how the
 * chunker cuts the buffer and how the queue is filtered.
 */
module Parts {

  datatype Part = Part(number: nat, bytes: seq<bv8>, uploading: bool, finished: bool, retries: nat)

  /** All the bytes of a sequence of parts, first part first. */
  ghost function Concat(ps: seq<seq<bv8>>): seq<bv8>
  {
    if ps == [] then [] else Concat(ps[..|ps| - 1]) + ps[|ps| - 1]
  }

  /**
   * One call of the chunker's cut on `buffer` (index.js:145-172): the first
   * part is the first `max` bytes when the buffer is longer than `max`, and
   * the whole buffer otherwise. At end of stream, bytes left over after that
   * cut become one further part and nothing stays buffered.
   * Returns the parts cut, in order, and the bytes left in the buffer.
   */
  function Flush(buffer: seq<bv8>, max: nat, atEnd: bool): (r: (seq<seq<bv8>>, seq<bv8>))
    ensures 1 <= |r.0| <= 2
    ensures r.0[0] + (if |r.0| == 2 then r.0[1] else []) + r.1 == buffer
    ensures |r.0[0]| == if |buffer| > max then max else |buffer|
    ensures |buffer| <= max ==> r.1 == [] && |r.0| == 1
    ensures atEnd ==> r.1 == []
    ensures |r.0| == 2 <==> atEnd && |buffer| > max
    ensures !atEnd ==> |r.1| == |buffer| - |r.0[0]|
  {
    var first := if |buffer| > max then buffer[..max] else buffer;
    var rest := if |buffer| > max then buffer[max..] else [];
    if atEnd && rest != [] then
      ([first, rest], [])
    else
      ([first], rest)
  }

  /**
   * At end of stream an empty buffer is still cut into one part, which is
   * empty. The buffer is empty at the end of an empty stream, and when the
   * last data event cut it down to nothing.
   */
  lemma TrailingEmptyPart(max: nat)
    ensures Flush([], max, true) == ([[]], [])
  {
  }

  /**
   * A buffer of exactly `max` bytes at end of stream is cut whole, with no
   * empty part after it: a stream delivered in fragments that leave a full
   * part in the buffer ends without an empty part.
   */
  lemma FullBufferAtEnd(buffer: seq<bv8>, max: nat)
    requires |buffer| == max
    ensures Flush(buffer, max, true) == ([buffer], [])
  {
  }

  /** The parts a cut produces, joined, and the bytes it leaves are the buffer it was given. */
  lemma FlushConcat(buffer: seq<bv8>, max: nat, atEnd: bool)
    ensures Concat(Flush(buffer, max, atEnd).0) + Flush(buffer, max, atEnd).1 == buffer
  {
    var (ps, rest) := Flush(buffer, max, atEnd);
    assert Concat([ps[0]]) == ps[0] by {
      assert [ps[0]][..0] == [];
    }
    if |ps| == 2 {
      assert Concat(ps) == ps[0] + ps[1] by {
        assert ps[..1] == [ps[0]];
      }
    } else {
      assert ps == [ps[0]];
    }
  }

  /** The records for freshly cut parts, numbered consecutively from `first`. */
  function FreshParts(first: nat, bytes: seq<seq<bv8>>): (r: seq<Part>)
    ensures |r| == |bytes|
    ensures forall i :: 0 <= i < |r| ==> r[i] == Part(first + i, bytes[i], false, false, 0)
    decreases |bytes|
  {
    if bytes == [] then [] else [Part(first, bytes[0], false, false, 0)] + FreshParts(first + 1, bytes[1..])
  }

  /**
   * The number of the part at position `i`. `Ascending` is phrased through
   * it so that its quantifier is only used where a proof names it.
   */
  function NumberOf(cs: seq<Part>, i: nat): nat
    requires i < |cs|
  {
    cs[i].number
  }

  /** Part numbers strictly increase along the queue. */
  predicate Ascending(cs: seq<Part>)
  {
    forall i, j :: 0 <= i < j < |cs| ==> NumberOf(cs, i) < NumberOf(cs, j)
  }

  lemma AscendingAt(cs: seq<Part>, i: nat, j: nat)
    requires Ascending(cs) && i < j < |cs|
    ensures cs[i].number < cs[j].number
  {
    assert NumberOf(cs, i) < NumberOf(cs, j);
  }

  function NumberSet(cs: seq<Part>): set<nat>
  {
    set i | 0 <= i < |cs| :: cs[i].number
  }

  function NumberSeq(cs: seq<Part>): (r: seq<nat>)
    ensures |r| == |cs|
    ensures forall i :: 0 <= i < |cs| ==> r[i] == cs[i].number
  {
    if cs == [] then [] else [cs[0].number] + NumberSeq(cs[1..])
  }

  /**
   * The eviction filter of `sendToS3` (index.js:222-224): keeps exactly the
   * parts that are not finished, in their order.
   */
  function Unfinished(cs: seq<Part>): (r: seq<Part>)
    ensures forall p :: p in r <==> p in cs && !p.finished
    ensures |r| <= |cs|
  {
    if cs == [] then []
    else if cs[0].finished then Unfinished(cs[1..])
    else [cs[0]] + Unfinished(cs[1..])
  }

  /** The filter keeps the queue in number order. */
  lemma {:induction false} UnfinishedAscending(cs: seq<Part>)
    requires Ascending(cs)
    ensures Ascending(Unfinished(cs))
  {
    if cs != [] {
      var tail := cs[1..];
      forall i: nat, j: nat | i < j < |tail| ensures NumberOf(tail, i) < NumberOf(tail, j) {
        AscendingAt(cs, i + 1, j + 1);
      }
      UnfinishedAscending(tail);
      var rt := Unfinished(tail);
      if !cs[0].finished {
        var r := [cs[0]] + rt;
        forall i: nat, j: nat | i < j < |r| ensures NumberOf(r, i) < NumberOf(r, j) {
          if i == 0 {
            assert r[j] == rt[j - 1];
            assert rt[j - 1] in tail;
            var k :| 0 <= k < |tail| && tail[k] == r[j];
            AscendingAt(cs, 0, k + 1);
          } else {
            assert r[i] == rt[i - 1] && r[j] == rt[j - 1];
            AscendingAt(rt, i - 1, j - 1);
          }
        }
      }
    }
  }

  /** Every unfinished part keeps its number in the queue after the filter. */
  lemma UnfinishedNumbers(cs: seq<Part>)
    ensures forall j :: 0 <= j < |cs| && !cs[j].finished ==> cs[j].number in NumberSet(Unfinished(cs))
  {
    var r := Unfinished(cs);
    forall j | 0 <= j < |cs| && !cs[j].finished ensures cs[j].number in NumberSet(r) {
      assert cs[j] in r;
      var k :| 0 <= k < |r| && r[k] == cs[j];
    }
  }

  /** In a queue in number order, a part's number leads back to its own position. */
  lemma {:induction false} FindUnique(cs: seq<Part>, i: nat)
    requires Ascending(cs) && i < |cs|
    ensures Find(cs, cs[i].number) == i
  {
    var k := |cs| - 1;
    if i < k {
      AscendingAt(cs, i, k);
      var front := cs[..k];
      forall a: nat, b: nat | a < b < |front| ensures NumberOf(front, a) < NumberOf(front, b) {
        AscendingAt(cs, a, b);
      }
      assert front[i] == cs[i];
      FindUnique(front, i);
    }
  }

  /**
   * The position of the part numbered `n` in the queue, or -1. The source
   * reaches a part through the object it captured; numbers are unique in
   * the queue, so the number identifies that object.
   */
  function Find(cs: seq<Part>, n: nat): (i: int)
    ensures -1 <= i < |cs|
    ensures i >= 0 ==> cs[i].number == n
    ensures i < 0 <==> n !in NumberSet(cs)
  {
    if cs == [] then -1
    else if cs[|cs| - 1].number == n then |cs| - 1
    else
      var i := Find(cs[..|cs| - 1], n);
      assert NumberSet(cs) == NumberSet(cs[..|cs| - 1]) + {cs[|cs| - 1].number} by {
        forall m | m in NumberSet(cs) ensures m in NumberSet(cs[..|cs| - 1]) + {cs[|cs| - 1].number} {
          var j :| 0 <= j < |cs| && cs[j].number == m;
          if j < |cs| - 1 { assert cs[..|cs| - 1][j] == cs[j]; }
        }
      }
      i
  }
}
