/**
 * The reconciliation step of `finish`: the check of the remote part listing
 * against the recorded ETags (index.js:257-272) and the ordered part list
 * handed to the commit (index.js:275-285).
 */
module Reconcile {
  import opened Wrappers
  import opened Remote

  /** One entry of the commit request: a part number and its ETag. */
  datatype CompletedPart = CompletedPart(partNumber: nat, etag: string)

  /** A listed part passes the check: it has an ETag and a number, and the ETag is the one recorded for that number. */
  predicate Matches(p: ListedPart, uploaded: map<nat, string>)
  {
    && Truthy(p.etag)
    && TruthyNumber(p.partNumber)
    && p.partNumber.value in uploaded
    && uploaded[p.partNumber.value] == p.etag.value
  }

  /** The three assertions on one listed part, in the order the loop makes them. */
  function PartCheck(p: ListedPart, uploaded: map<nat, string>): (r: Option<Error>)
    ensures r.None? <==> Matches(p, uploaded)
    ensures r == Some(MissingListedETag) <==> !Truthy(p.etag)
    ensures r == Some(MissingListedPartNumber) <==> Truthy(p.etag) && !TruthyNumber(p.partNumber)
    ensures r.Some? ==> r.value in {MissingListedETag, MissingListedPartNumber, ETagMismatch}
  {
    if !Truthy(p.etag) then Some(MissingListedETag)
    else if !TruthyNumber(p.partNumber) then Some(MissingListedPartNumber)
    else if p.partNumber.value !in uploaded || uploaded[p.partNumber.value] != p.etag.value then Some(ETagMismatch)
    else None
  }

  /** The outcome of the listing loop: the error of the first listed part that fails, or None. */
  function ListingCheck(parts: seq<ListedPart>, uploaded: map<nat, string>): Option<Error>
  {
    if parts == [] then None
    else if PartCheck(parts[0], uploaded).Some? then PartCheck(parts[0], uploaded)
    else ListingCheck(parts[1..], uploaded)
  }

  /** The listing passes exactly when every listed part matches the record. */
  lemma {:induction false} ListingCheckPassesIff(parts: seq<ListedPart>, uploaded: map<nat, string>)
    ensures ListingCheck(parts, uploaded).None? <==> forall i :: 0 <= i < |parts| ==> Matches(parts[i], uploaded)
  {
    if parts != [] {
      ListingCheckPassesIff(parts[1..], uploaded);
      assert forall i :: 1 <= i < |parts| ==> parts[i] == parts[1..][i - 1];
    }
  }

  /** A failing listing reports the error of its first failing part. */
  lemma {:induction false} ListingCheckReportsFirstFailure(parts: seq<ListedPart>, uploaded: map<nat, string>)
    requires ListingCheck(parts, uploaded).Some?
    ensures exists i :: 0 <= i < |parts|
              && PartCheck(parts[i], uploaded) == ListingCheck(parts, uploaded)
              && forall j :: 0 <= j < i ==> Matches(parts[j], uploaded)
  {
    if PartCheck(parts[0], uploaded).None? {
      ListingCheckReportsFirstFailure(parts[1..], uploaded);
      var i :| 0 <= i < |parts[1..]|
               && PartCheck(parts[1..][i], uploaded) == ListingCheck(parts[1..], uploaded)
               && forall j :: 0 <= j < i ==> Matches(parts[1..][j], uploaded);
      assert forall j :: 0 <= j < i + 1 ==> Matches(parts[j], uploaded) by {
        forall j | 0 <= j < i + 1 ensures Matches(parts[j], uploaded) {
          if j > 0 { assert parts[j] == parts[1..][j - 1]; }
        }
      }
      assert PartCheck(parts[i + 1], uploaded) == ListingCheck(parts, uploaded);
    } else {
      assert PartCheck(parts[0], uploaded) == ListingCheck(parts, uploaded);
    }
  }

  /**
   * Parts missing from the listing never make the check fail: every listing
   * made of entries of a passing listing passes too, the empty one included.
   */
  lemma OmittedPartsStillPass(parts: seq<ListedPart>, sub: seq<ListedPart>, uploaded: map<nat, string>)
    requires ListingCheck(parts, uploaded).None?
    requires forall q :: q in sub ==> q in parts
    ensures ListingCheck(sub, uploaded).None?
  {
    ListingCheckPassesIff(parts, uploaded);
    ListingCheckPassesIff(sub, uploaded);
    forall i | 0 <= i < |sub| ensures Matches(sub[i], uploaded) {
      assert sub[i] in parts;
    }
  }

  /**
   * The count test (index.js:257-258): `totalParts` was just set to the
   * listing's length, so the test compares that length with itself.
   */
  function CountTestDefers(parts: seq<ListedPart>): bool
  {
    var totalParts := |parts|;
    totalParts != |parts|
  }

  /** The count test never postpones the check to a later poll. */
  lemma CountTestNeverDefers(parts: seq<ListedPart>)
    ensures !CountTestDefers(parts)
  {
  }

  /** The listing loop (index.js:260-272), stopping at the first failing part. */
  method CheckListing(parts: seq<ListedPart>, uploaded: map<nat, string>) returns (r: Option<Error>)
    ensures r == ListingCheck(parts, uploaded)
  {
    var i := 0;
    while i < |parts|
      invariant 0 <= i <= |parts|
      invariant ListingCheck(parts, uploaded) == ListingCheck(parts[i..], uploaded)
    {
      var part := parts[i];
      assert parts[i..][1..] == parts[i + 1..];
      if !Truthy(part.etag) {
        return Some(MissingListedETag);
      }
      if !TruthyNumber(part.partNumber) {
        return Some(MissingListedPartNumber);
      }
      if part.partNumber.value !in uploaded || uploaded[part.partNumber.value] != part.etag.value {
        return Some(ETagMismatch);
      }
      i := i + 1;
    }
    r := None;
  }

  /** `list` holds every recorded part exactly once with its ETag, in ascending part-number order. */
  ghost predicate IsCompletionList(list: seq<CompletedPart>, uploaded: map<nat, string>)
  {
    && (forall i, j :: 0 <= i < j < |list| ==> list[i].partNumber < list[j].partNumber)
    && (forall i :: 0 <= i < |list| ==> list[i].partNumber in uploaded && uploaded[list[i].partNumber] == list[i].etag)
    && uploaded.Keys <= CompletedNumbers(list)
  }

  function CompletedNumbers(list: seq<CompletedPart>): set<nat>
  {
    set i | 0 <= i < |list| :: list[i].partNumber
  }

  lemma CompletedNumbersAppend(list: seq<CompletedPart>, c: CompletedPart)
    ensures CompletedNumbers(list + [c]) == CompletedNumbers(list) + {c.partNumber}
  {
    var l2 := list + [c];
    assert l2[|list|] == c;
    forall m | m in CompletedNumbers(list) ensures m in CompletedNumbers(l2) {
      var i :| 0 <= i < |list| && list[i].partNumber == m;
      assert l2[i] == list[i];
    }
  }

  /** Every non-empty set of part numbers has a smallest element. */
  lemma {:induction false} Smallest(s: set<nat>) returns (m: nat)
    requires s != {}
    ensures m in s
    ensures forall x :: x in s ==> m <= x
    decreases |s|
  {
    var y :| y in s;
    if s == {y} {
      m := y;
    } else {
      var k := Smallest(s - {y});
      m := if y < k then y else k;
      forall x | x in s ensures m <= x {
        if x != y {
          assert x in s - {y};
        }
      }
    }
  }

  /**
   * What the key loop has built so far: the entries of the keys already
   * taken, in ascending order, each below every key still to come.
   */
  ghost predicate BuiltSoFar(list: seq<CompletedPart>, rest: set<nat>, uploaded: map<nat, string>)
  {
    && rest <= uploaded.Keys
    && (forall i, j :: 0 <= i < j < |list| ==> list[i].partNumber < list[j].partNumber)
    && (forall i :: 0 <= i < |list| ==> list[i].partNumber in uploaded && uploaded[list[i].partNumber] == list[i].etag)
    && (forall i, k :: 0 <= i < |list| && k in rest ==> list[i].partNumber < k)
    && uploaded.Keys - rest <= CompletedNumbers(list)
  }

  /** Taking the smallest remaining key keeps `BuiltSoFar`. */
  lemma TakeSmallest(list: seq<CompletedPart>, rest: set<nat>, uploaded: map<nat, string>, k: nat)
    requires BuiltSoFar(list, rest, uploaded)
    requires k in rest && forall x :: x in rest ==> k <= x
    ensures BuiltSoFar(list + [CompletedPart(k, uploaded[k])], rest - {k}, uploaded)
  {
    var c := CompletedPart(k, uploaded[k]);
    var list', rest' := list + [c], rest - {k};
    CompletedNumbersAppend(list, c);
    forall i, x | 0 <= i < |list'| && x in rest' ensures list'[i].partNumber < x {
      if i < |list| {
        assert list'[i] == list[i];
      }
    }
    forall i, j | 0 <= i < j < |list'| ensures list'[i].partNumber < list'[j].partNumber {
      if j < |list| {
        assert list'[i] == list[i] && list'[j] == list[j];
      } else {
        assert list'[i] == list[i];
      }
    }
  }

  /**
   * The `for (var key in self.uploadedChunks)` loop (index.js:283-285): the
   * keys of the sparse array come out in ascending order, each paired with
   * its ETag.
   */
  method CompletionList(uploaded: map<nat, string>) returns (list: seq<CompletedPart>)
    ensures IsCompletionList(list, uploaded)
  {
    list := [];
    var rest := uploaded.Keys;
    while rest != {}
      invariant BuiltSoFar(list, rest, uploaded)
      decreases |rest|
    {
      ghost var least := Smallest(rest);
      var k :| k in rest && forall x :: x in rest ==> k <= x;
      TakeSmallest(list, rest, uploaded, k);
      list := list + [CompletedPart(k, uploaded[k])];
      rest := rest - {k};
    }
  }

  lemma {:induction false} NumberAt(list: seq<CompletedPart>, uploaded: map<nat, string>, n: nat, i: nat)
    requires IsCompletionList(list, uploaded)
    requires forall k :: k in uploaded <==> 1 <= k <= n
    requires i < |list|
    ensures list[i].partNumber == i + 1
    decreases i
  {
    if i > 0 {
      NumberAt(list, uploaded, n, i - 1);
    }
    var m := list[i].partNumber;
    assert m >= i + 1;
    assert i + 1 in uploaded;
    var j :| 0 <= j < |list| && list[j].partNumber == i + 1;
    assert j >= i by {
      if i > 0 {
        assert list[i - 1].partNumber == i;
      }
    }
    assert m <= list[j].partNumber;
  }

  /**
   * When the record holds exactly the parts 1..n, the commit list is
   * exactly 1, 2, ..., n in that order: no gap, no duplicate.
   */
  lemma CompletionListIsOneToN(list: seq<CompletedPart>, uploaded: map<nat, string>, n: nat)
    requires IsCompletionList(list, uploaded)
    requires forall k :: k in uploaded <==> 1 <= k <= n
    ensures |list| == n
    ensures forall i :: 0 <= i < |list| ==> list[i].partNumber == i + 1
  {
    forall i | 0 <= i < |list| ensures list[i].partNumber == i + 1 {
      NumberAt(list, uploaded, n, i);
    }
    if |list| > 0 {
      assert list[|list| - 1].partNumber == |list|;
      assert |list| in uploaded;
    }
    if n > 0 {
      assert n in uploaded;
      var j :| 0 <= j < |list| && list[j].partNumber == n;
      assert j + 1 == n;
    }
  }
}
