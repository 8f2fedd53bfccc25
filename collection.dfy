/** A document collection seen as a sequence of records.  The store's
    single-document operations (`find_one`, `count_documents`,
    `replace_one` with upsert, `update_one`, `delete_one`) act on the FIRST
    record that satisfies a filter; a filter is any predicate on records. */
module Collection {

  datatype Option<T> = None | Some(value: T)

  /** A transport or storage failure reported by the store. */
  datatype StoreError = TransportFailure

  datatype Result<T> = Ok(value: T) | Err(error: StoreError)

  /** `UpdateResult` of the driver: how many records matched the filter and
      how many were actually changed by the update. */
  datatype UpdateResult = UpdateResult(matchedCount: nat, modifiedCount: nat)

  /** `DeleteResult` of the driver. */
  datatype DeleteResult = DeleteResult(deletedCount: nat)

  /** Index of the first record satisfying `p`, if any. */
  function FirstIndex<T>(s: seq<T>, p: T -> bool): (r: Option<nat>)
    ensures r.Some? ==> r.value < |s| && p(s[r.value])
    ensures r.Some? ==> forall j :: 0 <= j < r.value ==> !p(s[j])
    ensures r.None? ==> forall j :: 0 <= j < |s| ==> !p(s[j])
  {
    if |s| == 0 then None
    else if p(s[0]) then Some(0)
    else match FirstIndex(s[1..], p)
      case None => None
      case Some(i) => Some(i + 1)
  }

  /** Conversely, an index holding a match preceded by no match is the
      first index. */
  lemma {:induction false} FirstIndexAt<T>(s: seq<T>, p: T -> bool, i: nat)
    requires i < |s| && p(s[i]) && forall j :: 0 <= j < i ==> !p(s[j])
    ensures FirstIndex(s, p) == Some(i)
  {
    if i != 0 {
      FirstIndexAt(s[1..], p, i - 1);
    }
  }

  /** `find_one`: the first matching record. */
  function FindOne<T>(s: seq<T>, p: T -> bool): (r: Option<T>)
    ensures r.Some? ==> r.value in s && p(r.value)
    ensures r.None? <==> forall j :: 0 <= j < |s| ==> !p(s[j])
  {
    match FirstIndex(s, p)
    case None => None
    case Some(i) => Some(s[i])
  }

  /** `count_documents`: the number of matching records. */
  function CountMatching<T>(s: seq<T>, p: T -> bool): (r: nat)
    ensures r <= |s|
  {
    if |s| == 0 then 0 else (if p(s[0]) then 1 else 0) + CountMatching(s[1..], p)
  }

  lemma {:induction false} CountNonZeroIffAny<T>(s: seq<T>, p: T -> bool)
    ensures CountMatching(s, p) != 0 <==> exists i :: 0 <= i < |s| && p(s[i])
  {
    if |s| != 0 {
      CountNonZeroIffAny(s[1..], p);
      if !p(s[0]) && exists i :: 0 <= i < |s| && p(s[i]) {
        var i :| 0 <= i < |s| && p(s[i]);
        assert p(s[1..][i - 1]);
      }
    }
  }

  /** `replace_one(filter, x, upsert = true)`: the first match is replaced
      by `x`; with no match `x` is inserted at the end. */
  function ReplaceOneUpsert<T(==)>(s: seq<T>, p: T -> bool, x: T): (r: (seq<T>, UpdateResult))
    ensures r.1.matchedCount <= 1 && r.1.modifiedCount <= r.1.matchedCount
    ensures r.1.matchedCount == 0 <==> forall j :: 0 <= j < |s| ==> !p(s[j])
    ensures r.1.matchedCount == 0 ==> r.0 == s + [x]
    ensures r.1.matchedCount == 1 ==> |r.0| == |s| && x in r.0
    ensures r.1.matchedCount == 1 ==>
      exists i :: 0 <= i < |s| && p(s[i]) && (forall j :: 0 <= j < i ==> !p(s[j]))
                  && r.0 == s[i := x] && (r.1.modifiedCount == 1 <==> s[i] != x)
  {
    match FirstIndex(s, p)
    case None => (s + [x], UpdateResult(0, 0))
    case Some(i) =>
      assert s[i := x][i] == x;
      (s[i := x], UpdateResult(1, if s[i] != x then 1 else 0))
  }

  /** `update_one(filter, update)`: the first match is rewritten by `f`. */
  function UpdateOne<T(==)>(s: seq<T>, p: T -> bool, f: T -> T): (r: (seq<T>, UpdateResult))
    ensures |r.0| == |s|
    ensures r.1.matchedCount <= 1 && r.1.modifiedCount <= r.1.matchedCount
    ensures r.1.matchedCount == 0 <==> forall j :: 0 <= j < |s| ==> !p(s[j])
    ensures r.1.matchedCount == 0 ==> r.0 == s
    ensures r.1.matchedCount == 1 ==>
      exists i :: 0 <= i < |s| && p(s[i]) && (forall j :: 0 <= j < i ==> !p(s[j]))
                  && r.0 == s[i := f(s[i])] && (r.1.modifiedCount == 1 <==> f(s[i]) != s[i])
  {
    match FirstIndex(s, p)
    case None => (s, UpdateResult(0, 0))
    case Some(i) => (s[i := f(s[i])], UpdateResult(1, if f(s[i]) != s[i] then 1 else 0))
  }

  /** `delete_one(filter)`: the first match is removed. */
  function DeleteOne<T>(s: seq<T>, p: T -> bool): (r: (seq<T>, DeleteResult))
    ensures r.1.deletedCount <= 1 && |r.0| + r.1.deletedCount == |s|
    ensures r.1.deletedCount == 0 <==> forall j :: 0 <= j < |s| ==> !p(s[j])
    ensures r.1.deletedCount == 0 ==> r.0 == s
    ensures r.1.deletedCount == 1 ==>
      exists i :: 0 <= i < |s| && p(s[i]) && (forall j :: 0 <= j < i ==> !p(s[j]))
                  && r.0 == s[..i] + s[i + 1..]
  {
    match FirstIndex(s, p)
    case None => (s, DeleteResult(0))
    case Some(i) => (s[..i] + s[i + 1..], DeleteResult(1))
  }

  /** Deleting removes exactly one matching record: the number of matches
      drops by one, and by zero when nothing matched. */
  lemma {:induction false} DeleteOneCount<T>(s: seq<T>, p: T -> bool)
    ensures CountMatching(DeleteOne(s, p).0, p) + DeleteOne(s, p).1.deletedCount == CountMatching(s, p)
  {
    match FirstIndex(s, p)
    case None =>
    case Some(i) =>
      CountSplit(s, p, i);
      CountSplit(s[..i] + s[i + 1..], p, i);
      assert (s[..i] + s[i + 1..])[..i] == s[..i];
      assert (s[..i] + s[i + 1..])[i..] == s[i + 1..];
      assert s[i..] == [s[i]] + s[i + 1..];
      assert CountMatching(s[i..], p) == 1 + CountMatching(s[i + 1..], p) by {
        assert s[i..][1..] == s[i + 1..];
      }
  }

  lemma {:induction false} CountSplit<T>(s: seq<T>, p: T -> bool, k: nat)
    requires k <= |s|
    ensures CountMatching(s, p) == CountMatching(s[..k], p) + CountMatching(s[k..], p)
  {
    if k != 0 {
      CountSplit(s[1..], p, k - 1);
      assert s[1..][..k - 1] == s[..k][1..];
      assert s[1..][k - 1..] == s[k..];
    }
  }

  /** One nondeterministic store round trip: `false` when the store fails. */
  method StoreRoundTrip() returns (ok: bool)
  {
    ok := *;
  }
}
