/** First-match search over a sequence by key equality: the behaviour of
    `Array.prototype.find(x => key(x) === id)`, which scans in index order and
    stops at the first element that matches. */
module Lookup {
  import opened Wrappers

  /** Some element of `s` has key `id`. */
  ghost predicate HasKey<T>(s: seq<T>, key: T -> string, id: string) {
    exists j :: 0 <= j < |s| && key(s[j]) == id
  }

  /** `k` is the position of the first element of `s` whose key is `id`. */
  ghost predicate IsFirstIndex<T>(s: seq<T>, key: T -> string, id: string, k: int) {
    && 0 <= k < |s|
    && key(s[k]) == id
    && forall j :: 0 <= j < k ==> key(s[j]) != id
  }

  /** Reference definition of what `find` returns, independent of how it scans:
      nothing when no key matches, otherwise the element at the first match. */
  ghost predicate IsFindResult<T>(s: seq<T>, key: T -> string, id: string, r: Option<T>) {
    || (r.None? && !HasKey(s, key, id))
    || (r.Some? && exists k :: IsFirstIndex(s, key, id, k) && s[k] == r.value)
  }

  /** The index at which the scan stops, if it stops before the end. */
  function FirstIndex<T>(s: seq<T>, key: T -> string, id: string): (r: Option<nat>)
    ensures r.Some? ==> IsFirstIndex(s, key, id, r.value)
    ensures r.None? <==> !HasKey(s, key, id)
    decreases |s|
  {
    if |s| == 0 then None
    else if key(s[0]) == id then Some(0)
    else
      match FirstIndex(s[1..], key, id)
      case None =>
        assert forall j :: 1 <= j < |s| ==> s[j] == s[1..][j - 1];
        None
      case Some(k) =>
        assert forall j :: 1 <= j < k + 1 ==> s[j] == s[1..][j - 1];
        Some(k + 1)
  }

  /** The element `find` returns. */
  function Find<T>(s: seq<T>, key: T -> string, id: string): (r: Option<T>)
    ensures r.Some? <==> HasKey(s, key, id)
    ensures r.Some? ==> key(r.value) == id
    ensures r.Some? ==> exists k :: IsFirstIndex(s, key, id, k) && s[k] == r.value
  {
    match FirstIndex(s, key, id)
    case None => None
    case Some(k) => Some(s[k])
  }

  /** There is at most one first match. */
  lemma FirstIndexUnique<T>(s: seq<T>, key: T -> string, id: string, k1: int, k2: int)
    requires IsFirstIndex(s, key, id, k1) && IsFirstIndex(s, key, id, k2)
    ensures k1 == k2
  {
  }

  /** `Find` is exactly the reference definition: it satisfies it, and it is the
      only result that does. */
  lemma FindCharacterized<T>(s: seq<T>, key: T -> string, id: string, r: Option<T>)
    ensures IsFindResult(s, key, id, r) <==> r == Find(s, key, id)
  {
    var f := Find(s, key, id);
    if IsFindResult(s, key, id, r) && r.Some? {
      var k :| IsFirstIndex(s, key, id, k) && s[k] == r.value;
      var k' :| IsFirstIndex(s, key, id, k') && s[k'] == f.value;
      FirstIndexUnique(s, key, id, k, k');
    }
  }

  /** Skipping a non-matching head does not change the result. */
  lemma FindSkipsHead<T>(s: seq<T>, key: T -> string, id: string)
    requires |s| > 0 && key(s[0]) != id
    ensures Find(s, key, id) == Find(s[1..], key, id)
  {
    assert forall j :: 1 <= j < |s| ==> s[j] == s[1..][j - 1];
  }

  /** Scanning a concatenation: a match in the front part hides every later
      record with the same key; the back part is consulted only when the
      front has no match. */
  lemma {:induction false} FindAppend<T>(s: seq<T>, t: seq<T>, key: T -> string, id: string)
    ensures HasKey(s, key, id) ==> Find(s + t, key, id) == Find(s, key, id)
    ensures !HasKey(s, key, id) ==> Find(s + t, key, id) == Find(t, key, id)
    decreases |s|
  {
    if |s| == 0 {
      assert s + t == t;
    } else if key(s[0]) == id {
      assert (s + t)[0] == s[0];
    } else {
      assert (s + t)[0] == s[0];
      assert (s + t)[1..] == s[1..] + t;
      FindSkipsHead(s + t, key, id);
      FindSkipsHead(s, key, id);
      FindAppend(s[1..], t, key, id);
      if HasKey(s, key, id) {
        var j :| 0 <= j < |s| && key(s[j]) == id;
        assert s[1..][j - 1] == s[j];
      } else {
        assert forall j :: 0 <= j < |s| - 1 ==> s[1..][j] == s[j + 1];
      }
    }
  }

  /** When keys are distinct, looking up the key of the element at `k` finds
      that very element. */
  lemma FindDistinctKeys<T>(s: seq<T>, key: T -> string, k: int)
    requires 0 <= k < |s|
    requires forall i, j :: 0 <= i < j < |s| ==> key(s[i]) != key(s[j])
    ensures Find(s, key, key(s[k])) == Some(s[k])
  {
    var r := Find(s, key, key(s[k]));
    var k' :| IsFirstIndex(s, key, key(s[k]), k') && s[k'] == r.value;
  }
}
