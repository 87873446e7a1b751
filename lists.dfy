/** The keyed list updates the client pages write with `findIndex`, `filter`
    and `map`, stated once for any element type: `key` projects an element to
    its `_id`. */
module Lists {

  /** `s.findIndex(x => key(x) === k)`: the first index whose key is `k`, or -1. */
  function IndexOfKey<T>(s: seq<T>, key: T -> string, k: string): (i: int)
    ensures -1 <= i < |s|
    ensures i == -1 <==> forall j :: 0 <= j < |s| ==> key(s[j]) != k
    ensures 0 <= i ==> key(s[i]) == k && forall j :: 0 <= j < i ==> key(s[j]) != k
  {
    if s == [] then -1
    else if key(s[0]) == k then 0
    else
      var i := IndexOfKey(s[1..], key, k);
      if i == -1 then -1 else i + 1
  }

  /** `s.filter(x => key(x) !== k)`. */
  function RemoveKey<T>(s: seq<T>, key: T -> string, k: string): (r: seq<T>)
    ensures |r| <= |s|
    ensures forall j :: 0 <= j < |r| ==> key(r[j]) != k
  {
    if s == [] then []
    else (if key(s[0]) == k then [] else [s[0]]) + RemoveKey(s[1..], key, k)
  }

  /** The survivors of the filter are exactly the elements whose key is not `k`. */
  lemma {:induction false} RemoveKeyMembers<T(!new)>(s: seq<T>, key: T -> string, k: string)
    ensures forall x :: x in RemoveKey(s, key, k) <==> x in s && key(x) != k
  {
    if s != [] {
      RemoveKeyMembers(s[1..], key, k);
      assert s == [s[0]] + s[1..];
    }
  }

  /** `s.map(x => key(x) === k ? f(x) : x)`. */
  function UpdateKey<T>(s: seq<T>, key: T -> string, k: string, f: T -> T): (r: seq<T>)
    ensures |r| == |s|
    ensures forall j :: 0 <= j < |s| ==> r[j] == if key(s[j]) == k then f(s[j]) else s[j]
  {
    if s == [] then []
    else [if key(s[0]) == k then f(s[0]) else s[0]] + UpdateKey(s[1..], key, k, f)
  }

  /** No two elements share a key. */
  ghost predicate KeysDistinct<T>(s: seq<T>, key: T -> string)
  {
    forall i, j :: 0 <= i < j < |s| ==> key(s[i]) != key(s[j])
  }

  /** Filtering distributes over concatenation: the survivors keep their order. */
  lemma {:induction false} RemoveKeyAppend<T>(a: seq<T>, b: seq<T>, key: T -> string, k: string)
    ensures RemoveKey(a + b, key, k) == RemoveKey(a, key, k) + RemoveKey(b, key, k)
  {
    if a == [] {
      assert a + b == b;
    } else {
      assert (a + b)[1..] == a[1..] + b;
      RemoveKeyAppend(a[1..], b, key, k);
    }
  }

  /** A list in which no element has key `k` is left as it is. */
  lemma {:induction false} RemoveAbsentKey<T>(s: seq<T>, key: T -> string, k: string)
    requires forall j :: 0 <= j < |s| ==> key(s[j]) != k
    ensures RemoveKey(s, key, k) == s
  {
    if s != [] {
      RemoveAbsentKey(s[1..], key, k);
    }
  }

  /** With distinct keys, filtering out key `k` deletes exactly the one
      element at index `i` that carries it and keeps the rest in order. */
  lemma {:induction false} RemoveUniqueKey<T>(s: seq<T>, key: T -> string, i: int)
    requires KeysDistinct(s, key)
    requires 0 <= i < |s|
    ensures RemoveKey(s, key, key(s[i])) == s[..i] + s[i + 1..]
  {
    var k := key(s[i]);
    var before, after := s[..i], s[i + 1..];
    forall j | 0 <= j < |before| ensures key(before[j]) != k {
      assert before[j] == s[j];
    }
    forall j | 0 <= j < |after| ensures key(after[j]) != k {
      assert after[j] == s[i + 1 + j];
    }
    assert s == before + ([s[i]] + after);
    calc {
      RemoveKey(s, key, k);
      { RemoveKeyAppend(before, [s[i]] + after, key, k); }
      RemoveKey(before, key, k) + RemoveKey([s[i]] + after, key, k);
      { RemoveKeyAppend([s[i]], after, key, k); }
      RemoveKey(before, key, k) + (RemoveKey([s[i]], key, k) + RemoveKey(after, key, k));
      { RemoveAbsentKey(before, key, k); RemoveAbsentKey(after, key, k); RemoveOwnKey(s[i], key); }
      before + ([] + after);
    }
  }

  /** A one-element list loses its element to the filter on its own key. */
  lemma RemoveOwnKey<T>(x: T, key: T -> string)
    ensures RemoveKey([x], key, key(x)) == []
  {
    assert [x][1..] == [];
  }

  /** Filtering keeps keys distinct. */
  lemma {:induction false} RemoveKeyKeepsDistinct<T(!new)>(s: seq<T>, key: T -> string, k: string)
    requires KeysDistinct(s, key)
    ensures KeysDistinct(RemoveKey(s, key, k), key)
  {
    if s != [] {
      RemoveKeyKeepsDistinct(s[1..], key, k);
      RemoveKeyMembers(s[1..], key, k);
      var rest := RemoveKey(s[1..], key, k);
      forall x | x in rest ensures key(x) != key(s[0]) {
        var j :| 0 <= j < |s[1..]| && s[1..][j] == x;
        assert s[j + 1] == x;
      }
    }
  }

  /** A key-preserving update keeps keys distinct. */
  lemma UpdateKeyKeepsDistinct<T>(s: seq<T>, key: T -> string, k: string, f: T -> T)
    requires KeysDistinct(s, key)
    requires forall x :: key(f(x)) == key(x)
    ensures KeysDistinct(UpdateKey(s, key, k, f), key)
  {
    var r := UpdateKey(s, key, k, f);
    forall i, j | 0 <= i < j < |r| ensures key(r[i]) != key(r[j]) {
      assert key(r[i]) == key(s[i]) && key(r[j]) == key(s[j]);
    }
  }
}
