/**
 * The array operations the services are written with (`filter`, `map`,
 * `findIndex`) over Dafny sequences, with the facts the other modules use.
 */
module Lists {
  import opened Wrappers

  /** `s.filter(p)`: the elements satisfying `p`, in their original order. */
  function Filter<T>(s: seq<T>, p: T -> bool): (r: seq<T>)
    ensures |r| <= |s|
    ensures forall i :: 0 <= i < |r| ==> r[i] in s && p(r[i])
    ensures forall i :: 0 <= i < |s| && p(s[i]) ==> s[i] in r
  {
    if s == [] then []
    else (if p(s[0]) then [s[0]] else []) + Filter(s[1..], p)
  }

  /** Filtering keeps every copy of an element that passes and no copy of one that does not. */
  lemma {:induction false} FilterCount<T>(s: seq<T>, p: T -> bool)
    ensures forall x :: multiset(Filter(s, p))[x] == if p(x) then multiset(s)[x] else 0
  {
    if s != [] {
      FilterCount(s[1..], p);
      assert s == [s[0]] + s[1..];
      assert Filter(s, p) == (if p(s[0]) then [s[0]] else []) + Filter(s[1..], p);
    }
  }

  /** `s.map(f)`. */
  function Map<T, U>(s: seq<T>, f: T -> U): (r: seq<U>)
    ensures |r| == |s|
    ensures forall i :: 0 <= i < |s| ==> r[i] == f(s[i])
  {
    if s == [] then [] else [f(s[0])] + Map(s[1..], f)
  }

  /** `s.findIndex(p)`, with None for -1: the first position whose element satisfies `p`. */
  function FirstIndex<T>(s: seq<T>, p: T -> bool): (r: Option<nat>)
    ensures r.Some? ==> r.value < |s| && p(s[r.value])
    ensures r.Some? ==> forall j :: 0 <= j < r.value ==> !p(s[j])
    ensures r.None? <==> forall j :: 0 <= j < |s| ==> !p(s[j])
  {
    if s == [] then None
    else if p(s[0]) then Some(0)
    else match FirstIndex(s[1..], p)
      case None => None
      case Some(i) => Some(i + 1)
  }

  /** `a` is `b` with some elements left out and the rest kept in order. */
  ghost predicate IsSubsequence<T>(a: seq<T>, b: seq<T>)
    decreases |b|
  {
    a == [] || (b != [] && ((a[0] == b[0] && IsSubsequence(a[1..], b[1..])) || IsSubsequence(a, b[1..])))
  }

  /** Filtering keeps the surviving elements in their original order. */
  lemma {:induction false} FilterIsSubsequence<T>(s: seq<T>, p: T -> bool)
    ensures IsSubsequence(Filter(s, p), s)
  {
    if s != [] {
      FilterIsSubsequence(s[1..], p);
      if p(s[0]) {
        assert Filter(s, p) == [s[0]] + Filter(s[1..], p);
        assert Filter(s, p)[1..] == Filter(s[1..], p);
      } else {
        assert Filter(s, p) == Filter(s[1..], p);
      }
    }
  }

  /** Filtering a sequence with a known first element. */
  lemma FilterCons<T>(x: T, s: seq<T>, p: T -> bool)
    ensures Filter([x] + s, p) == (if p(x) then [x] else []) + Filter(s, p)
  {
    assert ([x] + s)[1..] == s;
  }

  /** A filter that keeps every element changes nothing. */
  lemma {:induction false} FilterKeepsAll<T>(s: seq<T>, p: T -> bool)
    requires forall i :: 0 <= i < |s| ==> p(s[i])
    ensures Filter(s, p) == s
  {
    if s != [] {
      FilterKeepsAll(s[1..], p);
    }
  }

  /** The filter drops nothing exactly when every element passes it. */
  lemma {:induction false} FilterSameLength<T>(s: seq<T>, p: T -> bool)
    ensures |Filter(s, p)| == |s| <==> forall i :: 0 <= i < |s| ==> p(s[i])
  {
    if s != [] {
      FilterSameLength(s[1..], p);
      if !p(s[0]) {
        assert |Filter(s, p)| == |Filter(s[1..], p)|;
      } else {
        assert forall i :: 1 <= i < |s| ==> s[i] == s[1..][i - 1];
      }
    }
  }

  /** Two filters whose predicates never both hold select at most the whole sequence together. */
  lemma {:induction false} FilterDisjoint<T>(s: seq<T>, p: T -> bool, q: T -> bool)
    requires forall i :: 0 <= i < |s| ==> !(p(s[i]) && q(s[i]))
    ensures |Filter(s, p)| + |Filter(s, q)| <= |s|
  {
    if s != [] {
      FilterDisjoint(s[1..], p, q);
    }
  }

  /** No two elements share a key. */
  ghost predicate UniqueKeys<T>(s: seq<T>, key: T -> int)
  {
    forall i, j :: 0 <= i < j < |s| ==> key(s[i]) != key(s[j])
  }

  /** A first element whose key no later element shares keeps keys unique. */
  lemma ConsUniqueKeys<T>(x: T, rest: seq<T>, key: T -> int)
    requires UniqueKeys(rest, key)
    requires forall j :: 0 <= j < |rest| ==> key(rest[j]) != key(x)
    ensures UniqueKeys([x] + rest, key)
  {
    var r := [x] + rest;
    forall i, j | 0 <= i < j < |r| ensures key(r[i]) != key(r[j]) {
      assert r[j] == rest[j - 1];
      if i > 0 {
        assert r[i] == rest[i - 1];
      }
    }
  }

  /** Filtering keeps keys unique. */
  lemma {:induction false} FilterUniqueKeys<T>(s: seq<T>, p: T -> bool, key: T -> int)
    requires UniqueKeys(s, key)
    ensures UniqueKeys(Filter(s, p), key)
  {
    if s != [] {
      var tail := s[1..];
      assert UniqueKeys(tail, key) by {
        forall i, j | 0 <= i < j < |tail| ensures key(tail[i]) != key(tail[j]) {
          assert tail[i] == s[i + 1] && tail[j] == s[j + 1];
        }
      }
      FilterUniqueKeys(tail, p, key);
      var rest := Filter(tail, p);
      if p(s[0]) {
        assert Filter(s, p) == [s[0]] + rest;
        forall j | 0 <= j < |rest| ensures key(rest[j]) != key(s[0]) {
          assert rest[j] in tail;
          var k :| 0 <= k < |tail| && tail[k] == rest[j];
          assert s[k + 1] == rest[j];
        }
        ConsUniqueKeys(s[0], rest, key);
      } else {
        assert Filter(s, p) == rest;
      }
    }
  }

  // ---------------------------------------------------------------------------
  // Lists keyed by id
  // ---------------------------------------------------------------------------

  function KeyIs<T, K(==)>(key: T -> K, id: K): T -> bool
  {
    x => key(x) == id
  }

  function KeyIsNot<T, K(==)>(key: T -> K, id: K): T -> bool
  {
    x => key(x) != id
  }

  /** `findIndex(x => x.id === id)`: the first position holding that id. */
  function IndexOfKey<T, K(==)>(s: seq<T>, key: T -> K, id: K): (r: Option<nat>)
    ensures r.Some? ==> r.value < |s| && key(s[r.value]) == id
    ensures r.Some? ==> forall j :: 0 <= j < r.value ==> key(s[j]) != id
    ensures r.None? <==> forall j :: 0 <= j < |s| ==> key(s[j]) != id
  {
    FirstIndex(s, KeyIs(key, id))
  }

  /**
   * `filter(x => x.id !== id)`: every element with that id removed, every
   * other one kept with all its copies and in order; the list shrinks
   * exactly when the id occurs.
   */
  function RemoveKey<T(!new), K(==)>(s: seq<T>, key: T -> K, id: K): (r: seq<T>)
    ensures forall i :: 0 <= i < |r| ==> key(r[i]) != id && r[i] in s
    ensures forall i :: 0 <= i < |s| && key(s[i]) != id ==> s[i] in r
    ensures forall x :: multiset(r)[x] == if key(x) != id then multiset(s)[x] else 0
    ensures IsSubsequence(r, s)
    ensures |r| < |s| <==> exists i :: 0 <= i < |s| && key(s[i]) == id
  {
    FilterIsSubsequence(s, KeyIsNot(key, id));
    FilterSameLength(s, KeyIsNot(key, id));
    FilterCount(s, KeyIsNot(key, id));
    var r := Filter(s, KeyIsNot(key, id));
    assert forall x :: KeyIsNot(key, id)(x) == (key(x) != id);
    r
  }

  /** Removing an id that is not there changes nothing. */
  lemma RemoveAbsentKey<T(!new), K>(s: seq<T>, key: T -> K, id: K)
    requires forall i :: 0 <= i < |s| ==> key(s[i]) != id
    ensures RemoveKey(s, key, id) == s
  {
    FilterKeepsAll(s, KeyIsNot(key, id));
  }

  /** After removal the id is not found, and removing it again changes nothing. */
  lemma RemoveKeyThenAbsent<T(!new), K>(s: seq<T>, key: T -> K, id: K)
    ensures IndexOfKey(RemoveKey(s, key, id), key, id).None?
    ensures RemoveKey(RemoveKey(s, key, id), key, id) == RemoveKey(s, key, id)
  {
    RemoveAbsentKey(RemoveKey(s, key, id), key, id);
  }
}
