/** The mock's in-place insertion sort, and why a listing is a function of the store. */
module Sorting {
  import opened Text

  // ---------- What the in-place sort computes, for any `less` ----------

  /** Move x left from the end of p while it is less than its neighbour. */
  function InsertLast<T>(less: (T, T) -> bool, p: seq<T>, x: T): (r: seq<T>)
    ensures |r| == |p| + 1
  {
    if p == [] || !less(x, p[|p| - 1]) then p + [x]
    else InsertLast(less, p[..|p| - 1], x) + [p[|p| - 1]]
  }

  function SortedBy<T>(less: (T, T) -> bool, s: seq<T>): (r: seq<T>)
    ensures |r| == |s|
  {
    if s == [] then [] else InsertLast(less, SortedBy(less, s[..|s| - 1]), s[|s| - 1])
  }

  method StableSort<T>(items: array<T>, less: (T, T) -> bool)
    modifies items
    ensures items[..] == SortedBy(less, old(items[..]))
  {
    ghost var was := items[..];
    var i := 0;
    while i < items.Length
      invariant 0 <= i <= items.Length
      invariant items[..i] == SortedBy(less, was[..i])
      invariant items[i..] == was[i..]
    {
      assert items[i] == items[i..][0] && items[i..][1..] == was[i + 1..];
      Sink(items, i, less);
      SortedBySnoc(less, was, i);
      i := i + 1;
    }
    assert was[..items.Length] == was;
  }

  /** The inner loop: swap items[i] to the left while it is less than its neighbour. */
  method Sink<T>(items: array<T>, i: nat, less: (T, T) -> bool)
    requires i < items.Length
    modifies items
    ensures items[..i + 1] == InsertLast(less, old(items[..i]), old(items[i]))
    ensures items[i + 1..] == old(items[i + 1..])
  {
    ghost var p, x := items[..i], items[i];
    var j := i;
    assert p[..j] == p && p[j..] == [];
    while j > 0 && less(items[j], items[j - 1])
      invariant 0 <= j <= i
      invariant items[j] == x
      invariant forall k :: 0 <= k < j ==> items[k] == p[k]
      invariant forall k :: j < k <= i ==> items[k] == p[k - 1]
      invariant forall k :: i < k < items.Length ==> items[k] == old(items[k])
      invariant InsertLast(less, p, x) == InsertLast(less, p[..j], x) + p[j..]
    {
      InsertLastSinks(less, p, x, j);
      items[j], items[j - 1] := items[j - 1], items[j];
      j := j - 1;
    }
    InsertLastStays(less, p, x, j);
    assert items[..i + 1] == p[..j] + [x] + p[j..];
  }

  lemma SortedBySnoc<T>(less: (T, T) -> bool, s: seq<T>, i: nat)
    requires i < |s|
    ensures SortedBy(less, s[..i + 1]) == InsertLast(less, SortedBy(less, s[..i]), s[i])
  {
    assert s[..i + 1][..i] == s[..i];
  }

  lemma InsertLastStays<T>(less: (T, T) -> bool, p: seq<T>, x: T, j: nat)
    requires j <= |p| && (j == 0 || !less(x, p[j - 1]))
    ensures InsertLast(less, p[..j], x) + p[j..] == p[..j] + [x] + p[j..]
  {
  }

  lemma InsertLastSinks<T>(less: (T, T) -> bool, p: seq<T>, x: T, j: nat)
    requires 0 < j <= |p| && less(x, p[j - 1])
    ensures InsertLast(less, p[..j], x) + p[j..] == InsertLast(less, p[..j - 1], x) + p[j - 1..]
  {
    assert p[..j][..j - 1] == p[..j - 1];
    assert [p[j - 1]] + p[j..] == p[j - 1..];
  }

  // ---------- It is a sorted, stable permutation ----------

  ghost predicate StrictWeakOrder<T(!new)>(less: (T, T) -> bool) {
    && (forall a, b :: less(a, b) ==> !less(b, a))
    && (forall a, b, c :: less(a, b) && less(b, c) ==> less(a, c))
    && (forall a, b, c :: less(a, c) ==> less(a, b) || less(b, c))
  }

  ghost predicate InOrder<T>(less: (T, T) -> bool, s: seq<T>) {
    forall i, j :: 0 <= i < j < |s| ==> !less(s[j], s[i])
  }

  /** The elements of s that `less` cannot tell from k, in the order they stand in s. */
  ghost function Ties<T>(less: (T, T) -> bool, s: seq<T>, k: T): seq<T> {
    if s == [] then []
    else
      var x := s[|s| - 1];
      Ties(less, s[..|s| - 1], k) + (if less(x, k) || less(k, x) then [] else [x])
  }

  lemma {:induction false} SortPermutes<T>(less: (T, T) -> bool, s: seq<T>)
    ensures multiset(SortedBy(less, s)) == multiset(s)
  {
    if s != [] {
      var n := |s| - 1;
      SortPermutes(less, s[..n]);
      InsertPermutes(less, SortedBy(less, s[..n]), s[n]);
      assert s == s[..n] + [s[n]];
    }
  }

  lemma {:induction false} InsertPermutes<T>(less: (T, T) -> bool, p: seq<T>, x: T)
    ensures multiset(InsertLast(less, p, x)) == multiset(p) + multiset{x}
  {
    if p != [] && less(x, p[|p| - 1]) {
      InsertPermutes(less, p[..|p| - 1], x);
      assert p == p[..|p| - 1] + [p[|p| - 1]];
    }
  }

  lemma {:induction false} SortSortsStably<T(!new)>(less: (T, T) -> bool, s: seq<T>)
    requires StrictWeakOrder(less)
    ensures InOrder(less, SortedBy(less, s))
    ensures forall k :: Ties(less, SortedBy(less, s), k) == Ties(less, s, k)
  {
    if s != [] {
      var n := |s| - 1;
      SortSortsStably(less, s[..n]);
      InsertKeepsOrder(less, SortedBy(less, s[..n]), s[n]);
      forall k ensures Ties(less, SortedBy(less, s), k) == Ties(less, s, k) {
        InsertIsStable(less, SortedBy(less, s[..n]), s[n], k);
      }
    }
  }

  lemma {:induction false} InsertKeepsOrder<T(!new)>(less: (T, T) -> bool, p: seq<T>, x: T)
    requires StrictWeakOrder(less) && InOrder(less, p)
    ensures InOrder(less, InsertLast(less, p, x))
  {
    if p != [] && less(x, p[|p| - 1]) {
      var n := |p| - 1;
      InsertKeepsOrder(less, p[..n], x);
      InsertPermutes(less, p[..n], x);
      var r := InsertLast(less, p[..n], x);
      forall i | 0 <= i < |r| ensures !less(p[n], r[i]) {
        assert r[i] in multiset(r);
        assert r[i] == x || r[i] in p[..n];
      }
    } else if p != [] {
      forall i | 0 <= i < |p| ensures !less(x, p[i]) {
        assert i < |p| - 1 ==> !less(p[|p| - 1], p[i]);
      }
    }
  }

  lemma {:induction false} InsertIsStable<T(!new)>(less: (T, T) -> bool, p: seq<T>, x: T, k: T)
    requires StrictWeakOrder(less)
    ensures Ties(less, InsertLast(less, p, x), k) == Ties(less, p + [x], k)
  {
    assert (p + [x])[..|p|] == p;
    if p != [] && less(x, p[|p| - 1]) {
      var n := |p| - 1;
      InsertIsStable(less, p[..n], x, k);
      assert (p[..n] + [x])[..n] == p[..n];
      var r := InsertLast(less, p[..n], x);
      assert (r + [p[n]])[..|r|] == r;
    }
  }

  // ---------- The listing of a map: its values in key order ----------

  ghost predicate Ascending(keys: seq<string>) {
    forall i, j :: 0 <= i < j < |keys| ==> Less(keys[i], keys[j])
  }

  ghost predicate IsLeast(k: string, keys: set<string>) {
    k in keys && forall other :: other in keys ==> other == k || Less(k, other)
  }

  lemma {:induction false} LeastExists(keys: set<string>)
    requires keys != {}
    ensures exists k :: IsLeast(k, keys)
  {
    var x :| x in keys;
    var rest := keys - {x};
    assert keys == rest + {x};
    if rest == {} {
      assert IsLeast(x, keys);
    } else {
      LeastExists(rest);
      var k :| IsLeast(k, rest);
      LessIsTotal(x, k);
      if Less(k, x) {
        assert IsLeast(k, keys);
      } else {
        forall other | other in rest && other != k ensures Less(x, other) {
          LessIsTransitive(x, k, other);
        }
        assert IsLeast(x, keys);
      }
    }
  }

  /** The keys of a map in ascending order: a reference that does not mention sorting. */
  ghost function SortedKeys(keys: set<string>): (r: seq<string>)
    ensures |r| == |keys|
    ensures forall k :: k in r <==> k in keys
    ensures Ascending(r)
  {
    if keys == {} then []
    else
      LeastExists(keys);
      var k :| IsLeast(k, keys);
      var rest := SortedKeys(keys - {k});
      [k] + rest
  }

  ghost function Listing<R>(m: map<string, R>): (r: seq<R>)
    ensures |r| == |m|
  {
    var keys := SortedKeys(m.Keys);
    seq(|keys|, i requires 0 <= i < |keys| => m[keys[i]])
  }

  lemma EmptyOrInhabited<T>(s: seq<T>)
    ensures s == [] || exists k :: k in s
  {
    if s != [] { assert s[0] in s; }
  }

  lemma {:induction false} AscendingIsUnique(a: seq<string>, b: seq<string>)
    requires Ascending(a) && Ascending(b)
    requires forall k :: k in a <==> k in b
    ensures a == b
  {
    if a == [] {
      EmptyOrInhabited(b);
    } else {
      assert a[0] in b;
      var i :| 0 <= i < |b| && b[i] == a[0];
      assert b[0] in a;
      var j :| 0 <= j < |a| && a[j] == b[0];
      LessIsTotal(a[0], b[0]);
      assert a[0] == b[0];
      forall k ensures k in a[1..] <==> k in b[1..] {
        if k in a[1..] { LessIsTotal(a[0], k); assert k in b; }
        if k in b[1..] { LessIsTotal(b[0], k); assert k in a; }
      }
      AscendingIsUnique(a[1..], b[1..]);
      assert a == [a[0]] + a[1..] && b == [b[0]] + b[1..];
    }
  }

  function ByKey<R>(key: R -> string): (R, R) -> bool {
    (a: R, b: R) => Less(key(a), key(b))
  }

  lemma ByKeyIsStrictWeakOrder<R(!new)>(key: R -> string)
    ensures StrictWeakOrder(ByKey(key))
  {
    var less := ByKey(key);
    forall a, b | less(a, b) ensures !less(b, a) { LessIsTotal(key(a), key(b)); }
    forall a, b, c | less(a, b) && less(b, c) ensures less(a, c) { LessIsTransitive(key(a), key(b), key(c)); }
    forall a, b, c | less(a, c) ensures less(a, b) || less(b, c) {
      LessIsTotal(key(a), key(b));
      LessIsTotal(key(b), key(c));
      if !less(a, b) && !less(b, c) {
        if key(a) != key(b) && key(b) != key(c) { LessIsTransitive(key(c), key(b), key(a)); }
        LessIsTotal(key(a), key(c));
      }
    }
  }

  /** s holds every value of m once, in some order: what ranging over a Go map collects. */
  ghost predicate Enumerates<R>(m: map<string, R>, key: R -> string, s: seq<R>) {
    && (forall i :: 0 <= i < |s| ==> key(s[i]) in m && m[key(s[i])] == s[i])
    && (forall i, j :: 0 <= i < j < |s| ==> key(s[i]) != key(s[j]))
    && (forall k :: k in m ==> exists i :: 0 <= i < |s| && key(s[i]) == k)
  }

  ghost function KeysOf<R>(key: R -> string, s: seq<R>): (keys: seq<string>)
    ensures |keys| == |s| && forall i :: 0 <= i < |s| ==> keys[i] == key(s[i])
  {
    seq(|s|, i requires 0 <= i < |s| => key(s[i]))
  }

  lemma SortedKeysAscend<R(!new)>(key: R -> string, s: seq<R>)
    requires forall i, j :: 0 <= i < j < |s| ==> key(s[i]) != key(s[j])
    ensures Ascending(KeysOf(key, SortedBy(ByKey(key), s)))
  {
    var r := SortedBy(ByKey(key), s);
    ByKeyIsStrictWeakOrder(key);
    SortSortsStably(ByKey(key), s);
    SortPermutes(ByKey(key), s);
    DistinctKeysSurvive(key, s, r);
    forall i, j | 0 <= i < j < |r| ensures Less(key(r[i]), key(r[j])) {
      assert !ByKey(key)(r[j], r[i]);
      LessIsTotal(key(r[i]), key(r[j]));
    }
  }

  lemma EnumeratedKeys<R>(m: map<string, R>, key: R -> string, s: seq<R>, k: string)
    requires Enumerates(m, key, s)
    ensures k in KeysOf(key, s) <==> k in m
  {
    if k in m {
      var i :| 0 <= i < |s| && key(s[i]) == k;
      assert KeysOf(key, s)[i] == k;
    }
  }

  lemma PermutedKeys<R>(key: R -> string, s: seq<R>, r: seq<R>, k: string)
    requires multiset(r) == multiset(s)
    ensures k in KeysOf(key, r) <==> k in KeysOf(key, s)
  {
    if k in KeysOf(key, r) {
      var i :| 0 <= i < |r| && key(r[i]) == k;
      assert r[i] in multiset(s);
      var j :| 0 <= j < |s| && s[j] == r[i];
      assert KeysOf(key, s)[j] == k;
    }
    if k in KeysOf(key, s) {
      var i :| 0 <= i < |s| && key(s[i]) == k;
      assert s[i] in multiset(r);
      var j :| 0 <= j < |r| && r[j] == s[i];
      assert KeysOf(key, r)[j] == k;
    }
  }

  /** Whatever order the map is ranged over, the sorted slice is the one listing of the map. */
  lemma SortedRangeIsListing<R(!new)>(m: map<string, R>, key: R -> string, s: seq<R>)
    requires Enumerates(m, key, s)
    ensures SortedBy(ByKey(key), s) == Listing(m)
  {
    var r := SortedBy(ByKey(key), s);
    var keys := KeysOf(key, r);
    SortPermutes(ByKey(key), s);
    SortedKeysAscend(key, s);
    forall k ensures k in keys <==> k in SortedKeys(m.Keys) {
      PermutedKeys(key, s, r, k);
      EnumeratedKeys(m, key, s, k);
    }
    AscendingIsUnique(keys, SortedKeys(m.Keys));
    PermutedValues(m, key, s, r);
    ListingFromKeys(m, key, r);
  }

  lemma PermutedValues<R>(m: map<string, R>, key: R -> string, s: seq<R>, r: seq<R>)
    requires multiset(r) == multiset(s)
    requires forall i :: 0 <= i < |s| ==> key(s[i]) in m && m[key(s[i])] == s[i]
    ensures forall i :: 0 <= i < |r| ==> key(r[i]) in m && m[key(r[i])] == r[i]
  {
    forall i | 0 <= i < |r| ensures key(r[i]) in m && m[key(r[i])] == r[i] {
      assert r[i] in multiset(s);
    }
  }

  lemma ListingFromKeys<R>(m: map<string, R>, key: R -> string, r: seq<R>)
    requires KeysOf(key, r) == SortedKeys(m.Keys)
    requires forall i :: 0 <= i < |r| ==> key(r[i]) in m && m[key(r[i])] == r[i]
    ensures r == Listing(m)
  {
    var keys := SortedKeys(m.Keys);
    forall i | 0 <= i < |r| ensures r[i] == m[keys[i]] {
      assert KeysOf(key, r)[i] == key(r[i]);
    }
  }

  lemma DistinctKeysSurvive<R>(key: R -> string, s: seq<R>, r: seq<R>)
    requires multiset(s) == multiset(r)
    requires forall i, j :: 0 <= i < j < |s| ==> key(s[i]) != key(s[j])
    ensures forall i, j :: 0 <= i < j < |r| ==> key(r[i]) != key(r[j])
  {
    forall i, j | 0 <= i < j < |r| ensures key(r[i]) != key(r[j]) {
      NoRepeats(s, r[i]);
      RepeatsCount(r, i, j);
      assert r[i] in multiset(s) && r[j] in multiset(s);
    }
  }

  lemma {:induction false} NoRepeats<R>(s: seq<R>, x: R)
    requires forall i, j :: 0 <= i < j < |s| ==> s[i] != s[j]
    ensures multiset(s)[x] <= 1
  {
    if s != [] {
      NoRepeats(s[1..], x);
      assert s == [s[0]] + s[1..];
      assert s[0] !in s[1..];
    }
  }

  lemma RepeatsCount<R>(r: seq<R>, i: nat, j: nat)
    requires i < j < |r|
    ensures r[i] == r[j] ==> multiset(r)[r[i]] >= 2
  {
    assert r == r[..j] + [r[j]] + r[j + 1..];
    assert r[i] == r[..j][i];
    assert r[i] in multiset(r[..j]);
  }
}
