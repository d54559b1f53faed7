/** Sums over sequences and over finite maps, and the canonical ascending order. */
module Sums {

  // ----- sequences -----

  function Sum(s: seq<int>): int {
    if s == [] then 0 else Sum(s[..|s| - 1]) + s[|s| - 1]
  }

  ghost predicate AllNonNegative(s: seq<int>) {
    forall i :: 0 <= i < |s| ==> s[i] >= 0
  }

  lemma SumSnoc(s: seq<int>, x: int)
    ensures Sum(s + [x]) == Sum(s) + x
  {
    assert (s + [x])[..|s|] == s;
  }

  lemma {:induction false} SumConcat(s: seq<int>, t: seq<int>)
    ensures Sum(s + t) == Sum(s) + Sum(t)
  {
    if t == [] {
      assert s + t == s;
    } else {
      SumConcat(s, t[..|t| - 1]);
      assert (s + t)[..|s + t| - 1] == s + t[..|t| - 1];
    }
  }

  lemma {:induction false} SumNonNegative(s: seq<int>)
    requires AllNonNegative(s)
    ensures Sum(s) >= 0
    ensures forall i :: 0 <= i < |s| ==> s[i] <= Sum(s)
  {
    if s != [] {
      var t := s[..|s| - 1];
      SumNonNegative(t);
      forall i | 0 <= i < |s| ensures s[i] <= Sum(s) {
        if i < |t| { assert t[i] <= Sum(t); }
      }
    }
  }

  lemma {:induction false} SumPrefix(s: seq<int>, n: nat)
    requires AllNonNegative(s) && n <= |s|
    ensures 0 <= Sum(s[..n]) <= Sum(s)
  {
    SumConcat(s[..n], s[n..]);
    assert s[..n] + s[n..] == s;
    SumNonNegative(s[..n]);
    SumNonNegative(s[n..]);
  }

  // ----- finite maps -----

  /** The sum of all values of a finite map. */
  ghost function SumMap<K>(m: map<K, int>): int
    decreases |m|
  {
    if m.Keys == {} then 0
    else
      var k :| k in m;
      m[k] + SumMap(m - {k})
  }

  lemma {:induction false} SumMapRemove<K>(m: map<K, int>, k: K)
    requires k in m
    ensures SumMap(m) == m[k] + SumMap(m - {k})
    decreases |m|
  {
    var j :| j in m && SumMap(m) == m[j] + SumMap(m - {j});
    if j != k {
      SumMapRemove(m - {j}, k);
      SumMapRemove(m - {k}, j);
      assert (m - {j}) - {k} == (m - {k}) - {j};
    }
  }

  lemma SumMapUpdate<K>(m: map<K, int>, k: K, v: int)
    ensures SumMap(m[k := v]) == SumMap(m) + v - (if k in m then m[k] else 0)
  {
    SumMapRemove(m[k := v], k);
    assert m[k := v] - {k} == m - {k};
    if k in m {
      SumMapRemove(m, k);
    } else {
      assert m - {k} == m;
    }
  }

  lemma {:induction false} SumMapMinus<K>(m: map<K, int>, part: map<K, int>)
    requires part.Keys <= m.Keys && forall k :: k in part ==> m[k] == part[k]
    ensures SumMap(m) == SumMap(part) + SumMap(m - part.Keys)
    decreases |part|
  {
    if part.Keys == {} {
      assert m - part.Keys == m;
    } else {
      var k :| k in part;
      SumMapRemove(part, k);
      SumMapMinus(m, part - {k});
      SumMapRemove(m - (part - {k}).Keys, k);
      MinusOneMore(m, part, k);
    }
  }

  lemma MinusOneMore<K>(m: map<K, int>, part: map<K, int>, k: K)
    requires k in part
    ensures m - (part - {k}).Keys - {k} == m - part.Keys
  {
  }

  lemma {:induction false} SumMapNonNegative<K>(m: map<K, int>)
    requires forall k :: k in m ==> m[k] >= 0
    ensures SumMap(m) >= 0
    ensures forall k :: k in m ==> m[k] <= SumMap(m)
    decreases |m|
  {
    forall k | k in m ensures m[k] <= SumMap(m) {
      SumMapRemove(m, k);
      SumMapNonNegative(m - {k});
    }
    if m.Keys != {} {
      var k :| k in m;
      assert m[k] <= SumMap(m);
    }
  }

  // ----- lists without repetition -----

  function SetOf<T(==)>(s: seq<T>): set<T> {
    set x | x in s
  }

  predicate Distinct<T(==)>(s: seq<T>) {
    forall i, j :: 0 <= i < j < |s| ==> s[i] != s[j]
  }

  /** Listing the keys of a map without repetition lists its values too. */
  lemma {:induction false} SumMapListed<K>(m: map<K, int>, keys: seq<K>, vals: seq<int>)
    requires Distinct(keys) && |vals| == |keys|
    requires forall k :: k in m <==> k in keys
    requires forall i :: 0 <= i < |keys| ==> m[keys[i]] == vals[i]
    ensures SumMap(m) == Sum(vals)
    decreases |keys|
  {
    if keys == [] {
      assert m.Keys == {};
    } else {
      var n := |keys| - 1;
      var m' := m - {keys[n]};
      SumMapRemove(m, keys[n]);
      forall k ensures k in m' <==> k in keys[..n] {
        if k in keys[..n] { var i :| 0 <= i < n && keys[i] == k; assert keys[i] != keys[n]; }
      }
      SumMapListed(m', keys[..n], vals[..n]);
    }
  }

  // ----- ascending order -----

  predicate Ascending(s: seq<nat>) {
    forall i, j :: 0 <= i < j < |s| ==> s[i] <= s[j]
  }

  function Insert(x: nat, s: seq<nat>): seq<nat> {
    if s == [] then [x]
    else if x < s[0] then [x] + s
    else [s[0]] + Insert(x, s[1..])
  }

  /** The ascending arrangement of `s`. */
  function Sort(s: seq<nat>): seq<nat> {
    if s == [] then [] else Insert(s[|s| - 1], Sort(s[..|s| - 1]))
  }

  lemma {:induction false} InsertAdds(x: nat, s: seq<nat>)
    ensures multiset(Insert(x, s)) == multiset(s) + multiset{x}
  {
    if s != [] {
      assert s == [s[0]] + s[1..];
      if x >= s[0] { InsertAdds(x, s[1..]); }
    }
  }

  lemma {:induction false} InsertAscends(x: nat, s: seq<nat>)
    requires Ascending(s)
    ensures Ascending(Insert(x, s))
  {
    if s != [] && x >= s[0] {
      InsertAscends(x, s[1..]);
      var t := Insert(x, s[1..]);
      InsertAdds(x, s[1..]);
      forall i | 0 <= i < |t| ensures s[0] <= t[i] {
        assert t[i] in multiset(t);
        assert t[i] == x || t[i] in multiset(s[1..]);
      }
    }
  }

  lemma {:induction false} SortSorts(s: seq<nat>)
    ensures multiset(Sort(s)) == multiset(s)
    ensures Ascending(Sort(s))
    ensures |Sort(s)| == |s|
  {
    if s != [] {
      SortSorts(s[..|s| - 1]);
      InsertAdds(s[|s| - 1], Sort(s[..|s| - 1]));
      InsertAscends(s[|s| - 1], Sort(s[..|s| - 1]));
      assert s == s[..|s| - 1] + [s[|s| - 1]];
    }
    assert |multiset(Sort(s))| == |multiset(s)|;
  }

  lemma SameHead(s: seq<nat>, t: seq<nat>)
    requires Ascending(s) && Ascending(t) && multiset(s) == multiset(t) && s != [] && t != []
    ensures s[0] == t[0]
  {
    assert s[0] in multiset(t) && t[0] in multiset(s);
    var i :| 0 <= i < |t| && t[i] == s[0];
    var j :| 0 <= j < |s| && s[j] == t[0];
  }

  lemma TailMultiset(s: seq<nat>)
    requires s != []
    ensures multiset(s[1..]) == multiset(s) - multiset{s[0]}
  {
    assert s == [s[0]] + s[1..];
  }

  /** Two ascending lists with the same elements are the same list. */
  lemma {:induction false} AscendingUnique(s: seq<nat>, t: seq<nat>)
    requires Ascending(s) && Ascending(t) && multiset(s) == multiset(t)
    ensures s == t
  {
    assert |s| == |multiset(s)| == |multiset(t)| == |t|;
    if s != [] {
      SameHead(s, t);
      TailMultiset(s);
      TailMultiset(t);
      AscendingUnique(s[1..], t[1..]);
      assert s == [s[0]] + s[1..] && t == [t[0]] + t[1..];
    }
  }

  /** Sorting does not depend on the arrangement it starts from. */
  lemma SortOfPermutation(s: seq<nat>, t: seq<nat>)
    requires multiset(s) == multiset(t)
    ensures Sort(s) == Sort(t)
  {
    SortSorts(s);
    SortSorts(t);
    AscendingUnique(Sort(s), Sort(t));
  }

  lemma {:induction false} DistinctMultiset(s: seq<nat>)
    ensures Distinct(s) <==> forall x :: multiset(s)[x] <= 1
  {
    if s != [] {
      var n := |s| - 1;
      assert s == s[..n] + [s[n]];
      DistinctMultiset(s[..n]);
      var p := multiset(s[..n]);
      assert Distinct(s) <==> Distinct(s[..n]) && s[n] !in s[..n];
      assert forall x :: multiset(s)[x] == p[x] + if x == s[n] then 1 else 0;
      assert s[n] in s[..n] <==> s[n] in p;
    }
  }

  lemma SortKeepsMembers(s: seq<nat>)
    ensures |Sort(s)| == |s|
    ensures forall x :: x in Sort(s) <==> x in s
    ensures Distinct(Sort(s)) <==> Distinct(s)
    ensures Ascending(Sort(s))
  {
    SortSorts(s);
    forall x ensures x in Sort(s) <==> x in s {
      assert x in Sort(s) <==> x in multiset(Sort(s));
      assert x in s <==> x in multiset(s);
    }
    DistinctMultiset(s);
    DistinctMultiset(Sort(s));
  }
}
