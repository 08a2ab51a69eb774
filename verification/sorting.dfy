/** A stable sort by a real key, largest first, and sequences whose elements
    carry different names. */
module Sorting {
  ghost predicate Descending<T>(s: seq<T>, key: T -> real) {
    forall i, j :: 0 <= i < j < |s| ==> key(s[i]) >= key(s[j])
  }

  ghost predicate Distinct<T, N>(s: seq<T>, name: T -> N) {
    forall i, j :: 0 <= i < j < |s| ==> name(s[i]) != name(s[j])
  }

  function Insert<T>(x: T, s: seq<T>, key: T -> real): seq<T> {
    if s == [] then [x]
    else if key(s[0]) <= key(x) then [x] + s
    else [s[0]] + Insert(x, s[1..], key)
  }

  function Sort<T>(s: seq<T>, key: T -> real): seq<T> {
    if s == [] then [] else Insert(s[0], Sort(s[1..], key), key)
  }

  lemma {:induction false} InsertHas<T>(x: T, s: seq<T>, key: T -> real, y: T)
    ensures y in Insert(x, s, key) <==> y == x || y in s
  {
    if s != [] && key(s[0]) > key(x) { InsertHas(x, s[1..], key, y); }
  }

  lemma {:induction false} InsertCounts<T>(x: T, s: seq<T>, key: T -> real)
    ensures |Insert(x, s, key)| == |s| + 1
    ensures multiset(Insert(x, s, key)) == multiset(s) + multiset{x}
  {
    if s != [] && key(s[0]) > key(x) {
      InsertCounts(x, s[1..], key);
      assert s == [s[0]] + s[1..];
    }
  }

  lemma {:induction false} InsertDescends<T>(x: T, s: seq<T>, key: T -> real)
    requires Descending(s, key)
    ensures Descending(Insert(x, s, key), key)
  {
    if s != [] && key(s[0]) > key(x) {
      InsertDescends(x, s[1..], key);
      var t := Insert(x, s[1..], key);
      forall i | 0 <= i < |t| ensures key(s[0]) >= key(t[i]) {
        InsertHas(x, s[1..], key, t[i]);
      }
    }
  }

  lemma {:induction false} InsertDistinct<T, N>(x: T, s: seq<T>, key: T -> real, name: T -> N)
    requires Distinct([x] + s, name)
    ensures Distinct(Insert(x, s, key), name)
  {
    if s != [] && key(s[0]) > key(x) {
      var all := [x] + s;
      forall i, j | 0 <= i < j < |s| ensures name(s[i]) != name(s[j]) {
        assert all[i + 1] == s[i] && all[j + 1] == s[j];
      }
      forall i | 0 <= i < |s| ensures name(x) != name(s[i]) {
        assert all[0] == x && all[i + 1] == s[i];
      }
      InsertDistinct(x, s[1..], key, name);
      var t := Insert(x, s[1..], key);
      forall i | 0 <= i < |t| ensures name(s[0]) != name(t[i]) {
        InsertHas(x, s[1..], key, t[i]);
      }
    }
  }

  /** The sort rearranges, and puts the largest first. */
  lemma {:induction false} Sorted<T>(s: seq<T>, key: T -> real)
    ensures Descending(Sort(s, key), key)
    ensures multiset(Sort(s, key)) == multiset(s) && |Sort(s, key)| == |s|
  {
    if s != [] {
      Sorted(s[1..], key);
      InsertDescends(s[0], Sort(s[1..], key), key);
      InsertCounts(s[0], Sort(s[1..], key), key);
      assert s == [s[0]] + s[1..];
    }
  }

  lemma SortHas<T>(s: seq<T>, key: T -> real, y: T)
    ensures y in Sort(s, key) <==> y in s
  {
    Sorted(s, key);
    assert y in multiset(Sort(s, key)) <==> y in multiset(s);
  }

  lemma {:induction false} SortDistinct<T, N>(s: seq<T>, key: T -> real, name: T -> N)
    requires Distinct(s, name)
    ensures Distinct(Sort(s, key), name)
  {
    if s != [] {
      var t := Sort(s[1..], key);
      SortDistinct(s[1..], key, name);
      forall i | 0 <= i < |t| ensures name(s[0]) != name(t[i]) {
        SortHas(s[1..], key, t[i]);
      }
      InsertDistinct(s[0], t, key, name);
    }
  }

  function Names<T, N>(s: seq<T>, name: T -> N): set<N> {
    set i | 0 <= i < |s| :: name(s[i])
  }

  lemma {:induction false} NamesSize<T, N>(s: seq<T>, name: T -> N)
    ensures |Names(s, name)| <= |s|
    ensures Distinct(s, name) ==> |Names(s, name)| == |s|
  {
    if s != [] {
      var n := |s| - 1;
      NamesSize(s[..n], name);
      assert Names(s, name) == Names(s[..n], name) + {name(s[n])};
    }
  }
}
