/**
 * The list and string operations of Python that the services lean on:
 * the `<` order on `str`, `list.sort(key=..., reverse=True)`, `reversed`,
 * list comprehensions with a condition, and the `{key(x): x for x in xs}`
 * dictionary comprehension.
 */
module Sequences {
  import opened Wrappers

  // ---------------------------------------------------------------------
  // Python's order on str: by code point, a proper prefix comes first
  // ---------------------------------------------------------------------

  predicate StrLess(a: string, b: string)
  {
    |b| > 0 && (|a| == 0 || a[0] < b[0] || (a[0] == b[0] && StrLess(a[1..], b[1..])))
  }

  lemma {:induction false} StrLessIrreflexive(a: string)
    ensures !StrLess(a, a)
  {
    if |a| > 0 {
      StrLessIrreflexive(a[1..]);
    }
  }

  lemma {:induction false} StrLessTransitive(a: string, b: string, c: string)
    requires StrLess(a, b) && StrLess(b, c)
    ensures StrLess(a, c)
  {
    if |a| > 0 && a[0] == b[0] && b[0] == c[0] {
      StrLessTransitive(a[1..], b[1..], c[1..]);
    }
  }

  lemma StrLessAsymmetric(a: string, b: string)
    requires StrLess(a, b)
    ensures !StrLess(b, a)
  {
    if StrLess(b, a) {
      StrLessTransitive(a, b, a);
      StrLessIrreflexive(a);
    }
  }

  lemma {:induction false} StrLessTotal(a: string, b: string)
    ensures a == b || StrLess(a, b) || StrLess(b, a)
  {
    if |a| > 0 && |b| > 0 && a[0] == b[0] {
      StrLessTotal(a[1..], b[1..]);
      if a[1..] == b[1..] {
        assert a == [a[0]] + a[1..] && b == [b[0]] + b[1..];
      }
    }
  }

  /** `key(y) <= key(x)` in Python's order. */
  lemma NotLessIsAtMost(a: string, b: string)
    requires !StrLess(a, b)
    ensures a == b || StrLess(b, a)
  {
    StrLessTotal(a, b);
  }

  // ---------------------------------------------------------------------
  // Filtering comprehensions: [x for x in s if p(x)]
  // ---------------------------------------------------------------------

  function Filter<T>(s: seq<T>, p: T -> bool): (r: seq<T>)
    ensures |r| <= |s|
    ensures forall i :: 0 <= i < |r| ==> r[i] in s && p(r[i])
    ensures forall i :: 0 <= i < |s| && p(s[i]) ==> s[i] in r
  {
    if s == [] then [] else (if p(s[0]) then [s[0]] else []) + Filter(s[1..], p)
  }

  /** Filtering keeps the original order: it distributes over concatenation. */
  lemma {:induction false} FilterConcat<T>(s: seq<T>, t: seq<T>, p: T -> bool)
    ensures Filter(s + t, p) == Filter(s, p) + Filter(t, p)
  {
    if s != [] {
      var h := if p(s[0]) then [s[0]] else [];
      assert (s + t)[0] == s[0] && (s + t)[1..] == s[1..] + t;
      assert Filter(s + t, p) == h + Filter(s[1..] + t, p);
      assert Filter(s, p) == h + Filter(s[1..], p);
      FilterConcat(s[1..], t, p);
      assert h + (Filter(s[1..], p) + Filter(t, p)) == (h + Filter(s[1..], p)) + Filter(t, p);
    } else {
      assert s + t == t;
    }
  }

  /** Filtering by two conditions one after the other filters by their conjunction. */
  lemma {:induction false} FilterFilter<T>(s: seq<T>, p: T -> bool, q: T -> bool, pq: T -> bool)
    requires forall x :: pq(x) == (p(x) && q(x))
    ensures Filter(Filter(s, p), q) == Filter(s, pq)
  {
    if s != [] {
      FilterFilter(s[1..], p, q, pq);
      var fp := Filter(s, p);
      assert Filter(s, pq) == (if pq(s[0]) then [s[0]] else []) + Filter(s[1..], pq);
      if p(s[0]) {
        assert fp == [s[0]] + Filter(s[1..], p);
        assert fp[0] == s[0] && fp[1..] == Filter(s[1..], p);
        assert Filter(fp, q) == (if q(s[0]) then [s[0]] else []) + Filter(fp[1..], q);
      } else {
        assert fp == Filter(s[1..], p);
      }
    }
  }

  /** Two conditions that agree everywhere filter alike. */
  lemma {:induction false} FilterSame<T>(s: seq<T>, p: T -> bool, q: T -> bool)
    requires forall x :: p(x) == q(x)
    ensures Filter(s, p) == Filter(s, q)
  {
    if s != [] {
      FilterSame(s[1..], p, q);
    }
  }

  /** A condition that holds everywhere keeps the whole list. */
  lemma {:induction false} FilterAll<T>(s: seq<T>, p: T -> bool)
    requires forall x :: p(x)
    ensures Filter(s, p) == s
  {
    if s != [] {
      FilterAll(s[1..], p);
      assert s == [s[0]] + s[1..];
    }
  }

  /** A condition that holds for nothing in the list leaves nothing. */
  lemma {:induction false} FilterNone<T>(s: seq<T>, p: T -> bool)
    requires forall i :: 0 <= i < |s| ==> !p(s[i])
    ensures Filter(s, p) == []
  {
    if s != [] {
      FilterNone(s[1..], p);
    }
  }

  // ---------------------------------------------------------------------
  // A loop that appends only some of its items, rewritten: f(x) is None
  // when the loop body `continue`s
  // ---------------------------------------------------------------------

  function FilterMap<A, B>(s: seq<A>, f: A -> Option<B>): (r: seq<B>)
    ensures |r| <= |s|
    ensures forall j :: 0 <= j < |r| ==> exists i :: 0 <= i < |s| && f(s[i]) == Some(r[j])
    ensures forall i :: 0 <= i < |s| && f(s[i]).Some? ==> f(s[i]).value in r
  {
    if s == [] then []
    else
      var rest := FilterMap(s[1..], f);
      assert forall i :: 0 <= i < |s[1..]| ==> s[1..][i] == s[i + 1];
      (if f(s[0]).Some? then [f(s[0]).value] else []) + rest
  }

  /** The output keeps the order of the input: it distributes over concatenation. */
  lemma {:induction false} FilterMapConcat<A, B>(s: seq<A>, t: seq<A>, f: A -> Option<B>)
    ensures FilterMap(s + t, f) == FilterMap(s, f) + FilterMap(t, f)
  {
    if s != [] {
      var h := if f(s[0]).Some? then [f(s[0]).value] else [];
      assert (s + t)[0] == s[0] && (s + t)[1..] == s[1..] + t;
      assert FilterMap(s + t, f) == h + FilterMap(s[1..] + t, f);
      assert FilterMap(s, f) == h + FilterMap(s[1..], f);
      FilterMapConcat(s[1..], t, f);
      assert h + (FilterMap(s[1..], f) + FilterMap(t, f)) == (h + FilterMap(s[1..], f)) + FilterMap(t, f);
    } else {
      assert s + t == t;
    }
  }

  /** One more item at the end adds its output, if any, at the end. */
  lemma FilterMapSnoc<A, B>(s: seq<A>, x: A, f: A -> Option<B>)
    ensures FilterMap(s + [x], f) == FilterMap(s, f) + (if f(x).Some? then [f(x).value] else [])
  {
    FilterMapConcat(s, [x], f);
    assert [x][1..] == [];
  }

  // ---------------------------------------------------------------------
  // list(reversed(s))
  // ---------------------------------------------------------------------

  function Reverse<T>(s: seq<T>): (r: seq<T>)
    ensures |r| == |s|
    ensures forall i :: 0 <= i < |s| ==> r[i] == s[|s| - 1 - i]
  {
    if s == [] then [] else Reverse(s[1..]) + [s[0]]
  }

  // ---------------------------------------------------------------------
  // {id(x): x for x in s}: a later element overwrites an earlier one
  // ---------------------------------------------------------------------

  function IdMap<T>(s: seq<T>, id: T -> string): map<string, T>
  {
    if s == [] then map[] else IdMap(s[..|s| - 1], id)[id(s[|s| - 1]) := s[|s| - 1]]
  }

  /** A key is in the dictionary exactly when some element has it as its id. */
  lemma {:induction false} IdMapKeys<T>(s: seq<T>, id: T -> string, k: string)
    ensures k in IdMap(s, id) <==> exists i :: 0 <= i < |s| && id(s[i]) == k
  {
    if s != [] {
      var n := |s| - 1;
      IdMapKeys(s[..n], id, k);
      assert forall i :: 0 <= i < n ==> s[..n][i] == s[i];
    }
  }

  /** The value under a key is the LAST element carrying that id. */
  lemma {:induction false} IdMapLast<T>(s: seq<T>, id: T -> string, k: string)
    requires k in IdMap(s, id)
    ensures exists i :: 0 <= i < |s| && s[i] == IdMap(s, id)[k] && id(s[i]) == k
                        && (forall j :: i < j < |s| ==> id(s[j]) != k)
  {
    var n := |s| - 1;
    if id(s[n]) != k {
      IdMapLast(s[..n], id, k);
      var i :| 0 <= i < n && s[..n][i] == IdMap(s[..n], id)[k] && id(s[..n][i]) == k
               && (forall j :: i < j < n ==> id(s[..n][j]) != k);
      assert s[i] == s[..n][i];
      assert forall j :: i < j < n ==> s[..n][j] == s[j];
    }
  }

  // ---------------------------------------------------------------------
  // list.sort(key=key, reverse=True): stable and descending
  // ---------------------------------------------------------------------

  ghost predicate SortedDesc<T>(s: seq<T>, key: T -> string)
  {
    forall i, j :: 0 <= i < j < |s| ==> !StrLess(key(s[i]), key(s[j]))
  }

  /** The condition "has this key", as one value for every use. */
  function HasKey<T>(key: T -> string, k: string): T -> bool
  {
    x => key(x) == k
  }

  /** Inserts `x` into a descending list after every element whose key is at least `x`'s. */
  function InsertDesc<T>(r: seq<T>, x: T, key: T -> string): seq<T>
  {
    if r == [] then [x]
    else if StrLess(key(r[0]), key(x)) then [x] + r
    else [r[0]] + InsertDesc(r[1..], x, key)
  }

  /** Python's stable sort, descending by `key`: later equal elements stay later. */
  function SortDesc<T>(s: seq<T>, key: T -> string): seq<T>
  {
    if s == [] then [] else InsertDesc(SortDesc(s[..|s| - 1], key), s[|s| - 1], key)
  }

  lemma {:induction false} InsertDescPermutation<T>(r: seq<T>, x: T, key: T -> string)
    ensures multiset(InsertDesc(r, x, key)) == multiset(r) + multiset{x}
  {
    if r != [] && !StrLess(key(r[0]), key(x)) {
      InsertDescPermutation(r[1..], x, key);
      assert r == [r[0]] + r[1..];
    }
  }

  lemma SortedDescTail<T>(r: seq<T>, key: T -> string)
    requires r != [] && SortedDesc(r, key)
    ensures SortedDesc(r[1..], key)
  {
    forall i, j | 0 <= i < j < |r[1..]|
      ensures !StrLess(key(r[1..][i]), key(r[1..][j]))
    {
      assert r[1..][i] == r[i + 1] && r[1..][j] == r[j + 1];
    }
  }

  /** When `x` goes in front of a descending list, every key of the list is below `x`'s. */
  lemma BelowHead<T>(r: seq<T>, x: T, key: T -> string)
    requires r != [] && SortedDesc(r, key) && StrLess(key(r[0]), key(x))
    ensures forall j :: 0 <= j < |r| ==> StrLess(key(r[j]), key(x))
  {
    forall j | 0 <= j < |r|
      ensures StrLess(key(r[j]), key(x))
    {
      if j > 0 {
        NotLessIsAtMost(key(r[0]), key(r[j]));
        if key(r[j]) != key(r[0]) {
          StrLessTransitive(key(r[j]), key(r[0]), key(x));
        }
      }
    }
  }

  lemma {:induction false} InsertDescSorted<T>(r: seq<T>, x: T, key: T -> string)
    requires SortedDesc(r, key)
    ensures SortedDesc(InsertDesc(r, x, key), key)
  {
    if r == [] {
    } else if StrLess(key(r[0]), key(x)) {
      BelowHead(r, x, key);
      var t := [x] + r;
      forall i, j | 0 <= i < j < |t|
        ensures !StrLess(key(t[i]), key(t[j]))
      {
        if i == 0 {
          StrLessAsymmetric(key(r[j - 1]), key(x));
        } else {
          assert t[i] == r[i - 1] && t[j] == r[j - 1];
        }
      }
    } else {
      SortedDescTail(r, key);
      InsertDescSorted(r[1..], x, key);
      InsertDescPermutation(r[1..], x, key);
      var u := InsertDesc(r[1..], x, key);
      var t := [r[0]] + u;
      forall j | 0 <= j < |u|
        ensures !StrLess(key(r[0]), key(u[j]))
      {
        assert u[j] in multiset(u);
        if u[j] != x {
          assert u[j] in multiset(r[1..]);
          var k :| 0 <= k < |r[1..]| && r[1..][k] == u[j];
          assert r[k + 1] == u[j];
        }
      }
      forall i, j | 0 <= i < j < |t|
        ensures !StrLess(key(t[i]), key(t[j]))
      {
        if i == 0 {
          assert t[j] == u[j - 1];
        } else {
          assert t[i] == u[i - 1] && t[j] == u[j - 1];
        }
      }
    }
  }

  /** Among the elements with one key, `x` lands after those already there. */
  lemma {:induction false} InsertDescStable<T>(r: seq<T>, x: T, key: T -> string, k: string)
    requires SortedDesc(r, key)
    ensures Filter(InsertDesc(r, x, key), HasKey(key, k))
         == Filter(r, HasKey(key, k)) + (if key(x) == k then [x] else [])
  {
    var p := HasKey(key, k);
    if r == [] {
    } else if StrLess(key(r[0]), key(x)) {
      assert ([x] + r)[1..] == r;
      if key(x) == k {
        BelowHead(r, x, key);
        forall j | 0 <= j < |r|
          ensures !p(r[j])
        {
          StrLessIrreflexive(key(x));
        }
        FilterNone(r, p);
      }
    } else {
      SortedDescTail(r, key);
      InsertDescStable(r[1..], x, key, k);
      assert ([r[0]] + InsertDesc(r[1..], x, key))[1..] == InsertDesc(r[1..], x, key);
    }
  }

  /** The sorted list is in descending key order. */
  lemma {:induction false} SortDescSorted<T>(s: seq<T>, key: T -> string)
    ensures SortedDesc(SortDesc(s, key), key)
  {
    if s != [] {
      SortDescSorted(s[..|s| - 1], key);
      InsertDescSorted(SortDesc(s[..|s| - 1], key), s[|s| - 1], key);
    }
  }

  /** The sorted list is a permutation of the input. */
  lemma {:induction false} SortDescPermutation<T>(s: seq<T>, key: T -> string)
    ensures multiset(SortDesc(s, key)) == multiset(s)
  {
    if s != [] {
      var n := |s| - 1;
      SortDescPermutation(s[..n], key);
      InsertDescPermutation(SortDesc(s[..n], key), s[n], key);
      assert s == s[..n] + [s[n]];
    }
  }

  /** The sort is stable: elements with equal keys keep their original relative order. */
  lemma {:induction false} SortDescStable<T>(s: seq<T>, key: T -> string, k: string)
    ensures Filter(SortDesc(s, key), HasKey(key, k)) == Filter(s, HasKey(key, k))
  {
    if s != [] {
      var n := |s| - 1;
      SortDescStable(s[..n], key, k);
      SortDescSorted(s[..n], key);
      InsertDescStable(SortDesc(s[..n], key), s[n], key, k);
      assert s == s[..n] + [s[n]];
      FilterConcat(s[..n], [s[n]], HasKey(key, k));
    }
  }

  /** Sorting a list that is already in descending order changes nothing. */
  lemma {:induction false} SortDescOfSorted<T>(s: seq<T>, key: T -> string)
    requires SortedDesc(s, key)
    ensures SortDesc(s, key) == s
  {
    if s != [] {
      var n := |s| - 1;
      assert SortedDesc(s[..n], key) by {
        forall i, j | 0 <= i < j < n
          ensures !StrLess(key(s[..n][i]), key(s[..n][j]))
        {
          assert s[..n][i] == s[i] && s[..n][j] == s[j];
        }
      }
      SortDescOfSorted(s[..n], key);
      InsertAtEnd(s[..n], s[n], key);
      assert s == s[..n] + [s[n]];
    }
  }

  /** A bound that no input key exceeds is exceeded by no output key either. */
  lemma {:induction false} FilterMapBelow<A, B>(s: seq<A>, f: A -> Option<B>, key: A -> string, keyB: B -> string, top: string)
    requires forall i :: 0 <= i < |s| ==> !StrLess(top, key(s[i]))
    requires forall i :: 0 <= i < |s| && f(s[i]).Some? ==> keyB(f(s[i]).value) == key(s[i])
    ensures forall j :: 0 <= j < |FilterMap(s, f)| ==> !StrLess(top, keyB(FilterMap(s, f)[j]))
  {
    if s != [] {
      var t := s[1..];
      assert forall i :: 0 <= i < |t| ==> t[i] == s[i + 1];
      FilterMapBelow(t, f, key, keyB, top);
    }
  }

  /** Keeping some elements, each mapped to one with the same key, keeps a descending order. */
  lemma {:induction false} FilterMapSortedDesc<A, B>(s: seq<A>, f: A -> Option<B>, key: A -> string, keyB: B -> string)
    requires SortedDesc(s, key)
    requires forall i :: 0 <= i < |s| && f(s[i]).Some? ==> keyB(f(s[i]).value) == key(s[i])
    ensures SortedDesc(FilterMap(s, f), keyB)
  {
    if s != [] {
      var t := s[1..];
      assert forall i :: 0 <= i < |t| ==> t[i] == s[i + 1];
      assert SortedDesc(t, key) by {
        forall i, j | 0 <= i < j < |t|
          ensures !StrLess(key(t[i]), key(t[j]))
        {
          assert t[i] == s[i + 1] && t[j] == s[j + 1];
        }
      }
      FilterMapSortedDesc(t, f, key, keyB);
      var rest := FilterMap(t, f);
      if f(s[0]).Some? {
        FilterMapBelow(t, f, key, keyB, key(s[0]));
        var r := [f(s[0]).value] + rest;
        assert FilterMap(s, f) == r;
        forall i, j | 0 <= i < j < |r|
          ensures !StrLess(keyB(r[i]), keyB(r[j]))
        {
          assert r[j] == rest[j - 1];
          if i > 0 {
            assert r[i] == rest[i - 1];
          }
        }
      }
    }
  }

  /** An element no larger than every key of a descending list goes to its end. */
  lemma {:induction false} InsertAtEnd<T>(r: seq<T>, x: T, key: T -> string)
    requires forall i :: 0 <= i < |r| ==> !StrLess(key(r[i]), key(x))
    ensures InsertDesc(r, x, key) == r + [x]
  {
    if r != [] {
      InsertAtEnd(r[1..], x, key);
      assert r == [r[0]] + r[1..];
    }
  }
}
