/**
  Sequence utilities the generator relies on: list comprehensions with a
  condition (Filter), early-exit searches (FindFirst), order-preserving
  selection (IsSubsequence), set-like de-duplication (Dedup) and Python's
  stable `list.sort(key=..., reverse=True)` (StableSortDesc).
*/
module Sequences {
  import opened Wrappers

  /** `[x for x in s if p(x)]` */
  function Filter<T(!new)>(s: seq<T>, p: T -> bool): (r: seq<T>)
    ensures |r| <= |s|
    ensures forall x :: x in r <==> x in s && p(x)
  {
    if s == [] then [] else (if p(s[0]) then [s[0]] else []) + Filter(s[1..], p)
  }

  lemma {:induction false} FilterAppend<T(!new)>(s: seq<T>, x: T, p: T -> bool)
    ensures Filter(s + [x], p) == Filter(s, p) + (if p(x) then [x] else [])
  {
    var tail := if p(x) then [x] else [];
    if s == [] {
      assert s + [x] == [x];
      assert [x][1..] == [];
      assert Filter([x], p) == tail + Filter([], p);
    } else {
      var t := s + [x];
      var head := if p(s[0]) then [s[0]] else [];
      assert t[0] == s[0];
      assert t[1..] == s[1..] + [x];
      FilterAppend(s[1..], x, p);
      calc {
        Filter(t, p);
        head + Filter(t[1..], p);
        head + (Filter(s[1..], p) + tail);
        (head + Filter(s[1..], p)) + tail;
        Filter(s, p) + tail;
      }
    }
  }

  lemma {:induction false} FilterNone<T(!new)>(s: seq<T>, p: T -> bool)
    requires forall i :: 0 <= i < |s| ==> !p(s[i])
    ensures Filter(s, p) == []
  {
    if s != [] {
      assert forall i :: 0 <= i < |s[1..]| ==> s[1..][i] == s[i + 1];
      FilterNone(s[1..], p);
    }
  }

  lemma {:induction false} FilterAll<T(!new)>(s: seq<T>, p: T -> bool)
    requires forall i :: 0 <= i < |s| ==> p(s[i])
    ensures Filter(s, p) == s
  {
    if s != [] {
      assert forall i :: 0 <= i < |s[1..]| ==> s[1..][i] == s[i + 1];
      FilterAll(s[1..], p);
    }
  }

  lemma FilterKeepsHead<T(!new)>(s: seq<T>, p: T -> bool)
    requires s != [] && p(s[0])
    ensures Filter(s, p) != [] && Filter(s, p)[0] == s[0]
  {
  }

  /** The first element kept by Filter is the first element of s that satisfies p. */
  lemma {:induction false} FilterHead<T(!new)>(s: seq<T>, p: T -> bool)
    requires Filter(s, p) != []
    ensures exists i :: 0 <= i < |s| && s[i] == Filter(s, p)[0] && p(s[i]) &&
                        forall j :: 0 <= j < i ==> !p(s[j])
  {
    if p(s[0]) {
      assert s[0] == Filter(s, p)[0];
    } else {
      assert Filter(s, p) == Filter(s[1..], p);
      FilterHead(s[1..], p);
      var i :| 0 <= i < |s[1..]| && s[1..][i] == Filter(s[1..], p)[0] && p(s[1..][i]) &&
               forall j :: 0 <= j < i ==> !p(s[1..][j]);
      assert s[i + 1] == Filter(s, p)[0];
      forall j | 0 <= j < i + 1 ensures !p(s[j]) {
        if j > 0 { assert s[j] == s[1..][j - 1]; }
      }
    }
  }

  /** Index of the first element satisfying p, as a `for ... : if p(x): break` loop finds it. */
  function FindFirst<T>(s: seq<T>, p: T -> bool): (r: Option<nat>)
    ensures r.None? <==> forall i :: 0 <= i < |s| ==> !p(s[i])
    ensures r.Some? ==> r.value < |s| && p(s[r.value]) &&
                        forall j :: 0 <= j < r.value ==> !p(s[j])
  {
    if s == [] then None
    else if p(s[0]) then Some(0)
    else match FindFirst(s[1..], p)
      case None => None
      case Some(i) => Some(i + 1)
  }

  /** a is obtained from b by deleting elements, keeping the order of the rest. */
  predicate IsSubsequence<T(==)>(a: seq<T>, b: seq<T>)
    decreases |b|
  {
    if b == [] then a == []
    else (a != [] && a[0] == b[0] && IsSubsequence(a[1..], b[1..])) || IsSubsequence(a, b[1..])
  }

  lemma {:induction false} SubsequenceMembers<T>(a: seq<T>, b: seq<T>)
    requires IsSubsequence(a, b)
    ensures forall x :: x in a ==> x in b
    decreases |b|
  {
    if b != [] {
      if a != [] && a[0] == b[0] && IsSubsequence(a[1..], b[1..]) {
        SubsequenceMembers(a[1..], b[1..]);
        assert a == [a[0]] + a[1..];
      } else {
        SubsequenceMembers(a, b[1..]);
      }
    }
  }

  lemma {:induction false} SubsequenceOfFilter<T(!new)>(a: seq<T>, b: seq<T>, p: T -> bool)
    requires IsSubsequence(a, b)
    ensures IsSubsequence(Filter(a, p), Filter(b, p))
    decreases |b|
  {
    if b == [] {
    } else if a != [] && a[0] == b[0] && IsSubsequence(a[1..], b[1..]) {
      SubsequenceOfFilter(a[1..], b[1..], p);
      if p(b[0]) {
        assert Filter(a, p) == [a[0]] + Filter(a[1..], p);
        assert Filter(b, p) == [b[0]] + Filter(b[1..], p);
        assert Filter(a, p)[1..] == Filter(a[1..], p);
        assert Filter(b, p)[1..] == Filter(b[1..], p);
      } else {
        assert Filter(a, p) == Filter(a[1..], p);
        assert Filter(b, p) == Filter(b[1..], p);
      }
    } else {
      SubsequenceOfFilter(a, b[1..], p);
      if p(b[0]) {
        assert Filter(b, p) == [b[0]] + Filter(b[1..], p);
        assert Filter(b, p)[1..] == Filter(b[1..], p);
      } else {
        assert Filter(b, p) == Filter(b[1..], p);
      }
    }
  }

  /** keys never increase along s */
  predicate SortedDesc<T>(s: seq<T>, key: T -> int) {
    forall i, j :: 0 <= i < j < |s| ==> key(s[i]) >= key(s[j])
  }

  lemma {:induction false} SubsequenceOfSorted<T>(a: seq<T>, b: seq<T>, key: T -> int)
    requires IsSubsequence(a, b) && SortedDesc(b, key)
    ensures SortedDesc(a, key)
    decreases |b|
  {
    if b == [] {
    } else if a != [] && a[0] == b[0] && IsSubsequence(a[1..], b[1..]) {
      SubsequenceOfSorted(a[1..], b[1..], key);
      SubsequenceMembers(a[1..], b[1..]);
      forall i, j | 0 <= i < j < |a| ensures key(a[i]) >= key(a[j]) {
        assert a[j] == a[1..][j - 1];
        if i > 0 {
          assert a[i] == a[1..][i - 1];
        } else {
          assert a[j] in b[1..];
          var m :| 0 <= m < |b[1..]| && b[1..][m] == a[j];
          assert b[m + 1] == a[j];
        }
      }
    } else {
      SubsequenceOfSorted(a, b[1..], key);
    }
  }

  /** The predicate "key(y) == k", as one named value, so that filters by it can be compared. */
  function KeyIs<T>(key: T -> int, k: int): T -> bool {
    y => key(y) == k
  }

  /** Place x after every element with a strictly larger key and before the rest. */
  function InsertDesc<T>(x: T, s: seq<T>, key: T -> int): seq<T>
  {
    if s == [] || key(s[0]) <= key(x) then [x] + s
    else [s[0]] + InsertDesc(x, s[1..], key)
  }

  lemma {:induction false} InsertDescPermutes<T>(x: T, s: seq<T>, key: T -> int)
    ensures multiset(InsertDesc(x, s, key)) == multiset(s) + multiset{x}
  {
    if !(s == [] || key(s[0]) <= key(x)) {
      InsertDescPermutes(x, s[1..], key);
      assert s == [s[0]] + s[1..];
    }
  }

  lemma SortedCons<T>(a: T, t: seq<T>, key: T -> int)
    requires SortedDesc(t, key)
    requires t != [] ==> key(t[0]) <= key(a)
    ensures SortedDesc([a] + t, key)
  {
    var r := [a] + t;
    forall i, j | 0 <= i < j < |r| ensures key(r[i]) >= key(r[j]) {
      assert r[j] == t[j - 1];
      if i > 0 { assert r[i] == t[i - 1]; } else { assert key(t[0]) >= key(t[j - 1]); }
    }
  }

  lemma {:induction false} InsertDescSorted<T>(x: T, s: seq<T>, key: T -> int)
    requires SortedDesc(s, key)
    ensures SortedDesc(InsertDesc(x, s, key), key)
    ensures InsertDesc(x, s, key)[0] == x || (s != [] && InsertDesc(x, s, key)[0] == s[0])
  {
    if s == [] || key(s[0]) <= key(x) {
      SortedCons(x, s, key);
    } else {
      var rest := s[1..];
      assert SortedDesc(rest, key) by {
        forall i, j | 0 <= i < j < |rest| ensures key(rest[i]) >= key(rest[j]) {
          assert rest[i] == s[i + 1] && rest[j] == s[j + 1];
        }
      }
      var t := InsertDesc(x, rest, key);
      InsertDescSorted(x, rest, key);
      assert rest != [] ==> rest[0] == s[1];
      SortedCons(s[0], t, key);
    }
  }

  /**
    Python's stable `sorted(s, key=key, reverse=True)`: descending by key,
    elements with equal keys in their input order.
  */
  function StableSortDesc<T>(s: seq<T>, key: T -> int): (r: seq<T>)
    ensures multiset(r) == multiset(s)
    ensures |r| == |s|
    ensures SortedDesc(r, key)
  {
    if s == [] then []
    else
      assert s == [s[0]] + s[1..];
      InsertDescSorted(s[0], StableSortDesc(s[1..], key), key);
      InsertDescPermutes(s[0], StableSortDesc(s[1..], key), key);
      InsertDesc(s[0], StableSortDesc(s[1..], key), key)
  }

  lemma FilterCons<T(!new)>(a: T, t: seq<T>, p: T -> bool)
    ensures Filter([a] + t, p) == (if p(a) then [a] else []) + Filter(t, p)
  {
    assert ([a] + t)[0] == a && ([a] + t)[1..] == t;
  }

  lemma {:induction false} InsertDescTies<T(!new)>(x: T, s: seq<T>, key: T -> int, k: int)
    ensures Filter(InsertDesc(x, s, key), KeyIs(key, k))
         == (if key(x) == k then [x] else []) + Filter(s, KeyIs(key, k))
  {
    var p := KeyIs(key, k);
    if s == [] || key(s[0]) <= key(x) {
      FilterCons(x, s, p);
    } else {
      var t := InsertDesc(x, s[1..], key);
      assert InsertDesc(x, s, key) == [s[0]] + t;
      assert s == [s[0]] + s[1..];
      FilterCons(s[0], t, p);
      FilterCons(s[0], s[1..], p);
      InsertDescTies(x, s[1..], key, k);
      assert p(s[0]) ==> key(x) != k;
    }
  }

  /** Stability: for every key value, the elements with that key keep their input order. */
  lemma {:induction false} StableSortKeepsTies<T(!new)>(s: seq<T>, key: T -> int, k: int)
    ensures Filter(StableSortDesc(s, key), KeyIs(key, k)) == Filter(s, KeyIs(key, k))
  {
    if s != [] {
      StableSortKeepsTies(s[1..], key, k);
      InsertDescTies(s[0], StableSortDesc(s[1..], key), key, k);
    }
  }

  /** Filtering twice is filtering once by both conditions. */
  lemma {:induction false} FilterFilter<T(!new)>(s: seq<T>, p: T -> bool, q: T -> bool)
    ensures Filter(Filter(s, p), q) == Filter(s, Both(p, q))
  {
    if s != [] {
      FilterFilter(s[1..], p, q);
      var fp := Filter(s, p);
      if p(s[0]) {
        assert fp == [s[0]] + Filter(s[1..], p);
        assert fp[1..] == Filter(s[1..], p);
        assert Filter(fp, q) == (if q(s[0]) then [s[0]] else []) + Filter(Filter(s[1..], p), q);
      } else {
        assert fp == Filter(s[1..], p);
      }
      assert Filter(s, Both(p, q)) == (if Both(p, q)(s[0]) then [s[0]] else []) + Filter(s[1..], Both(p, q));
    }
  }

  function Both<T>(p: T -> bool, q: T -> bool): T -> bool { x => p(x) && q(x) }

  /** The head of a stable descending sort is the first element, in input order, with its key. */
  lemma SortedHeadIsFirstOfItsKey<T(!new)>(s: seq<T>, key: T -> int)
    requires s != []
    ensures var sorted := StableSortDesc(s, key);
      var tie := KeyIs(key, key(sorted[0]));
      Filter(s, tie) != [] && Filter(s, tie)[0] == sorted[0]
  {
    var sorted := StableSortDesc(s, key);
    var tie := KeyIs(key, key(sorted[0]));
    StableSortKeepsTies(s, key, key(sorted[0]));
    assert tie(sorted[0]);
    FilterKeepsHead(sorted, tie);
  }

  /** The head of a descending sort has the largest key. */
  lemma SortedHeadIsLargest<T>(s: seq<T>, key: T -> int)
    requires s != []
    ensures forall x :: x in s ==> key(x) <= key(StableSortDesc(s, key)[0])
  {
    var sorted := StableSortDesc(s, key);
    forall x | x in s ensures key(x) <= key(sorted[0]) {
      assert x in multiset(sorted);
      var k :| 0 <= k < |sorted| && sorted[k] == x;
      if k > 0 { assert key(sorted[0]) >= key(sorted[k]); }
    }
  }

  /**
    The head of the stable descending sort of the elements satisfying p:
    an element of s satisfying p, with the largest key among them, and the
    first in s to have that key.
  */
  lemma FirstOfLargest<T(!new)>(s: seq<T>, p: T -> bool, key: T -> int) returns (i: nat)
    requires exists i :: 0 <= i < |s| && p(s[i])
    ensures StableSortDesc(Filter(s, p), key) != []
    ensures i < |s| && s[i] == StableSortDesc(Filter(s, p), key)[0] && p(s[i])
    ensures forall j :: 0 <= j < |s| && p(s[j]) ==> key(s[j]) <= key(s[i])
    ensures forall j :: 0 <= j < i && p(s[j]) ==> key(s[j]) < key(s[i])
  {
    var picked := Filter(s, p);
    var i0 :| 0 <= i0 < |s| && p(s[i0]);
    assert s[i0] in picked;
    var sorted := StableSortDesc(picked, key);
    var m := key(sorted[0]);
    SortedHeadIsLargest(picked, key);
    var tie := KeyIs(key, m);
    SortedHeadIsFirstOfItsKey(picked, key);
    FilterFilter(s, p, tie);
    var both := Both(p, tie);
    FilterHead(s, both);
    i :| 0 <= i < |s| && s[i] == Filter(s, both)[0] && both(s[i]) &&
         forall j :: 0 <= j < i ==> !both(s[j]);
    forall j | 0 <= j < |s| && p(s[j]) ensures key(s[j]) <= m {
      assert s[j] in picked;
    }
    forall j | 0 <= j < i && p(s[j]) ensures key(s[j]) < m {
      assert !both(s[j]);
      assert s[j] in picked;
    }
  }

  /** Keep the first occurrence of every element: what `list(set(...))` keeps, in a fixed order. */
  function Dedup<T(==,!new)>(s: seq<T>): (r: seq<T>)
    ensures forall x :: x in r <==> x in s
    ensures forall i, j :: 0 <= i < j < |r| ==> r[i] != r[j]
  {
    if s == [] then []
    else
      var init := Dedup(s[..|s| - 1]);
      assert s == s[..|s| - 1] + [s[|s| - 1]];
      if s[|s| - 1] in init then init else init + [s[|s| - 1]]
  }

  /**
    `while len(s) < 3: s.append(s[-1] if s else fill)`: pad to length three
    by repeating the last element, or fill when there is none.
  */
  function PadToThree<T>(s: seq<T>, fill: T): (r: seq<T>)
    decreases 3 - |s|
  {
    if |s| >= 3 then s else PadToThree(s + [if s == [] then fill else s[|s| - 1]], fill)
  }

  lemma {:induction false} PadToThreeShape<T>(s: seq<T>, fill: T)
    ensures var r := PadToThree(s, fill);
      && |r| == (if |s| >= 3 then |s| else 3)
      && r[..|s|] == s
      && forall i :: |s| <= i < |r| ==> r[i] == (if s == [] then fill else s[|s| - 1])
    decreases 3 - |s|
  {
    if |s| < 3 {
      var x := if s == [] then fill else s[|s| - 1];
      PadToThreeShape(s + [x], fill);
      assert (s + [x])[..|s|] == s;
      var r := PadToThree(s, fill);
      assert r[..|s| + 1][..|s|] == r[..|s|];
    }
  }
}
