/** `Array.prototype.sort` with a comparator: a stable sort. The comparator is
    given as `leq(a, b)`, "a may come before b" (the JavaScript comparator's
    result is `<= 0`). The default comparator of `sort()` compares strings by
    UTF-16 code units; on text within the Basic Multilingual Plane that order
    is `CodeUnitLeq`. */
module Sorting {

  ghost predicate TotalPreorder<T(!new)>(leq: (T, T) -> bool)
  {
    && (forall a, b :: leq(a, b) || leq(b, a))
    && (forall a, b, c :: leq(a, b) && leq(b, c) ==> leq(a, c))
  }

  ghost predicate SortedBy<T>(s: seq<T>, leq: (T, T) -> bool)
  {
    forall i, j :: 0 <= i < j < |s| ==> leq(s[i], s[j])
  }

  /** Insert `x` after every element that may come before it. */
  function Insert<T>(x: T, s: seq<T>, leq: (T, T) -> bool): (r: seq<T>)
    ensures multiset(r) == multiset(s) + multiset{x}
  {
    if s == [] then [x]
    else if leq(s[0], x) then
      assert s == [s[0]] + s[1..];
      [s[0]] + Insert(x, s[1..], leq)
    else [x] + s
  }

  /** Stable insertion sort: each later element goes after the equal ones already placed. */
  function SortBy<T>(s: seq<T>, leq: (T, T) -> bool): (r: seq<T>)
    ensures multiset(r) == multiset(s)
    ensures |r| == |s|
  {
    if s == [] then []
    else
      var init, x := s[..|s| - 1], s[|s| - 1];
      assert s == init + [x];
      assert multiset(s) == multiset(init) + multiset{x};
      var sorted := SortBy(init, leq);
      Insert(x, sorted, leq)
  }

  lemma {:induction false} InsertSorted<T(!new)>(x: T, s: seq<T>, leq: (T, T) -> bool)
    requires TotalPreorder(leq) && SortedBy(s, leq)
    ensures SortedBy(Insert(x, s, leq), leq)
  {
    if s != [] && leq(s[0], x) {
      var t := s[1..];
      InsertSorted(x, t, leq);
      var rest := Insert(x, t, leq);
      forall k | 0 <= k < |rest| ensures leq(s[0], rest[k]) {
        assert rest[k] in multiset(rest);
        assert rest[k] == x || rest[k] in multiset(t);
        if rest[k] != x {
          var j :| 0 <= j < |t| && t[j] == rest[k];
          assert s[j + 1] == t[j];
        }
      }
    }
  }

  /** The result of SortBy is ordered whenever the comparator is a total preorder. */
  lemma {:induction false} SortBySorted<T(!new)>(s: seq<T>, leq: (T, T) -> bool)
    requires TotalPreorder(leq)
    ensures SortedBy(SortBy(s, leq), leq)
  {
    if s != [] {
      SortBySorted(s[..|s| - 1], leq);
      InsertSorted(s[|s| - 1], SortBy(s[..|s| - 1], leq), leq);
    }
  }

  /** The elements of `s` that the comparator ranks equal to `k`, in order. */
  function SameRank<T>(s: seq<T>, k: T, leq: (T, T) -> bool): (r: seq<T>)
    ensures |r| <= |s|
  {
    if s == [] then []
    else (if leq(s[0], k) && leq(k, s[0]) then [s[0]] else []) + SameRank(s[1..], k, leq)
  }

  lemma {:induction false} SameRankAppend<T>(a: seq<T>, b: seq<T>, k: T, leq: (T, T) -> bool)
    ensures SameRank(a + b, k, leq) == SameRank(a, k, leq) + SameRank(b, k, leq)
  {
    if a == [] {
      assert a + b == b;
    } else {
      var ab := a + b;
      assert ab[0] == a[0] && ab[1..] == a[1..] + b;
      var head := if leq(a[0], k) && leq(k, a[0]) then [a[0]] else [];
      SameRankAppend(a[1..], b, k, leq);
      assert SameRank(ab, k, leq) == head + SameRank(a[1..] + b, k, leq);
      AppendAssoc(head, SameRank(a[1..], k, leq), SameRank(b, k, leq));
    }
  }

  lemma {:induction false} SameRankNone<T>(s: seq<T>, k: T, leq: (T, T) -> bool)
    requires forall i :: 0 <= i < |s| ==> !(leq(s[i], k) && leq(k, s[i]))
    ensures SameRank(s, k, leq) == []
  {
    if s != [] {
      SameRankNone(s[1..], k, leq);
    }
  }

  lemma {:induction false} InsertSameRank<T(!new)>(x: T, s: seq<T>, k: T, leq: (T, T) -> bool)
    requires TotalPreorder(leq) && SortedBy(s, leq)
    ensures SameRank(Insert(x, s, leq), k, leq)
         == SameRank(s, k, leq) + (if leq(x, k) && leq(k, x) then [x] else [])
  {
    if s == [] {
    } else if leq(s[0], x) {
      assert SortedBy(s[1..], leq);
      InsertSameRank(x, s[1..], k, leq);
      InsertAfterSameRank(x, s, k, leq);
    } else {
      InsertFrontSameRank(x, s, k, leq);
    }
  }

  /** Inserting past the first element: its rank entry stays in front. */
  lemma InsertAfterSameRank<T>(x: T, s: seq<T>, k: T, leq: (T, T) -> bool)
    requires s != [] && leq(s[0], x)
    requires SameRank(Insert(x, s[1..], leq), k, leq)
          == SameRank(s[1..], k, leq) + (if leq(x, k) && leq(k, x) then [x] else [])
    ensures SameRank(Insert(x, s, leq), k, leq)
         == SameRank(s, k, leq) + (if leq(x, k) && leq(k, x) then [x] else [])
  {
    var head := if leq(s[0], k) && leq(k, s[0]) then [s[0]] else [];
    var mid := SameRank(s[1..], k, leq);
    var tail := if leq(x, k) && leq(k, x) then [x] else [];
    assert SameRank(s, k, leq) == head + mid;
    assert SameRank(Insert(x, s, leq), k, leq) == head + (mid + tail) by {
      InsertUnfold(x, s, leq);
      SameRankCons(s[0], Insert(x, s[1..], leq), k, leq);
    }
    AppendAssoc(head, mid, tail);
  }

  lemma AppendAssoc<T>(a: seq<T>, b: seq<T>, c: seq<T>)
    ensures a + (b + c) == (a + b) + c
  {
  }

  lemma InsertUnfold<T>(x: T, s: seq<T>, leq: (T, T) -> bool)
    requires s != [] && leq(s[0], x)
    ensures Insert(x, s, leq) == [s[0]] + Insert(x, s[1..], leq)
  {
  }

  /** One unfolding of SameRank at the front of a sequence. */
  lemma SameRankCons<T>(y: T, r: seq<T>, k: T, leq: (T, T) -> bool)
    ensures SameRank([y] + r, k, leq) == (if leq(y, k) && leq(k, y) then [y] else []) + SameRank(r, k, leq)
  {
    assert ([y] + r)[0] == y;
    assert ([y] + r)[1..] == r;
  }

  /** Inserting before every element: `x` is ranked strictly before all of `s`. */
  lemma InsertFrontSameRank<T(!new)>(x: T, s: seq<T>, k: T, leq: (T, T) -> bool)
    requires TotalPreorder(leq) && SortedBy(s, leq)
    requires s != [] && !leq(s[0], x)
    ensures SameRank(Insert(x, s, leq), k, leq)
         == SameRank(s, k, leq) + (if leq(x, k) && leq(k, x) then [x] else [])
  {
    assert Insert(x, s, leq) == [x] + s;
    SameRankCons(x, s, k, leq);
    if leq(x, k) && leq(k, x) {
      forall i | 0 <= i < |s| ensures !(leq(s[i], k) && leq(k, s[i])) {
        if i > 0 {
          assert leq(s[0], s[i]);
        }
      }
      SameRankNone(s, k, leq);
    }
  }

  /** Stability: the elements ranked equal to any `k` keep their input order. */
  lemma {:induction false} SortByStable<T(!new)>(s: seq<T>, k: T, leq: (T, T) -> bool)
    requires TotalPreorder(leq)
    ensures SameRank(SortBy(s, leq), k, leq) == SameRank(s, k, leq)
  {
    if s != [] {
      var init, x := s[..|s| - 1], s[|s| - 1];
      assert s == init + [x];
      var tail := if leq(x, k) && leq(k, x) then [x] else [];
      SortByStable(init, k, leq);
      SortBySorted(init, leq);
      InsertSameRank(x, SortBy(init, leq), k, leq);
      assert SameRank(SortBy(s, leq), k, leq) == SameRank(init, k, leq) + tail;
      SameRankAppend(init, [x], k, leq);
      assert SameRank([x], k, leq) == tail;
    }
  }

  /** The code-unit order used by `Array.prototype.sort()` without a comparator. */
  predicate CodeUnitLeq(a: string, b: string)
  {
    if a == [] then true
    else if b == [] then false
    else if a[0] != b[0] then a[0] < b[0]
    else CodeUnitLeq(a[1..], b[1..])
  }

  lemma {:induction false} CodeUnitTotal(a: string, b: string)
    ensures CodeUnitLeq(a, b) || CodeUnitLeq(b, a)
  {
    if a != [] && b != [] && a[0] == b[0] {
      CodeUnitTotal(a[1..], b[1..]);
    }
  }

  lemma {:induction false} CodeUnitTransitive(a: string, b: string, c: string)
    requires CodeUnitLeq(a, b) && CodeUnitLeq(b, c)
    ensures CodeUnitLeq(a, c)
  {
    if a != [] && b != [] && c != [] && a[0] == b[0] && b[0] == c[0] {
      CodeUnitTransitive(a[1..], b[1..], c[1..]);
    }
  }

  lemma {:induction false} CodeUnitAntisymmetric(a: string, b: string)
    requires CodeUnitLeq(a, b) && CodeUnitLeq(b, a)
    ensures a == b
  {
    if a != [] && b != [] {
      CodeUnitAntisymmetric(a[1..], b[1..]);
      assert a == [a[0]] + a[1..] && b == [b[0]] + b[1..];
    }
  }

  lemma CodeUnitTotalPreorder()
    ensures TotalPreorder(CodeUnitLeq)
  {
    forall a, b ensures CodeUnitLeq(a, b) || CodeUnitLeq(b, a) {
      CodeUnitTotal(a, b);
    }
    forall a, b, c | CodeUnitLeq(a, b) && CodeUnitLeq(b, c) ensures CodeUnitLeq(a, c) {
      CodeUnitTransitive(a, b, c);
    }
  }
}
