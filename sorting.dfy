/** Sorting as the source does it: `Array.prototype.sort` with a comparator is
    a stable sort, modelled here by insertion sort over a relation `le`, where
    `le(a, b)` means "the comparator returns a value <= 0 for (a, b)". String
    comparison (`localeCompare`, and the default `sort()` on strings) is
    modelled by lexicographic order on code points (Unicode scalar values). */
module Sorting {

  import opened Common

  /** Lexicographic order on strings, code point by code point. */
  predicate LexLe(a: string, b: string) {
    a == [] || (b != [] && (a[0] < b[0] || (a[0] == b[0] && LexLe(a[1..], b[1..]))))
  }

  lemma {:induction false} LexLeTotal(a: string, b: string)
    ensures LexLe(a, b) || LexLe(b, a)
  {
    if a != [] && b != [] && a[0] == b[0] {
      LexLeTotal(a[1..], b[1..]);
    }
  }

  lemma {:induction false} LexLeTransitive(a: string, b: string, c: string)
    requires LexLe(a, b) && LexLe(b, c)
    ensures LexLe(a, c)
  {
    if a != [] && b != [] && c != [] && a[0] == b[0] == c[0] {
      LexLeTransitive(a[1..], b[1..], c[1..]);
    }
  }

  lemma {:induction false} LexLeAntisymmetric(a: string, b: string)
    requires LexLe(a, b) && LexLe(b, a)
    ensures a == b
  {
    if a != [] && b != [] {
      LexLeAntisymmetric(a[1..], b[1..]);
      assert a == [a[0]] + a[1..] && b == [b[0]] + b[1..];
    }
  }

  /** `le` orders every pair and is transitive. */
  ghost predicate TotalPreorder<T(!new)>(le: (T, T) -> bool) {
    && (forall a, b :: le(a, b) || le(b, a))
    && (forall a, b, c :: le(a, b) && le(b, c) ==> le(a, c))
  }

  lemma LexLeIsTotalPreorder()
    ensures TotalPreorder(LexLe)
  {
    forall a, b ensures LexLe(a, b) || LexLe(b, a) {
      LexLeTotal(a, b);
    }
    forall a, b, c | LexLe(a, b) && LexLe(b, c) ensures LexLe(a, c) {
      LexLeTransitive(a, b, c);
    }
  }

  ghost predicate SortedBy<T>(s: seq<T>, le: (T, T) -> bool) {
    forall i, j :: 0 <= i < j < |s| ==> le(s[i], s[j])
  }

  /** Inserts `x` after every element that may precede it, so that equal
      elements keep their order of arrival (stability). */
  function Insert<T(!new)>(x: T, s: seq<T>, le: (T, T) -> bool): (r: seq<T>)
    ensures multiset(r) == multiset(s) + multiset{x}
  {
    if s == [] then [x]
    else if le(s[0], x) then
      assert s == [s[0]] + s[1..];
      [s[0]] + Insert(x, s[1..], le)
    else
      assert s == [s[0]] + s[1..];
      [x] + s
  }

  /** Inserting into a sorted sequence keeps it sorted. */
  lemma {:induction false} InsertSorted<T(!new)>(x: T, s: seq<T>, le: (T, T) -> bool)
    requires TotalPreorder(le) && SortedBy(s, le)
    ensures SortedBy(Insert(x, s, le), le)
  {
    if s != [] {
      assert s == [s[0]] + s[1..];
      if le(s[0], x) {
        var rest := Insert(x, s[1..], le);
        InsertSorted(x, s[1..], le);
        forall k | 0 <= k < |rest| ensures le(s[0], rest[k]) {
          assert rest[k] in multiset(rest);
          if rest[k] != x {
            assert rest[k] in s[1..];
          }
        }
      } else {
        assert le(x, s[0]);
      }
    }
  }

  /** `[...s].sort(cmp)`: a stable sort of `s` by `le`. */
  function SortBy<T(!new)>(s: seq<T>, le: (T, T) -> bool): (r: seq<T>)
    ensures multiset(r) == multiset(s) && |r| == |s|
    ensures TotalPreorder(le) ==> SortedBy(r, le)
  {
    if s == [] then []
    else
      var init := SortBy(s[..|s| - 1], le);
      assert s == s[..|s| - 1] + [s[|s| - 1]];
      assert multiset(s) == multiset(s[..|s| - 1]) + multiset{s[|s| - 1]};
      assert TotalPreorder(le) ==> SortedBy(Insert(s[|s| - 1], init, le), le) by {
        if TotalPreorder(le) {
          InsertSorted(s[|s| - 1], init, le);
        }
      }
      Insert(s[|s| - 1], init, le)
  }

  /** Each element of the input has a place in the sorted output. */
  lemma SortedIndex<T(!new)>(s: seq<T>, le: (T, T) -> bool, j: int) returns (k: int)
    requires 0 <= j < |s|
    ensures 0 <= k < |SortBy(s, le)| && SortBy(s, le)[k] == s[j]
  {
    var r := SortBy(s, le);
    assert s[j] in multiset(s);
    assert s[j] in multiset(r);
    k :| 0 <= k < |r| && r[k] == s[j];
  }

  lemma {:induction false} InsertSum<T(!new)>(x: T, s: seq<T>, le: (T, T) -> bool, f: T -> int)
    ensures SumOf(Insert(x, s, le), f) == SumOf(s, f) + f(x)
  {
    if s == [] {
      assert [x][..0] == [];
    } else if le(s[0], x) {
      InsertSum(x, s[1..], le, f);
      SumOfCons(s[0], Insert(x, s[1..], le), f);
      SumOfCons(s[0], s[1..], f);
      assert s == [s[0]] + s[1..];
    } else {
      SumOfCons(x, s, f);
    }
  }

  /** Sorting does not change a sum over the elements. */
  lemma {:induction false} SortBySum<T(!new)>(s: seq<T>, le: (T, T) -> bool, f: T -> int)
    ensures SumOf(SortBy(s, le), f) == SumOf(s, f)
  {
    if s != [] {
      SortBySum(s[..|s| - 1], le, f);
      InsertSum(s[|s| - 1], SortBy(s[..|s| - 1], le), le, f);
    }
  }

  lemma {:induction false} InsertRespectsEqualRelations<T(!new)>(x: T, s: seq<T>, le1: (T, T) -> bool, le2: (T, T) -> bool)
    requires forall a, b :: le1(a, b) == le2(a, b)
    ensures Insert(x, s, le1) == Insert(x, s, le2)
  {
    if s != [] && le1(s[0], x) {
      InsertRespectsEqualRelations(x, s[1..], le1, le2);
    }
  }

  /** Two comparators that agree on every pair sort every sequence alike. */
  lemma {:induction false} SortByRespectsEqualRelations<T(!new)>(s: seq<T>, le1: (T, T) -> bool, le2: (T, T) -> bool)
    requires forall a, b :: le1(a, b) == le2(a, b)
    ensures SortBy(s, le1) == SortBy(s, le2)
  {
    if s != [] {
      SortByRespectsEqualRelations(s[..|s| - 1], le1, le2);
      InsertRespectsEqualRelations(s[|s| - 1], SortBy(s[..|s| - 1], le1), le1, le2);
    }
  }
}
