/** Small value helpers shared by every part of the model: an optional value
    (a field that may be null/undefined in the stored rows) and sums over
    sequences, accumulated left to right as the source's reduce/forEach do. */
module Common {

  datatype Option<+T> = None | Some(value: T)

  /** JavaScript truthiness of an optional string: null, undefined and "" are falsy. */
  predicate Truthy(o: Option<string>) {
    o.Some? && o.value != ""
  }

  /** `o || fallback` for an optional string. */
  function OrElse(o: Option<string>, fallback: string): string {
    if Truthy(o) then o.value else fallback
  }

  /** Sum of `f` over `s`, folded from the left. */
  function SumOf<T>(s: seq<T>, f: T -> int): int {
    if s == [] then 0 else SumOf(s[..|s| - 1], f) + f(s[|s| - 1])
  }

  /** Sum of a real-valued `f` over `s`, folded from the left. */
  function SumReal<T>(s: seq<T>, f: T -> real): real {
    if s == [] then 0.0 else SumReal(s[..|s| - 1], f) + f(s[|s| - 1])
  }

  lemma {:induction false} SumOfAppend<T>(a: seq<T>, b: seq<T>, f: T -> int)
    ensures SumOf(a + b, f) == SumOf(a, f) + SumOf(b, f)
    decreases |b|
  {
    if b == [] {
      assert a + b == a;
    } else {
      var b' := b[..|b| - 1];
      assert (a + b)[..|a + b| - 1] == a + b';
      SumOfAppend(a, b', f);
    }
  }

  lemma SumOfCons<T>(x: T, s: seq<T>, f: T -> int)
    ensures SumOf([x] + s, f) == f(x) + SumOf(s, f)
  {
    SumOfAppend([x], s, f);
    assert [x][..0] == [];
  }

  /** Sum of the amounts of the elements that pass `keep`. */
  function SumWhere<T>(s: seq<T>, keep: T -> bool, f: T -> int): int {
    if s == [] then 0
    else SumWhere(s[..|s| - 1], keep, f) + (if keep(s[|s| - 1]) then f(s[|s| - 1]) else 0)
  }

  /** Elements of `s` that pass `keep`, in order (Array.prototype.filter). */
  function Filter<T>(s: seq<T>, keep: T -> bool): (r: seq<T>)
    ensures |r| <= |s|
    ensures forall x :: x in r ==> x in s && keep(x)
    ensures forall x :: x in s && keep(x) ==> x in r
  {
    if s == [] then []
    else Filter(s[..|s| - 1], keep) + (if keep(s[|s| - 1]) then [s[|s| - 1]] else [])
  }

  lemma {:induction false} SumOfFilter<T>(s: seq<T>, keep: T -> bool, f: T -> int)
    ensures SumOf(Filter(s, keep), f) == SumWhere(s, keep, f)
  {
    if s != [] {
      var s' := s[..|s| - 1];
      SumOfFilter(s', keep, f);
      SumOfAppend(Filter(s', keep), if keep(s[|s| - 1]) then [s[|s| - 1]] else [], f);
      assert [s[|s| - 1]][..0] == [];
    }
  }

  /** Filtering by two predicates that agree on every element gives the same result. */
  lemma {:induction false} FilterRespectsEqualPredicates<T>(s: seq<T>, keep1: T -> bool, keep2: T -> bool)
    requires forall x :: x in s ==> keep1(x) == keep2(x)
    ensures Filter(s, keep1) == Filter(s, keep2)
  {
    if s != [] {
      FilterRespectsEqualPredicates(s[..|s| - 1], keep1, keep2);
    }
  }

  /** `m.get(k) || 0` for a map of sums. */
  function Get(m: map<string, int>, k: string): int {
    if k in m then m[k] else 0
  }

  /** Sum of `amount` over the elements of `s` whose `key` is `k`. */
  function KeyTotal<T>(s: seq<T>, key: T -> string, amount: T -> int, k: string): int {
    if s == [] then 0
    else KeyTotal(s[..|s| - 1], key, amount, k) + (if key(s[|s| - 1]) == k then amount(s[|s| - 1]) else 0)
  }

  /** The keys that occur in `s`. */
  function KeysOf<T>(s: seq<T>, key: T -> string): set<string> {
    set i | 0 <= i < |s| :: key(s[i])
  }

  lemma KeysOfSnoc<T>(s: seq<T>, key: T -> string)
    requires s != []
    ensures KeysOf(s, key) == KeysOf(s[..|s| - 1], key) + {key(s[|s| - 1])}
  {
    var init := s[..|s| - 1];
    forall i | 0 <= i < |init| ensures init[i] == s[i] {
    }
    assert key(s[|s| - 1]) in KeysOf(s, key);
  }

  /** The map of sums by key that the loops `m.set(k, (m.get(k) || 0) + amount)`
      leave behind: an entry for each key that occurs, holding its total. */
  function Totals<T>(s: seq<T>, key: T -> string, amount: T -> int): map<string, int> {
    if s == [] then map[]
    else
      var m := Totals(s[..|s| - 1], key, amount);
      var k := key(s[|s| - 1]);
      m[k := Get(m, k) + amount(s[|s| - 1])]
  }

  /** The map of sums has an entry for exactly the keys that occur. */
  lemma {:induction false} TotalsKeys<T>(s: seq<T>, key: T -> string, amount: T -> int)
    ensures Totals(s, key, amount).Keys == KeysOf(s, key)
  {
    if s != [] {
      TotalsKeys(s[..|s| - 1], key, amount);
      KeysOfSnoc(s, key);
    }
  }

  /** A key that does not occur totals 0. */
  lemma {:induction false} KeyTotalOfAbsent<T>(s: seq<T>, key: T -> string, amount: T -> int, k: string)
    requires k !in KeysOf(s, key)
    ensures KeyTotal(s, key, amount, k) == 0
  {
    if s != [] {
      var init := s[..|s| - 1];
      assert KeysOf(init, key) <= KeysOf(s, key) by {
        forall i | 0 <= i < |init| ensures init[i] == s[i] {
        }
      }
      KeyTotalOfAbsent(init, key, amount, k);
      assert key(s[|s| - 1]) in KeysOf(s, key);
    }
  }

  /** `m.get(k) || 0` on the map of sums is the total of key `k`, present or not. */
  lemma {:induction false} GetTotals<T>(s: seq<T>, key: T -> string, amount: T -> int, k: string)
    ensures Get(Totals(s, key, amount), k) == KeyTotal(s, key, amount, k)
  {
    if s != [] {
      GetTotals(s[..|s| - 1], key, amount, k);
    }
  }

  /** The accumulation loop itself. */
  method SumByKey<T>(s: seq<T>, key: T -> string, amount: T -> int) returns (sums: map<string, int>)
    ensures sums == Totals(s, key, amount)
  {
    sums := map[];
    for i := 0 to |s|
      invariant sums == Totals(s[..i], key, amount)
    {
      var k := key(s[i]);
      TotalsStep(s, i, key, amount);
      sums := sums[k := Get(sums, k) + amount(s[i])];
    }
    assert s[..|s|] == s;
  }

  /** The keys of `s` in order of first appearance: the key order of a JS
      `Map` filled by `set` in a loop over `s`. */
  function KeyOrder<T>(s: seq<T>, key: T -> string): (r: seq<string>)
    ensures forall i, j :: 0 <= i < j < |r| ==> r[i] != r[j]
    ensures forall k :: k in r <==> k in KeysOf(s, key)
  {
    if s == [] then []
    else
      var init := KeyOrder(s[..|s| - 1], key);
      var k := key(s[|s| - 1]);
      KeysOfSnoc(s, key);
      init + if k in init then [] else [k]
  }

  /** The elements of `s` whose key is `k`, in order. */
  function KeyFilter<T>(s: seq<T>, key: T -> string, k: string): seq<T> {
    if s == [] then []
    else KeyFilter(s[..|s| - 1], key, k) + if key(s[|s| - 1]) == k then [s[|s| - 1]] else []
  }

  lemma {:induction false} KeyFilterSum<T>(s: seq<T>, key: T -> string, amount: T -> int, k: string)
    ensures SumOf(KeyFilter(s, key, k), amount) == KeyTotal(s, key, amount, k)
  {
    if s != [] {
      var init := s[..|s| - 1];
      KeyFilterSum(init, key, amount, k);
      SumOfAppend(KeyFilter(init, key, k), if key(s[|s| - 1]) == k then [s[|s| - 1]] else [], amount);
      assert [s[|s| - 1]][..0] == [];
    }
  }

  /** A key occurs iff it has elements; a key that does not occur has none. */
  lemma {:induction false} KeyFilterEmpty<T>(s: seq<T>, key: T -> string, k: string)
    ensures KeyFilter(s, key, k) == [] <==> k !in KeysOf(s, key)
  {
    if s != [] {
      KeysOfSnoc(s, key);
      KeyFilterEmpty(s[..|s| - 1], key, k);
    }
  }

  /** A sum over distinct keys in which the term of key `k0` grows by `delta`. */
  lemma {:induction false} SumOfBump(ks: seq<string>, f: string -> int, g: string -> int, k0: string, delta: int)
    requires forall i, j :: 0 <= i < j < |ks| ==> ks[i] != ks[j]
    requires forall k :: g(k) == f(k) + (if k == k0 then delta else 0)
    ensures SumOf(ks, g) == SumOf(ks, f) + (if k0 in ks then delta else 0)
  {
    if ks != [] {
      var init := ks[..|ks| - 1];
      SumOfBump(init, f, g, k0, delta);
      assert k0 in ks <==> k0 in init || ks[|ks| - 1] == k0 by {
        assert ks == init + [ks[|ks| - 1]];
      }
      if k0 in init {
        var j :| 0 <= j < |init| && init[j] == k0;
        assert ks[j] == k0;
      }
    }
  }

  /** Adding up the totals of every key, each key once, gives the sum of all. */
  lemma {:induction false} SumOfKeyTotals<T>(s: seq<T>, key: T -> string, amount: T -> int, totals: string -> int)
    requires forall k :: totals(k) == KeyTotal(s, key, amount, k)
    ensures SumOf(KeyOrder(s, key), totals) == SumOf(s, amount)
  {
    if s != [] {
      var init := s[..|s| - 1];
      var k0 := key(s[|s| - 1]);
      var before := k => KeyTotal(init, key, amount, k);
      SumOfKeyTotals(init, key, amount, before);
      var ks := KeyOrder(init, key);
      var last := amount(s[|s| - 1]);
      assert forall k :: totals(k) == before(k) + (if k == k0 then last else 0);
      if k0 !in ks {
        KeyTotalOfAbsent(init, key, amount, k0);
      }
      SumOfNewKey(ks, before, totals, k0, last);
      assert SumOf(s, amount) == SumOf(init, amount) + last;
    }
  }

  /** Adding `delta` to the total of `k0`, which is appended to the key list
      when new, adds `delta` to the sum over the keys. */
  lemma SumOfNewKey(ks: seq<string>, before: string -> int, totals: string -> int, k0: string, delta: int)
    requires forall i, j :: 0 <= i < j < |ks| ==> ks[i] != ks[j]
    requires forall k :: totals(k) == before(k) + (if k == k0 then delta else 0)
    requires k0 !in ks ==> before(k0) == 0
    ensures SumOf(ks + (if k0 in ks then [] else [k0]), totals) == SumOf(ks, before) + delta
  {
    SumOfBump(ks, before, totals, k0, delta);
    if k0 in ks {
      assert ks + [] == ks;
    } else {
      SumOfSnoc(ks, k0, totals);
    }
  }

  lemma SumOfSnoc<T>(s: seq<T>, x: T, f: T -> int)
    ensures SumOf(s + [x], f) == SumOf(s, f) + f(x)
  {
    assert (s + [x])[..|s|] == s;
  }

  /** Summing `g` over `t` whose k-th element corresponds to the k-th of `s`. */
  lemma {:induction false} SumOfMapped<S, T>(s: seq<S>, f: S -> int, t: seq<T>, g: T -> int)
    requires |t| == |s|
    requires forall k :: 0 <= k < |s| ==> g(t[k]) == f(s[k])
    ensures SumOf(t, g) == SumOf(s, f)
  {
    if s != [] {
      SumOfMapped(s[..|s| - 1], f, t[..|t| - 1], g);
    }
  }

  /** The elements of each key that occurs, in order. */
  function Members<T>(s: seq<T>, key: T -> string): map<string, seq<T>> {
    map k | k in KeysOf(s, key) :: KeyFilter(s, key, k)
  }

  /** Adding the element at index `i` to its key's sum. */
  lemma TotalsStep<T>(s: seq<T>, i: int, key: T -> string, amount: T -> int)
    requires 0 <= i < |s|
    ensures var m := Totals(s[..i], key, amount);
      m[key(s[i]) := Get(m, key(s[i])) + amount(s[i])] == Totals(s[..i + 1], key, amount)
  {
    assert s[..i + 1][..i] == s[..i] && s[..i + 1][i] == s[i];
  }

  /** Appending the element at index `i` to its key's elements. */
  lemma MembersStep<T>(s: seq<T>, i: int, key: T -> string)
    requires 0 <= i < |s|
    ensures var m := Members(s[..i], key);
      var k0 := key(s[i]);
      m[k0 := (if k0 in m then m[k0] else []) + [s[i]]] == Members(s[..i + 1], key)
  {
    var m := Members(s[..i], key);
    var k0 := key(s[i]);
    var next := m[k0 := (if k0 in m then m[k0] else []) + [s[i]]];
    var target := Members(s[..i + 1], key);
    KeysOfSnoc(s[..i + 1], key);
    assert s[..i + 1][..i] == s[..i] && s[..i + 1][i] == s[i];
    KeyFilterEmpty(s[..i], key, k0);
    assert next.Keys == target.Keys;
    forall k | k in next ensures next[k] == target[k] {
    }
  }

  /** Extending the key order by the key of the element at index `i`. */
  lemma KeyOrderStep<T>(s: seq<T>, i: int, key: T -> string)
    requires 0 <= i < |s|
    ensures var k0 := key(s[i]);
      KeyOrder(s[..i + 1], key) == KeyOrder(s[..i], key) + if k0 in KeysOf(s[..i], key) then [] else [k0]
  {
    assert s[..i + 1][..i] == s[..i] && s[..i + 1][i] == s[i];
  }

  /** A loop that groups `s` by `key` into a JS `Map` from each key to the sum
      of `amount` and the elements, in order; the Map is held as Dafny maps
      with its key order beside them. */
  method GroupByKey<T>(s: seq<T>, key: T -> string, amount: T -> int)
    returns (order: seq<string>, sums: map<string, int>, members: map<string, seq<T>>)
    ensures order == KeyOrder(s, key)
    ensures sums == Totals(s, key, amount)
    ensures members == Members(s, key)
  {
    order := [];
    sums := map[];
    members := map[];
    for i := 0 to |s|
      invariant order == KeyOrder(s[..i], key)
      invariant sums == Totals(s[..i], key, amount)
      invariant members == Members(s[..i], key)
    {
      order, sums, members := GroupStep(s, i, key, amount, order, sums, members);
    }
    assert s[..|s|] == s;
  }

  /** One turn of the grouping loop: the element at index `i` is added to its
      key's sum and elements, its key entered when it is new. */
  method GroupStep<T>(s: seq<T>, i: int, key: T -> string, amount: T -> int,
                      order: seq<string>, sums: map<string, int>, members: map<string, seq<T>>)
    returns (order': seq<string>, sums': map<string, int>, members': map<string, seq<T>>)
    requires 0 <= i < |s|
    requires order == KeyOrder(s[..i], key) && sums == Totals(s[..i], key, amount) && members == Members(s[..i], key)
    ensures order' == KeyOrder(s[..i + 1], key)
    ensures sums' == Totals(s[..i + 1], key, amount)
    ensures members' == Members(s[..i + 1], key)
  {
    var x := s[i];
    var k := key(x);
    order' := if k !in sums then order + [k] else order;
    assert order' == KeyOrder(s[..i + 1], key) by {
      KeyOrderStep(s, i, key);
      TotalsKeys(s[..i], key, amount);
    }
    sums' := sums[k := Get(sums, k) + amount(x)];
    assert sums' == Totals(s[..i + 1], key, amount) by {
      TotalsStep(s, i, key, amount);
    }
    var list := if k in members then members[k] else [];
    members' := members[k := list + [x]];
    assert members' == Members(s[..i + 1], key) by {
      MembersStep(s, i, key);
    }
  }

  /** The keys and sums of a JS object or `Map` filled by
      `data[k] = (data[k] || 0) + amount` in a loop over `s`, keys in order of
      first insertion. */
  method OrderedSums<T>(s: seq<T>, key: T -> string, amount: T -> int)
    returns (order: seq<string>, sums: map<string, int>)
    ensures order == KeyOrder(s, key)
    ensures sums == Totals(s, key, amount)
  {
    order := [];
    sums := map[];
    for i := 0 to |s|
      invariant order == KeyOrder(s[..i], key)
      invariant sums == Totals(s[..i], key, amount)
    {
      var k := key(s[i]);
      KeyOrderStep(s, i, key);
      TotalsStep(s, i, key, amount);
      TotalsKeys(s[..i], key, amount);
      if k !in sums {
        order := order + [k];
      }
      sums := sums[k := Get(sums, k) + amount(s[i])];
    }
    assert s[..|s|] == s;
  }

  /** A sequence has no repeated element exactly when no element is counted twice. */
  lemma {:induction false} DistinctByCount<T>(s: seq<T>)
    ensures (forall i, j :: 0 <= i < j < |s| ==> s[i] != s[j]) <==> forall x :: multiset(s)[x] <= 1
  {
    if s != [] {
      var init := s[..|s| - 1];
      var last := s[|s| - 1];
      DistinctByCount(init);
      assert s == init + [last];
      assert multiset(s) == multiset(init) + multiset{last};
      if forall i, j :: 0 <= i < j < |s| ==> s[i] != s[j] {
        assert forall i, j :: 0 <= i < j < |init| ==> init[i] != init[j] by {
          forall i, j | 0 <= i < j < |init| ensures init[i] != init[j] {
            assert init[i] == s[i] && init[j] == s[j];
          }
        }
        forall i | 0 <= i < |init| ensures init[i] != last {
          assert init[i] == s[i];
        }
      }
      if forall x :: multiset(s)[x] <= 1 {
        assert forall x :: multiset(init)[x] <= 1 by {
          forall x ensures multiset(init)[x] <= 1 {
            assert multiset(init)[x] <= multiset(s)[x];
          }
        }
        forall i, j | 0 <= i < j < |s| ensures s[i] != s[j] {
          if j < |s| - 1 {
            assert init[i] == s[i] && init[j] == s[j];
          } else {
            assert s[i] == init[i] && init[i] in multiset(init);
            assert multiset(s)[last] == multiset(init)[last] + 1;
          }
        }
      }
    }
  }
}
