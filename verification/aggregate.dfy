/**
 * The folds that every view of the dashboard repeats over a record
 * collection: field sums (`reduce`), guarded percentages, grouping into a
 * keyed accumulator (`reduce` into an object, then `Object.entries`),
 * first-seen de-duplication (`Array.from(new Set(...))`), and "top N"
 * (`sort` by a numeric key, descending, then `slice(0, n)`).
 *
 * Amounts are exact reals, so a sum does not depend on the order in which
 * it is taken; the folds nevertheless go left to right as `reduce` does.
 */
module Aggregate {

  // ---------------------------------------------------------------------------
  // Sums and rates
  // ---------------------------------------------------------------------------

  /** `s.reduce((sum, x) => sum + f(x), 0)`: a left fold, so it peels off the last element. */
  function Sum<T>(s: seq<T>, f: T -> real): real
    decreases |s|
  {
    if |s| == 0 then 0.0 else Sum(s[..|s| - 1], f) + f(s[|s| - 1])
  }

  /** Summing is additive over concatenation. */
  lemma {:induction false} SumAppend<T>(a: seq<T>, b: seq<T>, f: T -> real)
    ensures Sum(a + b, f) == Sum(a, f) + Sum(b, f)
    decreases |b|
  {
    if |b| == 0 {
      assert a + b == a;
    } else {
      var b' := b[..|b| - 1];
      assert (a + b)[..|a + b| - 1] == a + b';
      SumAppend(a, b', f);
    }
  }

  /** Summing from the front gives the same value as the left fold. */
  lemma SumCons<T>(x: T, t: seq<T>, f: T -> real)
    ensures Sum([x] + t, f) == f(x) + Sum(t, f)
  {
    assert [x][..0] == [];
    SumAppend([x], t, f);
  }

  /** Sums of pointwise-bounded fields are bounded: the total of non-negative amounts is non-negative. */
  lemma {:induction false} SumNonNegative<T>(s: seq<T>, f: T -> real)
    requires forall i :: 0 <= i < |s| ==> f(s[i]) >= 0.0
    ensures Sum(s, f) >= 0.0
    decreases |s|
  {
    if |s| > 0 {
      SumNonNegative(s[..|s| - 1], f);
    }
  }

  /**
   * `whole > 0 ? part / whole * 100 : 0`: the percentage that `part` is of
   * `whole`, with a non-positive denominator mapped to 0 instead of a
   * division by zero (or a negative base).
   */
  function Rate(part: real, whole: real): (r: real)
    ensures whole > 0.0 ==> r * whole == 100.0 * part
    ensures whole > 0.0 ==> (r == 100.0 <==> part == whole)
    ensures whole > 0.0 && part >= 0.0 ==> r >= 0.0
    ensures whole <= 0.0 ==> r == 0.0
  {
    if whole > 0.0 then part / whole * 100.0 else 0.0
  }

  // ---------------------------------------------------------------------------
  // Index-aligned mapping and prefixes
  // ---------------------------------------------------------------------------

  /** `s.map(f)` */
  function MapSeq<T, U>(s: seq<T>, f: T -> U): seq<U>
  {
    seq(|s|, i requires 0 <= i < |s| => f(s[i]))
  }

  /** Mapping distributes over concatenation. */
  lemma MapSeqAppend<T, U>(a: seq<T>, b: seq<T>, f: T -> U)
    ensures MapSeq(a + b, f) == MapSeq(a, f) + MapSeq(b, f)
  {
    assert forall i :: 0 <= i < |b| ==> (a + b)[|a| + i] == b[i];
  }

  /** `s.slice(0, n)` */
  function Take<T>(s: seq<T>, n: nat): seq<T>
  {
    if |s| <= n then s else s[..n]
  }

  // ---------------------------------------------------------------------------
  // First-seen de-duplication
  // ---------------------------------------------------------------------------

  ghost predicate NoDup<T>(s: seq<T>)
  {
    forall i, j :: 0 <= i < j < |s| ==> s[i] != s[j]
  }

  /** The position of the first occurrence of `x` in `s`. */
  function FirstIndex<T(==)>(s: seq<T>, x: T): (i: nat)
    requires x in s
    ensures i < |s| && s[i] == x && x !in s[..i]
  {
    if s[0] == x then 0
    else
      var j := FirstIndex(s[1..], x);
      assert s[..1 + j] == [s[0]] + s[1..][..j];
      1 + j
  }

  lemma FirstIndexUnique<T>(s: seq<T>, i: nat, x: T)
    requires i < |s| && s[i] == x && x !in s[..i]
    ensures FirstIndex(s, x) == i
  {
  }

  /** Cutting a sequence after an occurrence of `x` does not move its first occurrence. */
  lemma FirstIndexPrefix<T>(s: seq<T>, m: nat, x: T)
    requires m <= |s| && x in s[..m]
    ensures x in s && FirstIndex(s, x) == FirstIndex(s[..m], x)
  {
    var j := FirstIndex(s[..m], x);
    assert s[..m][..j] == s[..j];
    FirstIndexUnique(s, j, x);
  }

  /** `Array.from(new Set(s))`: each element once, at the place it was first seen. */
  function FirstSeen<T(==)>(s: seq<T>): seq<T>
    decreases |s|
  {
    if |s| == 0 then []
    else
      var seen := FirstSeen(s[..|s| - 1]);
      if s[|s| - 1] in seen then seen else seen + [s[|s| - 1]]
  }

  /**
   * FirstSeen keeps exactly the values of its input, each once, ordered by
   * their first occurrence in the input. These three facts determine the
   * result completely.
   */
  lemma {:induction false} FirstSeenSpec<T>(s: seq<T>)
    ensures NoDup(FirstSeen(s))
    ensures forall x :: x in FirstSeen(s) <==> x in s
    ensures |FirstSeen(s)| <= |s|
    ensures forall i, j :: 0 <= i < j < |FirstSeen(s)| ==>
              FirstIndex(s, FirstSeen(s)[i]) < FirstIndex(s, FirstSeen(s)[j])
    decreases |s|
  {
    if |s| > 0 {
      var p := s[..|s| - 1];
      var x := s[|s| - 1];
      FirstSeenSpec(p);
      var seen := FirstSeen(p);
      assert s == p + [x];
      forall y | y in p
        ensures FirstIndex(s, y) == FirstIndex(p, y)
      {
        FirstIndexPrefix(s, |s| - 1, y);
      }
      if x !in seen {
        FirstIndexUnique(s, |s| - 1, x);
        var r := seen + [x];
        forall i, j | 0 <= i < j < |r|
          ensures FirstIndex(s, r[i]) < FirstIndex(s, r[j])
        {
          assert r[i] == seen[i];
          if j < |seen| {
            assert r[j] == seen[j];
            assert r[j] in p;
          }
        }
      }
    }
  }

  // ---------------------------------------------------------------------------
  // Grouping into a keyed accumulator
  // ---------------------------------------------------------------------------

  /** One `[name, value]` pair of `Object.entries(acc)`. */
  datatype Entry = Entry(key: string, value: real)

  function EntryValue(e: Entry): real { e.value }

  function Keys(g: seq<Entry>): seq<string>
  {
    seq(|g|, i requires 0 <= i < |g| => g[i].key)
  }

  /** `acc[k] || 0` */
  function Lookup(g: seq<Entry>, k: string): real
    decreases |g|
  {
    if |g| == 0 then 0.0 else if g[0].key == k then g[0].value else Lookup(g[1..], k)
  }

  /**
   * `acc[k] = (acc[k] || 0) + v`: the entry for `k` grows by `v`, or, when
   * there is none yet, a new entry is added after all existing ones (object
   * insertion order).
   */
  function Accumulate(g: seq<Entry>, k: string, v: real): seq<Entry>
    decreases |g|
  {
    if |g| == 0 then [Entry(k, v)]
    else if g[0].key == k then [Entry(k, g[0].value + v)] + g[1..]
    else [g[0]] + Accumulate(g[1..], k, v)
  }

  /**
   * `Object.entries(s.reduce((acc, x) => { acc[key(x)] = (acc[key(x)] || 0) + val(x); return acc }, {}))`
   */
  function GroupSum<T>(s: seq<T>, key: T -> string, val: T -> real): seq<Entry>
    decreases |s|
  {
    if |s| == 0 then []
    else Accumulate(GroupSum(s[..|s| - 1], key, val), key(s[|s| - 1]), val(s[|s| - 1]))
  }

  /** The reference definition of one group's total: the sum of `val` over the items whose key is `k`. */
  function SumWhere<T>(s: seq<T>, key: T -> string, val: T -> real, k: string): real
    decreases |s|
  {
    if |s| == 0 then 0.0
    else SumWhere(s[..|s| - 1], key, val, k) + (if key(s[|s| - 1]) == k then val(s[|s| - 1]) else 0.0)
  }

  lemma {:induction false} AccumulateLookup(g: seq<Entry>, k: string, v: real, k': string)
    ensures Lookup(Accumulate(g, k, v), k') == Lookup(g, k') + (if k' == k then v else 0.0)
    decreases |g|
  {
    if |g| > 0 {
      if g[0].key == k {
        assert ([Entry(k, g[0].value + v)] + g[1..])[1..] == g[1..];
      } else {
        var rest := Accumulate(g[1..], k, v);
        assert ([g[0]] + rest)[1..] == rest;
        AccumulateLookup(g[1..], k, v, k');
      }
    }
  }

  lemma KeysCons(e: Entry, t: seq<Entry>)
    ensures Keys([e] + t) == [e.key] + Keys(t)
  {
    var l, r := Keys([e] + t), [e.key] + Keys(t);
    forall i | 0 <= i < |l|
      ensures l[i] == r[i]
    {
      if i > 0 {
        assert ([e] + t)[i] == t[i - 1];
      }
    }
  }

  lemma {:induction false} AccumulateKeys(g: seq<Entry>, k: string, v: real)
    ensures Keys(Accumulate(g, k, v)) == if k in Keys(g) then Keys(g) else Keys(g) + [k]
    decreases |g|
  {
    if |g| > 0 {
      var tail := g[1..];
      assert g == [g[0]] + tail;
      KeysCons(g[0], tail);
      if g[0].key == k {
        KeysCons(Entry(k, g[0].value + v), tail);
      } else {
        var rest := Accumulate(tail, k, v);
        KeysCons(g[0], rest);
        AccumulateKeys(tail, k, v);
        if k !in Keys(tail) {
          assert [g[0].key] + (Keys(tail) + [k]) == ([g[0].key] + Keys(tail)) + [k];
        }
      }
    }
  }

  lemma {:induction false} AccumulateTotal(g: seq<Entry>, k: string, v: real)
    ensures Sum(Accumulate(g, k, v), EntryValue) == Sum(g, EntryValue) + v
    decreases |g|
  {
    if |g| == 0 {
      SumCons(Entry(k, v), [], EntryValue);
      assert [Entry(k, v)] + [] == [Entry(k, v)];
    } else {
      assert g == [g[0]] + g[1..];
      SumCons(g[0], g[1..], EntryValue);
      if g[0].key == k {
        SumCons(Entry(k, g[0].value + v), g[1..], EntryValue);
      } else {
        SumCons(g[0], Accumulate(g[1..], k, v), EntryValue);
        AccumulateTotal(g[1..], k, v);
      }
    }
  }

  /** With distinct keys, looking up an entry's key finds that entry's value. */
  lemma {:induction false} LookupDistinct(g: seq<Entry>, i: nat)
    requires NoDup(Keys(g)) && i < |g|
    ensures Lookup(g, g[i].key) == g[i].value
    decreases i
  {
    if i > 0 {
      assert Keys(g)[0] != Keys(g)[i];
      assert Keys(g[1..]) == Keys(g)[1..];
      LookupDistinct(g[1..], i - 1);
    }
  }

  lemma {:induction false} GroupSumLookup<T>(s: seq<T>, key: T -> string, val: T -> real, k: string)
    ensures Lookup(GroupSum(s, key, val), k) == SumWhere(s, key, val, k)
    decreases |s|
  {
    if |s| > 0 {
      GroupSumLookup(s[..|s| - 1], key, val, k);
      AccumulateLookup(GroupSum(s[..|s| - 1], key, val), key(s[|s| - 1]), val(s[|s| - 1]), k);
    }
  }

  lemma {:induction false} GroupSumTotal<T>(s: seq<T>, key: T -> string, val: T -> real)
    ensures Sum(GroupSum(s, key, val), EntryValue) == Sum(s, val)
    decreases |s|
  {
    if |s| > 0 {
      GroupSumTotal(s[..|s| - 1], key, val);
      AccumulateTotal(GroupSum(s[..|s| - 1], key, val), key(s[|s| - 1]), val(s[|s| - 1]));
    }
  }

  lemma {:induction false} GroupSumKeys<T>(s: seq<T>, key: T -> string, val: T -> real)
    ensures Keys(GroupSum(s, key, val)) == FirstSeen(MapSeq(s, key))
    decreases |s|
  {
    if |s| > 0 {
      var p := s[..|s| - 1];
      GroupSumKeys(p, key, val);
      AccumulateKeys(GroupSum(p, key, val), key(s[|s| - 1]), val(s[|s| - 1]));
      assert MapSeq(s, key)[..|s| - 1] == MapSeq(p, key);
    }
  }

  /**
   * The grouping has one entry per distinct key, in first-seen order; each
   * entry holds the sum of its group; and the entries together add up to
   * the sum over the whole collection.
   */
  lemma GroupSumSpec<T>(s: seq<T>, key: T -> string, val: T -> real)
    ensures Keys(GroupSum(s, key, val)) == FirstSeen(MapSeq(s, key))
    ensures NoDup(Keys(GroupSum(s, key, val)))
    ensures forall k :: k in Keys(GroupSum(s, key, val)) <==> exists j :: 0 <= j < |s| && key(s[j]) == k
    ensures forall i :: 0 <= i < |GroupSum(s, key, val)| ==>
              GroupSum(s, key, val)[i].value == SumWhere(s, key, val, GroupSum(s, key, val)[i].key)
    ensures Sum(GroupSum(s, key, val), EntryValue) == Sum(s, val)
  {
    var g := GroupSum(s, key, val);
    GroupSumKeys(s, key, val);
    FirstSeenSpec(MapSeq(s, key));
    forall k
      ensures k in Keys(g) <==> exists j :: 0 <= j < |s| && key(s[j]) == k
    {
      if k in Keys(g) {
        var j :| 0 <= j < |s| && MapSeq(s, key)[j] == k;
      }
      if j :| 0 <= j < |s| && key(s[j]) == k {
        assert MapSeq(s, key)[j] == k;
      }
    }
    forall i | 0 <= i < |g|
      ensures g[i].value == SumWhere(s, key, val, g[i].key)
    {
      LookupDistinct(g, i);
      GroupSumLookup(s, key, val, g[i].key);
    }
    GroupSumTotal(s, key, val);
  }

  // ---------------------------------------------------------------------------
  // Sorting by a numeric key, descending, and taking the first n
  // ---------------------------------------------------------------------------

  ghost predicate NonIncreasing<T>(s: seq<T>, key: T -> real)
  {
    forall i, j :: 0 <= i < j < |s| ==> key(s[i]) >= key(s[j])
  }

  /** Inserts `x` after every element whose key is at least `x`'s. */
  function Insert<T>(s: seq<T>, x: T, key: T -> real): seq<T>
    decreases |s|
  {
    if |s| == 0 then [x]
    else if key(s[0]) >= key(x) then [s[0]] + Insert(s[1..], x, key)
    else [x] + s
  }

  /**
   * `[...s].sort((a, b) => key(b) - key(a))`. Elements are inserted in input
   * order, each after the ones with an equal key, so ties keep their input
   * order as the stable sort of ECMAScript 2019 does.
   */
  function SortDesc<T>(s: seq<T>, key: T -> real): seq<T>
    decreases |s|
  {
    if |s| == 0 then [] else Insert(SortDesc(s[..|s| - 1], key), s[|s| - 1], key)
  }

  lemma {:induction false} InsertPerm<T>(s: seq<T>, x: T, key: T -> real)
    ensures multiset(Insert(s, x, key)) == multiset(s) + multiset{x}
    decreases |s|
  {
    if |s| > 0 {
      assert s == [s[0]] + s[1..];
      if key(s[0]) >= key(x) {
        InsertPerm(s[1..], x, key);
      }
    }
  }

  /** Every key in `Insert(s, x, key)` is bounded by any bound on the keys of `s` and on `x`'s. */
  lemma {:induction false} InsertBounded<T>(s: seq<T>, x: T, key: T -> real, b: real)
    requires forall i :: 0 <= i < |s| ==> key(s[i]) <= b
    requires key(x) <= b
    ensures forall i :: 0 <= i < |Insert(s, x, key)| ==> key(Insert(s, x, key)[i]) <= b
    decreases |s|
  {
    if |s| > 0 && key(s[0]) >= key(x) {
      InsertBounded(s[1..], x, key, b);
    }
  }

  lemma {:induction false} InsertSorted<T>(s: seq<T>, x: T, key: T -> real)
    requires NonIncreasing(s, key)
    ensures NonIncreasing(Insert(s, x, key), key)
    decreases |s|
  {
    if |s| > 0 && key(s[0]) >= key(x) {
      var rest := Insert(s[1..], x, key);
      InsertSorted(s[1..], x, key);
      InsertBounded(s[1..], x, key, key(s[0]));
      var r := [s[0]] + rest;
      assert forall i :: 1 <= i < |r| ==> r[i] == rest[i - 1];
    }
  }

  lemma InsertSpec<T>(s: seq<T>, x: T, key: T -> real)
    requires NonIncreasing(s, key)
    ensures NonIncreasing(Insert(s, x, key), key)
    ensures multiset(Insert(s, x, key)) == multiset(s) + multiset{x}
  {
    InsertPerm(s, x, key);
    InsertSorted(s, x, key);
  }

  /** SortDesc returns a non-increasing permutation of its input. */
  lemma {:induction false} SortDescSpec<T>(s: seq<T>, key: T -> real)
    ensures NonIncreasing(SortDesc(s, key), key)
    ensures multiset(SortDesc(s, key)) == multiset(s)
    decreases |s|
  {
    if |s| > 0 {
      var p, x := s[..|s| - 1], s[|s| - 1];
      assert SortDesc(s, key) == Insert(SortDesc(p, key), x, key);
      SortDescSpec(p, key);
      InsertSpec(SortDesc(p, key), x, key);
      assert s == p + [x];
      assert multiset(s) == multiset(p) + multiset{x};
    }
  }

  /** The elements of `s` whose key is `v`, in their order in `s`. */
  function FilterKey<T>(s: seq<T>, key: T -> real, v: real): seq<T>
    decreases |s|
  {
    if |s| == 0 then []
    else (if key(s[0]) == v then [s[0]] else []) + FilterKey(s[1..], key, v)
  }

  lemma {:induction false} FilterAppend<T>(a: seq<T>, b: seq<T>, key: T -> real, v: real)
    ensures FilterKey(a + b, key, v) == FilterKey(a, key, v) + FilterKey(b, key, v)
    decreases |a|
  {
    if |a| > 0 {
      assert (a + b)[0] == a[0] && (a + b)[1..] == a[1..] + b;
      FilterAppend(a[1..], b, key, v);
      var h := if key(a[0]) == v then [a[0]] else [];
      assert h + (FilterKey(a[1..], key, v) + FilterKey(b, key, v))
          == (h + FilterKey(a[1..], key, v)) + FilterKey(b, key, v);
    } else {
      assert a + b == b;
    }
  }

  lemma {:induction false} NoneWithKey<T>(s: seq<T>, key: T -> real, v: real)
    requires forall i :: 0 <= i < |s| ==> key(s[i]) < v
    ensures FilterKey(s, key, v) == []
    decreases |s|
  {
    if |s| > 0 {
      NoneWithKey(s[1..], key, v);
    }
  }

  /** When every element has key `v`, filtering by `v` keeps them all. */
  lemma {:induction false} FilterAll<T>(s: seq<T>, key: T -> real, v: real)
    requires forall i :: 0 <= i < |s| ==> key(s[i]) == v
    ensures FilterKey(s, key, v) == s
    decreases |s|
  {
    if |s| > 0 {
      FilterAll(s[1..], key, v);
      assert s == [s[0]] + s[1..];
    }
  }

  lemma FilterCons<T>(x: T, t: seq<T>, key: T -> real, v: real)
    ensures FilterKey([x] + t, key, v) == (if key(x) == v then [x] else []) + FilterKey(t, key, v)
  {
    assert ([x] + t)[0] == x && ([x] + t)[1..] == t;
  }

  lemma NonIncreasingTail<T>(s: seq<T>, key: T -> real)
    requires |s| > 0 && NonIncreasing(s, key)
    ensures NonIncreasing(s[1..], key)
    ensures forall i :: 0 <= i < |s| ==> key(s[i]) <= key(s[0])
  {
    forall i, j | 0 <= i < j < |s| - 1
      ensures key(s[1..][i]) >= key(s[1..][j])
    {
      assert s[1..][i] == s[i + 1] && s[1..][j] == s[j + 1];
    }
  }

  /** Inserting into a sorted list puts `x` after every element with its key. */
  lemma {:induction false} InsertFilter<T>(s: seq<T>, x: T, key: T -> real, v: real)
    requires NonIncreasing(s, key)
    ensures FilterKey(Insert(s, x, key), key, v) == FilterKey(s, key, v) + (if key(x) == v then [x] else [])
    decreases |s|
  {
    if |s| > 0 {
      var tail := s[1..];
      var h := if key(s[0]) == v then [s[0]] else [];
      var hx := if key(x) == v then [x] else [];
      NonIncreasingTail(s, key);
      assert s == [s[0]] + tail;
      FilterCons(s[0], tail, key, v);
      if key(s[0]) >= key(x) {
        var rest := Insert(tail, x, key);
        assert Insert(s, x, key) == [s[0]] + rest;
        FilterCons(s[0], rest, key, v);
        InsertFilter(tail, x, key, v);
        assert h + (FilterKey(tail, key, v) + hx) == (h + FilterKey(tail, key, v)) + hx;
      } else {
        assert Insert(s, x, key) == [x] + s;
        FilterCons(x, s, key, v);
        if key(x) == v {
          NoneWithKey(s, key, v);
        }
      }
    } else {
      assert Insert(s, x, key) == [x];
      FilterCons(x, [], key, v);
    }
  }

  /**
   * The sort is stable: the elements sharing any one key come out in the
   * order they went in, as ECMAScript 2019 requires of `Array.prototype.sort`.
   */
  lemma {:induction false} SortDescStable<T>(s: seq<T>, key: T -> real, v: real)
    ensures FilterKey(SortDesc(s, key), key, v) == FilterKey(s, key, v)
    decreases |s|
  {
    if |s| > 0 {
      var p, x := s[..|s| - 1], s[|s| - 1];
      SortDescStable(p, key, v);
      SortDescSpec(p, key);
      InsertFilter(SortDesc(p, key), x, key, v);
      assert s == p + [x];
      FilterAppend(p, [x], key, v);
      assert FilterKey([x], key, v) == if key(x) == v then [x] else [] by {
        assert [x][1..] == [];
      }
    }
  }

  /** Cutting a list keeps, for every key, a prefix of the elements with that key. */
  lemma TakeFilterPrefix<T>(t: seq<T>, n: nat, key: T -> real, v: real)
    ensures FilterKey(Take(t, n), key, v) <= FilterKey(t, key, v)
  {
    if |t| > n {
      assert t == t[..n] + t[n..];
      FilterAppend(t[..n], t[n..], key, v);
    }
  }

  /** `[...s].sort((a, b) => key(b) - key(a)).slice(0, n)` */
  function TopN<T>(s: seq<T>, n: nat, key: T -> real): seq<T>
  {
    Take(SortDesc(s, key), n)
  }

  /** The first n elements of a non-increasing sequence dominate the rest. */
  lemma TakeSorted<T>(t: seq<T>, n: nat, key: T -> real)
    requires NonIncreasing(t, key)
    ensures NonIncreasing(Take(t, n), key)
    ensures multiset(Take(t, n)) <= multiset(t)
    ensures forall e :: multiset(Take(t, n))[e] < multiset(t)[e] ==>
              forall i :: 0 <= i < |Take(t, n)| ==> key(e) <= key(Take(t, n)[i])
  {
    if |t| > n {
      var r, rest := t[..n], t[n..];
      assert Take(t, n) == r;
      assert t == r + rest;
      assert multiset(t) == multiset(r) + multiset(rest);
      forall e | multiset(r)[e] < multiset(t)[e]
        ensures forall i :: 0 <= i < |r| ==> key(e) <= key(r[i])
      {
        assert e in multiset(rest);
        var j :| 0 <= j < |rest| && rest[j] == e;
        assert t[n + j] == e;
        forall i | 0 <= i < |r|
          ensures key(e) <= key(r[i])
        {
          assert r[i] == t[i];
        }
      }
    }
  }

  /**
   * TopN returns min(n, |s|) elements of `s`, in non-increasing key order,
   * and nothing left out has a larger key than anything kept.
   */
  lemma TopNSpec<T>(s: seq<T>, n: nat, key: T -> real)
    ensures |TopN(s, n, key)| == if |s| < n then |s| else n
    ensures NonIncreasing(TopN(s, n, key), key)
    ensures multiset(TopN(s, n, key)) <= multiset(s)
    ensures forall e :: multiset(TopN(s, n, key))[e] < multiset(s)[e] ==>
              forall i :: 0 <= i < |TopN(s, n, key)| ==> key(e) <= key(TopN(s, n, key)[i])
    ensures forall e :: e in s && e !in TopN(s, n, key) ==>
              forall i :: 0 <= i < |TopN(s, n, key)| ==> key(e) <= key(TopN(s, n, key)[i])
  {
    var t := SortDesc(s, key);
    var r := Take(t, n);
    assert TopN(s, n, key) == r;
    SortDescSpec(s, key);
    assert |t| == |s| by {
      assert |multiset(t)| == |multiset(s)|;
    }
    TakeSorted(t, n, key);
    forall e | e in s && e !in r
      ensures forall i :: 0 <= i < |r| ==> key(e) <= key(r[i])
    {
      assert e in multiset(s);
      assert multiset(r)[e] < multiset(t)[e];
    }
  }

  /**
   * Among elements with equal keys, TopN keeps the first ones of the input:
   * for every key value, what it keeps with that key is a prefix of what the
   * input holds with that key.
   */
  lemma TopNStable<T>(s: seq<T>, n: nat, key: T -> real)
    ensures forall v :: FilterKey(TopN(s, n, key), key, v) <= FilterKey(s, key, v)
  {
    forall v
      ensures FilterKey(TopN(s, n, key), key, v) <= FilterKey(s, key, v)
    {
      TakeFilterPrefix(SortDesc(s, key), n, key, v);
      SortDescStable(s, key, v);
    }
  }
}
