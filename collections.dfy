/** Sequence helpers that stand for the JavaScript array idioms the source
    uses: `filter`, `slice`, `sort` with a numeric comparator, and the
    `reduce((acc, x) => { acc[x] = (acc[x] || 0) + 1 })` counting objects read
    back with `Object.entries`, whose key order is modelled too. */
module Collections {
  import opened Common

  // ---------------------------------------------------------------------------
  // Counting and summing

  function Count<T(==)>(s: seq<T>, x: T): nat
  {
    if s == [] then 0 else Count(s[..|s| - 1], x) + (if s[|s| - 1] == x then 1 else 0)
  }

  lemma {:induction false} CountAppend<T>(a: seq<T>, b: seq<T>, x: T)
    ensures Count(a + b, x) == Count(a, x) + Count(b, x)
  {
    if b != [] {
      assert (a + b)[..|a + b| - 1] == a + b[..|b| - 1];
      CountAppend(a, b[..|b| - 1], x);
    } else {
      assert a + b == a;
    }
  }

  function CountWhere<T>(s: seq<T>, f: T -> bool): nat
  {
    if s == [] then 0 else CountWhere(s[..|s| - 1], f) + (if f(s[|s| - 1]) then 1 else 0)
  }

  /** An element that occurs is counted. */
  lemma {:induction false} CountPositive<T>(s: seq<T>, x: T)
    requires x in s
    ensures Count(s, x) > 0
  {
    if s[|s| - 1] != x {
      assert x in s[..|s| - 1] by {
        assert s == s[..|s| - 1] + [s[|s| - 1]];
      }
      CountPositive(s[..|s| - 1], x);
    }
  }

  /** Counting the elements with each of two exclusive properties counts no
      element twice. */
  lemma {:induction false} CountWhereDisjoint<T>(s: seq<T>, f: T -> bool, g: T -> bool)
    requires forall x :: !(f(x) && g(x))
    ensures CountWhere(s, f) + CountWhere(s, g) == CountWhere(s, x => f(x) || g(x))
  {
    if s != [] {
      CountWhereDisjoint(s[..|s| - 1], f, g);
    }
  }

  lemma {:induction false} CountWhereBound<T>(s: seq<T>, f: T -> bool)
    ensures CountWhere(s, f) <= |s|
  {
    if s != [] {
      CountWhereBound(s[..|s| - 1], f);
    }
  }

  // ---------------------------------------------------------------------------
  // Filtering and subsequences (Array.prototype.filter)

  function Filter<T>(s: seq<T>, f: T -> bool): (r: seq<T>)
    ensures |r| <= |s|
    ensures forall x :: x in r ==> x in s && f(x)
    ensures forall x :: x in s && f(x) ==> x in r
  {
    if s == [] then []
    else
      var rest := Filter(s[..|s| - 1], f);
      assert forall x :: x in s ==> x in s[..|s| - 1] || x == s[|s| - 1];
      if f(s[|s| - 1]) then rest + [s[|s| - 1]] else rest
  }

  /** `a` can be obtained from `b` by deleting elements (order kept). */
  predicate IsSubsequence<T(==)>(a: seq<T>, b: seq<T>)
    decreases |b|
  {
    if a == [] then true
    else if b == [] then false
    else if a[|a| - 1] == b[|b| - 1] then IsSubsequence(a[..|a| - 1], b[..|b| - 1])
    else IsSubsequence(a, b[..|b| - 1])
  }

  /** Filtering keeps the order of what it keeps. */
  lemma {:induction false} FilterIsSubsequence<T>(s: seq<T>, f: T -> bool)
    ensures IsSubsequence(Filter(s, f), s)
  {
    if s != [] {
      var init, last := s[..|s| - 1], s[|s| - 1];
      var rest := Filter(init, f);
      FilterIsSubsequence(init, f);
      if f(last) {
        assert Filter(s, f) == rest + [last];
        assert (rest + [last])[..|rest|] == rest;
      } else if rest != [] {
        assert rest[|rest| - 1] in rest;
        assert rest[|rest| - 1] != last;
      }
    }
  }

  /** A filter that rejects nothing is the identity. */
  lemma {:induction false} FilterAll<T>(s: seq<T>, f: T -> bool)
    requires forall x :: x in s ==> f(x)
    ensures Filter(s, f) == s
  {
    if s != [] {
      FilterAll(s[..|s| - 1], f);
      assert s[..|s| - 1] + [s[|s| - 1]] == s;
    }
  }

  /** Two tests that agree on every element filter alike. */
  lemma {:induction false} FilterEquiv<T>(s: seq<T>, f: T -> bool, g: T -> bool)
    requires forall x :: x in s ==> f(x) == g(x)
    ensures Filter(s, f) == Filter(s, g)
  {
    if s != [] {
      FilterEquiv(s[..|s| - 1], f, g);
    }
  }

  /** Filtering a sequence without repeats leaves none. */
  lemma {:induction false} FilterDistinct<T>(s: seq<T>, f: T -> bool)
    requires Distinct(s)
    ensures Distinct(Filter(s, f))
  {
    if s != [] {
      var init, last := s[..|s| - 1], s[|s| - 1];
      assert Distinct(init);
      FilterDistinct(init, f);
      var rest := Filter(init, f);
      if f(last) {
        var r := rest + [last];
        assert last !in init;
        forall i, j | 0 <= i < j < |r| ensures r[i] != r[j] {
          if j == |r| - 1 {
            assert r[i] == rest[i] && rest[i] in rest;
          }
        }
      }
    }
  }

  /** A test and its negation split a sequence into two parts that together
      hold every element exactly as often as before. */
  lemma {:induction false} FilterPartition<T>(s: seq<T>, f: T -> bool, g: T -> bool)
    requires forall x :: g(x) == !f(x)
    ensures multiset(Filter(s, f)) + multiset(Filter(s, g)) == multiset(s)
  {
    if s != [] {
      var init, last := s[..|s| - 1], s[|s| - 1];
      FilterPartition(init, f, g);
      assert s == init + [last];
    }
  }

  /** A filter keeps exactly as many elements as pass its test. */
  lemma {:induction false} FilterLength<T>(s: seq<T>, f: T -> bool)
    ensures |Filter(s, f)| == CountWhere(s, f)
  {
    if s != [] {
      FilterLength(s[..|s| - 1], f);
    }
  }

  // ---------------------------------------------------------------------------
  // Array.prototype.map and summing with reduce / forEach

  function Map<A, B>(s: seq<A>, f: A -> B): (r: seq<B>)
    ensures |r| == |s| && forall i :: 0 <= i < |s| ==> r[i] == f(s[i])
  {
    seq(|s|, i requires 0 <= i < |s| => f(s[i]))
  }

  /** Array.prototype.flatMap */
  function FlatMap<A, B>(s: seq<A>, f: A -> seq<B>): seq<B>
  {
    if s == [] then [] else FlatMap(s[..|s| - 1], f) + f(s[|s| - 1])
  }

  lemma {:induction false} FlatMapMembers<A, B>(s: seq<A>, f: A -> seq<B>, x: B)
    ensures x in FlatMap(s, f) <==> exists a :: a in s && x in f(a)
  {
    if s != [] {
      var init, last := s[..|s| - 1], s[|s| - 1];
      FlatMapMembers(init, f, x);
      if exists a :: a in s && x in f(a) {
        var a :| a in s && x in f(a);
        if a != last {
          assert a in init;
        }
      }
    }
  }

  function SumBy<T>(s: seq<T>, f: T -> int): int
  {
    if s == [] then 0 else SumBy(s[..|s| - 1], f) + f(s[|s| - 1])
  }

  lemma {:induction false} SumByAppend<T>(a: seq<T>, b: seq<T>, f: T -> int)
    ensures SumBy(a + b, f) == SumBy(a, f) + SumBy(b, f)
  {
    if b == [] {
      assert a + b == a;
    } else {
      assert (a + b)[..|a + b| - 1] == a + b[..|b| - 1];
      SumByAppend(a, b[..|b| - 1], f);
    }
  }

  /** Replacing one element changes the sum by the difference of the two. */
  lemma {:induction false} SumByUpdate<T>(s: seq<T>, j: nat, x: T, f: T -> int)
    requires j < |s|
    ensures SumBy(s[j := x], f) == SumBy(s, f) - f(s[j]) + f(x)
  {
    var t := s[j := x];
    if j < |s| - 1 {
      assert t[..|t| - 1] == s[..|s| - 1][j := x];
      SumByUpdate(s[..|s| - 1], j, x, f);
    } else {
      assert t[..|t| - 1] == s[..|s| - 1];
    }
  }

  // ---------------------------------------------------------------------------
  // A JavaScript Set of values: insertion order, no repeats

  predicate Distinct<T(==)>(s: seq<T>)
  {
    forall i, j :: 0 <= i < j < |s| ==> s[i] != s[j]
  }

  lemma {:induction false} DistinctMultiplicity<T>(s: seq<T>, x: T)
    requires Distinct(s)
    ensures multiset(s)[x] <= 1
  {
    if s != [] {
      var init, last := s[..|s| - 1], s[|s| - 1];
      assert s == init + [last];
      assert Distinct(init);
      DistinctMultiplicity(init, x);
      if last == x {
        assert x !in init;
      }
    }
  }

  /** A rearrangement of a sequence without repeats has none either. */
  lemma PermutationDistinct<T>(r: seq<T>, s: seq<T>)
    requires multiset(r) == multiset(s) && Distinct(s)
    ensures Distinct(r)
  {
    forall i, j | 0 <= i < j < |r| ensures r[i] != r[j] {
      if r[i] == r[j] {
        var x := r[i];
        assert r == r[..j] + r[j..];
        assert x in r[..j] && x in r[j..];
        assert multiset(r)[x] == multiset(r[..j])[x] + multiset(r[j..])[x];
        DistinctMultiplicity(s, x);
        assert false;
      }
    }
  }

  /** Set.prototype.add */
  function AddUnique<T(==)>(s: seq<T>, x: T): seq<T>
  {
    if x in s then s else s + [x]
  }

  /** Adding every element of `xs` in turn. */
  function AddAll<T(==)>(acc: seq<T>, xs: seq<T>): seq<T>
  {
    if xs == [] then acc else AddUnique(AddAll(acc, xs[..|xs| - 1]), xs[|xs| - 1])
  }

  lemma {:induction false} AddAllAppend<T>(acc: seq<T>, a: seq<T>, b: seq<T>)
    ensures AddAll(acc, a + b) == AddAll(AddAll(acc, a), b)
  {
    if b == [] {
      assert a + b == a;
    } else {
      assert (a + b)[..|a + b| - 1] == a + b[..|b| - 1];
      AddAllAppend(acc, a, b[..|b| - 1]);
    }
  }

  /** The set holds each value added (and what it held before) exactly once. */
  lemma {:induction false} AddAllFacts<T>(acc: seq<T>, xs: seq<T>)
    requires Distinct(acc)
    ensures Distinct(AddAll(acc, xs))
    ensures forall x :: x in AddAll(acc, xs) <==> x in acc || x in xs
  {
    if xs != [] {
      var init := xs[..|xs| - 1];
      AddAllFacts(acc, init);
      assert forall x :: x in xs <==> x in init || x == xs[|xs| - 1];
    }
  }

  // ---------------------------------------------------------------------------
  // Array.prototype.slice(0, n)

  function Take<T>(s: seq<T>, n: nat): (r: seq<T>)
    ensures |r| <= n && |r| <= |s|
    ensures |r| == if n <= |s| then n else |s|
    ensures r == s[..|r|]
  {
    if n <= |s| then s[..n] else s
  }

  // ---------------------------------------------------------------------------
  // The truthy values of one text field, and how often each occurs

  function TruthyKeys<T>(s: seq<T>, key: T -> string): seq<string>
  {
    if s == [] then []
    else TruthyKeys(s[..|s| - 1], key) + (if key(s[|s| - 1]) != "" then [key(s[|s| - 1])] else [])
  }

  /** The number of elements whose field equals `x`. */
  function CountKey<T>(s: seq<T>, key: T -> string, x: string): nat
  {
    if s == [] then 0 else CountKey(s[..|s| - 1], key, x) + (if key(s[|s| - 1]) == x then 1 else 0)
  }

  /** A truthy value occurs among the keys once per element that has it. */
  lemma {:induction false} CountTruthyKeys<T>(s: seq<T>, key: T -> string, x: string)
    requires x != ""
    ensures Count(TruthyKeys(s, key), x) == CountKey(s, key, x)
  {
    if s != [] {
      var last := s[|s| - 1];
      CountTruthyKeys(s[..|s| - 1], key, x);
      CountAppend(TruthyKeys(s[..|s| - 1], key), if key(last) != "" then [key(last)] else [], x);
      assert Count([key(last)], x) == Count([key(last)][..0], x) + (if key(last) == x then 1 else 0);
    }
  }

  lemma {:induction false} TruthyKeysMembers<T>(s: seq<T>, key: T -> string, x: string)
    ensures x in TruthyKeys(s, key) <==> x != "" && exists a :: a in s && key(a) == x
  {
    if s != [] {
      var init, last := s[..|s| - 1], s[|s| - 1];
      TruthyKeysMembers(init, key, x);
      if x != "" && exists a :: a in s && key(a) == x {
        var a :| a in s && key(a) == x;
        if a != last {
          assert a in init;
        }
      }
    }
  }

  // ---------------------------------------------------------------------------
  // Counting objects: keys in first-appearance order, each with its count

  datatype Entry<K> = Entry(key: K, count: nat)

  function Keys<K>(t: seq<Entry<K>>): (r: seq<K>)
    ensures |r| == |t| && forall i :: 0 <= i < |t| ==> r[i] == t[i].key
  {
    if t == [] then [] else [t[0].key] + Keys(t[1..])
  }

  predicate DistinctKeys<K(==)>(t: seq<Entry<K>>)
  {
    forall i, j :: 0 <= i < j < |t| ==> t[i].key != t[j].key
  }

  /** The count recorded for `k`, or 0 when `k` is not a key (the `|| 0`). */
  function Lookup<K(==)>(t: seq<Entry<K>>, k: K): nat
  {
    if t == [] then 0 else if t[0].key == k then t[0].count else Lookup(t[1..], k)
  }

  function TotalCount<K>(t: seq<Entry<K>>): nat
  {
    if t == [] then 0 else t[0].count + TotalCount(t[1..])
  }

  /** acc[k] = (acc[k] || 0) + 1: bump an existing key in place, or append it. */
  function Bump<K(==)>(t: seq<Entry<K>>, k: K): seq<Entry<K>>
  {
    if t == [] then [Entry(k, 1)]
    else if t[0].key == k then [Entry(k, t[0].count + 1)] + t[1..]
    else [t[0]] + Bump(t[1..], k)
  }

  function Tally<K(==)>(s: seq<K>): seq<Entry<K>>
  {
    if s == [] then [] else Bump(Tally(s[..|s| - 1]), s[|s| - 1])
  }

  /** Counting one more occurrence at the end bumps its entry. */
  lemma TallySnoc<K>(s: seq<K>, k: K)
    ensures Tally(s + [k]) == Bump(Tally(s), k)
  {
    assert (s + [k])[..|s|] == s;
  }

  lemma {:induction false} LookupAbsent<K>(t: seq<Entry<K>>, k: K)
    requires k !in Keys(t)
    ensures Lookup(t, k) == 0
  {
    if t != [] {
      assert Keys(t) == [t[0].key] + Keys(t[1..]);
      LookupAbsent(t[1..], k);
    }
  }

  lemma {:induction false} BumpFacts<K>(t: seq<Entry<K>>, k: K)
    requires DistinctKeys(t)
    ensures DistinctKeys(Bump(t, k))
    ensures forall j :: j in Keys(Bump(t, k)) <==> j in Keys(t) || j == k
    ensures forall j :: Lookup(Bump(t, k), j) == Lookup(t, j) + (if j == k then 1 else 0)
    ensures TotalCount(Bump(t, k)) == TotalCount(t) + 1
  {
    if t != [] {
      var tail := t[1..];
      assert DistinctKeys(tail);
      assert Keys(t) == [t[0].key] + Keys(tail);
      if t[0].key == k {
        var b := Bump(t, k);
        assert b[1..] == tail;
        assert Keys(b) == [k] + Keys(tail);
        assert k !in Keys(tail);
        LookupAbsent(tail, k);
      } else {
        BumpFacts(tail, k);
        var b := Bump(t, k);
        assert b == [t[0]] + Bump(tail, k);
        assert b[1..] == Bump(tail, k);
        assert Keys(b) == [t[0].key] + Keys(Bump(tail, k));
        forall i, j | 0 <= i < j < |b| ensures b[i].key != b[j].key {
          if i == 0 {
            assert b[j] == Bump(tail, k)[j - 1];
            assert b[j].key in Keys(Bump(tail, k));
            assert t[0].key !in Keys(tail);
          }
        }
      }
    }
  }

  /** Every key of the tally is a value of the input, with exactly the number of
      times it occurs there; keys are distinct and the counts add up to the
      length of the input. */
  lemma {:induction false} TallyFacts<K>(s: seq<K>)
    ensures DistinctKeys(Tally(s))
    ensures forall k :: k in Keys(Tally(s)) <==> k in s
    ensures forall k :: Lookup(Tally(s), k) == Count(s, k)
    ensures TotalCount(Tally(s)) == |s|
  {
    if s != [] {
      var init, last := s[..|s| - 1], s[|s| - 1];
      TallyFacts(init);
      BumpFacts(Tally(init), last);
      assert forall k :: k in s <==> k in init || k == last;
    }
  }

  // ---------------------------------------------------------------------------
  // Array.prototype.sort((a, b) => key(b) - key(a)): stable, non-increasing key

  predicate NonIncreasing<T>(s: seq<T>, key: T -> int)
  {
    forall i, j :: 0 <= i < j < |s| ==> key(s[i]) >= key(s[j])
  }

  predicate AtMost<T>(s: seq<T>, key: T -> int, b: int)
  {
    forall i :: 0 <= i < |s| ==> key(s[i]) <= b
  }

  /** Put `x` in front of the first element whose key is not larger than its own. */
  function InsertDesc<T>(x: T, s: seq<T>, key: T -> int): seq<T>
  {
    if s == [] || key(x) >= key(s[0]) then [x] + s
    else [s[0]] + InsertDesc(x, s[1..], key)
  }

  lemma {:induction false} InsertDescAtMost<T>(x: T, s: seq<T>, key: T -> int, b: int)
    requires AtMost(s, key, b) && key(x) <= b
    ensures AtMost(InsertDesc(x, s, key), key, b)
  {
    if s != [] && key(x) < key(s[0]) {
      InsertDescAtMost(x, s[1..], key, b);
    }
  }

  lemma {:induction false} InsertDescSorted<T>(x: T, s: seq<T>, key: T -> int)
    requires NonIncreasing(s, key)
    ensures NonIncreasing(InsertDesc(x, s, key), key)
  {
    if s != [] && key(x) < key(s[0]) {
      var rest := InsertDesc(x, s[1..], key);
      InsertDescSorted(x, s[1..], key);
      InsertDescAtMost(x, s[1..], key, key(s[0]));
      var r := [s[0]] + rest;
      forall i, j | 0 <= i < j < |r| ensures key(r[i]) >= key(r[j]) {
        if i == 0 {
          assert r[j] == rest[j - 1];
        } else {
          assert r[i] == rest[i - 1] && r[j] == rest[j - 1];
        }
      }
    }
  }

  lemma {:induction false} InsertDescPermutes<T>(x: T, s: seq<T>, key: T -> int)
    ensures multiset(InsertDesc(x, s, key)) == multiset(s) + multiset{x}
  {
    if s != [] && key(x) < key(s[0]) {
      InsertDescPermutes(x, s[1..], key);
      assert s == [s[0]] + s[1..];
    }
  }

  /** Insertion sort: the result is a permutation of the input in non-increasing
      key order; elements with equal keys keep their input order. */
  function SortDesc<T>(s: seq<T>, key: T -> int): (r: seq<T>)
    ensures multiset(r) == multiset(s)
    ensures |r| == |s|
    ensures NonIncreasing(r, key)
  {
    if s == [] then []
    else
      var sorted := SortDesc(s[1..], key);
      InsertDescSorted(s[0], sorted, key);
      InsertDescPermutes(s[0], sorted, key);
      var r := InsertDesc(s[0], sorted, key);
      assert s == [s[0]] + s[1..];
      assert |r| == |multiset(r)|;
      r
  }

  /** The first `n` of a sorted sequence: at most `n` elements of the input,
      still in non-increasing key order. */
  lemma TopSorted<T>(s: seq<T>, key: T -> int, n: nat)
    ensures var top := Take(SortDesc(s, key), n);
      |top| <= n && NonIncreasing(top, key) && forall x :: x in top ==> x in s
  {
    var sorted := SortDesc(s, key);
    var top := Take(sorted, n);
    assert forall i :: 0 <= i < |top| ==> top[i] == sorted[i];
    forall x | x in top ensures x in s {
      assert x in multiset(sorted);
    }
  }

  /** The first `n` of a sorted sequence are its top `n`: anything left out
      ranks no higher than the last one kept, and is left out only when `n`
      elements were kept. */
  lemma TopOfSorted<T>(s: seq<T>, key: T -> int, n: nat, x: T)
    requires n > 0 && x in s && x !in Take(SortDesc(s, key), n)
    ensures |Take(SortDesc(s, key), n)| == n
    ensures key(x) <= key(Take(SortDesc(s, key), n)[n - 1])
  {
    var sorted := SortDesc(s, key);
    assert x in multiset(sorted);
    var k :| 0 <= k < |sorted| && sorted[k] == x;
    var r := Take(sorted, n);
    assert forall i :: 0 <= i < |r| ==> r[i] == sorted[i];
  }

  /** The elements of `s` whose key is `v`, in their order in `s`. */
  function WithKey<T>(s: seq<T>, key: T -> int, v: int): seq<T>
  {
    if s == [] then []
    else (if key(s[0]) == v then [s[0]] else []) + WithKey(s[1..], key, v)
  }

  /** Inserting an element leaves the elements with another key in order,
      and puts it in front of those with its own key. */
  lemma {:induction false} InsertDescWithKey<T>(x: T, s: seq<T>, key: T -> int, v: int)
    ensures WithKey(InsertDesc(x, s, key), key, v)
         == (if key(x) == v then [x] else []) + WithKey(s, key, v)
  {
    var h := if key(x) == v then [x] else [];
    if s == [] || key(x) >= key(s[0]) {
      var xs := [x] + s;
      assert xs[0] == x && xs[1..] == s;
    } else {
      var ins := InsertDesc(x, s[1..], key);
      InsertDescWithKey(x, s[1..], key, v);
      var ys := [s[0]] + ins;
      assert ys[0] == s[0] && ys[1..] == ins;
      assert key(s[0]) > key(x);
    }
  }

  /** The sort is stable: elements with equal keys keep their relative order. */
  lemma {:induction false} SortDescStable<T>(s: seq<T>, key: T -> int, v: int)
    ensures WithKey(SortDesc(s, key), key, v) == WithKey(s, key, v)
  {
    if s != [] {
      SortDescStable(s[1..], key, v);
      InsertDescWithKey(s[0], SortDesc(s[1..], key), key, v);
    }
  }

  // ---------------------------------------------------------------------------
  // Object.keys / Object.entries order of a counting object with text keys

  /** A key that is an array index: the canonical decimal text (digits only,
      no leading zero) of a number below 2^32 - 1. Such keys come first in
      `Object.keys`, in ascending numeric order; the other keys follow in the
      order they were added. */
  predicate IsIndexKey(k: string)
  {
    |k| >= 1 && AllDigits(k) && (k[0] != '0' || |k| == 1) && DigitsValue(k, false) < 4294967295
  }

  predicate IndexEntry(e: Entry<string>)
  {
    IsIndexKey(e.key)
  }

  predicate PlainEntry(e: Entry<string>)
  {
    !IsIndexKey(e.key)
  }

  function IndexRank(e: Entry<string>): int
  {
    -(KeyValue(e) as int)
  }

  /** The entries of a counting object in the order `Object.keys` and
      `Object.entries` list them. */
  function ObjectEntries(t: seq<Entry<string>>): seq<Entry<string>>
  {
    SortDesc(Filter(t, IndexEntry), IndexRank) + Filter(t, PlainEntry)
  }

  /** Listing the entries reorders them and nothing more. */
  lemma ObjectEntriesPermutes(t: seq<Entry<string>>)
    ensures multiset(ObjectEntries(t)) == multiset(t)
  {
    FilterPartition(t, IndexEntry, PlainEntry);
  }

  /** The listed entries of a tally record what the tally records. */
  lemma ObjectEntriesOfTally(s: seq<string>)
    ensures var r := ObjectEntries(Tally(s));
      DistinctKeys(r) && (forall k :: k in Keys(r) <==> k in s)
      && (forall k :: Lookup(r, k) == Count(s, k)) && TotalCount(r) == |s|
  {
    ObjectEntriesPermutes(Tally(s));
    PermutedTally(ObjectEntries(Tally(s)), s);
  }

  /** Any reordering of a tally records what the tally records. */
  lemma PermutedTally<K>(r: seq<Entry<K>>, s: seq<K>)
    requires multiset(r) == multiset(Tally(s))
    ensures DistinctKeys(r) && (forall k :: k in Keys(r) <==> k in s)
      && (forall k :: Lookup(r, k) == Count(s, k)) && TotalCount(r) == |s|
  {
    TallyFacts(s);
    PermutedEntries(r, Tally(s));
  }

  /** Array-index keys come first, in ascending numeric order; the other
      entries follow in the order their keys were added. */
  lemma ObjectEntriesOrder(t: seq<Entry<string>>)
    requires DistinctKeys(t)
    ensures var r := ObjectEntries(t);
      (forall i, j :: 0 <= i < j < |r| && IndexEntry(r[j]) ==>
         IndexEntry(r[i]) && KeyValue(r[i]) < KeyValue(r[j]))
      && r[|Filter(t, IndexEntry)|..] == Filter(t, PlainEntry)
  {
    var sorted := SortDesc(Filter(t, IndexEntry), IndexRank);
    var rest := Filter(t, PlainEntry);
    IndexEntriesSorted(t, sorted, rest);
    IndexEntriesAscending(t, sorted);
    GroupedAscending(sorted, rest);
    assert (sorted + rest)[|sorted|..] == rest;
  }

  /** Index entries in strictly ascending order followed by other entries:
      every index entry comes before, and below, every later index entry. */
  lemma GroupedAscending(sorted: seq<Entry<string>>, rest: seq<Entry<string>>)
    requires forall i :: 0 <= i < |sorted| ==> IndexEntry(sorted[i])
    requires forall j :: 0 <= j < |rest| ==> !IndexEntry(rest[j])
    requires forall i, j :: 0 <= i < j < |sorted| ==> KeyValue(sorted[i]) < KeyValue(sorted[j])
    ensures var r := sorted + rest;
      forall i, j :: 0 <= i < j < |r| && IndexEntry(r[j]) ==>
        IndexEntry(r[i]) && KeyValue(r[i]) < KeyValue(r[j])
  {
    var r := sorted + rest;
    forall j | |sorted| <= j < |r| ensures !IndexEntry(r[j]) {
      assert r[j] == rest[j - |sorted|];
    }
    forall i | 0 <= i < |sorted| ensures r[i] == sorted[i] { }
  }

  /** The numeric value of an entry's key. */
  function KeyValue(e: Entry<string>): nat
  {
    DigitsValue(e.key, false)
  }

  /** The sorted index entries ascend strictly, as their keys are distinct. */
  lemma IndexEntriesAscending(t: seq<Entry<string>>, sorted: seq<Entry<string>>)
    requires DistinctKeys(t) && sorted == SortDesc(Filter(t, IndexEntry), IndexRank)
    ensures forall i, j :: 0 <= i < j < |sorted| ==> KeyValue(sorted[i]) < KeyValue(sorted[j])
  {
    ObjectEntriesDistinct(t);
    IndexEntriesSorted(t, sorted, Filter(t, PlainEntry));
    forall i, j | 0 <= i < j < |sorted|
      ensures KeyValue(sorted[i]) < KeyValue(sorted[j])
    {
      assert ObjectEntries(t)[i] == sorted[i] && ObjectEntries(t)[j] == sorted[j];
      SortedIndexPair(sorted, i, j);
    }
  }

  lemma ObjectEntriesDistinct(t: seq<Entry<string>>)
    requires DistinctKeys(t)
    ensures DistinctKeys(ObjectEntries(t))
  {
    ObjectEntriesPermutes(t);
    PermutedEntries(ObjectEntries(t), t);
  }

  /** The sorted part holds the index keys and the rest holds the others. */
  lemma IndexEntriesSorted(t: seq<Entry<string>>, sorted: seq<Entry<string>>, rest: seq<Entry<string>>)
    requires sorted == SortDesc(Filter(t, IndexEntry), IndexRank) && rest == Filter(t, PlainEntry)
    ensures forall i :: 0 <= i < |sorted| ==> IndexEntry(sorted[i])
    ensures forall j :: 0 <= j < |rest| ==> !IndexEntry(rest[j])
  {
    var idx := Filter(t, IndexEntry);
    forall i | 0 <= i < |sorted| ensures IndexEntry(sorted[i]) {
      assert sorted[i] in multiset(idx);
    }
    forall j | 0 <= j < |rest| ensures !IndexEntry(rest[j]) {
      assert rest[j] in rest;
      assert PlainEntry(rest[j]);
    }
  }

  /** Two index keys ranked in order and different from each other are in
      strictly ascending numeric order. */
  lemma SortedIndexPair(sorted: seq<Entry<string>>, i: nat, j: nat)
    requires NonIncreasing(sorted, IndexRank) && i < j < |sorted|
    requires IndexEntry(sorted[i]) && IndexEntry(sorted[j])
    requires sorted[i].key != sorted[j].key
    ensures KeyValue(sorted[i]) < KeyValue(sorted[j])
  {
    assert IndexRank(sorted[i]) >= IndexRank(sorted[j]);
    IndexKeyText(sorted[i].key);
    IndexKeyText(sorted[j].key);
  }

  /** An array-index key is the decimal text of its value, so two such keys
      with the same value are the same key. */
  lemma {:induction false} IndexKeyText(k: string)
    requires |k| >= 1 && AllDigits(k) && (k[0] != '0' || |k| == 1)
    ensures NatToString(DigitsValue(k, false)) == k
  {
    var n := DigitsValue(k, false);
    if |k| == 1 {
      assert k[..0] == [];
      assert n == DigitValue(k[0]);
      assert [DigitChar(n)] == k;
    } else {
      var init := k[..|k| - 1];
      assert init[0] == k[0];
      IndexKeyText(init);
      LeadingNonZero(init);
      assert n == DigitsValue(init, false) * 10 + DigitValue(k[|k| - 1]);
      assert n / 10 == DigitsValue(init, false) && n % 10 == DigitValue(k[|k| - 1]);
      assert DigitChar(n % 10) == k[|k| - 1];
      assert k == init + [k[|k| - 1]];
    }
  }

  /** Digits that do not start with zero have a value of at least one. */
  lemma {:induction false} LeadingNonZero(k: string)
    requires |k| >= 1 && AllDigits(k) && k[0] != '0'
    ensures DigitsValue(k, false) >= 1
  {
    if |k| > 1 {
      var init := k[..|k| - 1];
      assert init[0] == k[0];
      LeadingNonZero(init);
    }
  }

  // ---------------------------------------------------------------------------
  // Reordered counting objects

  lemma {:induction false} TotalCountAppend<K>(a: seq<Entry<K>>, b: seq<Entry<K>>)
    ensures TotalCount(a + b) == TotalCount(a) + TotalCount(b)
    decreases |a|
  {
    if a == [] {
      assert a + b == b;
    } else {
      var ab := a + b;
      assert ab[0] == a[0];
      assert ab[1..] == a[1..] + b;
      TotalCountAppend(a[1..], b);
      assert TotalCount(ab) == ab[0].count + TotalCount(ab[1..]);
    }
  }

  /** Reordering entries keeps their total. */
  lemma {:induction false} TotalCountPermutation<K>(r: seq<Entry<K>>, t: seq<Entry<K>>)
    requires multiset(r) == multiset(t)
    ensures TotalCount(r) == TotalCount(t)
    decreases |r|
  {
    if r == [] {
      assert |multiset(t)| == 0;
    } else {
      var x := r[0];
      assert x in multiset(t);
      var j :| 0 <= j < |t| && t[j] == x;
      var front, back := t[..j], t[j + 1..];
      var rest := front + back;
      assert t == front + [x] + back;
      assert r == [x] + r[1..];
      DropOne(r[1..], x, front, back);
      TotalCountPermutation(r[1..], rest);
      TotalCountAppend(front + [x], back);
      TotalCountAppend(front, [x]);
      TotalCountAppend(front, back);
      assert TotalCount([x]) == x.count;
    }
  }

  lemma DropOne<T>(u: seq<T>, x: T, front: seq<T>, back: seq<T>)
    requires multiset([x] + u) == multiset(front + [x] + back)
    ensures multiset(u) == multiset(front + back)
  {
    assert multiset([x] + u) == multiset{x} + multiset(u);
    assert multiset(front + [x] + back) == multiset(front) + multiset{x} + multiset(back);
    assert multiset(front + back) == multiset(front) + multiset(back);
    assert multiset(u) == multiset([x] + u) - multiset{x};
    assert multiset(front + back) == multiset(front + [x] + back) - multiset{x};
  }

  /** With distinct keys, the count stored at an entry is what `Lookup` returns. */
  lemma {:induction false} LookupOfEntry<K>(t: seq<Entry<K>>, i: nat)
    requires DistinctKeys(t) && i < |t|
    ensures Lookup(t, t[i].key) == t[i].count
  {
    if i > 0 {
      assert t[1..][i - 1] == t[i];
      assert DistinctKeys(t[1..]);
      LookupOfEntry(t[1..], i - 1);
    }
  }

  /** Reordering entries with distinct keys keeps the keys distinct and every
      key's count and the total as they were. */
  lemma PermutedEntries<K>(r: seq<Entry<K>>, t: seq<Entry<K>>)
    requires multiset(r) == multiset(t) && DistinctKeys(t)
    ensures DistinctKeys(r)
    ensures forall k :: k in Keys(r) <==> k in Keys(t)
    ensures forall k :: Lookup(r, k) == Lookup(t, k)
    ensures TotalCount(r) == TotalCount(t)
  {
    TotalCountPermutation(r, t);
    assert Distinct(t);
    PermutationDistinct(r, t);
    forall i, j | 0 <= i < j < |r| ensures r[i].key != r[j].key {
      assert r[i] in multiset(t) && r[j] in multiset(t);
      var a :| 0 <= a < |t| && t[a] == r[i];
      var b :| 0 <= b < |t| && t[b] == r[j];
      assert a != b;
    }
    forall k ensures k in Keys(r) <==> k in Keys(t) {
      if k in Keys(r) {
        var i :| 0 <= i < |r| && Keys(r)[i] == k;
        assert r[i] in multiset(t);
        var a :| 0 <= a < |t| && t[a] == r[i];
        assert Keys(t)[a] == k;
      }
      if k in Keys(t) {
        var a :| 0 <= a < |t| && Keys(t)[a] == k;
        assert t[a] in multiset(r);
        var i :| 0 <= i < |r| && r[i] == t[a];
        assert Keys(r)[i] == k;
      }
    }
    forall k ensures Lookup(r, k) == Lookup(t, k) {
      if k in Keys(t) {
        var a :| 0 <= a < |t| && Keys(t)[a] == k;
        assert t[a] in multiset(r);
        var i :| 0 <= i < |r| && r[i] == t[a];
        LookupOfEntry(t, a);
        LookupOfEntry(r, i);
      } else {
        LookupAbsent(t, k);
        LookupAbsent(r, k);
      }
    }
  }
}
