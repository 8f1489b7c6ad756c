/** The id-keyed list operations that every store of the application repeats:
    `findIndex`, "replace at the index or push" and `filter(x => x.id !== id)`. */
module Records {

  /** `xs.findIndex(p)`: the first index whose element satisfies `p`, or -1. */
  function FirstIndex<T>(xs: seq<T>, p: T -> bool): (i: int)
    ensures -1 <= i < |xs|
    ensures 0 <= i ==> p(xs[i]) && forall j | 0 <= j < i :: !p(xs[j])
    ensures i == -1 ==> forall j | 0 <= j < |xs| :: !p(xs[j])
  {
    if xs == [] then -1
    else if p(xs[0]) then 0
    else
      var k := FirstIndex(xs[1..], p);
      if k < 0 then -1 else k + 1
  }

  /** `xs.findIndex(x => key(x) === k)`. */
  function IndexOf<T, K(==)>(xs: seq<T>, key: T -> K, k: K): int
  {
    FirstIndex(xs, x => key(x) == k)
  }

  predicate HasKey<T, K(==)>(xs: seq<T>, key: T -> K, k: K) {
    exists j | 0 <= j < |xs| :: key(xs[j]) == k
  }

  /** No two elements share a key. */
  predicate UniqueKeys<T, K(==)>(xs: seq<T>, key: T -> K) {
    forall i, j | 0 <= i < j < |xs| :: key(xs[i]) != key(xs[j])
  }

  /** `i = findIndex(same key as v); if (i >= 0) xs[i] = v;` (no push). */
  function Replace<T, K(==)>(xs: seq<T>, key: T -> K, v: T): seq<T>
  {
    var i := IndexOf(xs, key, key(v));
    if i >= 0 then xs[i := v] else xs
  }

  /** `i = findIndex(same key as v); if (i >= 0) xs[i] = v; else xs.push(v);` */
  function Upsert<T, K(==)>(xs: seq<T>, key: T -> K, v: T): seq<T>
  {
    if IndexOf(xs, key, key(v)) >= 0 then Replace(xs, key, v) else xs + [v]
  }

  /** `xs.filter(x => key(x) !== k)`. */
  function Remove<T, K(==)>(xs: seq<T>, key: T -> K, k: K): (r: seq<T>)
    ensures |r| <= |xs|
    ensures forall j | 0 <= j < |r| :: key(r[j]) != k && r[j] in xs
    ensures forall j | 0 <= j < |xs| && key(xs[j]) != k :: xs[j] in r
  {
    if xs == [] then []
    else if key(xs[0]) == k then Remove(xs[1..], key, k)
    else [xs[0]] + Remove(xs[1..], key, k)
  }

  /** What `IndexOf` finds: the first element with key `k`, or -1 when there is none. */
  lemma IndexOfFound<T, K>(xs: seq<T>, key: T -> K, k: K)
    ensures var i := IndexOf(xs, key, k);
      && -1 <= i < |xs|
      && (i >= 0 ==> key(xs[i]) == k && forall j | 0 <= j < i :: key(xs[j]) != k)
      && (i < 0 ==> forall j | 0 <= j < |xs| :: key(xs[j]) != k)
  {
    var p := x => key(x) == k;
    assert IndexOf(xs, key, k) == FirstIndex(xs, p);
  }

  /** The first index whose element has key `k` is `i`, when `i` is one and none before is. */
  lemma IndexOfIs<T, K>(xs: seq<T>, key: T -> K, k: K, i: int)
    requires 0 <= i < |xs| && key(xs[i]) == k
    requires forall j | 0 <= j < i :: key(xs[j]) != k
    ensures IndexOf(xs, key, k) == i
  {
    var p := x => key(x) == k;
    assert p(xs[i]);
    assert forall j | 0 <= j < i :: !p(xs[j]);
  }

  /** The lookup of the key of an element finds that element or an earlier one with the same key. */
  lemma IndexOfPresent<T, K>(xs: seq<T>, key: T -> K, i: int)
    requires 0 <= i < |xs|
    ensures var k := IndexOf(xs, key, key(xs[i]));
      0 <= k <= i && key(xs[k]) == key(xs[i])
  {
    var p := x => key(x) == key(xs[i]);
    assert p(xs[i]);
  }

  /** With unique keys, the lookup of the key of an element finds that very element. */
  lemma IndexOfUnique<T, K>(xs: seq<T>, key: T -> K, i: int)
    requires 0 <= i < |xs| && UniqueKeys(xs, key)
    ensures IndexOf(xs, key, key(xs[i])) == i
  {
    IndexOfIs(xs, key, key(xs[i]), i);
  }

  /** Overwriting an element with one of the same key keeps the keys unique. */
  lemma UniqueKeysUpdate<T, K>(xs: seq<T>, key: T -> K, i: int, v: T)
    requires 0 <= i < |xs| && key(v) == key(xs[i]) && UniqueKeys(xs, key)
    ensures UniqueKeys(xs[i := v], key)
  {
    var r := xs[i := v];
    forall a, b | 0 <= a < b < |r| ensures key(r[a]) != key(r[b]) {
      assert key(r[a]) == key(xs[a]) && key(r[b]) == key(xs[b]);
    }
  }

  /** `xs.filter(p).length`. */
  function Count<T>(xs: seq<T>, p: T -> bool): (n: nat)
    ensures n <= |xs|
    ensures n == 0 <==> forall j | 0 <= j < |xs| :: !p(xs[j])
  {
    if xs == [] then 0 else (if p(xs[0]) then 1 else 0) + Count(xs[1..], p)
  }

  /** A weaker test counts at least as many elements. */
  lemma {:induction false} CountMono<T>(xs: seq<T>, p: T -> bool, q: T -> bool)
    requires forall x | x in xs :: p(x) ==> q(x)
    ensures Count(xs, p) <= Count(xs, q)
  {
    if xs != [] {
      CountMono(xs[1..], p, q);
    }
  }

  lemma {:induction false} CountConcat<T>(a: seq<T>, b: seq<T>, p: T -> bool)
    ensures Count(a + b, p) == Count(a, p) + Count(b, p)
  {
    if a != [] {
      assert (a + b)[1..] == a[1..] + b;
      CountConcat(a[1..], b, p);
    } else {
      assert a + b == b;
    }
  }

  /** Counting one more element of a prefix adds one when it passes. */
  lemma CountPrefix<T>(xs: seq<T>, i: int, p: T -> bool)
    requires 0 <= i < |xs|
    ensures Count(xs[..i + 1], p) == Count(xs[..i], p) + (if p(xs[i]) then 1 else 0)
  {
    assert xs[..i + 1] == xs[..i] + [xs[i]];
    CountConcat(xs[..i], [xs[i]], p);
    assert [xs[i]][1..] == [];
  }

  /** Counting a test and its negation splits the list. */
  lemma {:induction false} CountComplement<T>(xs: seq<T>, p: T -> bool, q: T -> bool)
    requires forall x | x in xs :: q(x) == !p(x)
    ensures Count(xs, p) + Count(xs, q) == |xs|
  {
    if xs != [] {
      CountComplement(xs[1..], p, q);
    }
  }

  /** `xs.filter(p)`. */
  function Filter<T>(xs: seq<T>, p: T -> bool): (r: seq<T>)
    ensures |r| == Count(xs, p)
    ensures forall j | 0 <= j < |r| :: p(r[j]) && r[j] in xs
    ensures forall j | 0 <= j < |xs| && p(xs[j]) :: xs[j] in r
  {
    if xs == [] then [] else (if p(xs[0]) then [xs[0]] else []) + Filter(xs[1..], p)
  }

  /** Filtering keeps the order: it distributes over concatenation. */
  lemma {:induction false} FilterConcat<T>(a: seq<T>, b: seq<T>, p: T -> bool)
    ensures Filter(a + b, p) == Filter(a, p) + Filter(b, p)
  {
    if a != [] {
      assert (a + b)[1..] == a[1..] + b;
      FilterConcat(a[1..], b, p);
    } else {
      assert a + b == b;
    }
  }

  /** A filter every element passes keeps the whole list. */
  lemma {:induction false} FilterAll<T>(xs: seq<T>, p: T -> bool)
    requires forall x | x in xs :: p(x)
    ensures Filter(xs, p) == xs
  {
    if xs != [] {
      FilterAll(xs[1..], p);
    }
  }

  /** `xs.reduce((s, x) => s + f(x), 0)`. */
  function Sum<T>(xs: seq<T>, f: T -> real): real
  {
    if xs == [] then 0.0 else Sum(xs[..|xs| - 1], f) + f(xs[|xs| - 1])
  }

  /** Appending one element adds its value to the sum. */
  lemma SumSnoc<T>(xs: seq<T>, x: T, f: T -> real)
    ensures Sum(xs + [x], f) == Sum(xs, f) + f(x)
  {
    assert (xs + [x])[..|xs|] == xs;
  }

  lemma {:induction false} SumConcat<T>(a: seq<T>, b: seq<T>, f: T -> real)
    ensures Sum(a + b, f) == Sum(a, f) + Sum(b, f)
    decreases |b|
  {
    if b == [] {
      assert a + b == a;
    } else {
      assert (a + b)[..|a + b| - 1] == a + b[..|b| - 1];
      SumConcat(a, b[..|b| - 1], f);
    }
  }

  /** Overwriting one element changes the sum by the difference of the two. */
  lemma {:induction false} SumUpdate<T>(xs: seq<T>, f: T -> real, i: int, v: T)
    requires 0 <= i < |xs|
    ensures Sum(xs[i := v], f) == Sum(xs, f) - f(xs[i]) + f(v)
  {
    var n := |xs|;
    var ys := xs[i := v];
    if i == n - 1 {
      assert ys[..n - 1] == xs[..n - 1];
    } else {
      assert ys[..n - 1] == xs[..n - 1][i := v];
      SumUpdate(xs[..n - 1], f, i, v);
    }
  }

  /** When the key is present, the save replaces the first element with that key
      and keeps the length and every other position. */
  lemma UpsertExisting<T, K>(xs: seq<T>, key: T -> K, v: T)
    requires HasKey(xs, key, key(v))
    ensures var r := Upsert(xs, key, v);
      var i := IndexOf(xs, key, key(v));
      && 0 <= i < |xs| && |r| == |xs| && r[i] == v
      && key(xs[i]) == key(v)
      && (forall j | 0 <= j < i :: key(xs[j]) != key(v))
      && (forall j | 0 <= j < |xs| && j != i :: r[j] == xs[j])
  {
  }

  /** When the key is absent, the save appends and keeps everything before. */
  lemma UpsertNew<T, K>(xs: seq<T>, key: T -> K, v: T)
    requires !HasKey(xs, key, key(v))
    ensures Upsert(xs, key, v) == xs + [v]
  {
  }

  /** Looking a key up right after saving under it finds the saved value. */
  lemma FindAfterUpsert<T, K>(xs: seq<T>, key: T -> K, v: T)
    ensures var r := Upsert(xs, key, v);
      var i := IndexOf(r, key, key(v));
      0 <= i < |r| && r[i] == v
  {
    var r := Upsert(xs, key, v);
    var i0 := IndexOf(xs, key, key(v));
    if i0 >= 0 {
      assert r[i0] == v;
      assert forall j | 0 <= j < i0 :: r[j] == xs[j];
    } else {
      assert r[|xs|] == v;
    }
  }

  /** Saving under one key leaves the lookup of every other key unchanged. */
  lemma UpsertKeepsOtherLookups<T, K>(xs: seq<T>, key: T -> K, v: T, k: K)
    requires k != key(v)
    ensures var r := Upsert(xs, key, v);
      var i := IndexOf(xs, key, k);
      && (i >= 0 ==> IndexOf(r, key, k) == i && r[i] == xs[i])
      && (i < 0 ==> IndexOf(r, key, k) < 0)
  {
    var r := Upsert(xs, key, v);
    assert |r| >= |xs|;
    assert forall j | 0 <= j < |xs| :: key(r[j]) == k <==> key(xs[j]) == k;
    if |r| > |xs| {
      assert r[|xs|] == v;
    }
  }

  /** A store whose ids are unique keeps them unique across a save. */
  lemma UpsertKeepsKeysUnique<T, K>(xs: seq<T>, key: T -> K, v: T)
    requires UniqueKeys(xs, key)
    ensures UniqueKeys(Upsert(xs, key, v), key)
  {
  }

  /** After deleting a key, no element carries it. */
  lemma FindAfterRemove<T, K>(xs: seq<T>, key: T -> K, k: K)
    ensures IndexOf(Remove(xs, key, k), key, k) == -1
  {
  }

  /** Deleting a key that is absent changes nothing. */
  lemma {:induction false} RemoveAbsent<T, K>(xs: seq<T>, key: T -> K, k: K)
    requires !HasKey(xs, key, k)
    ensures Remove(xs, key, k) == xs
  {
    if xs != [] {
      assert !HasKey(xs[1..], key, k) by {
        forall j | 0 <= j < |xs[1..]| ensures key(xs[1..][j]) != k {
          assert xs[1..][j] == xs[j + 1];
        }
      }
      RemoveAbsent(xs[1..], key, k);
    }
  }

  /** Deletion distributes over concatenation, so it keeps the survivors' order. */
  lemma {:induction false} RemoveConcat<T, K>(a: seq<T>, b: seq<T>, key: T -> K, k: K)
    ensures Remove(a + b, key, k) == Remove(a, key, k) + Remove(b, key, k)
  {
    if a == [] {
      assert a + b == b;
    } else {
      assert (a + b)[1..] == a[1..] + b;
      RemoveConcat(a[1..], b, key, k);
    }
  }

  /** Overwriting an element by another with the same key is invisible to deletion by that key. */
  lemma {:induction false} RemoveUpdateSameKey<T, K>(xs: seq<T>, key: T -> K, i: nat, v: T)
    requires i < |xs| && key(xs[i]) == key(v)
    ensures Remove(xs[i := v], key, key(v)) == Remove(xs, key, key(v))
  {
    if i > 0 {
      assert xs[i := v][1..] == xs[1..][i - 1 := v];
      RemoveUpdateSameKey(xs[1..], key, i - 1, v);
    } else {
      assert xs[i := v][1..] == xs[1..];
    }
  }

  /** Saving then deleting by the saved id is the same as deleting by it straight away. */
  lemma RemoveAfterUpsert<T, K>(xs: seq<T>, key: T -> K, v: T)
    ensures Remove(Upsert(xs, key, v), key, key(v)) == Remove(xs, key, key(v))
  {
    var i := IndexOf(xs, key, key(v));
    if i >= 0 {
      RemoveUpdateSameKey(xs, key, i, v);
    } else {
      RemoveConcat(xs, [v], key, key(v));
      assert Remove([v], key, key(v)) == [] by {
        assert [v][1..] == [];
      }
    }
  }
}
