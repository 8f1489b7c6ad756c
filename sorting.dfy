/** `Array.prototype.sort` with a comparator, as the reports and lists use it.
    The comparator is given as a "may come before" relation `le`; the sort is
    stable, as the language requires of `sort` since ES2019 (`SortStable`). */
module Sorting {

  /** `le` is total and transitive: what a consistent comparator induces. */
  ghost predicate TotalPreorder<T(!new)>(le: (T, T) -> bool) {
    && (forall a, b :: le(a, b) || le(b, a))
    && (forall a, b, c :: le(a, b) && le(b, c) ==> le(a, c))
  }

  predicate Sorted<T>(s: seq<T>, le: (T, T) -> bool) {
    forall i, j | 0 <= i < j < |s| :: le(s[i], s[j])
  }

  /** Inserts `x` after every element that may come before it. */
  function Insert<T>(x: T, s: seq<T>, le: (T, T) -> bool): (r: seq<T>)
    ensures multiset(r) == multiset(s) + multiset{x}
    ensures |r| == |s| + 1
  {
    if s == [] then [x]
    else
      assert s == [s[0]] + s[1..];
      if le(s[0], x) then [s[0]] + Insert(x, s[1..], le)
      else [x] + s
  }

  /** The sorted arrangement of `s`: each element is inserted, left to right. */
  function Sort<T>(s: seq<T>, le: (T, T) -> bool): (r: seq<T>)
    ensures multiset(r) == multiset(s)
    ensures |r| == |s|
  {
    if s == [] then []
    else
      assert s == s[..|s| - 1] + [s[|s| - 1]];
      Insert(s[|s| - 1], Sort(s[..|s| - 1], le), le)
  }

  lemma {:induction false} InsertSorted<T(!new)>(x: T, s: seq<T>, le: (T, T) -> bool)
    requires TotalPreorder(le) && Sorted(s, le)
    ensures Sorted(Insert(x, s, le), le)
  {
    if s != [] {
      if le(s[0], x) {
        InsertSorted(x, s[1..], le);
        var t := Insert(x, s[1..], le);
        forall j | 0 <= j < |t| ensures le(s[0], t[j]) {
          assert t[j] in multiset(t);
          if t[j] != x {
            assert t[j] in multiset(s[1..]);
            var k :| 0 <= k < |s[1..]| && s[1..][k] == t[j];
            assert s[1..][k] == s[k + 1];
          }
        }
      } else {
        assert le(x, s[0]);
      }
    }
  }

  /** `Sort` puts its input in order, and (by its contract) rearranges nothing else. */
  lemma {:induction false} SortSorted<T(!new)>(s: seq<T>, le: (T, T) -> bool)
    requires TotalPreorder(le)
    ensures Sorted(Sort(s, le), le)
  {
    if s != [] {
      SortSorted(s[..|s| - 1], le);
      InsertSorted(s[|s| - 1], Sort(s[..|s| - 1], le), le);
    }
  }

  /** Ordering by a numeric key, largest first (`(a, b) => key(b) - key(a)`). */
  function ByKeyDesc<T>(key: T -> real): (le: (T, T) -> bool)
  {
    (a: T, b: T) => key(a) >= key(b)
  }

  lemma ByKeyDescIsPreorder<T(!new)>(key: T -> real)
    ensures TotalPreorder(ByKeyDesc(key))
  {
  }

  /** Sorting by a key, largest first, yields non-increasing keys. */
  lemma SortByKeyDesc<T(!new)>(s: seq<T>, key: T -> real)
    ensures forall i, j | 0 <= i < j < |s| :: key(Sort(s, ByKeyDesc(key))[i]) >= key(Sort(s, ByKeyDesc(key))[j])
  {
    var r := Sort(s, ByKeyDesc(key));
    ByKeyDescIsPreorder(key);
    SortSorted(s, ByKeyDesc(key));
    forall i, j | 0 <= i < j < |s| ensures key(r[i]) >= key(r[j]) {
      assert ByKeyDesc(key)(r[i], r[j]);
    }
  }

  // ---------------------------------------------------------------- stability

  /** `le` cannot tell `a` and `b` apart (the comparator returns 0). */
  predicate Tied<T>(a: T, b: T, le: (T, T) -> bool) {
    le(a, b) && le(b, a)
  }

  /** The elements of `s` tied with `y`, in their order in `s`. */
  function Ties<T>(s: seq<T>, y: T, le: (T, T) -> bool): seq<T> {
    if s == [] then [] else (if Tied(s[0], y, le) then [s[0]] else []) + Ties(s[1..], y, le)
  }

  lemma {:induction false} TiesConcat<T>(a: seq<T>, b: seq<T>, y: T, le: (T, T) -> bool)
    ensures Ties(a + b, y, le) == Ties(a, y, le) + Ties(b, y, le)
  {
    if a != [] {
      assert (a + b)[0] == a[0] && (a + b)[1..] == a[1..] + b;
      TiesConcat(a[1..], b, y, le);
    } else {
      assert a + b == b;
    }
  }

  lemma {:induction false} TiesNone<T>(s: seq<T>, y: T, le: (T, T) -> bool)
    requires forall k | 0 <= k < |s| :: !Tied(s[k], y, le)
    ensures Ties(s, y, le) == []
  {
    if s != [] {
      assert !Tied(s[0], y, le);
      TiesNone(s[1..], y, le);
    }
  }

  /** Inserting `x` into a sorted list puts it after every element tied with it. */
  lemma {:induction false} InsertTies<T(!new)>(x: T, s: seq<T>, y: T, le: (T, T) -> bool)
    requires TotalPreorder(le) && Sorted(s, le)
    ensures Ties(Insert(x, s, le), y, le) == Ties(s, y, le) + (if Tied(x, y, le) then [x] else [])
  {
    if s == [] {
      assert [x][1..] == [];
    } else if le(s[0], x) {
      var t := Insert(x, s[1..], le);
      assert ([s[0]] + t)[0] == s[0] && ([s[0]] + t)[1..] == t;
      InsertTies(x, s[1..], y, le);
    } else {
      assert ([x] + s)[0] == x && ([x] + s)[1..] == s;
      if Tied(x, y, le) {
        forall k | 0 <= k < |s| ensures !Tied(s[k], y, le) {
          if k > 0 {
            assert le(s[0], s[k]);
          }
        }
        TiesNone(s, y, le);
      }
    }
  }

  /** `Sort` is stable: the elements tied with any `y` keep their relative order. */
  lemma {:induction false} SortStable<T(!new)>(s: seq<T>, y: T, le: (T, T) -> bool)
    requires TotalPreorder(le)
    ensures Ties(Sort(s, le), y, le) == Ties(s, y, le)
  {
    if s != [] {
      var init, x := s[..|s| - 1], s[|s| - 1];
      var sorted := Sort(init, le);
      assert Sort(s, le) == Insert(x, sorted, le);
      SortStable(init, y, le);
      SortSorted(init, le);
      InsertTies(x, sorted, y, le);
      TiesConcat(init, [x], y, le);
      assert Ties([x], y, le) == if Tied(x, y, le) then [x] else [] by {
        assert [x][1..] == [];
      }
      assert s == init + [x];
    }
  }
}
