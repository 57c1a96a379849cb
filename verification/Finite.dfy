/** Finite sets of numbers: the least element, counting, and iteration in ascending order,
    which is how a `BTreeMap` is walked. */
module Finite {

  /** A subset has no more elements. */
  lemma SubsetSize<T>(a: set<T>, b: set<T>)
    requires a <= b
    ensures |a| <= |b|
    ensures |a| == |b| ==> a == b
  {
    assert b == a + (b - a);
  }

  lemma SplitLast<T>(s: seq<T>)
    requires s != []
    ensures s == s[..|s| - 1] + [s[|s| - 1]]
  {
  }

  lemma PrefixIsTake<T>(a: seq<T>, b: seq<T>)
    requires a <= b
    ensures |a| <= |b| && a == b[..|a|]
    ensures |a| == |b| ==> a == b
  {
  }

  lemma UnionCommutes<T>(a: set<T>, b: set<T>)
    ensures a + b == b + a
  {
  }

  lemma UnionAssociates<T>(a: set<T>, b: set<T>, c: set<T>)
    ensures a + b + c == a + (b + c)
  {
  }

  lemma UnionSwaps<T>(a: set<T>, b: set<T>, c: set<T>)
    ensures a + b + c == a + c + b
  {
  }

  lemma UnionAbsorbs<T>(a: set<T>, b: set<T>)
    requires b <= a
    ensures a + b == a && b + a == a
  {
  }

  lemma TakenFrom<T>(all: set<T>, left: set<T>, x: T)
    requires x in left && left <= all
    ensures all - (left - {x}) == (all - left) + {x}
  {
  }

  lemma UnionSize<T>(a: set<T>, b: set<T>)
    ensures |a + b| <= |a| + |b|
  {
  }

  lemma AtMostOne<T>(s: set<T>, x: T, y: T)
    requires |s| <= 1 && x in s && y in s
    ensures x == y
  {
    if x != y {
      SubsetSize({x, y}, s);
    }
  }

  predicate IsLeast(s: set<nat>, m: nat) {
    m in s && forall x | x in s :: m <= x
  }

  predicate IsLargest(s: set<nat>, m: nat) {
    m in s && forall x | x in s :: x <= m
  }

  lemma {:induction false} LeastExists(s: set<nat>) returns (m: nat)
    requires s != {}
    ensures IsLeast(s, m)
    decreases |s|
  {
    var y :| y in s;
    var rest := s - {y};
    assert s == rest + {y};
    m := y;
    if rest != {} {
      var n := LeastExists(rest);
      m := if n < y then n else y;
    }
  }

  lemma {:induction false} LargestExists(s: set<nat>) returns (m: nat)
    requires s != {}
    ensures IsLargest(s, m)
    decreases |s|
  {
    var y :| y in s;
    var rest := s - {y};
    assert s == rest + {y};
    m := y;
    if rest != {} {
      var n := LargestExists(rest);
      m := if n > y then n else y;
    }
  }

  ghost function Least(s: set<nat>): (m: nat)
    requires s != {}
    ensures IsLeast(s, m)
  {
    assert exists m :: IsLeast(s, m) by {
      var m := LeastExists(s);
    }
    var m :| IsLeast(s, m);
    m
  }

  /** The members of `s` below `x`. */
  ghost function Under(s: set<nat>, x: nat): set<nat> {
    set y | y in s && y < x
  }

  /** The `k` smallest members: each has fewer than `k` members below it. */
  ghost function Lowest(s: set<nat>, k: nat): (low: set<nat>)
    requires k <= |s|
    ensures low <= s && |low| == k
    ensures forall x | x in low :: |Under(s, x)| < k
    decreases k
  {
    if k == 0 then {} else
      var m := Least(s);
      var rest := Lowest(s - {m}, k - 1);
      assert forall x | x in rest + {m} :: |Under(s, x)| < k by {
        forall x | x in rest + {m} ensures |Under(s, x)| < k {
          if x == m {
            assert Under(s, x) == {};
          } else {
            assert Under(s, x) <= Under(s - {m}, x) + {m};
            SubsetSize(Under(s, x), Under(s - {m}, x) + {m});
          }
        }
      }
      rest + {m}
  }

  ghost predicate StrictlyAscending(ids: seq<nat>) {
    forall i, j | 0 <= i < j < |ids| :: ids[i] < ids[j]
  }

  ghost function Members<T>(s: seq<T>): set<T> {
    set x | x in s
  }

  lemma MembersLast<T>(s: seq<T>)
    requires s != []
    ensures Members(s) == Members(s[..|s| - 1]) + {s[|s| - 1]}
    ensures Members([s[|s| - 1]]) == {s[|s| - 1]}
  {
    SplitLast(s);
  }

  /** `ids` lists exactly `s`, in ascending order: how a `BTreeMap` yields its keys. */
  ghost predicate Lists(ids: seq<nat>, s: set<nat>) {
    StrictlyAscending(ids) && forall x :: x in ids <==> x in s
  }

  /** A set has one ascending listing. */
  lemma {:induction false} ListingUnique(a: seq<nat>, b: seq<nat>, s: set<nat>)
    requires Lists(a, s) && Lists(b, s)
    ensures a == b
    decreases |a|
  {
    assert (a != [] ==> a[0] in s) && (b != [] ==> b[0] in s);
    if s != {} {
      var m := Least(s);
      ListingHead(a, s, m);
      ListingHead(b, s, m);
      ListingUnique(a[1..], b[1..], s - {m});
    }
  }

  lemma ListingGrows(ids: seq<nat>, s: set<nat>, x: nat)
    requires Lists(ids, s) && forall y | y in s :: y < x
    ensures Lists(ids + [x], s + {x})
  {
    assert forall i | 0 <= i < |ids| :: ids[i] in ids;
  }

  lemma ListingHead(ids: seq<nat>, s: set<nat>, m: nat)
    requires Lists(ids, s) && IsLeast(s, m)
    ensures ids != [] && ids[0] == m && Lists(ids[1..], s - {m})
  {
    assert m in ids;
    assert ids[0] in s;
    forall x ensures x in ids[1..] <==> x in s - {m} {
      if x in ids[1..] {
        var i :| 0 <= i < |ids[1..]| && ids[1..][i] == x;
        assert ids[i + 1] == x && ids[i + 1] in ids;
      }
      if x in s - {m} {
        var i :| 0 <= i < |ids| && ids[i] == x;
        assert x == ids[1..][i - 1];
      }
    }
  }

  lemma ListingSize(ids: seq<nat>, s: set<nat>)
    requires Lists(ids, s)
    ensures |ids| == |s|
  {
    assert Members(ids) == s;
    DistinctSize(ids);
  }

  /** Entry `i` of a listing has exactly `i` members below it. */
  lemma RankIsIndex(ids: seq<nat>, s: set<nat>, i: nat)
    requires Lists(ids, s) && i < |ids|
    ensures |Under(s, ids[i])| == i
  {
    assert Under(s, ids[i]) == Members(ids[..i]) by {
      forall x | x in Under(s, ids[i]) ensures x in ids[..i] {
        var j :| 0 <= j < |ids| && ids[j] == x;
        assert j < i;
        assert ids[..i][j] == x;
      }
    }
    DistinctSize(ids[..i]);
  }

  lemma {:induction false} DistinctSize(ids: seq<nat>)
    requires StrictlyAscending(ids)
    ensures |Members(ids)| == |ids|
  {
    if ids != [] {
      var n := |ids| - 1;
      DistinctSize(ids[..n]);
      assert Members(ids) == Members(ids[..n]) + {ids[n]};
    }
  }

  /** Visits a set of keys the way a `BTreeMap` yields them. */
  method InOrder(s: set<nat>) returns (ids: seq<nat>)
    ensures Lists(ids, s)
  {
    var rest := s;
    ids := [];
    while rest != {}
      invariant rest <= s
      invariant Lists(ids, s - rest)
      invariant forall i, y | 0 <= i < |ids| && y in rest :: ids[i] < y
      decreases |rest|
    {
      ghost var least := LeastExists(rest);
      var m :| m in rest && forall x | x in rest :: m <= x;
      ghost var before := ids;
      ids := ids + [m];
      assert forall x :: x in ids <==> x in before || x == m;
      rest := rest - {m};
    }
  }
}
