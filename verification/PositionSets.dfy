/** A set of declaration positions read in ascending order (position_set.go), as a
    finite set: what appendFirst and each give, not the bit tree behind them. */
module PositionSets {

  function Less(s: set<nat>, p: nat): set<nat> {
    set q | q in s && q < p
  }

  /** The k smallest members. */
  function First(s: set<nat>, k: nat): set<nat> {
    set p | p in s && |Less(s, p)| < k
  }

  function Elements(pos: seq<nat>): set<nat> {
    if pos == [] then {} else Elements(pos[..|pos| - 1]) + {pos[|pos| - 1]}
  }

  lemma {:induction false} ElementsAre(pos: seq<nat>, p: nat)
    ensures p in Elements(pos) <==> p in pos
  {
    if pos != [] {
      ElementsAre(pos[..|pos| - 1], p);
      assert pos == pos[..|pos| - 1] + [pos[|pos| - 1]];
    }
  }

  ghost predicate Ascending(pos: seq<nat>) {
    forall i, j :: 0 <= i < j < |pos| ==> pos[i] < pos[j]
  }

  /** The smallest member at or above from, or -1. */
  method Next(s: set<nat>, from: nat) returns (p: int)
    ensures p >= -1
    ensures p < 0 ==> forall q :: q in s ==> q < from
    ensures p >= 0 ==> p in s && from <= p && forall q :: q in s && q >= from ==> p <= q
  {
    p := -1;
    var left := s;
    while left != {}
      invariant left <= s
      invariant p >= -1
      invariant p < 0 ==> forall q :: q in s && q !in left ==> q < from
      invariant p >= 0 ==> p in s && from <= p && forall q :: q in s && q !in left && q >= from ==> p <= q
      decreases |left|
    {
      var q :| q in left;
      if q >= from && (p < 0 || q < p) {
        p := q;
      }
      left := left - {q};
    }
  }

  lemma SmallerSubset(a: set<nat>, b: set<nat>)
    requires a < b
    ensures |a| < |b|
  {
    var x :| x in b && x !in a;
    assert a <= b - {x};
    SubsetSize(a, b - {x});
  }

  lemma {:induction false} SubsetSize(a: set<nat>, b: set<nat>)
    requires a <= b
    ensures |a| <= |b|
    decreases |a|
  {
    if x :| x in a {
      SubsetSize(a - {x}, b - {x});
    }
  }

  /** The members already read when p is the next one, or -1 when none is left. */
  function Behind(s: set<nat>, p: int): set<nat> {
    if p < 0 then s else Less(s, p)
  }

  lemma BehindStep(s: set<nat>, p: nat, q: int)
    requires p in s && if q < 0 then forall m :: m in s ==> m <= p else p < q && forall m :: m in s && m > p ==> q <= m
    ensures Behind(s, q) == Behind(s, p) + {p} && |Behind(s, q)| == |Behind(s, p)| + 1
  {
    assert p !in Less(s, p);
  }

  lemma FirstIsLess(s: set<nat>, p: nat, k: nat)
    requires p in s && |Less(s, p)| == k
    ensures First(s, k) == Less(s, p)
  {
    forall q | q in s ensures q < p <==> |Less(s, q)| < k {
      if q < p {
        assert q in Less(s, p) && q !in Less(s, q);
        SmallerSubset(Less(s, q), Less(s, p));
      } else {
        SubsetSize(Less(s, p), Less(s, q));
      }
    }
  }

  lemma FirstIsAll(s: set<nat>, k: nat)
    requires |s| <= k
    ensures First(s, k) == s
  {
    forall q | q in s ensures |Less(s, q)| < k {
      assert q !in Less(s, q);
      SmallerSubset(Less(s, q), s);
    }
  }

  /** Appends the k smallest members of s. */
  method AppendFirst(dst: seq<nat>, s: set<nat>, k: nat) returns (pos: seq<nat>)
    ensures Elements(pos) == Elements(dst) + First(s, k)
  {
    hide Elements, First, Behind;
    pos := dst;
    var n := 0;
    var p := Next(s, 0);
    assert Behind(s, p) == {} by {
      NoneBehind(s, p);
    }
    while p >= 0 && n < k
      invariant n <= k && n == |Behind(s, p)| && (p >= 0 ==> p in s)
      invariant Elements(pos) == Elements(dst) + Behind(s, p)
      decreases k - n
    {
      ghost var was := p;
      ElementsPlus(pos, p);
      pos := pos + [p];
      p := Next(s, p + 1);
      n := n + 1;
      BehindStep(s, was, p);
    }
    FirstIsBehind(s, p, k);
  }

  lemma NoneBehind(s: set<nat>, p: int)
    requires if p < 0 then s == {} else forall q :: q in s ==> p <= q
    ensures Behind(s, p) == {}
  {
  }

  lemma FirstIsBehind(s: set<nat>, p: int, k: nat)
    requires if p < 0 then |Behind(s, p)| <= k else p in s && |Behind(s, p)| == k
    ensures First(s, k) == Behind(s, p)
  {
    if p < 0 {
      FirstIsAll(s, k);
    } else {
      FirstIsLess(s, p, k);
    }
  }

  /** slices.Sort and slices.Compact. */
  method SortCompact(pos: seq<nat>) returns (kept: seq<nat>)
    ensures Ascending(kept) && Elements(kept) == Elements(pos)
  {
    hide Elements, Ascending;
    kept := [];
    var left := Elements(pos);
    NoElements();
    while left != {}
      invariant Ascending(kept) && Elements(kept) + left == Elements(pos)
      invariant forall p, q :: p in Elements(kept) && q in left ==> p < q
      decreases |left|
    {
      var p := Next(left, 0);
      ElementsPlus(kept, p);
      kept := kept + [p];
      left := left - {p};
    }
  }

  lemma ElementsPlus(pos: seq<nat>, p: nat)
    ensures Elements(pos + [p]) == Elements(pos) + {p}
    ensures Ascending(pos) && (forall q :: q in Elements(pos) ==> q < p) ==> Ascending(pos + [p])
  {
    assert (pos + [p])[..|pos|] == pos;
    if Ascending(pos) && (forall q :: q in Elements(pos) ==> q < p) {
      forall i | 0 <= i < |pos| ensures pos[i] < p {
        ElementsAre(pos, pos[i]);
      }
    }
  }

  lemma NoElements()
    ensures Elements([]) == {} && Ascending([])
  {
  }

  lemma {:induction false} AscendingUnique(a: seq<nat>, b: seq<nat>)
    requires Ascending(a) && Ascending(b) && Elements(a) == Elements(b)
    ensures a == b
  {
    if a != [] && b != [] {
      var m, n := |a| - 1, |b| - 1;
      ElementsAre(a, b[n]);
      ElementsAre(b, a[m]);
      assert a[m] == b[n];
      LastApart(a);
      LastApart(b);
      AscendingUnique(a[..m], b[..n]);
      assert a == a[..m] + [a[m]] && b == b[..n] + [b[n]];
    }
  }

  lemma LastApart(a: seq<nat>)
    requires Ascending(a) && a != []
    ensures Elements(a[..|a| - 1]) == Elements(a) - {a[|a| - 1]} && Ascending(a[..|a| - 1])
  {
    ElementsAre(a[..|a| - 1], a[|a| - 1]);
  }
}
