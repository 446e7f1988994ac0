/** Depth-first search as a function (cycle.go): the way by which it first meets
    each vertex of a graph, and the cycles it reports. */
module DepthFirst {

  // ---- walks --------------------------------------------------------------

  /** walk follows edges from each vertex to the next. */
  ghost predicate Walk<N>(edges: N --> seq<N>, within: set<N>, walk: seq<N>) {
    && (forall i :: 0 <= i < |walk| ==> walk[i] in within)
    && forall i :: 0 <= i < |walk| - 1 ==> edges.requires(walk[i]) && walk[i + 1] in edges(walk[i])
  }

  /** cycle leads from a vertex back to itself. */
  ghost predicate ClosedWalk<N>(edges: N --> seq<N>, within: set<N>, cycle: seq<N>) {
    Walk(edges, within, cycle) && |cycle| > 1 && cycle[0] == cycle[|cycle| - 1]
  }

  ghost predicate Reaches<N(!new)>(edges: N --> seq<N>, within: set<N>, from: N, to: N) {
    exists walk: seq<N> :: |walk| > 0 && Walk(edges, within, walk) && walk[0] == from && walk[|walk| - 1] == to
  }

  /** Some root leads into a cycle. */
  ghost predicate CycleReachable<N(!new)>(edges: N --> seq<N>, within: set<N>, roots: seq<N>) {
    exists r: N, cycle: seq<N> :: r in roots && ClosedWalk(edges, within, cycle) && Reaches(edges, within, r, cycle[0])
  }

  /** The graph's edges stay within it. */
  ghost predicate Graph<N>(edges: N --> seq<N>, within: set<N>) {
    forall n :: n in within ==> edges.requires(n) && forall i :: 0 <= i < |edges(n)| ==> edges(n)[i] in within
  }

  ghost predicate All<N>(within: set<N>, ns: seq<N>) {
    forall i :: 0 <= i < |ns| ==> ns[i] in within
  }

  // ---- the search ---------------------------------------------------------

  /** What a search did: the way by which it first met each vertex, in the order it met
      them, and the cycles it closed. */
  datatype Trace<N> = Trace(ways: seq<seq<N>>, cycles: seq<seq<N>>)

  /** The vertices the ways lead to. */
  ghost function Met<N>(ways: seq<seq<N>>): set<N> {
    set i | 0 <= i < |ways| && ways[i] != [] :: ways[i][|ways[i]| - 1]
  }

  /** The end of way from n on. */
  function Tail<N(==)>(way: seq<N>, n: N): (r: seq<N>)
    requires n in way
    ensures 0 < |r| <= |way|
  {
    var top := |way| - 1;
    if way[top] == n then [n]
    else
      assert way == way[..top] + [way[top]];
      Tail(way[..top], n) + [way[top]]
  }

  lemma {:induction false} TailIs<N>(way: seq<N>, n: N)
    requires n in way
    ensures way[|way| - |Tail(way, n)|] == n
    ensures forall k :: 0 <= k < |Tail(way, n)| ==> Tail(way, n)[k] == way[|way| - |Tail(way, n)| + k]
  {
    var top := |way| - 1;
    if way[top] != n {
      assert way == way[..top] + [way[top]];
      TailIs(way[..top], n);
    }
  }

  lemma MetMore<N>(within: set<N>, a: seq<seq<N>>, b: seq<seq<N>>)
    requires a <= b
    ensures Met(a) <= Met(b) && |within - Met(b)| <= |within - Met(a)|
  {
    forall n | n in Met(a) ensures n in Met(b) {
      var i :| 0 <= i < |a| && a[i] != [] && a[i][|a[i]| - 1] == n;
      assert b[i] == a[i];
    }
    assert within - Met(a) == (within - Met(b)) + ((within - Met(a)) - (within - Met(b)));
  }

  lemma MetOne<N>(within: set<N>, ways: seq<seq<N>>, path: seq<N>, n: N)
    ensures Met(ways + [path + [n]]) == Met(ways) + {n}
    ensures n in within && n !in Met(ways) ==> |within - Met(ways + [path + [n]])| < |within - Met(ways)|
  {
    var more := ways + [path + [n]];
    assert more[|ways|] == path + [n];
    forall m | m in Met(ways) ensures m in Met(more) {
      var i :| 0 <= i < |ways| && ways[i] != [] && ways[i][|ways[i]| - 1] == m;
      assert more[i] == ways[i];
    }
    if n in within && n !in Met(ways) {
      assert within - Met(ways) == (within - Met(more)) + {n};
    }
  }

  /** Follows edges es of the last vertex of path, one after another. */
  ghost function Follow<N(!new)>(edges: N --> seq<N>, within: set<N>, path: seq<N>, es: seq<N>,
      t: Trace<N>): (r: Trace<N>)
    requires Graph(edges, within) && All(within, es)
    ensures t.ways <= r.ways
    decreases |within - Met(t.ways)|, |es|
  {
    if es == [] then t
    else if es[0] in path then Follow(edges, within, path, es[1..], t.(cycles := t.cycles + [Tail(path, es[0]) + [es[0]]]))
    else if es[0] in Met(t.ways) then Follow(edges, within, path, es[1..], t)
    else
      var u := Enter(edges, within, path, es[0], t);
      MetMore(within, t.ways, u.ways);
      Follow(edges, within, path, es[1..], u)
  }

  /** Meets n at the end of path, and follows its edges. */
  ghost function Enter<N(!new)>(edges: N --> seq<N>, within: set<N>, path: seq<N>, n: N, t: Trace<N>): (r: Trace<N>)
    requires Graph(edges, within) && n in within && n !in Met(t.ways)
    ensures t.ways + [path + [n]] <= r.ways
    decreases |within - Met(t.ways)|, 0
  {
    MetOne(within, t.ways, path, n);
    Follow(edges, within, path + [n], edges(n), t.(ways := t.ways + [path + [n]]))
  }

  ghost function FromRoots<N(!new)>(edges: N --> seq<N>, within: set<N>, roots: seq<N>, t: Trace<N>): Trace<N>
    requires Graph(edges, within) && All(within, roots)
    decreases |roots|
  {
    if roots == [] then t
    else FromRoots(edges, within, roots[1..], if roots[0] in Met(t.ways) then t else Enter(edges, within, [], roots[0], t))
  }

  /** The search from each root in turn. */
  ghost function Search<N(!new)>(edges: N --> seq<N>, within: set<N>, roots: seq<N>): Trace<N>
    requires Graph(edges, within) && All(within, roots)
  {
    FromRoots(edges, within, roots, Trace([], []))
  }

  // ---- which cycles are reported ------------------------------------------

  /** way ends at a vertex with an edge back onto it, and c is the cycle that closes. */
  ghost predicate Closes<N(!new)>(edges: N --> seq<N>, way: seq<N>, c: seq<N>) {
    way != [] && edges.requires(way[|way| - 1]) && ClosesHere(way, edges(way[|way| - 1]), c)
  }

  ghost predicate ClosesHere<N(!new)>(path: seq<N>, es: seq<N>, c: seq<N>) {
    exists u :: u in path && u in es && c == Tail(path, u) + [u]
  }

  ghost predicate ClosesNew<N(!new)>(edges: N --> seq<N>, was: seq<seq<N>>, now: seq<seq<N>>, c: seq<N>) {
    exists i :: |was| <= i < |now| && Closes(edges, now[i], c)
  }

  lemma NewTwice<N(!new)>(edges: N --> seq<N>, a: seq<seq<N>>, b: seq<seq<N>>, d: seq<seq<N>>, c: seq<N>)
    requires a <= b <= d
    ensures ClosesNew(edges, a, d, c) <==> ClosesNew(edges, a, b, c) || ClosesNew(edges, b, d, c)
  {
    hide Closes;
    if ClosesNew(edges, a, d, c) {
      var i :| |a| <= i < |d| && Closes(edges, d[i], c);
      if i < |b| {
        assert b[i] == d[i];
      }
    }
    if ClosesNew(edges, a, b, c) {
      var i :| |a| <= i < |b| && Closes(edges, b[i], c);
      assert d[i] == b[i];
    }
  }

  lemma HereCons<N(!new)>(path: seq<N>, es: seq<N>, c: seq<N>)
    requires es != []
    ensures ClosesHere(path, es, c) <==> (es[0] in path && c == Tail(path, es[0]) + [es[0]]) || ClosesHere(path, es[1..], c)
  {
    hide Tail;
    assert es == [es[0]] + es[1..];
  }

  lemma NothingNew<N(!new)>(edges: N --> seq<N>, ways: seq<seq<N>>, path: seq<N>, c: seq<N>)
    ensures !ClosesNew(edges, ways, ways, c) && !ClosesHere(path, [], c)
  {
  }

  lemma OneNew<N(!new)>(edges: N --> seq<N>, ways: seq<seq<N>>, path: seq<N>, n: N, c: seq<N>)
    requires edges.requires(n)
    ensures ClosesNew(edges, ways, ways + [path + [n]], c) <==> ClosesHere(path + [n], edges(n), c)
  {
    hide ClosesHere;
    var way, more := path + [n], ways + [path + [n]];
    assert way[|way| - 1] == n;
    assert more[|ways|] == way;
  }

  /** Following edges closes the cycles they and the ways taken from them close. */
  lemma {:induction false} FollowCloses<N(!new)>(edges: N --> seq<N>, within: set<N>, path: seq<N>, es: seq<N>,
      t: Trace<N>, c: seq<N>)
    requires Graph(edges, within) && All(within, es)
    ensures var r := Follow(edges, within, path, es, t);
      c in r.cycles <==> c in t.cycles || ClosesHere(path, es, c) || ClosesNew(edges, t.ways, r.ways, c)
    decreases |within - Met(t.ways)|, |es|
  {
    hide Closes, ClosesHere, ClosesNew, Tail, Enter;
    if es == [] {
      NothingNew(edges, t.ways, path, c);
    } else {
      HereCons(path, es, c);
      if es[0] in path {
        FollowCloses(edges, within, path, es[1..], t.(cycles := t.cycles + [Tail(path, es[0]) + [es[0]]]), c);
      } else if es[0] in Met(t.ways) {
        FollowCloses(edges, within, path, es[1..], t, c);
      } else {
        var u := Enter(edges, within, path, es[0], t);
        EnterCloses(edges, within, path, es[0], t, c);
        MetMore(within, t.ways, u.ways);
        FollowCloses(edges, within, path, es[1..], u, c);
        NewTwice(edges, t.ways, u.ways, Follow(edges, within, path, es[1..], u).ways, c);
      }
    }
  }

  lemma {:induction false} EnterCloses<N(!new)>(edges: N --> seq<N>, within: set<N>, path: seq<N>, n: N, t: Trace<N>,
      c: seq<N>)
    requires Graph(edges, within) && n in within && n !in Met(t.ways)
    ensures var r := Enter(edges, within, path, n, t); c in r.cycles <==> c in t.cycles || ClosesNew(edges, t.ways, r.ways, c)
    decreases |within - Met(t.ways)|, 0
  {
    hide Closes, ClosesHere, ClosesNew, Tail, Follow;
    MetOne(within, t.ways, path, n);
    var way := path + [n];
    var more := t.ways + [way];
    FollowCloses(edges, within, way, edges(n), t.(ways := more), c);
    NewTwice(edges, t.ways, more, Enter(edges, within, path, n, t).ways, c);
    OneNew(edges, t.ways, path, n, c);
  }

  lemma {:induction false} RootsClose<N(!new)>(edges: N --> seq<N>, within: set<N>, roots: seq<N>, t: Trace<N>,
      c: seq<N>)
    requires Graph(edges, within) && All(within, roots)
    ensures var r := FromRoots(edges, within, roots, t);
      t.ways <= r.ways && (c in r.cycles <==> c in t.cycles || ClosesNew(edges, t.ways, r.ways, c))
    decreases |roots|
  {
    hide Closes, ClosesNew, Enter, Follow;
    if roots == [] {
      NothingNew(edges, t.ways, [], c);
    } else {
      var u := if roots[0] in Met(t.ways) then t else Enter(edges, within, [], roots[0], t);
      RootsClose(edges, within, roots[1..], u, c);
      if roots[0] !in Met(t.ways) {
        EnterCloses(edges, within, [], roots[0], t, c);
        NewTwice(edges, t.ways, u.ways, FromRoots(edges, within, roots[1..], u).ways, c);
      }
    }
  }

  /** The cycles reported are those the ways close, no less and no more. */
  lemma SearchCloses<N(!new)>(edges: N --> seq<N>, within: set<N>, roots: seq<N>, c: seq<N>)
    requires Graph(edges, within) && All(within, roots)
    ensures c in Search(edges, within, roots).cycles <==>
      exists i :: 0 <= i < |Search(edges, within, roots).ways| && Closes(edges, Search(edges, within, roots).ways[i], c)
  {
    hide Closes;
    RootsClose(edges, within, roots, Trace([], []), c);
  }

  /** n is on a reported cycle. */
  ghost predicate Reported<N>(cycles: seq<seq<N>>, n: N) { exists c :: c in cycles && n in c }

  /** On the way by which the search first met some vertex, n stands at or after u, which
      that vertex has an edge to. */
  ghost predicate ClosedOver<N>(edges: N --> seq<N>, ways: seq<seq<N>>, n: N) {
    exists way, i, j :: way in ways && 0 <= i <= j < |way| && way[j] == n && edges.requires(way[|way| - 1])
      && way[i] in edges(way[|way| - 1])
  }

  ghost predicate Simple<N>(way: seq<N>) { forall i, j :: 0 <= i < j < |way| ==> way[i] != way[j] }

  ghost predicate AllSimple<N>(ways: seq<seq<N>>) { forall way :: way in ways ==> Simple(way) }

  ghost predicate AllMet<N>(path: seq<N>, ways: seq<seq<N>>) { forall n :: n in path ==> n in Met(ways) }

  /** No way meets a vertex twice. */
  lemma {:induction false} FollowSimple<N(!new)>(edges: N --> seq<N>, within: set<N>, path: seq<N>, es: seq<N>,
      t: Trace<N>)
    requires Graph(edges, within) && All(within, es)
    requires Simple(path) && AllMet(path, t.ways) && AllSimple(t.ways)
    ensures AllSimple(Follow(edges, within, path, es, t).ways)
    decreases |within - Met(t.ways)|, |es|
  {
    hide Simple, Enter;
    if es != [] {
      if es[0] in path {
        FollowSimple(edges, within, path, es[1..], t.(cycles := t.cycles + [Tail(path, es[0]) + [es[0]]]));
      } else if es[0] in Met(t.ways) {
        FollowSimple(edges, within, path, es[1..], t);
      } else {
        var u := Enter(edges, within, path, es[0], t);
        EnterSimple(edges, within, path, es[0], t);
        MetMore(within, t.ways, u.ways);
        FollowSimple(edges, within, path, es[1..], u);
      }
    }
  }

  lemma {:induction false} EnterSimple<N(!new)>(edges: N --> seq<N>, within: set<N>, path: seq<N>, n: N, t: Trace<N>)
    requires Graph(edges, within) && n in within && n !in Met(t.ways)
    requires Simple(path) && AllMet(path, t.ways) && AllSimple(t.ways)
    ensures AllSimple(Enter(edges, within, path, n, t).ways)
    decreases |within - Met(t.ways)|, 0
  {
    hide Follow;
    MetOne(within, t.ways, path, n);
    assert Simple(path + [n]) by {
      assert n !in path;
    }
    var more := t.ways + [path + [n]];
    forall way | way in more ensures Simple(way) {
      assert way in t.ways || way == path + [n];
    }
    hide Met, Simple;
    FollowSimple(edges, within, path + [n], edges(n), t.(ways := more));
  }

  lemma {:induction false} RootsSimple<N(!new)>(edges: N --> seq<N>, within: set<N>, roots: seq<N>, t: Trace<N>)
    requires Graph(edges, within) && All(within, roots) && AllSimple(t.ways)
    ensures AllSimple(FromRoots(edges, within, roots, t).ways)
    decreases |roots|
  {
    hide Enter;
    if roots != [] {
      if roots[0] in Met(t.ways) {
        RootsSimple(edges, within, roots[1..], t);
      } else {
        EnterSimple(edges, within, [], roots[0], t);
        RootsSimple(edges, within, roots[1..], Enter(edges, within, [], roots[0], t));
      }
    }
  }

  lemma TailFrom<N>(way: seq<N>, i: nat, j: nat)
    requires Simple(way) && i <= j < |way|
    ensures way[j] in Tail(way, way[i])
  {
    hide Tail;
    var tail := Tail(way, way[i]);
    TailIs(way, way[i]);
    var k := |way| - |tail|;
    assert k == i;
    assert tail[j - k] == way[j];
  }

  /** Where on the way a vertex of the cycle stands. */
  lemma TailAt<N>(way: seq<N>, u: N, n: N) returns (i: nat, j: nat)
    requires u in way && n in Tail(way, u) + [u]
    ensures i <= j < |way| && way[i] == u && way[j] == n
  {
    hide Tail;
    TailIs(way, u);
    var tail := Tail(way, u);
    i := |way| - |tail|;
    j := i;
    if n != u {
      var m :| 0 <= m < |tail| && tail[m] == n;
      j := i + m;
    }
  }

  /** A vertex is on a reported cycle exactly when it stands, on the way by which some
      vertex was first met, at or after something that vertex has an edge to. */
  lemma ReportedExactly<N(!new)>(edges: N --> seq<N>, within: set<N>, roots: seq<N>, n: N)
    requires Graph(edges, within) && All(within, roots)
    ensures Reported(Search(edges, within, roots).cycles, n) <==> ClosedOver(edges, Search(edges, within, roots).ways, n)
  {
    hide Graph, All, FromRoots, Tail, Simple;
    var t := Search(edges, within, roots);
    RootsSimple(edges, within, roots, Trace([], []));
    if Reported(t.cycles, n) {
      var c :| c in t.cycles && n in c;
      SearchCloses(edges, within, roots, c);
      var k :| 0 <= k < |t.ways| && Closes(edges, t.ways[k], c);
      assert t.ways[k] in t.ways;
      OnCycle(edges, t.ways, t.ways[k], c, n);
    }
    if ClosedOver(edges, t.ways, n) {
      var way, i, j :| way in t.ways && 0 <= i <= j < |way| && way[j] == n && edges.requires(way[|way| - 1])
        && way[i] in edges(way[|way| - 1]);
      var c := Tail(way, way[i]) + [way[i]];
      TailFrom(way, i, j);
      var k :| 0 <= k < |t.ways| && t.ways[k] == way;
      assert ClosesHere(way, edges(way[|way| - 1]), c);
      SearchCloses(edges, within, roots, c);
      assert n in c;
    }
  }

  lemma OnCycle<N(!new)>(edges: N --> seq<N>, ways: seq<seq<N>>, way: seq<N>, c: seq<N>, n: N)
    requires way in ways && Closes(edges, way, c) && n in c
    ensures ClosedOver(edges, ways, n)
  {
    hide Tail, ClosedOver;
    var u :| u in way && u in edges(way[|way| - 1]) && c == Tail(way, u) + [u];
    var i, j := TailAt(way, u, n);
    ClosedAt(edges, ways, way, i, j);
  }

  lemma ClosedAt<N(!new)>(edges: N --> seq<N>, ways: seq<seq<N>>, way: seq<N>, i: nat, j: nat)
    requires way in ways && i <= j < |way| && edges.requires(way[|way| - 1]) && way[i] in edges(way[|way| - 1])
    ensures ClosedOver(edges, ways, way[j])
  {
  }
}
