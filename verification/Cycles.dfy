/** The search for After cycles (cycle.go): one iterative depth-first walk over
    an explicit path, with a colour for every vertex it met. It is written over
    any graph of waits-for edges. */
module Cycles {
  import opened DepthFirst

  datatype Colour = Unvisited | OnPath | Finished

  /** One vertex on the walk's current path, with the edges it has left to follow. */
  datatype Frame<N> = Frame(n: N, edges: seq<N>, next: nat)

  // ---- what the walk knows ------------------------------------------------

  function ColourOf<N(==)>(colour: map<N, Colour>, n: N): Colour {
    if n in colour then colour[n] else Unvisited
  }

  ghost function Vertices<N>(path: seq<Frame<N>>): (r: seq<N>)
    ensures |r| == |path| && forall i :: 0 <= i < |r| ==> r[i] == path[i].n
  {
    seq(|path|, i requires 0 <= i < |path| => path[i].n)
  }

  /** path is a walk from root, each frame part way through its own edges. */
  ghost predicate PathOk<N>(edges: N --> seq<N>, within: set<N>, path: seq<Frame<N>>) {
    && (forall i :: 0 <= i < |path| ==>
         path[i].n in within && edges.requires(path[i].n) && path[i].edges == edges(path[i].n) && path[i].next <= |path[i].edges|)
    && (forall i :: 0 <= i < |path| - 1 ==> 0 < path[i].next && path[i].edges[path[i].next - 1] == path[i + 1].n)
    && (forall i, j :: 0 <= i < j < |path| ==> path[i].n != path[j].n)
  }

  /** The colours say what is on the path and what was finished, in that order. */
  ghost predicate Coloured<N(!new)>(colour: map<N, Colour>, within: set<N>, path: seq<Frame<N>>, done: seq<N>) {
    && (forall n :: n in colour ==> n in within && colour[n] != Unvisited)
    && (forall n :: ColourOf(colour, n) == OnPath <==> n in Vertices(path))
    && (forall n :: ColourOf(colour, n) == Finished <==> n in done)
    && (forall i :: 0 <= i < |done| ==> done[i] in within)
  }

  /** The edge from w to u is the last of a reported cycle. */
  ghost predicate BackEdge<N>(cycles: seq<seq<N>>, w: N, u: N) {
    exists k :: 0 <= k < |cycles| && EndsWith(cycles[k], w, u)
  }

  predicate EndsWith<N(==)>(cycle: seq<N>, w: N, u: N) {
    |cycle| > 1 && cycle[|cycle| - 2] == w && cycle[|cycle| - 1] == u
  }

  /** done finished in an order that follows no edge forward but the reported ones. */
  ghost predicate Ordered<N>(edges: N --> seq<N>, done: seq<N>, cycles: seq<seq<N>>) {
    forall i, m :: 0 <= i < |done| && edges.requires(done[i]) && m in edges(done[i]) ==>
      m in done[..i] || BackEdge(cycles, done[i], m)
  }

  /** Each frame has followed its edges to finished vertices or closed a cycle with
      them, but the last one, which is the next frame's. */
  ghost predicate Followed<N>(path: seq<Frame<N>>, done: seq<N>, cycles: seq<seq<N>>) {
    forall i, j :: 0 <= i < |path| && 0 <= j < path[i].next && j < |path[i].edges| && (j < path[i].next - 1 || i == |path| - 1) ==>
      path[i].edges[j] in done || BackEdge(cycles, path[i].n, path[i].edges[j])
  }

  /** Reported cycles run through vertices the walk met. */
  ghost predicate CyclesMet<N>(colour: map<N, Colour>, cycles: seq<seq<N>>) {
    forall k, i :: 0 <= k < |cycles| && 0 <= i < |cycles[k]| ==> cycles[k][i] in colour.Keys
  }

  /** Some edge of the walk is the last of a reported cycle. */
  ghost predicate Meets<N>(cycles: seq<seq<N>>, walk: seq<N>) {
    exists i :: 0 <= i < |walk| - 1 && BackEdge(cycles, walk[i], walk[i + 1])
  }

  /** Every cycle a root leads into shares an edge with a reported one. */
  ghost predicate Complete<N(!new)>(edges: N --> seq<N>, within: set<N>, roots: seq<N>, cycles: seq<seq<N>>) {
    forall r: N, walk: seq<N> :: r in roots && ClosedWalk(edges, within, walk) && Reaches(edges, within, r, walk[0]) ==>
      Meets(cycles, walk)
  }

  function Left<N>(path: seq<Frame<N>>): int {
    if path == [] then 0 else Left(path[..|path| - 1]) + 1 + |path[|path| - 1].edges| - path[|path| - 1].next
  }

  // ---- the loop is the search ---------------------------------------------

  ghost predicate FramesOk<N>(within: set<N>, path: seq<Frame<N>>) {
    forall i :: 0 <= i < |path| ==> path[i].next <= |path[i].edges| && All(within, path[i].edges)
  }

  /** What is left to do with the frames on the path. */
  ghost function Rest<N(!new)>(edges: N --> seq<N>, within: set<N>, path: seq<Frame<N>>, t: Trace<N>): Trace<N>
    requires Graph(edges, within) && FramesOk(within, path)
    decreases |path|
  {
    if path == [] then t
    else
      var top := |path| - 1;
      Rest(edges, within, path[..top], Follow(edges, within, Vertices(path), path[top].edges[path[top].next..], t))
  }

  /** The walk so far, and what is left of it, is the search. */
  ghost predicate Tracks<N(!new)>(edges: N --> seq<N>, within: set<N>, colour: map<N, Colour>, path: seq<Frame<N>>,
      t: Trace<N>, goal: Trace<N>) {
    && Graph(edges, within) && FramesOk(within, path) && Met(t.ways) == colour.Keys
    && Rest(edges, within, path, t) == goal
  }

  lemma FramesOfPath<N>(edges: N --> seq<N>, within: set<N>, path: seq<Frame<N>>)
    requires Graph(edges, within) && PathOk(edges, within, path)
    ensures FramesOk(within, path)
  {
  }

  /** A frame with no edge left is done. */
  lemma RestPopped<N(!new)>(edges: N --> seq<N>, within: set<N>, path: seq<Frame<N>>, t: Trace<N>)
    requires Graph(edges, within) && FramesOk(within, path) && path != []
    requires path[|path| - 1].next == |path[|path| - 1].edges|
    ensures FramesOk(within, path[..|path| - 1]) && Rest(edges, within, path, t) == Rest(edges, within, path[..|path| - 1], t)
  {
    var top := path[|path| - 1];
    assert top.edges[top.next..] == [];
  }

  /** What is left once the top frame has taken its next edge. */
  lemma RestAdvanced<N(!new)>(edges: N --> seq<N>, within: set<N>, path: seq<Frame<N>>, t: Trace<N>)
    requires Graph(edges, within) && FramesOk(within, path) && path != []
    requires path[|path| - 1].next < |path[|path| - 1].edges|
    ensures FramesOk(within, Advanced(path)) && FramesOk(within, path[..|path| - 1])
    ensures var top := path[|path| - 1];
      && All(within, top.edges[top.next..][1..])
      && Rest(edges, within, Advanced(path), t)
        == Rest(edges, within, path[..|path| - 1], Follow(edges, within, Vertices(path), top.edges[top.next..][1..], t))
  {
    hide Follow;
    var top := |path| - 1;
    assert Advanced(path)[..top] == path[..top];
    assert Vertices(Advanced(path)) == Vertices(path);
    assert path[top].edges[path[top].next..][1..] == path[top].edges[path[top].next + 1..];
  }

  ghost function AfterBack<N(!new)>(path: seq<Frame<N>>, to: N, t: Trace<N>): Trace<N> {
    if to in Vertices(path) then t.(cycles := t.cycles + [Tail(Vertices(path), to) + [to]]) else t
  }

  /** An edge back onto the path closes a cycle, and one to what is finished nothing. */
  lemma RestBack<N(!new)>(edges: N --> seq<N>, within: set<N>, path: seq<Frame<N>>, t: Trace<N>)
    requires Graph(edges, within) && FramesOk(within, path) && path != []
    requires path[|path| - 1].next < |path[|path| - 1].edges|
    requires path[|path| - 1].edges[path[|path| - 1].next] in Met(t.ways)
    ensures FramesOk(within, Advanced(path))
    ensures var to := path[|path| - 1].edges[path[|path| - 1].next];
      Rest(edges, within, path, t) == Rest(edges, within, Advanced(path), AfterBack(path, to, t))
  {
    hide Tail, Met, Vertices, Graph, All;
    var top := path[|path| - 1];
    var to := top.edges[top.next];
    RestAdvanced(edges, within, path, AfterBack(path, to, t));
    assert top.edges[top.next..][0] == to;
    assert All(within, top.edges[top.next..]) by { DropAll(within, top.edges, top.next); }
    hide Rest;
    assert Follow(edges, within, Vertices(path), top.edges[top.next..], t)
      == Follow(edges, within, Vertices(path), top.edges[top.next..][1..], AfterBack(path, to, t));
    RestUnfolds(edges, within, path, t);
  }

  lemma DropAll<N>(within: set<N>, es: seq<N>, k: nat)
    requires All(within, es) && k <= |es|
    ensures All(within, es[k..])
  {
  }

  lemma RestUnfolds<N(!new)>(edges: N --> seq<N>, within: set<N>, path: seq<Frame<N>>, t: Trace<N>)
    requires Graph(edges, within) && FramesOk(within, path) && path != []
    ensures var top := path[|path| - 1];
      && All(within, top.edges[top.next..]) && FramesOk(within, path[..|path| - 1])
      && Rest(edges, within, path, t)
        == Rest(edges, within, path[..|path| - 1], Follow(edges, within, Vertices(path), top.edges[top.next..], t))
  {
  }

  /** An edge to a vertex not met yet. */
  lemma RestPushed<N(!new)>(edges: N --> seq<N>, within: set<N>, path: seq<Frame<N>>, t: Trace<N>)
    requires Graph(edges, within) && FramesOk(within, path) && path != []
    requires path[|path| - 1].next < |path[|path| - 1].edges|
    requires var to := path[|path| - 1].edges[path[|path| - 1].next]; to !in Met(t.ways) && to !in Vertices(path)
    ensures var to := path[|path| - 1].edges[path[|path| - 1].next];
      && edges.requires(to) && FramesOk(within, Extended(edges, path, to))
      && Rest(edges, within, path, t)
        == Rest(edges, within, Extended(edges, path, to), t.(ways := t.ways + [Vertices(path) + [to]]))
  {
    hide Rest, Met, Vertices, Tail;
    var top := path[|path| - 1];
    var to := top.edges[top.next];
    DropAll(within, top.edges, top.next);
    assert top.edges[top.next..][0] == to;
    var u := t.(ways := t.ways + [Vertices(path) + [to]]);
    ExtendedTop(edges, within, path, to);
    RestUnfolds(edges, within, path, t);
    RestUnfolds(edges, within, Extended(edges, path, to), u);
    assert edges(to)[0..] == edges(to);
    assert Enter(edges, within, Vertices(path), to, t) == Follow(edges, within, Vertices(path) + [to], edges(to), u);
    RestAdvanced(edges, within, path, Enter(edges, within, Vertices(path), to, t));
  }

  lemma ExtendedTop<N(!new)>(edges: N --> seq<N>, within: set<N>, path: seq<Frame<N>>, to: N)
    requires Graph(edges, within) && FramesOk(within, path) && path != [] && to in within
    requires path[|path| - 1].next < |path[|path| - 1].edges|
    ensures edges.requires(to)
    ensures var r := Extended(edges, path, to);
      && r[|r| - 1] == Frame(to, edges(to), 0) && r[..|r| - 1] == Advanced(path)
      && FramesOk(within, r) && Vertices(r) == Vertices(path) + [to]
  {
  }

  // ---- the cycle an edge back onto the path closes ------------------------

  lemma {:induction false} TailStarts<N>(way: seq<N>, i: nat)
    requires i < |way| && forall k :: i < k < |way| ==> way[k] != way[i]
    ensures Tail(way, way[i]) == way[i..]
  {
    var top := |way| - 1;
    if i < top {
      TailStarts(way[..top], i);
      assert way[..top][i..] + [way[top]] == way[i..];
    }
  }

  /** The vertices of the path from to on, and to again, are a cycle. */
  lemma PathCloses<N(!new)>(edges: N --> seq<N>, within: set<N>, path: seq<Frame<N>>, start: nat, cycle: seq<N>)
    requires PathOk(edges, within, path) && start < |path| && path[start].n in edges(path[|path| - 1].n)
    requires |cycle| == |path| - start + 1 && cycle[|path| - start] == path[start].n
    requires forall j :: 0 <= j < |path| - start ==> cycle[j] == path[start + j].n
    ensures ClosedWalk(edges, within, cycle) && EndsWith(cycle, path[|path| - 1].n, path[start].n)
    ensures forall n :: n in cycle ==> n in Vertices(path)
  {
    forall i | 0 <= i < |cycle| - 1 ensures edges.requires(cycle[i]) && cycle[i + 1] in edges(cycle[i]) {
      assert cycle[i] == path[start + i].n;
    }
    forall i | 0 <= i < |cycle| ensures cycle[i] in Vertices(path) {
      assert i < |path| - start ==> Vertices(path)[start + i] == cycle[i];
      assert Vertices(path)[start] == path[start].n;
    }
  }

  lemma TailOfPath<N(!new)>(path: seq<Frame<N>>, start: nat, cycle: seq<N>)
    requires start < |path| && forall i :: start < i < |path| ==> path[i].n != path[start].n
    requires |cycle| == |path| - start && forall j :: 0 <= j < |cycle| ==> cycle[j] == path[start + j].n
    ensures path[start].n in Vertices(path) && cycle == Tail(Vertices(path), path[start].n)
  {
    hide Tail;
    assert Vertices(path)[start] == path[start].n;
    TailStarts(Vertices(path), start);
  }

  method CycleThrough<N(==,!new)>(path: seq<Frame<N>>, to: N, ghost edges: N --> seq<N>,
      ghost within: set<N>) returns (cycle: seq<N>)
    requires PathOk(edges, within, path) && path != [] && to in Vertices(path)
    requires to in edges(path[|path| - 1].n)
    ensures ClosedWalk(edges, within, cycle) && cycle[0] == to
    ensures cycle == Tail(Vertices(path), to) + [to] && EndsWith(cycle, path[|path| - 1].n, to)
    ensures forall n :: n in cycle ==> n in Vertices(path)
  {
    hide PathOk, Tail, ClosedWalk, EndsWith;
    var start := |path| - 1;
    var k: nat :| k < |path| && path[k].n == to;
    while path[start].n != to
      invariant k <= start < |path|
      invariant forall i :: start < i < |path| ==> path[i].n != to
      decreases start
    {
      start := start - 1;
    }
    cycle := [];
    for i := start to |path|
      invariant |cycle| == i - start && forall j :: 0 <= j < |cycle| ==> cycle[j] == path[start + j].n
    {
      cycle := cycle + [path[i].n];
    }
    TailOfPath(path, start, cycle);
    cycle := cycle + [to];
    PathCloses(edges, within, path, start, cycle);
  }

  // ---- what is found ------------------------------------------------------

  /** Following edges from a finished vertex that close no reported cycle stays among
      those finished before it. */
  lemma {:induction false} Descends<N>(edges: N --> seq<N>, within: set<N>, done: seq<N>, cycles: seq<seq<N>>,
      walk: seq<N>, i: nat) returns (j: nat)
    requires Ordered(edges, done, cycles) && Walk(edges, within, walk) && walk != [] && i < |done| && done[i] == walk[0]
    requires !Meets(cycles, walk)
    ensures j <= i && done[j] == walk[|walk| - 1] && (|walk| > 1 ==> j < i)
    decreases |walk|
  {
    if |walk| == 1 {
      j := i;
    } else {
      assert walk[1] in edges(walk[0]) && walk[1] in done[..i];
      var k :| 0 <= k < i && done[..i][k] == walk[1];
      assert forall m :: 0 <= m < |walk| - 1 ==> walk[1..][m] == walk[m + 1];
      j := Descends(edges, within, done, cycles, walk[1..], k);
    }
  }

  lemma {:induction false} NoClosedWalk<N>(edges: N --> seq<N>, within: set<N>, done: seq<N>, cycles: seq<seq<N>>,
      walk: seq<N>, i: nat)
    requires Ordered(edges, done, cycles) && ClosedWalk(edges, within, walk) && i < |done| && !Meets(cycles, walk)
    ensures done[i] != walk[0]
    decreases i
  {
    if done[i] == walk[0] {
      var j := Descends(edges, within, done, cycles, walk, i);
      NoClosedWalk(edges, within, done, cycles, walk, j);
      assert false;
    }
  }

  /** What is reached from a finished vertex is finished. */
  lemma {:induction false} ReachedDone<N>(edges: N --> seq<N>, within: set<N>, done: seq<N>, cycles: seq<seq<N>>,
      walk: seq<N>)
    requires Ordered(edges, done, cycles) && Walk(edges, within, walk) && walk != [] && walk[0] in done
    requires forall k, i :: 0 <= k < |cycles| && 0 <= i < |cycles[k]| ==> cycles[k][i] in done
    ensures walk[|walk| - 1] in done
    decreases |walk|
  {
    if |walk| > 1 {
      var i :| 0 <= i < |done| && done[i] == walk[0];
      assert walk[1] in edges(done[i]);
      assert walk[1] in done by {
        if walk[1] !in done[..i] {
          var k :| 0 <= k < |cycles| && EndsWith(cycles[k], done[i], walk[1]);
        }
      }
      assert forall m :: 0 <= m < |walk| - 1 ==> walk[1..][m] == walk[m + 1];
      ReachedDone(edges, within, done, cycles, walk[1..]);
    }
  }

  /** When the finishing order follows no edge forward but those that close a reported
      cycle, every cycle a root leads into holds such an edge. */
  lemma EachMeets<N(!new)>(edges: N --> seq<N>, within: set<N>, roots: seq<N>, done: seq<N>, cycles: seq<seq<N>>)
    requires Ordered(edges, done, cycles) && forall r :: r in roots ==> r in done
    requires forall k, i :: 0 <= k < |cycles| && 0 <= i < |cycles[k]| ==> cycles[k][i] in done
    ensures Complete(edges, within, roots, cycles)
  {
    forall r: N, cycle: seq<N> | r in roots && ClosedWalk(edges, within, cycle) && Reaches(edges, within, r, cycle[0])
      ensures Meets(cycles, cycle)
    {
      if !Meets(cycles, cycle) {
        var walk: seq<N> :| |walk| > 0 && Walk(edges, within, walk) && walk[0] == r && walk[|walk| - 1] == cycle[0];
        ReachedDone(edges, within, done, cycles, walk);
        var j :| 0 <= j < |done| && done[j] == cycle[0];
        NoClosedWalk(edges, within, done, cycles, cycle, j);
        assert false;
      }
    }
  }

  /** With no cycle reported, no root leads into one. */
  lemma NoneReachable<N(!new)>(edges: N --> seq<N>, within: set<N>, roots: seq<N>)
    requires Complete(edges, within, roots, [])
    ensures !CycleReachable(edges, within, roots)
  {
    if CycleReachable(edges, within, roots) {
      var r: N, cycle: seq<N> :| r in roots && ClosedWalk(edges, within, cycle) && Reaches(edges, within, r, cycle[0]);
      MeetsNone(cycle);
    }
  }

  lemma MeetsNone<N>(walk: seq<N>)
    ensures !Meets([], walk)
  {
  }

  // ---- the steps of the walk ----------------------------------------------

  /** Everything the walk knows at one moment. */
  ghost predicate Knows<N(!new)>(edges: N --> seq<N>, within: set<N>, colour: map<N, Colour>, path: seq<Frame<N>>,
      done: seq<N>, cycles: seq<seq<N>>) {
    && Graph(edges, within) && PathOk(edges, within, path) && Coloured(colour, within, path, done)
    && Ordered(edges, done, cycles) && Followed(path, done, cycles) && CyclesMet(colour, cycles)
  }

  /** The top frame has taken its next edge. */
  function Advanced<N>(path: seq<Frame<N>>): (r: seq<Frame<N>>)
    requires path != []
    ensures |r| == |path| && r[0].n == path[0].n
  {
    var top := |path| - 1;
    path[top := path[top].(next := path[top].next + 1)]
  }

  function Extended<N>(edges: N --> seq<N>, path: seq<Frame<N>>, to: N): seq<Frame<N>>
    requires edges.requires(to)
  {
    (if path == [] then [] else Advanced(path)) + [Frame(to, edges(to), 0)]
  }

  lemma ExtendedFirst<N>(edges: N --> seq<N>, to: N)
    requires edges.requires(to)
    ensures Extended(edges, [], to) == [Frame(to, edges(to), 0)]
  {
  }

  lemma ExtendedRoot<N>(edges: N --> seq<N>, path: seq<Frame<N>>, to: N)
    requires path != [] && edges.requires(to)
    ensures Extended(edges, path, to) != [] && Extended(edges, path, to)[0].n == path[0].n
  {
  }

  /** The top frame's next edge leads to to, which becomes the new top. */
  lemma PathPushed<N(!new)>(edges: N --> seq<N>, within: set<N>, path: seq<Frame<N>>, to: N)
    requires PathOk(edges, within, path) && to in within && edges.requires(to) && to !in Vertices(path)
    requires path != [] ==> path[|path| - 1].next < |path[|path| - 1].edges| && path[|path| - 1].edges[path[|path| - 1].next] == to
    ensures PathOk(edges, within, Extended(edges, path, to))
  {
    var path' := Extended(edges, path, to);
    forall i, j | 0 <= i < j < |path'| ensures path'[i].n != path'[j].n {
      if j == |path| {
        assert Vertices(path)[i] == path[i].n;
      }
    }
  }

  lemma ColouredPushed<N(!new)>(edges: N --> seq<N>, within: set<N>, colour: map<N, Colour>, path: seq<Frame<N>>,
      done: seq<N>, to: N)
    requires Coloured(colour, within, path, done) && to in within && edges.requires(to) && ColourOf(colour, to) == Unvisited
    ensures Coloured(colour[to := OnPath], within, Extended(edges, path, to), done) && to !in colour.Keys && to !in Vertices(path)
  {
    var path', colour' := Extended(edges, path, to), colour[to := OnPath];
    forall n ensures ColourOf(colour', n) == OnPath <==> n in Vertices(path') {
      VerticesPushed(path, path', to, n);
      assert ColourOf(colour, n) == OnPath <==> n in Vertices(path);
    }
    forall n ensures ColourOf(colour', n) == Finished <==> n in done {
      assert ColourOf(colour, n) == Finished <==> n in done;
    }
  }

  lemma FollowedPushed<N(!new)>(edges: N --> seq<N>, path: seq<Frame<N>>, done: seq<N>, cycles: seq<seq<N>>, to: N)
    requires Followed(path, done, cycles) && edges.requires(to)
    requires forall i :: 0 <= i < |path| ==> path[i].next <= |path[i].edges|
    ensures Followed(Extended(edges, path, to), done, cycles)
  {
  }

  lemma Pushed<N(!new)>(edges: N --> seq<N>, within: set<N>, colour: map<N, Colour>, path: seq<Frame<N>>,
      done: seq<N>, cycles: seq<seq<N>>, to: N)
    requires Knows(edges, within, colour, path, done, cycles) && to in within && ColourOf(colour, to) == Unvisited
    requires path != [] ==> path[|path| - 1].next < |path[|path| - 1].edges| && path[|path| - 1].edges[path[|path| - 1].next] == to
    ensures edges.requires(to)
    ensures Knows(edges, within, colour[to := OnPath], Extended(edges, path, to), done, cycles) && to !in colour.Keys
  {
    hide Ordered, BackEdge;
    ColouredPushed(edges, within, colour, path, done, to);
    PathPushed(edges, within, path, to);
    FollowedPushed(edges, path, done, cycles, to);
  }

  lemma VerticesPushed<N>(path: seq<Frame<N>>, path': seq<Frame<N>>, to: N, n: N)
    requires |path'| == |path| + 1 && path'[|path|].n == to && forall i :: 0 <= i < |path| ==> path'[i].n == path[i].n
    ensures n in Vertices(path') <==> n in Vertices(path) || n == to
  {
    assert Vertices(path') == Vertices(path) + [to];
  }

  /** An edge to a finished vertex. */
  lemma Skipped<N(!new)>(edges: N --> seq<N>, within: set<N>, colour: map<N, Colour>, path: seq<Frame<N>>,
      done: seq<N>, cycles: seq<seq<N>>)
    requires Knows(edges, within, colour, path, done, cycles) && path != []
    requires var top := path[|path| - 1]; top.next < |top.edges| && ColourOf(colour, top.edges[top.next]) == Finished
    ensures Knows(edges, within, colour, Advanced(path), done, cycles)
  {
    hide BackEdge, Ordered;
    var path' := Advanced(path);
    assert Vertices(path') == Vertices(path);
  }

  lemma BackMore<N>(cycles: seq<seq<N>>, cycle: seq<N>)
    ensures forall w, u :: BackEdge(cycles, w, u) ==> BackEdge(cycles + [cycle], w, u)
    ensures forall w, u :: EndsWith(cycle, w, u) ==> BackEdge(cycles + [cycle], w, u)
  {
    var more := cycles + [cycle];
    forall w, u | BackEdge(cycles, w, u) ensures BackEdge(more, w, u) {
      var k :| 0 <= k < |cycles| && EndsWith(cycles[k], w, u);
      assert more[k] == cycles[k];
    }
    assert more[|cycles|] == cycle;
  }

  /** An edge back onto the path, which closes a cycle. */
  lemma Closed<N(!new)>(edges: N --> seq<N>, within: set<N>, colour: map<N, Colour>, path: seq<Frame<N>>,
      done: seq<N>, cycles: seq<seq<N>>, cycle: seq<N>)
    requires Knows(edges, within, colour, path, done, cycles) && path != []
    requires var top := path[|path| - 1]; top.next < |top.edges| && EndsWith(cycle, top.n, top.edges[top.next])
    requires forall n :: n in cycle ==> n in Vertices(path)
    ensures Knows(edges, within, colour, Advanced(path), done, cycles + [cycle])
  {
    hide BackEdge, Graph;
    var path' := Advanced(path);
    assert Vertices(path') == Vertices(path);
    BackMore(cycles, cycle);
    forall n | n in cycle ensures n in colour.Keys {
      assert ColourOf(colour, n) == OnPath;
    }
  }

  lemma VerticesPopped<N>(edges: N --> seq<N>, within: set<N>, path: seq<Frame<N>>)
    requires PathOk(edges, within, path) && path != []
    ensures path[|path| - 1].n in Vertices(path) && path[|path| - 1].n !in Vertices(path[..|path| - 1])
    ensures forall n :: n in Vertices(path) <==> n in Vertices(path[..|path| - 1]) || n == path[|path| - 1].n
  {
    assert Vertices(path) == Vertices(path[..|path| - 1]) + [path[|path| - 1].n];
  }

  lemma ColouredPopped<N(!new)>(edges: N --> seq<N>, within: set<N>, colour: map<N, Colour>, path: seq<Frame<N>>,
      done: seq<N>)
    requires PathOk(edges, within, path) && path != [] && Coloured(colour, within, path, done)
    ensures var n := path[|path| - 1].n;
      Coloured(colour[n := Finished], within, path[..|path| - 1], done + [n]) && n in colour.Keys
  {
    var n := path[|path| - 1].n;
    VerticesPopped(edges, within, path);
    var path', done', colour' := path[..|path| - 1], done + [n], colour[n := Finished];
    assert ColourOf(colour, n) == OnPath;
    forall m ensures ColourOf(colour', m) == OnPath <==> m in Vertices(path') {
      assert ColourOf(colour, m) == OnPath <==> m in Vertices(path);
    }
    forall m ensures ColourOf(colour', m) == Finished <==> m in done' {
      assert ColourOf(colour, m) == Finished <==> m in done;
    }
  }

  lemma Popped<N(!new)>(edges: N --> seq<N>, within: set<N>, colour: map<N, Colour>, path: seq<Frame<N>>,
      done: seq<N>, cycles: seq<seq<N>>)
    requires Knows(edges, within, colour, path, done, cycles) && path != []
    requires path[|path| - 1].next == |path[|path| - 1].edges|
    ensures var n := path[|path| - 1].n;
      Knows(edges, within, colour[n := Finished], path[..|path| - 1], done + [n], cycles) && n in colour.Keys
  {
    hide BackEdge, Graph;
    var top := |path| - 1;
    var n := path[top].n;
    var path', done', colour' := path[..top], done + [n], colour[n := Finished];
    VerticesPopped(edges, within, path);
    ColouredPopped(edges, within, colour, path, done);
    forall i, m | 0 <= i < |done'| && edges.requires(done'[i]) && m in edges(done'[i])
      ensures m in done'[..i] || BackEdge(cycles, done'[i], m)
    {
      if i < |done| {
        assert done'[..i] == done[..i];
      } else {
        assert done'[..i] == done;
        var j :| 0 <= j < |path[top].edges| && path[top].edges[j] == m;
      }
    }
  }

  lemma PathReaches<N(!new)>(edges: N --> seq<N>, within: set<N>, path: seq<Frame<N>>, to: N)
    requires PathOk(edges, within, path) && path != [] && to in Vertices(path)
    ensures Reaches(edges, within, path[0].n, to)
  {
    var k: nat :| k < |path| && Vertices(path)[k] == to;
    var walk := Vertices(path)[..k + 1];
    assert Walk(edges, within, walk);
  }

  lemma LeftDrops<N>(path: seq<Frame<N>>)
    requires path != []
    ensures var top := |path| - 1;
      && Left(Advanced(path)) == Left(path) - 1
      && (path[top].next == |path[top].edges| ==> Left(path[..top]) == Left(path) - 1)
  {
    var top := |path| - 1;
    assert Advanced(path)[..top] == path[..top];
  }

  lemma {:induction false} LeftBounded<N>(edges: N --> seq<N>, within: set<N>, path: seq<Frame<N>>)
    requires PathOk(edges, within, path)
    ensures Left(path) >= 0
  {
    if path != [] {
      LeftBounded(edges, within, path[..|path| - 1]);
    }
  }

  // ---- the walk -----------------------------------------------------------

  /** Every cycle reported so far is one, and some root leads to it. */
  ghost predicate Sound<N(!new)>(edges: N --> seq<N>, within: set<N>, roots: seq<N>, cycles: seq<seq<N>>) {
    forall k :: 0 <= k < |cycles| ==>
      ClosedWalk(edges, within, cycles[k]) && exists r :: r in roots && Reaches(edges, within, r, cycles[k][0])
  }

  /** With the path empty, whatever was met is finished. */
  lemma OffPath<N(!new)>(colour: map<N, Colour>, within: set<N>, done: seq<N>)
    requires Coloured(colour, within, [], done)
    ensures forall n :: n in colour.Keys <==> n in done
  {
    forall n | n in colour.Keys ensures n in done {
      assert n !in Vertices<N>([]);
      assert ColourOf(colour, n) != OnPath;
    }
  }

  lemma FirstReachable<N(!new)>(edges: N --> seq<N>, within: set<N>, roots: seq<N>, cycles: seq<seq<N>>)
    requires Sound(edges, within, roots, cycles) && cycles != []
    ensures CycleReachable(edges, within, roots)
  {
    var cycle := cycles[0];
    var r :| r in roots && Reaches(edges, within, r, cycle[0]);
  }

  lemma RootsLeft<N(!new)>(edges: N --> seq<N>, within: set<N>, roots: seq<N>, i: nat, t: Trace<N>)
    requires Graph(edges, within) && All(within, roots) && i < |roots|
    ensures roots[i] in within && All(within, roots[i..]) && All(within, roots[i + 1..])
    ensures FromRoots(edges, within, roots[i..], t)
         == FromRoots(edges, within, roots[i + 1..], if roots[i] in Met(t.ways) then t else Enter(edges, within, [], roots[i], t))
  {
    hide Enter, Met;
    assert roots[i..][1..] == roots[i + 1..];
  }

  lemma NoRootsLeft<N(!new)>(edges: N --> seq<N>, within: set<N>, roots: seq<N>, t: Trace<N>)
    requires Graph(edges, within) && All(within, roots)
    ensures roots[0..] == roots && Search(edges, within, roots) == FromRoots(edges, within, roots, Trace([], []))
    ensures roots[|roots|..] == [] && FromRoots(edges, within, [], t) == t && Met<N>([]) == {}
  {
  }

  /** The cycles the search from each root closes. It finds one on every cycle some root
      leads into, by an edge of it, and reports nothing else; it ends because an edge is
      followed at most once from each vertex. */
  method DependencyCycles<N(==,!new)>(edges: N --> seq<N>, roots: seq<N>, ghost within: set<N>)
    returns (cycles: seq<seq<N>>)
    requires Graph(edges, within) && All(within, roots)
    ensures cycles == Search(edges, within, roots).cycles
    ensures Sound(edges, within, roots, cycles) && Complete(edges, within, roots, cycles)
    ensures cycles == [] <==> !CycleReachable(edges, within, roots)
  {
    hide Knows, Sound, Graph, All, Complete, CycleReachable, FromRoots, Enter, Search, Met;
    cycles := [];
    var colour: map<N, Colour> := map[];
    ghost var done: seq<N>, ways: seq<seq<N>> := [], [];
    NoRootsLeft(edges, within, roots, Trace([], []));
    KnowsNothing(edges, within, roots);
    for i := 0 to |roots|
      invariant Knows(edges, within, colour, [], done, cycles) && Sound(edges, within, roots, cycles)
      invariant forall k :: 0 <= k < i ==> roots[k] in done
      invariant Met(ways) == colour.Keys && All(within, roots[i..])
      invariant FromRoots(edges, within, roots[i..], Trace(ways, cycles)) == Search(edges, within, roots)
    {
      RootsLeft(edges, within, roots, i, Trace(ways, cycles));
      KnownDone(edges, within, colour, done, cycles);
      if ColourOf(colour, roots[i]) == Unvisited {
        cycles, colour, done, ways := WalkRoot(edges, roots, i, within, cycles, colour, done, ways);
      }
    }
    NoRootsLeft(edges, within, roots, Trace(ways, cycles));
    KnownDone(edges, within, colour, done, cycles);
    assert forall r :: r in roots ==> r in done;
    KnownComplete(edges, within, roots, colour, done, cycles);
    if cycles == [] {
      NoneReachable(edges, within, roots);
    } else {
      FirstReachable(edges, within, roots, cycles);
    }
  }

  lemma KnowsNothing<N(!new)>(edges: N --> seq<N>, within: set<N>, roots: seq<N>)
    requires Graph(edges, within)
    ensures Knows(edges, within, map[], [], [], []) && Sound(edges, within, roots, [])
  {
  }

  lemma KnownDone<N(!new)>(edges: N --> seq<N>, within: set<N>, colour: map<N, Colour>, done: seq<N>,
      cycles: seq<seq<N>>)
    requires Knows(edges, within, colour, [], done, cycles)
    ensures forall n :: n in colour.Keys <==> n in done
    ensures forall n :: ColourOf(colour, n) == Unvisited <==> n !in colour.Keys
  {
    OffPath(colour, within, done);
  }

  lemma KnownComplete<N(!new)>(edges: N --> seq<N>, within: set<N>, roots: seq<N>, colour: map<N, Colour>,
      done: seq<N>, cycles: seq<seq<N>>)
    requires Knows(edges, within, colour, [], done, cycles) && forall r :: r in roots ==> r in done
    ensures Complete(edges, within, roots, cycles)
  {
    hide Complete, Ordered, Graph;
    OffPath(colour, within, done);
    EachMeets(edges, within, roots, done, cycles);
  }

  /** Follows the next edge of the path's top. */
  method FollowEdge<N(==,!new)>(edges: N --> seq<N>, ghost roots: seq<N>, path: seq<Frame<N>>, ghost within: set<N>,
      cycles: seq<seq<N>>, colour: map<N, Colour>, ghost done: seq<N>, ghost ways: seq<seq<N>>, ghost goal: Trace<N>)
    returns (cycles': seq<seq<N>>, colour': map<N, Colour>, path': seq<Frame<N>>, ghost ways': seq<seq<N>>)
    requires Knows(edges, within, colour, path, done, cycles) && Sound(edges, within, roots, cycles)
    requires path != [] && path[0].n in roots && path[|path| - 1].next < |path[|path| - 1].edges|
    requires Tracks(edges, within, colour, path, Trace(ways, cycles), goal)
    ensures Knows(edges, within, colour', path', done, cycles') && Sound(edges, within, roots, cycles')
    ensures path' != [] && path'[0].n == path[0].n
    ensures Tracks(edges, within, colour', path', Trace(ways', cycles'), goal)
    ensures |within - colour'.Keys| < |within - colour.Keys| || (colour' == colour && Left(path') < Left(path))
  {
    hide Knows, Sound, ClosedWalk, Reaches, PathOk, Coloured, Ordered, Followed, Graph, Left, Vertices, Walk,
        Extended, Advanced, Rest, Met, FramesOk, Tail, EndsWith;
    cycles', colour', path', ways' := cycles, colour, path, ways;
    KnownPath(edges, within, colour, path, done, cycles);
    var top := |path| - 1;
    LeftDrops(path);
    var to := path[top].edges[path[top].next];
    match ColourOf(colour, to) {
      case Unvisited =>
        Pushed(edges, within, colour, path, done, cycles, to);
        FewerLeft(within, colour, to);
        ExtendedRoot(edges, path, to);
        RestPushed(edges, within, path, Trace(ways, cycles));
        MetOne(within, ways, Vertices(path), to);
        colour' := colour[to := OnPath];
        path' := Extended(edges, path, to);
        ways' := ways + [Vertices(path) + [to]];
      case OnPath =>
        PathReaches(edges, within, path, to);
        var cycle := CycleThrough(path, to, edges, within);
        Closed(edges, within, colour, path, done, cycles, cycle);
        SoundMore(edges, within, roots, cycles, cycle, path[0].n);
        RestBack(edges, within, path, Trace(ways, cycles));
        cycles' := cycles + [cycle];
        path' := Advanced(path);
      case Finished =>
        Skipped(edges, within, colour, path, done, cycles);
        RestBack(edges, within, path, Trace(ways, cycles));
        path' := Advanced(path);
    }
  }

  method WalkRoot<N(==,!new)>(edges: N --> seq<N>, roots: seq<N>, i: nat, ghost within: set<N>, cycles0: seq<seq<N>>,
      colour0: map<N, Colour>, ghost done0: seq<N>, ghost ways0: seq<seq<N>>)
    returns (cycles: seq<seq<N>>, colour: map<N, Colour>, ghost done: seq<N>, ghost ways: seq<seq<N>>)
    requires i < |roots| && roots[i] in within && ColourOf(colour0, roots[i]) == Unvisited
    requires Knows(edges, within, colour0, [], done0, cycles0) && Sound(edges, within, roots, cycles0)
    requires Graph(edges, within) && Met(ways0) == colour0.Keys && roots[i] !in Met(ways0)
    ensures Knows(edges, within, colour, [], done, cycles) && Sound(edges, within, roots, cycles)
    ensures done0 <= done && roots[i] in done && Met(ways) == colour.Keys
    ensures Trace(ways, cycles) == Enter(edges, within, [], roots[i], Trace(ways0, cycles0))
  {
    hide Knows, Sound, ClosedWalk, Reaches, PathOk, Coloured, Ordered, Followed, Graph, Left, Vertices, Walk,
        Extended, Advanced, Enter, Met, Tracks;
    var root := roots[i];
    ghost var goal := Enter(edges, within, [], root, Trace(ways0, cycles0));
    cycles, colour, done, ways := cycles0, colour0, done0, ways0 + [[root]];
    Pushed(edges, within, colour, [], done, cycles, root);
    TracksRoot(edges, within, colour, ways0, cycles, root);
    colour := colour[root := OnPath];
    var path := [Frame(root, edges(root), 0)];
    ExtendedFirst(edges, root);
    while |path| > 0
      invariant Knows(edges, within, colour, path, done, cycles) && Sound(edges, within, roots, cycles)
      invariant done0 <= done && if path == [] then root in done else path[0].n == root
      invariant Tracks(edges, within, colour, path, Trace(ways, cycles), goal)
      decreases |within - colour.Keys|, Left(path)
    {
      KnownPath(edges, within, colour, path, done, cycles);
      var top := |path| - 1;
      if path[top].next == |path[top].edges| {
        LeftDrops(path);
        Popped(edges, within, colour, path, done, cycles);
        KeysSame(colour, path[top].n, Finished);
        TracksPopped(edges, within, colour, colour[path[top].n := Finished], path, Trace(ways, cycles), goal);
        colour := colour[path[top].n := Finished];
        done := done + [path[top].n];
        path := path[..top];
      } else {
        cycles, colour, path, ways := FollowEdge(edges, roots, path, within, cycles, colour, done, ways, goal);
      }
    }
    TracksEnds(edges, within, colour, Trace(ways, cycles), goal);
  }

  lemma TracksRoot<N(!new)>(edges: N --> seq<N>, within: set<N>, colour: map<N, Colour>, ways: seq<seq<N>>,
      cycles: seq<seq<N>>, root: N)
    requires Graph(edges, within) && root in within && root !in Met(ways) && Met(ways) == colour.Keys && edges.requires(root)
    ensures Tracks(edges, within, colour[root := OnPath], [Frame(root, edges(root), 0)], Trace(ways + [[root]], cycles),
              Enter(edges, within, [], root, Trace(ways, cycles)))
  {
    hide Met, Follow, Graph, Rest;
    var path := [Frame(root, edges(root), 0)];
    var t := Trace(ways + [[root]], cycles);
    OneVertex(root, edges(root));
    MetOne(within, ways, [], root);
    OneFrame(edges, within, root);
    RestUnfolds(edges, within, path, t);
    RestNone(edges, within, path[..0], Follow(edges, within, [root], edges(root), t));
  }

  lemma OneFrame<N(!new)>(edges: N --> seq<N>, within: set<N>, root: N)
    requires Graph(edges, within) && root in within && edges.requires(root)
    ensures FramesOk(within, [Frame(root, edges(root), 0)]) && All(within, edges(root))
  {
  }

  lemma OneVertex<N>(root: N, es: seq<N>)
    ensures [] + [root] == [root] && Vertices([Frame(root, es, 0)]) == [root] && es[0..] == es
    ensures [Frame(root, es, 0)][..0] == []
  {
  }

  lemma RestNone<N(!new)>(edges: N --> seq<N>, within: set<N>, path: seq<Frame<N>>, t: Trace<N>)
    requires Graph(edges, within) && path == []
    ensures Rest(edges, within, path, t) == t
  {
  }

  lemma TracksPopped<N(!new)>(edges: N --> seq<N>, within: set<N>, colour: map<N, Colour>, colour': map<N, Colour>,
      path: seq<Frame<N>>, t: Trace<N>, goal: Trace<N>)
    requires Tracks(edges, within, colour, path, t, goal) && path != [] && colour'.Keys == colour.Keys
    requires path[|path| - 1].next == |path[|path| - 1].edges|
    ensures Tracks(edges, within, colour', path[..|path| - 1], t, goal)
  {
    hide Rest, Met;
    RestPopped(edges, within, path, t);
  }

  lemma TracksEnds<N(!new)>(edges: N --> seq<N>, within: set<N>, colour: map<N, Colour>, t: Trace<N>, goal: Trace<N>)
    requires Tracks(edges, within, colour, [], t, goal)
    ensures t == goal && Met(t.ways) == colour.Keys
  {
  }

  lemma KnownPath<N(!new)>(edges: N --> seq<N>, within: set<N>, colour: map<N, Colour>, path: seq<Frame<N>>,
      done: seq<N>, cycles: seq<seq<N>>)
    requires Knows(edges, within, colour, path, done, cycles) && path != []
    ensures PathOk(edges, within, path) && Left(path) >= 0 && path[|path| - 1].next <= |path[|path| - 1].edges|
    ensures path[|path| - 1].next < |path[|path| - 1].edges| ==>
      var to := path[|path| - 1].edges[path[|path| - 1].next];
      to in within && edges.requires(to) && (ColourOf(colour, to) == OnPath <==> to in Vertices(path))
      && (ColourOf(colour, to) == Unvisited <==> to !in colour.Keys)
      && edges.requires(path[|path| - 1].n) && to in edges(path[|path| - 1].n)
  {
    LeftBounded(edges, within, path);
  }

  lemma KeysSame<N>(colour: map<N, Colour>, n: N, c: Colour)
    requires n in colour.Keys
    ensures colour[n := c].Keys == colour.Keys
  {
  }

  lemma FewerLeft<N>(within: set<N>, colour: map<N, Colour>, to: N)
    requires to in within && to !in colour.Keys
    ensures |within - colour[to := OnPath].Keys| < |within - colour.Keys|
  {
    assert colour[to := OnPath].Keys == colour.Keys + {to};
    assert within - colour.Keys == (within - colour[to := OnPath].Keys) + {to};
  }

  lemma SoundMore<N(!new)>(edges: N --> seq<N>, within: set<N>, roots: seq<N>, cycles: seq<seq<N>>, cycle: seq<N>,
      root: N)
    requires Sound(edges, within, roots, cycles) && ClosedWalk(edges, within, cycle)
    requires root in roots && Reaches(edges, within, root, cycle[0])
    ensures Sound(edges, within, roots, cycles + [cycle])
  {
  }
}
