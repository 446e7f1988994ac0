/** What a tree's digest covers, path by path (checksum/tree.go): exactly the
    entries that neither they nor a directory above them is excluded or another
    writer's unfinished stage. */
module TreePaths {
  import opened Merkle
  import opened TreeWalk

  /** An entry without what is in it. */
  function Bare(e: Entry): Entry { if e.Dir? then Dir(e.name, []) else e }

  /** trail leads from the listing to one entry, a directory at a time. */
  ghost predicate Leads(es: seq<Entry>, trail: seq<Entry>)
    decreases trail
  {
    trail != [] && exists e :: e in es && Bare(e) == trail[0] && (|trail| > 1 ==> e.Dir? && Leads(e.listing, trail[1..]))
  }

  /** The path of the entry trail leads to: the names on the way, a slash after every
      directory. */
  function PathOf(rel: Bytes, trail: seq<Entry>): Bytes
    decreases |trail|
  {
    if trail == [] then rel
    else
      var e := trail[0];
      PathOf(rel + e.name + (if e.Dir? || e == Unreadable(e.name, KindDir) then [0x2f] else []), trail[1..])
  }

  /** A directory or a regular file named as a stage. */
  predicate Stage(e: Entry) {
    (e.Dir? || e.File? || e == Unreadable(e.name, KindDir) || e == Unreadable(e.name, KindFile)) && IsStageName(e.name)
  }

  /** Nothing on the way to the entry, nor the entry, is excluded or a stage. */
  ghost predicate Kept(ex: Exclusion, rel: Bytes, trail: seq<Entry>) {
    forall k: nat :: 0 < k <= |trail| ==> KeptAt(ex, rel, trail, k)
  }

  ghost predicate KeptAt(ex: Exclusion, rel: Bytes, trail: seq<Entry>, k: nat)
    requires 0 < k <= |trail|
  {
    !ex(PathOf(rel, trail[..k])) && !Stage(trail[k - 1])
  }

  // ---- one step of a trail ------------------------------------------------

  /** trail starts at e. */
  ghost predicate Via(e: Entry, trail: seq<Entry>) {
    trail != [] && Bare(e) == trail[0] && (|trail| > 1 ==> e.Dir? && Leads(e.listing, trail[1..]))
  }

  lemma LeadsCons(e: Entry, es: seq<Entry>, trail: seq<Entry>)
    ensures Leads([e] + es, trail) <==> Via(e, trail) || Leads(es, trail)
  {
    if Via(e, trail) {
      assert e in [e] + es;
    }
    if Leads(es, trail) {
      var d :| d in es && Bare(d) == trail[0] && (|trail| > 1 ==> d.Dir? && Leads(d.listing, trail[1..]));
      assert d in [e] + es;
    }
  }

  lemma KeptCons(ex: Exclusion, rel: Bytes, e: Entry, trail: seq<Entry>)
    requires Via(e, trail)
    ensures Kept(ex, rel, trail) <==> !Dropped(ex, rel, e) && Kept(ex, ChildPath(rel, e), trail[1..])
  {
    hide KeptAt, Dropped, ChildPath, PathOf, Via;
    var below := ChildPath(rel, e);
    ViaSome(e, trail);
    FirstStep(ex, rel, e, trail);
    forall k: nat | 0 < k <= |trail[1..]| ensures KeptAt(ex, below, trail[1..], k) <==> KeptAt(ex, rel, trail, k + 1) {
      LaterStep(ex, rel, e, trail, k);
    }
    if !Dropped(ex, rel, e) && Kept(ex, below, trail[1..]) {
      forall k: nat | 0 < k <= |trail| ensures KeptAt(ex, rel, trail, k) {
        if k > 1 {
          assert KeptAt(ex, below, trail[1..], k - 1);
        }
      }
    }
  }

  lemma ViaSome(e: Entry, trail: seq<Entry>)
    requires Via(e, trail)
    ensures trail != []
  {
  }

  lemma FirstStep(ex: Exclusion, rel: Bytes, e: Entry, trail: seq<Entry>)
    requires Via(e, trail)
    ensures KeptAt(ex, rel, trail, 1) <==> !Dropped(ex, rel, e)
  {
    PathCons(rel, e, trail, 1);
    assert trail[..1][1..] == [];
  }

  lemma LaterStep(ex: Exclusion, rel: Bytes, e: Entry, trail: seq<Entry>, k: nat)
    requires Via(e, trail) && 0 < k <= |trail[1..]|
    ensures KeptAt(ex, ChildPath(rel, e), trail[1..], k) <==> KeptAt(ex, rel, trail, k + 1)
  {
    PathCons(rel, e, trail, k + 1);
    assert trail[1..][..k] == trail[..k + 1][1..];
  }

  lemma PathCons(rel: Bytes, e: Entry, trail: seq<Entry>, k: nat)
    requires Via(e, trail) && 0 < k <= |trail|
    ensures PathOf(rel, trail[..k]) == PathOf(ChildPath(rel, e), trail[..k][1..])
  {
    assert trail[..k][0] == trail[0];
    assert rel + e.name + [] == rel + e.name;
  }

  // ---- what the walk keeps ------------------------------------------------

  /** An entry is in what the walk returns exactly when the listing leads to it, and
      neither its path nor that of a directory above it is excluded or a stage's. */
  lemma {:induction false} WalkTrails(ex: Exclusion, rel: Bytes, es: seq<Entry>, trail: seq<Entry>)
    requires Walk(ex, rel, es).Some?
    ensures Leads(Walk(ex, rel, es).value, trail) <==> Leads(es, trail) && Kept(ex, rel, trail)
    decreases Sizes(es), 2, 0
  {
    SortedKeeps(es);
    WalkAllTrails(ex, rel, Sorted(es), trail);
    SameEntries(Sorted(es), es, trail);
  }

  lemma SameEntries(a: seq<Entry>, b: seq<Entry>, trail: seq<Entry>)
    requires forall e :: e in a <==> e in b
    ensures Leads(a, trail) <==> Leads(b, trail)
  {
  }

  lemma {:induction false} WalkAllTrails(ex: Exclusion, rel: Bytes, es: seq<Entry>, trail: seq<Entry>)
    requires WalkAll(ex, rel, es).Some?
    ensures Leads(WalkAll(ex, rel, es).value, trail) <==> Leads(es, trail) && Kept(ex, rel, trail)
    decreases Sizes(es), 1, |es|
  {
    if es != [] {
      hide Leads, Kept, Via, Dropped, Walk, WalkEntry;
      var e, rest := es[0], es[1..];
      assert es == [e] + rest;
      WalkAllTrails(ex, rel, rest, trail);
      LeadsCons(e, rest, trail);
      if Dropped(ex, rel, e) {
        if Via(e, trail) {
          KeptCons(ex, rel, e, trail);
        }
      } else {
        var child := WalkEntry(ex, rel, e).value;
        LeadsCons(child, WalkAll(ex, rel, rest).value, trail);
        EntryTrails(ex, rel, e, trail);
      }
    }
  }

  lemma {:induction false} EntryTrails(ex: Exclusion, rel: Bytes, e: Entry, trail: seq<Entry>)
    requires !Dropped(ex, rel, e) && WalkEntry(ex, rel, e).Some?
    ensures Via(WalkEntry(ex, rel, e).value, trail) <==> Via(e, trail) && Kept(ex, rel, trail)
    decreases Size(e), 0, 0
  {
    hide Leads, Kept, Dropped;
    var child := WalkEntry(ex, rel, e).value;
    if trail != [] && Bare(e) == trail[0] {
      if |trail| > 1 && e.Dir? {
        WalkTrails(ex, ChildPath(rel, e), e.listing, trail[1..]);
      }
      if Via(e, trail) {
        KeptCons(ex, rel, e, trail);
        if |trail| == 1 {
          KeptNone(ex, ChildPath(rel, e), trail[1..]);
        }
      }
    }
  }

  lemma KeptNone(ex: Exclusion, rel: Bytes, trail: seq<Entry>)
    requires trail == []
    ensures Kept(ex, rel, trail)
  {
  }

  // ---- when the walk fails ------------------------------------------------

  /** The listing leads to something unreadable that is not left out. */
  ghost predicate Unread(ex: Exclusion, rel: Bytes, es: seq<Entry>, trail: seq<Entry>) {
    Leads(es, trail) && Kept(ex, rel, trail) && trail[|trail| - 1].Unreadable?
  }

  lemma {:induction false} WalkFails(ex: Exclusion, rel: Bytes, es: seq<Entry>)
    ensures Walk(ex, rel, es).None? <==> exists trail :: Unread(ex, rel, es, trail)
    decreases Sizes(es), 2, 0
  {
    SortedKeeps(es);
    WalkAllFails(ex, rel, Sorted(es));
    forall trail ensures Unread(ex, rel, es, trail) <==> Unread(ex, rel, Sorted(es), trail) {
      SameEntries(Sorted(es), es, trail);
    }
  }

  lemma {:induction false} WalkAllFails(ex: Exclusion, rel: Bytes, es: seq<Entry>)
    ensures WalkAll(ex, rel, es).None? <==> exists trail :: Unread(ex, rel, es, trail)
    decreases Sizes(es), 1, |es|
  {
    hide Kept, Via, Dropped, Walk, WalkEntry;
    if es != [] {
      var e, rest := es[0], es[1..];
      assert es == [e] + rest;
      WalkAllFails(ex, rel, rest);
      EntryFails(ex, rel, e);
      forall trail ensures Unread(ex, rel, es, trail) <==> Unread(ex, rel, rest, trail) || UnreadVia(ex, rel, e, trail) {
        LeadsCons(e, rest, trail);
      }
      if WalkAll(ex, rel, es).None? {
        if WalkAll(ex, rel, rest).None? {
          var trail :| Unread(ex, rel, rest, trail);
          assert Unread(ex, rel, es, trail);
        } else {
          var trail :| UnreadVia(ex, rel, e, trail);
          assert Unread(ex, rel, es, trail);
        }
      }
      if trail :| Unread(ex, rel, es, trail) {
        assert Unread(ex, rel, rest, trail) || UnreadVia(ex, rel, e, trail);
      }
    }
  }

  ghost predicate UnreadVia(ex: Exclusion, rel: Bytes, e: Entry, trail: seq<Entry>) {
    Via(e, trail) && Kept(ex, rel, trail) && trail[|trail| - 1].Unreadable?
  }

  lemma {:induction false} EntryFails(ex: Exclusion, rel: Bytes, e: Entry)
    ensures !Dropped(ex, rel, e) && WalkEntry(ex, rel, e).None? <==> exists trail :: UnreadVia(ex, rel, e, trail)
    decreases Size(e), 0, 0
  {
    hide Kept, Dropped, Walk, PathOf, ChildPath;
    var below := ChildPath(rel, e);
    if e.Dir? {
      WalkFails(ex, below, e.listing);
    }
    if !Dropped(ex, rel, e) && WalkEntry(ex, rel, e).None? {
      if e.Dir? {
        var trail :| Unread(ex, below, e.listing, trail);
        var more := [Bare(e)] + trail;
        assert more[1..] == trail;
        KeptCons(ex, rel, e, more);
        assert UnreadVia(ex, rel, e, more);
      } else {
        KeptCons(ex, rel, e, [e]);
        KeptNone(ex, below, [e][1..]);
        assert UnreadVia(ex, rel, e, [e]);
      }
    }
    if trail :| UnreadVia(ex, rel, e, trail) {
      KeptCons(ex, rel, e, trail);
      if e.Dir? {
        assert Unread(ex, below, e.listing, trail[1..]);
      }
    }
  }

  // ---- what is left out never matters -------------------------------------

  ghost predicate OrderedDeep(es: seq<Entry>)
    decreases es
  {
    InOrder(es) && forall i :: 0 <= i < |es| && es[i].Dir? ==> OrderedDeep(es[i].listing)
  }

  /** Every directory the walk returns is in name order. */
  lemma {:induction false} WalkOrdered(ex: Exclusion, rel: Bytes, es: seq<Entry>)
    requires NamesOk(es) && Walk(ex, rel, es).Some?
    ensures OrderedDeep(Walk(ex, rel, es).value)
    decreases Sizes(es), 2, 0
  {
    SortedInOrder(es);
    SortedKeeps(es);
    forall i | 0 <= i < |Sorted(es)| && Sorted(es)[i].Dir? ensures NamesOk(Sorted(es)[i].listing) {
      assert Sorted(es)[i] in es;
    }
    WalkAllOrdered(ex, rel, Sorted(es));
  }

  lemma {:induction false} WalkAllOrdered(ex: Exclusion, rel: Bytes, es: seq<Entry>)
    requires InOrder(es) && WalkAll(ex, rel, es).Some?
    requires forall i :: 0 <= i < |es| && es[i].Dir? ==> NamesOk(es[i].listing)
    ensures OrderedDeep(WalkAll(ex, rel, es).value)
    ensures forall r :: r in WalkAll(ex, rel, es).value ==> exists i :: 0 <= i < |es| && es[i].name == r.name
    decreases Sizes(es), 1, |es|
  {
    if es != [] {
      WalkAllOrdered(ex, rel, es[1..]);
      var rest := WalkAll(ex, rel, es[1..]).value;
      forall r | r in rest ensures exists i :: 0 < i < |es| && es[i].name == r.name {
        var j :| 0 <= j < |es[1..]| && es[1..][j].name == r.name;
        assert es[j + 1].name == r.name;
      }
      if !Dropped(ex, rel, es[0]) {
        var child := WalkEntry(ex, rel, es[0]).value;
        if es[0].Dir? {
          DirSmaller(es);
          WalkOrdered(ex, ChildPath(rel, es[0]), es[0].listing);
        }
        forall i | 0 <= i < |rest| ensures Less(child.name, rest[i].name) {
          assert rest[i] in rest;
        }
      }
    }
  }

  /** A tree in name order is what it leads to. */
  lemma {:induction false} TrailsDetermine(a: seq<Entry>, b: seq<Entry>)
    requires OrderedDeep(a) && OrderedDeep(b) && forall trail :: Leads(a, trail) <==> Leads(b, trail)
    ensures a == b
    decreases Sizes(a)
  {
    forall name ensures Named(a, name) <==> Named(b, name) {
      NamedByTrail(a, b, name);
      NamedByTrail(b, a, name);
    }
    OneOrder(a, b);
    forall i | 0 <= i < |a| ensures a[i] == b[i] {
      var one := [Bare(a[i])];
      assert Leads(a, one);
      assert Leads(b, one);
      OnlyOne(b, i, one);
      if a[i].Dir? {
        forall t ensures Leads(a[i].listing, t) <==> Leads(b[i].listing, t) {
          BelowLeads(a, i, t);
          BelowLeads(b, i, t);
        }
        SizeAt(a, i);
        TrailsDetermine(a[i].listing, b[i].listing);
      }
    }
  }

  lemma NamedByTrail(a: seq<Entry>, b: seq<Entry>, name: Bytes)
    requires forall trail :: Leads(a, trail) ==> Leads(b, trail)
    ensures Named(a, name) ==> Named(b, name)
  {
    if Named(a, name) {
      var e :| e in a && e.name == name;
      assert Leads(a, [Bare(e)]);
    }
  }

  /** Only the entry of that name can start a trail through it. */
  lemma OnlyOne(es: seq<Entry>, i: nat, trail: seq<Entry>)
    requires InOrder(es) && i < |es| && trail != [] && trail[0].name == es[i].name
    ensures Leads(es, trail) <==> Via(es[i], trail)
  {
    if Leads(es, trail) {
      var e :| e in es && Bare(e) == trail[0] && (|trail| > 1 ==> e.Dir? && Leads(e.listing, trail[1..]));
      var j :| 0 <= j < |es| && es[j] == e;
      LessIsOrder(es[i].name, es[j].name);
      assert i < j ==> Less(es[i].name, es[j].name);
      assert j < i ==> Less(es[j].name, es[i].name);
    }
  }

  lemma BelowLeads(es: seq<Entry>, i: nat, t: seq<Entry>)
    requires InOrder(es) && i < |es| && es[i].Dir?
    ensures Leads(es[i].listing, t) <==> t != [] && Leads(es, [Bare(es[i])] + t)
  {
    var trail := [Bare(es[i])] + t;
    assert trail[1..] == t;
    OnlyOne(es, i, trail);
  }

  /** a and b have the same entries, but for what ex leaves out. */
  ghost predicate SameKept(ex: Exclusion, rel: Bytes, a: seq<Entry>, b: seq<Entry>) {
    forall trail :: Kept(ex, rel, trail) ==> (Leads(a, trail) <==> Leads(b, trail))
  }

  /** The walk reads two trees the same exactly when they differ in nothing but what is
      left out. */
  lemma WalkSameExactly(ex: Exclusion, rel: Bytes, a: seq<Entry>, b: seq<Entry>)
    requires NamesOk(a) && NamesOk(b)
    ensures SameKept(ex, rel, a, b) ==> Walk(ex, rel, a) == Walk(ex, rel, b)
    ensures Walk(ex, rel, a).Some? && Walk(ex, rel, a) == Walk(ex, rel, b) ==> SameKept(ex, rel, a, b)
  {
    hide Kept, Leads, Walk, OrderedDeep;
    WalkFails(ex, rel, a);
    WalkFails(ex, rel, b);
    if SameKept(ex, rel, a, b) {
      forall trail ensures Unread(ex, rel, a, trail) <==> Unread(ex, rel, b, trail) {
        LeadsSome(a, trail);
        LeadsSome(b, trail);
      }
      if Walk(ex, rel, a).Some? {
        forall trail ensures Leads(Walk(ex, rel, a).value, trail) <==> Leads(Walk(ex, rel, b).value, trail) {
          WalkTrails(ex, rel, a, trail);
          WalkTrails(ex, rel, b, trail);
        }
        WalkOrdered(ex, rel, a);
        WalkOrdered(ex, rel, b);
        TrailsDetermine(Walk(ex, rel, a).value, Walk(ex, rel, b).value);
      }
    }
    if Walk(ex, rel, a).Some? && Walk(ex, rel, a) == Walk(ex, rel, b) {
      forall trail | Kept(ex, rel, trail) ensures Leads(a, trail) <==> Leads(b, trail) {
        WalkTrails(ex, rel, a, trail);
        WalkTrails(ex, rel, b, trail);
      }
    }
  }

  lemma LeadsSome(es: seq<Entry>, trail: seq<Entry>)
    ensures Leads(es, trail) ==> trail != []
  {
  }

  /** Changing, adding or removing what is excluded, or making it unreadable, leaves
      the digest. */
  lemma ExcludedNeverMatters(h: Hash, ex: Exclusion, a: seq<Entry>, b: seq<Entry>)
    requires NamesOk(a) && NamesOk(b) && SameKept(ex, ROOT, a, b)
    ensures TreeDigest(h, ex, a) == TreeDigest(h, ex, b)
  {
    hide Walk;
    WalkSameExactly(ex, ROOT, a, b);
  }
}
