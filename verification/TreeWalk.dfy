/** Reading a directory tree for its digest (checksum/tree.go): each listing is
    sorted by name, excluded entries and other writers' unfinished stages are left
    out unread, and any other failure to read fails the whole walk. */
module TreeWalk {
  import opened Merkle

  datatype Option<T> = None | Some(value: T)

  /** A pattern set, as the paths it leaves out. */
  type Exclusion = Bytes -> bool

  const EXCLUDE_NOTHING: Exclusion := path => false

  const SLASH: Byte := 0x2f

  // ---- names in order -----------------------------------------------------

  /** cmp.Compare on strings: byte by byte. */
  predicate Less(a: Bytes, b: Bytes) {
    b != [] && (a == [] || a[0] < b[0] || (a[0] == b[0] && Less(a[1..], b[1..])))
  }

  lemma {:induction false} LessIsOrder(a: Bytes, b: Bytes)
    ensures !Less(a, a)
    ensures Less(a, b) ==> !Less(b, a)
    ensures a != b ==> Less(a, b) || Less(b, a)
  {
    if a != [] {
      LessIsOrder(a[1..], if b == [] then [] else b[1..]);
      if b != [] && a[0] == b[0] && a[1..] == b[1..] {
        assert a == [a[0]] + a[1..] && b == [b[0]] + b[1..];
      }
    }
  }

  lemma {:induction false} LessTransitive(a: Bytes, b: Bytes, c: Bytes)
    requires Less(a, b) && Less(b, c)
    ensures Less(a, c)
  {
    if a != [] && a[0] == b[0] && b[0] == c[0] {
      LessTransitive(a[1..], b[1..], c[1..]);
    }
  }

  /** One name goes before another when it is a proper start of it, or has the smaller
      byte where they first differ. */
  lemma {:induction false} LessExactly(a: Bytes, b: Bytes)
    ensures Less(a, b) <==> (|a| < |b| && a <= b) || exists k: nat :: FirstDiffer(a, b, k) && a[k] < b[k]
  {
    if a != [] && b != [] && a[0] == b[0] {
      LessExactly(a[1..], b[1..]);
      assert a == [a[0]] + a[1..] && b == [b[0]] + b[1..];
      forall k: nat ensures FirstDiffer(a[1..], b[1..], k) <==> FirstDiffer(a, b, k + 1) {
        DifferLater(a, b, k);
      }
      if k: nat :| FirstDiffer(a, b, k) && a[k] < b[k] {
        assert FirstDiffer(a[1..], b[1..], k - 1) && a[1..][k - 1] < b[1..][k - 1];
      }
    } else if a != [] && b != [] {
      assert FirstDiffer(a, b, 0);
      forall k: nat | FirstDiffer(a, b, k) ensures k == 0 {
        DifferStart(a, b, k);
      }
    }
  }

  lemma DifferStart(a: Bytes, b: Bytes, k: nat)
    requires FirstDiffer(a, b, k)
    ensures k > 0 ==> a[0] == b[0]
  {
    if k > 0 {
      assert a[..k][0] == b[..k][0];
    }
  }

  lemma DifferLater(a: Bytes, b: Bytes, k: nat)
    requires a != [] && b != [] && a[0] == b[0]
    ensures FirstDiffer(a[1..], b[1..], k) <==> FirstDiffer(a, b, k + 1)
  {
    if k < |a[1..]| && k < |b[1..]| {
      assert a[..k + 1] == [a[0]] + a[1..][..k] && b[..k + 1] == [b[0]] + b[1..][..k];
      assert a[1..][..k] == a[..k + 1][1..] && b[1..][..k] == b[..k + 1][1..];
    }
  }

  ghost predicate FirstDiffer(a: Bytes, b: Bytes, k: nat) {
    k < |a| && k < |b| && a[..k] == b[..k] && a[k] != b[k]
  }

  // ---- sorting a listing --------------------------------------------------

  function Size(e: Entry): nat
    decreases e
  {
    if e.Dir? then 1 + Sizes(e.listing) else 1
  }

  function Sizes(es: seq<Entry>): nat
    decreases es
  {
    if es == [] then 0 else Size(es[0]) + Sizes(es[1..])
  }

  lemma DirSmaller(es: seq<Entry>)
    requires es != [] && es[0].Dir?
    ensures Sizes(es[0].listing) < Size(es[0]) <= Sizes(es)
  {
  }

  function Insert(e: Entry, es: seq<Entry>): (r: seq<Entry>)
    ensures Sizes(r) == Size(e) + Sizes(es)
  {
    if es == [] || !Less(es[0].name, e.name) then [e] + es
    else
      assert Sizes([es[0]] + Insert(e, es[1..])) == Size(es[0]) + Sizes(Insert(e, es[1..]));
      [es[0]] + Insert(e, es[1..])
  }

  function Sorted(es: seq<Entry>): (r: seq<Entry>)
    ensures Sizes(r) == Sizes(es)
  {
    if es == [] then [] else Insert(es[0], Sorted(es[1..]))
  }

  ghost predicate InOrder(es: seq<Entry>) {
    forall i, j :: 0 <= i < j < |es| ==> Less(es[i].name, es[j].name)
  }

  ghost predicate NamesDistinct(es: seq<Entry>) {
    forall i, j :: 0 <= i < j < |es| ==> es[i].name != es[j].name
  }

  lemma {:induction false} InsertKeeps(e: Entry, es: seq<Entry>)
    ensures multiset(Insert(e, es)) == multiset(es) + multiset{e}
  {
    if es != [] && Less(es[0].name, e.name) {
      InsertKeeps(e, es[1..]);
      assert es == [es[0]] + es[1..];
    }
  }

  lemma {:induction false} SortedKeeps(es: seq<Entry>)
    ensures multiset(Sorted(es)) == multiset(es)
    ensures forall e :: e in Sorted(es) <==> e in es
  {
    if es != [] {
      SortedKeeps(es[1..]);
      InsertKeeps(es[0], Sorted(es[1..]));
      assert es == [es[0]] + es[1..];
    }
    forall e ensures e in Sorted(es) <==> e in es {
      assert e in multiset(Sorted(es)) <==> e in multiset(es);
    }
  }

  lemma {:induction false} InsertInOrder(e: Entry, es: seq<Entry>)
    requires InOrder(es) && forall i :: 0 <= i < |es| ==> es[i].name != e.name
    ensures InOrder(Insert(e, es))
  {
    if es == [] {
    } else if !Less(es[0].name, e.name) {
      hide Less;
      LessIsOrder(es[0].name, e.name);
      forall i | 0 <= i < |es| ensures Less(e.name, es[i].name) {
        if i > 0 {
          LessTransitive(e.name, es[0].name, es[i].name);
        }
      }
      InOrderCons(e, es);
    } else {
      hide Less;
      InsertInOrder(e, es[1..]);
      InsertKeeps(e, es[1..]);
      var rest := Insert(e, es[1..]);
      forall i | 0 <= i < |rest| ensures Less(es[0].name, rest[i].name) {
        assert rest[i] in multiset(rest);
        assert rest[i] in es[1..] || rest[i] == e;
      }
      InOrderCons(es[0], rest);
    }
  }

  lemma InOrderCons(e: Entry, es: seq<Entry>)
    requires InOrder(es) && forall i :: 0 <= i < |es| ==> Less(e.name, es[i].name)
    ensures InOrder([e] + es)
  {
    hide Less;
  }

  lemma {:induction false} SortedInOrder(es: seq<Entry>)
    requires NamesDistinct(es)
    ensures InOrder(Sorted(es))
  {
    if es != [] {
      SortedInOrder(es[1..]);
      SortedKeeps(es[1..]);
      var rest := Sorted(es[1..]);
      forall i | 0 <= i < |rest| ensures rest[i].name != es[0].name {
        assert rest[i] in es[1..];
      }
      InsertInOrder(es[0], rest);
    }
  }

  // ---- the walk -----------------------------------------------------------

  predicate Hex(b: Byte) { 0x30 <= b <= 0x39 || 0x61 <= b <= 0x66 }

  predicate Base32(b: Byte) { 0x61 <= b <= 0x7a || 0x32 <= b <= 0x37 }

  /** ".evo-" owner "-" random ".tmp". */
  predicate IsStageName(name: Bytes) {
    && |name| == 44
    && name[..5] == [0x2e, 0x65, 0x76, 0x6f, 0x2d]
    && (forall i :: 5 <= i < 13 ==> Hex(name[i]))
    && name[13] == 0x2d
    && (forall i :: 14 <= i < 40 ==> Base32(name[i]))
    && name[40..] == [0x2e, 0x74, 0x6d, 0x70]
  }

  predicate IsDir(e: Entry) { e.Dir? || (e.Unreadable? && e.unread == KindDir) }

  predicate IsRegular(e: Entry) { e.File? || (e.Unreadable? && e.unread == KindFile) }

  predicate InFlightStage(e: Entry) { (IsDir(e) || IsRegular(e)) && IsStageName(e.name) }

  function ChildPath(rel: Bytes, e: Entry): Bytes {
    if IsDir(e) then rel + e.name + [SLASH] else rel + e.name
  }

  predicate Dropped(ex: Exclusion, rel: Bytes, e: Entry) {
    ex(ChildPath(rel, e)) || InFlightStage(e)
  }

  /** The directory at rel as its digest reads it. */
  function Walk(ex: Exclusion, rel: Bytes, listing: seq<Entry>): Option<seq<Entry>>
    decreases Sizes(listing), 2, 0
  {
    WalkAll(ex, rel, Sorted(listing))
  }

  function WalkAll(ex: Exclusion, rel: Bytes, es: seq<Entry>): Option<seq<Entry>>
    decreases Sizes(es), 1, |es|
  {
    if es == [] then Some([])
    else if Dropped(ex, rel, es[0]) then WalkAll(ex, rel, es[1..])
    else
      match WalkEntry(ex, rel, es[0])
      case None => None
      case Some(child) =>
        match WalkAll(ex, rel, es[1..])
        case None => None
        case Some(rest) => Some([child] + rest)
  }

  function WalkEntry(ex: Exclusion, rel: Bytes, e: Entry): Option<Entry>
    decreases Size(e), 0, 0
  {
    match e
    case Dir(name, listing) =>
      (match Walk(ex, ChildPath(rel, e), listing)
       case None => None
       case Some(children) => Some(Dir(name, children)))
    case Unreadable(_, _) => None
    case _ => Some(e)
  }

  // ---- exclusion is pruning -----------------------------------------------

  /** What is left of a listing without excluded and unfinished entries, at every
      depth. */
  function Prune(ex: Exclusion, rel: Bytes, es: seq<Entry>): seq<Entry>
    decreases es
  {
    if es == [] then []
    else if Dropped(ex, rel, es[0]) then Prune(ex, rel, es[1..])
    else [PruneEntry(ex, rel, es[0])] + Prune(ex, rel, es[1..])
  }

  function PruneEntry(ex: Exclusion, rel: Bytes, e: Entry): Entry
    decreases e
  {
    if e.Dir? then Dir(e.name, Prune(ex, ChildPath(rel, e), e.listing)) else e
  }

  /** Names are distinct in every directory. */
  ghost predicate NamesOk(es: seq<Entry>)
    decreases es
  {
    NamesDistinct(es) && forall i :: 0 <= i < |es| && es[i].Dir? ==> NamesOk(es[i].listing)
  }

  lemma {:induction false} PruneFirst(ex: Exclusion, rel: Bytes, es: seq<Entry>) returns (k: nat)
    requires Prune(ex, rel, es) != []
    ensures k < |es| && Prune(ex, rel, es)[0].name == es[k].name
  {
    if !Dropped(ex, rel, es[0]) {
      k := 0;
    } else {
      k := PruneFirst(ex, rel, es[1..]);
      k := k + 1;
    }
  }

  lemma PruneCons(ex: Exclusion, rel: Bytes, e: Entry, es: seq<Entry>)
    ensures Prune(ex, rel, [e] + es) ==
      if Dropped(ex, rel, e) then Prune(ex, rel, es) else [PruneEntry(ex, rel, e)] + Prune(ex, rel, es)
  {
    assert ([e] + es)[1..] == es;
  }

  lemma InsertCons(e: Entry, head: Entry, rest: seq<Entry>)
    ensures Insert(e, [head] + rest) == if Less(head.name, e.name) then [head] + Insert(e, rest) else [e] + ([head] + rest)
  {
    assert ([head] + rest)[1..] == rest;
  }

  /** e goes before everything of a pruned listing when it goes before all of it. */
  lemma InsertFirst(ex: Exclusion, rel: Bytes, e: Entry, es: seq<Entry>, p: Entry)
    requires p.name == e.name && forall i :: 0 <= i < |es| ==> Less(e.name, es[i].name)
    ensures Insert(p, Prune(ex, rel, es)) == [p] + Prune(ex, rel, es)
  {
    if Prune(ex, rel, es) != [] {
      var k := PruneFirst(ex, rel, es);
      LessIsOrder(e.name, es[k].name);
    }
  }

  lemma {:induction false} PruneInsert(ex: Exclusion, rel: Bytes, e: Entry, es: seq<Entry>)
    requires InOrder(es) && forall i :: 0 <= i < |es| ==> es[i].name != e.name
    ensures Prune(ex, rel, Insert(e, es)) ==
      if Dropped(ex, rel, e) then Prune(ex, rel, es) else Insert(PruneEntry(ex, rel, e), Prune(ex, rel, es))
  {
    hide Dropped, PruneEntry;
    var p := PruneEntry(ex, rel, e);
    PruneNamed(ex, rel, e);
    if es == [] || !Less(es[0].name, e.name) {
      PruneCons(ex, rel, e, es);
      if es != [] {
        LessIsOrder(es[0].name, e.name);
        forall i | 0 <= i < |es| ensures Less(e.name, es[i].name) {
          if i > 0 {
            LessTransitive(e.name, es[0].name, es[i].name);
          }
        }
      }
      InsertFirst(ex, rel, e, es, p);
    } else {
      PruneInsert(ex, rel, e, es[1..]);
      PruneNamed(ex, rel, es[0]);
      PruneCons(ex, rel, es[0], Insert(e, es[1..]));
      InsertCons(p, PruneEntry(ex, rel, es[0]), Prune(ex, rel, es[1..]));
    }
  }

  lemma PruneNamed(ex: Exclusion, rel: Bytes, e: Entry)
    ensures PruneEntry(ex, rel, e).name == e.name
  {
  }

  /** Pruning a listing and sorting it, in either order, come to the same. */
  lemma {:induction false} PruneSorted(ex: Exclusion, rel: Bytes, es: seq<Entry>)
    requires NamesDistinct(es)
    ensures Prune(ex, rel, Sorted(es)) == Sorted(Prune(ex, rel, es))
  {
    hide Dropped, PruneEntry, Insert;
    if es != [] {
      var rest := es[1..];
      PruneSorted(ex, rel, rest);
      SortedInOrder(rest);
      SortedKeeps(rest);
      forall i | 0 <= i < |Sorted(rest)| ensures Sorted(rest)[i].name != es[0].name {
        assert Sorted(rest)[i] in rest;
      }
      PruneInsert(ex, rel, es[0], Sorted(rest));
      SortedCons(PruneEntry(ex, rel, es[0]), Prune(ex, rel, rest));
    }
  }

  lemma SortedCons(head: Entry, rest: seq<Entry>)
    ensures Sorted([head] + rest) == Insert(head, Sorted(rest))
  {
    assert ([head] + rest)[1..] == rest;
  }

  /** Digesting with an exclusion is digesting the pruned tree with none: the same
      children at every depth, and the same failures. Whatever was left out is never
      read, so it can neither change the digest nor fail it. */
  lemma {:induction false} WalkIsPrune(ex: Exclusion, rel: Bytes, rel': Bytes, es: seq<Entry>)
    requires NamesOk(es)
    ensures Walk(EXCLUDE_NOTHING, rel', Prune(ex, rel, es)) == Walk(ex, rel, es)
    decreases Sizes(es), 2, 0
  {
    PruneSorted(ex, rel, es);
    SortedKeeps(es);
    forall i | 0 <= i < |Sorted(es)| && Sorted(es)[i].Dir? ensures NamesOk(Sorted(es)[i].listing) {
      assert Sorted(es)[i] in es;
    }
    WalkAllIsPrune(ex, rel, rel', Sorted(es));
  }

  lemma {:induction false} WalkAllIsPrune(ex: Exclusion, rel: Bytes, rel': Bytes, es: seq<Entry>)
    requires forall i :: 0 <= i < |es| && es[i].Dir? ==> NamesOk(es[i].listing)
    ensures WalkAll(EXCLUDE_NOTHING, rel', Prune(ex, rel, es)) == WalkAll(ex, rel, es)
    decreases Sizes(es), 1, |es|
  {
    if es != [] {
      WalkAllIsPrune(ex, rel, rel', es[1..]);
      if !Dropped(ex, rel, es[0]) {
        var head := PruneEntry(ex, rel, es[0]);
        KeptStays(ex, rel, rel', es[0]);
        WalkAllCons(EXCLUDE_NOTHING, rel', head, Prune(ex, rel, es[1..]));
        if es[0].Dir? {
          DirSmaller(es);
          WalkIsPrune(ex, ChildPath(rel, es[0]), ChildPath(rel', head), es[0].listing);
        }
        assert WalkEntry(EXCLUDE_NOTHING, rel', head) == WalkEntry(ex, rel, es[0]);
      }
    }
  }

  /** With nothing excluded, what pruning kept is kept. */
  lemma KeptStays(ex: Exclusion, rel: Bytes, rel': Bytes, e: Entry)
    requires !Dropped(ex, rel, e)
    ensures !Dropped(EXCLUDE_NOTHING, rel', PruneEntry(ex, rel, e))
  {
  }

  lemma WalkAllCons(ex: Exclusion, rel: Bytes, head: Entry, rest: seq<Entry>)
    requires !Dropped(ex, rel, head)
    ensures WalkAll(ex, rel, [head] + rest) ==
      if WalkEntry(ex, rel, head).None? || WalkAll(ex, rel, rest).None? then None
      else Some([WalkEntry(ex, rel, head).value] + WalkAll(ex, rel, rest).value)
  {
    assert ([head] + rest)[1..] == rest;
  }

  // ---- listing order ------------------------------------------------------

  /** y is x with its directories listed in other orders. */
  ghost predicate Relisted(x: Entry, y: Entry)
    decreases x
  {
    if x.Dir? && y.Dir? then x.name == y.name && RelistedAll(x.listing, y.listing) else x == y
  }

  ghost predicate RelistedAll(xs: seq<Entry>, ys: seq<Entry>)
    decreases xs
  {
    && NamesDistinct(xs) && NamesDistinct(ys) && SameNames(xs, ys)
    && forall i, j :: 0 <= i < |xs| && 0 <= j < |ys| && xs[i].name == ys[j].name ==> Relisted(xs[i], ys[j])
  }

  ghost predicate Named(es: seq<Entry>, name: Bytes) {
    exists e :: e in es && e.name == name
  }

  ghost predicate SameNames(xs: seq<Entry>, ys: seq<Entry>) {
    forall name :: Named(xs, name) <==> Named(ys, name)
  }

  lemma NamedRest(es: seq<Entry>, name: Bytes)
    requires InOrder(es) && es != []
    ensures Named(es[1..], name) <==> Named(es, name) && name != es[0].name
    ensures Named(es, name) ==> name == es[0].name || Less(es[0].name, name)
  {
    assert es == [es[0]] + es[1..];
    if Named(es[1..], name) {
      var e :| e in es[1..] && e.name == name;
      var i :| 0 <= i < |es[1..]| && es[1..][i] == e;
      assert Less(es[0].name, es[i + 1].name);
      LessIsOrder(es[0].name, name);
    }
  }

  /** Two listings in name order with the same names agree place by place. */
  lemma {:induction false} OneOrder(a: seq<Entry>, b: seq<Entry>)
    requires InOrder(a) && InOrder(b) && SameNames(a, b)
    ensures |a| == |b| && forall i :: 0 <= i < |a| ==> a[i].name == b[i].name
    decreases |a|
  {
    if a == [] {
      if b != [] {
        assert Named(b, b[0].name);
      }
    } else {
      assert Named(a, a[0].name);
      assert Named(b, b[0].name);
      NamedRest(a, b[0].name);
      NamedRest(b, a[0].name);
      LessIsOrder(a[0].name, b[0].name);
      forall name ensures Named(a[1..], name) <==> Named(b[1..], name) {
        NamedRest(a, name);
        NamedRest(b, name);
      }
      OneOrder(a[1..], b[1..]);
      forall i | 0 < i < |a| ensures a[i].name == b[i].name {
        assert a[1..][i - 1].name == b[1..][i - 1].name;
      }
    }
  }

  /** The digest's tree does not depend on the order directories list their entries
      in, at any depth. */
  lemma {:induction false} ListingOrder(ex: Exclusion, rel: Bytes, xs: seq<Entry>, ys: seq<Entry>)
    requires RelistedAll(xs, ys)
    ensures Walk(ex, rel, xs) == Walk(ex, rel, ys)
    decreases Sizes(xs), 2, 0
  {
    var a, b := Sorted(xs), Sorted(ys);
    SortedInOrder(xs);
    SortedInOrder(ys);
    SortedKeeps(xs);
    SortedKeeps(ys);
    forall name ensures Named(a, name) <==> Named(b, name) {
      assert Named(a, name) <==> Named(xs, name);
      assert Named(b, name) <==> Named(ys, name);
    }
    OneOrder(a, b);
    forall i | 0 <= i < |a| ensures Relisted(a[i], b[i]) {
      assert a[i] in xs && b[i] in ys;
      var j :| 0 <= j < |xs| && xs[j] == a[i];
      var k :| 0 <= k < |ys| && ys[k] == b[i];
    }
    WalkSame(ex, rel, a, b);
  }

  lemma {:induction false} WalkSame(ex: Exclusion, rel: Bytes, a: seq<Entry>, b: seq<Entry>)
    requires |a| == |b| && forall i :: 0 <= i < |a| ==> a[i].name == b[i].name && Relisted(a[i], b[i])
    ensures WalkAll(ex, rel, a) == WalkAll(ex, rel, b)
    decreases Sizes(a), 1, |a|
  {
    if a != [] {
      WalkSame(ex, rel, a[1..], b[1..]);
      assert Relisted(a[0], b[0]);
      if a[0].Dir? && b[0].Dir? && !Dropped(ex, rel, a[0]) {
        DirSmaller(a);
        ListingOrder(ex, ChildPath(rel, a[0]), a[0].listing, b[0].listing);
      }
    }
  }

  // ---- the digest of a tree -----------------------------------------------

  const ROOT: Bytes := [SLASH]

  /** Tree's result: nothing when something not left out cannot be read. */
  function TreeDigest(h: Hash, ex: Exclusion, listing: seq<Entry>): Option<Bytes> {
    match Walk(ex, ROOT, listing)
    case None => None
    case Some(children) => Some(h(Preimage(h, children)))
  }

  /** What the walk read is readable. */
  lemma {:induction false} WalkReads(ex: Exclusion, rel: Bytes, es: seq<Entry>)
    requires SpecialsOk(es)
    ensures Walk(ex, rel, es).Some? ==> TreesOk(Walk(ex, rel, es).value)
    decreases Sizes(es), 2, 0
  {
    SortedKeeps(es);
    forall i | 0 <= i < |Sorted(es)| ensures SpecialOk(Sorted(es)[i]) {
      assert Sorted(es)[i] in es;
    }
    WalkAllReads(ex, rel, Sorted(es));
  }

  ghost predicate SpecialOk(e: Entry)
    decreases e
  {
    (e.Special? ==> SpecialKind(e.special)) && (e.Dir? ==> SpecialsOk(e.listing))
  }

  ghost predicate SpecialsOk(es: seq<Entry>)
    decreases es
  {
    forall i :: 0 <= i < |es| ==> SpecialOk(es[i])
  }

  lemma {:induction false} WalkAllReads(ex: Exclusion, rel: Bytes, es: seq<Entry>)
    requires forall i :: 0 <= i < |es| ==> SpecialOk(es[i])
    ensures WalkAll(ex, rel, es).Some? ==> TreesOk(WalkAll(ex, rel, es).value)
    decreases Sizes(es), 1, |es|
  {
    if es != [] {
      WalkAllReads(ex, rel, es[1..]);
      if es[0].Dir? {
        assert SpecialOk(es[0]);
        DirSmaller(es);
        WalkReads(ex, ChildPath(rel, es[0]), es[0].listing);
      }
    }
  }

  /** Two trees on disk with the same digest either read the same, at every depth, or
      exhibit a collision of the hash. */
  lemma SameDigest(h: Hash, ex: Exclusion, a: seq<Entry>, b: seq<Entry>) returns (x: Bytes, y: Bytes)
    requires HashOk(h) && SpecialsOk(a) && SpecialsOk(b)
    requires TreeDigest(h, ex, a).Some? && TreeDigest(h, ex, a) == TreeDigest(h, ex, b)
    ensures Walk(ex, ROOT, a) == Walk(ex, ROOT, b) || Collision(h, x, y)
  {
    x, y := [], [];
    if Walk(ex, ROOT, a) != Walk(ex, ROOT, b) {
      WalkReads(ex, ROOT, a);
      WalkReads(ex, ROOT, b);
      x, y := Binding(h, Walk(ex, ROOT, a).value, Walk(ex, ROOT, b).value);
    }
  }

  /** list's loop: dir's children from its sorted entries. */
  method List(ex: Exclusion, rel: Bytes, listing: seq<Entry>) returns (children: Option<seq<Entry>>)
    ensures children == Walk(ex, rel, listing)
    decreases Sizes(listing)
  {
    var entries := Sorted(listing);
    var found: seq<Entry> := [];
    assert entries[0..] == entries;
    PrependedNone(WalkAll(ex, rel, entries));
    for i := 0 to |entries|
      invariant Walk(ex, rel, listing) == Prepended(found, WalkAll(ex, rel, entries[i..]))
    {
      var e := entries[i];
      assert entries[i..][1..] == entries[i + 1..];
      SizeAt(entries, i);
      assert e.Dir? ==> Sizes(e.listing) < Size(e);
      if !Dropped(ex, rel, e) {
        var child: Entry := e;
        if e.Unreadable? {
          return None;
        }
        if e.Dir? {
          var below := List(ex, ChildPath(rel, e), e.listing);
          if below.None? {
            return None;
          }
          child := Dir(e.name, below.value);
        }
        PrependedMore(found, child, WalkAll(ex, rel, entries[i + 1..]));
        found := found + [child];
      }
    }
    assert entries[|entries|..] == [] && found + [] == found;
    children := Some(found);
  }

  lemma PrependedNone(rest: Option<seq<Entry>>)
    ensures Prepended([], rest) == rest
  {
    if rest.Some? {
      assert [] + rest.value == rest.value;
    }
  }

  function Prepended(found: seq<Entry>, rest: Option<seq<Entry>>): Option<seq<Entry>> {
    match rest
    case None => None
    case Some(more) => Some(found + more)
  }

  lemma PrependedMore(found: seq<Entry>, child: Entry, rest: Option<seq<Entry>>)
    ensures Prepended(found + [child], rest) == match rest case None => None case Some(more) => Some(found + ([child] + more))
  {
    if rest.Some? {
      assert found + [child] + rest.value == found + ([child] + rest.value);
    }
  }

  lemma {:induction false} SizeAt(es: seq<Entry>, i: nat)
    requires i < |es|
    ensures Size(es[i]) <= Sizes(es)
  {
    if i > 0 {
      SizeAt(es[1..], i - 1);
    }
  }
}
