/** The tree digest (checksum/tree.go): a Merkle digest over each directory's
    entries sorted by name. H is any hash to 32 bytes; nothing is assumed of it,
    so what is proved about equal digests is that they exhibit a collision. */
module Merkle {

  type Byte = x: int | 0 <= x < 256

  type Bytes = seq<Byte>

  const DIGEST_LEN := 32

  type Hash = Bytes -> Bytes

  ghost predicate HashOk(h: Hash) {
    forall b: Bytes :: |h(b)| == DIGEST_LEN
  }

  // ---- trees --------------------------------------------------------------

  datatype Kind = KindDir | KindFile | KindExec | KindSymlink | KindFifo | KindSocket | KindDevice | KindChar | KindOther

  function KindByte(k: Kind): Byte {
    match k
    case KindDir => 'd' as int
    case KindFile => 'f' as int
    case KindExec => 'x' as int
    case KindSymlink => 'l' as int
    case KindFifo => 'p' as int
    case KindSocket => 's' as int
    case KindDevice => 'b' as int
    case KindChar => 'c' as int
    case KindOther => '?' as int
  }

  lemma KindByteInjective(a: Kind, b: Kind)
    requires KindByte(a) == KindByte(b)
    ensures a == b
  {
  }

  /** One directory entry, a directory with its own entries in listing order.
      Special entries carry no content; Unreadable ones fail when read. */
  datatype Entry =
    | Dir(name: Bytes, listing: seq<Entry>)
    | File(name: Bytes, exec: bool, content: Bytes)
    | Link(name: Bytes, target: Bytes)
    | Special(name: Bytes, special: Kind)
    | Unreadable(name: Bytes, unread: Kind)

  function KindOf(e: Entry): Kind {
    match e
    case Dir(_, _) => KindDir
    case File(_, exec, _) => if exec then KindExec else KindFile
    case Link(_, _) => KindSymlink
    case Special(_, k) => k
    case Unreadable(_, k) => k
  }

  // ---- the digest ---------------------------------------------------------

  /** "evo.tree.v2\\0" and "evo.link.v1\\0". */
  const TREE_DOMAIN: Bytes := [0x65, 0x76, 0x6f, 0x2e, 0x74, 0x72, 0x65, 0x65, 0x2e, 0x76, 0x32, 0]
  const LINK_DOMAIN: Bytes := [0x65, 0x76, 0x6f, 0x2e, 0x6c, 0x69, 0x6e, 0x6b, 0x2e, 0x76, 0x31, 0]

  function Zeros(n: nat): (r: Bytes)
    ensures |r| == n
  {
    if n == 0 then [] else [0] + Zeros(n - 1)
  }

  /** binary.AppendUvarint: seven bits a byte, low first, the top bit set on all but
      the last. */
  function Uvarint(n: nat): (r: Bytes)
    ensures |r| > 0
  {
    if n < 128 then [n] else [n % 128 + 128] + Uvarint(n / 128)
  }

  function Frame(kind: Kind, name: Bytes, digest: Bytes): Bytes {
    [KindByte(kind)] + Uvarint(|name|) + name + digest
  }

  function DigestOf(h: Hash, e: Entry): Bytes
    decreases e, 1
  {
    match e
    case Dir(_, children) => h(Preimage(h, children))
    case File(_, _, content) => h(content)
    case Link(_, target) => h(LINK_DOMAIN + target)
    case Special(_, _) => Zeros(DIGEST_LEN)
    case Unreadable(_, _) => Zeros(DIGEST_LEN)
  }

  /** What a directory's digest is the hash of. */
  function Preimage(h: Hash, children: seq<Entry>): Bytes
    decreases children, 1
  {
    TREE_DOMAIN + Frames(h, children)
  }

  function Frames(h: Hash, children: seq<Entry>): Bytes
    decreases children, 0
  {
    if children == [] then []
    else Frame(KindOf(children[0]), children[0].name, DigestOf(h, children[0])) + Frames(h, children[1..])
  }

  lemma DigestLen(h: Hash, e: Entry)
    requires HashOk(h)
    ensures |DigestOf(h, e)| == DIGEST_LEN
  {
  }

  // ---- frames read one way ------------------------------------------------

  lemma SevenBits(n: nat, m: nat)
    requires n / 128 == m / 128 && n % 128 == m % 128
    ensures n == m
  {
  }

  /** No length's encoding starts another's. */
  lemma {:induction false} UvarintPrefixFree(n: nat, m: nat, x: Bytes, y: Bytes)
    requires Uvarint(n) + x == Uvarint(m) + y
    ensures n == m && x == y
  {
    var u, v := Uvarint(n) + x, Uvarint(m) + y;
    assert u[0] == v[0];
    if n < 128 {
      assert m < 128;
      assert u[1..] == x && v[1..] == y;
    } else {
      assert m >= 128;
      assert u[1..] == Uvarint(n / 128) + x;
      assert v[1..] == Uvarint(m / 128) + y;
      UvarintPrefixFree(n / 128, m / 128, x, y);
      SevenBits(n, m);
    }
  }

  /** What follows a frame's kind and length. */
  lemma BodyReadsBack(name: Bytes, digest: Bytes, rest: Bytes, digest': Bytes, rest': Bytes, name': Bytes)
    requires |name| == |name'| && |digest| == |digest'| && name + digest + rest == name' + digest' + rest'
    ensures name == name' && digest == digest' && rest == rest'
  {
    var n, m := |name|, |digest|;
    assert (name + digest + rest)[..n] == name && (name' + digest' + rest')[..n] == name';
    assert (name + digest + rest)[n..n + m] == digest && (name' + digest' + rest')[n..n + m] == digest';
    assert (name + digest + rest)[n + m..] == rest && (name' + digest' + rest')[n + m..] == rest';
  }

  lemma FrameIs(a: Kind, name: Bytes, digest: Bytes, rest: Bytes)
    ensures var u := Frame(a, name, digest) + rest;
      |u| > 0 && u[0] == KindByte(a) && u[1..] == Uvarint(|name|) + (name + digest + rest)
  {
    hide KindByte, Uvarint;
  }

  /** A frame followed by anything is read back in one way. */
  lemma FrameReadsBack(a: Kind, name: Bytes, digest: Bytes, rest: Bytes, a': Kind, name': Bytes, digest': Bytes,
      rest': Bytes)
    requires |digest| == DIGEST_LEN && |digest'| == DIGEST_LEN
    requires Frame(a, name, digest) + rest == Frame(a', name', digest') + rest'
    ensures a == a' && name == name' && digest == digest' && rest == rest'
  {
    hide Frame, Uvarint, KindByte;
    FrameIs(a, name, digest, rest);
    FrameIs(a', name', digest', rest');
    KindByteInjective(a, a');
    UvarintPrefixFree(|name|, |name'|, name + digest + rest, name' + digest' + rest');
    BodyReadsBack(name, digest, rest, digest', rest', name');
  }

  /** Equal framings list the same kinds, names and digests. */
  lemma {:induction false} FramesReadBack(h: Hash, a: seq<Entry>, b: seq<Entry>)
    requires HashOk(h) && Frames(h, a) == Frames(h, b)
    ensures |a| == |b|
    ensures forall i :: 0 <= i < |a| ==>
      KindOf(a[i]) == KindOf(b[i]) && a[i].name == b[i].name && DigestOf(h, a[i]) == DigestOf(h, b[i])
    decreases |a|
  {
    if a != [] && b != [] {
      DigestLen(h, a[0]);
      DigestLen(h, b[0]);
      FrameReadsBack(KindOf(a[0]), a[0].name, DigestOf(h, a[0]), Frames(h, a[1..]),
                     KindOf(b[0]), b[0].name, DigestOf(h, b[0]), Frames(h, b[1..]));
      FramesReadBack(h, a[1..], b[1..]);
      assert forall i :: 0 < i < |a| ==> a[i] == a[1..][i - 1];
      assert forall i :: 0 < i < |b| ==> b[i] == b[1..][i - 1];
    }
  }

  // ---- binding ------------------------------------------------------------

  ghost predicate Collision(h: Hash, x: Bytes, y: Bytes) { x != y && h(x) == h(y) }

  ghost predicate SpecialKind(k: Kind) {
    k in {KindFifo, KindSocket, KindDevice, KindChar, KindOther}
  }

  /** A tree as a digest reads it: everything was read. */
  ghost predicate TreeOk(e: Entry)
    decreases e
  {
    match e
    case Dir(_, children) => forall i :: 0 <= i < |children| ==> TreeOk(children[i])
    case Special(_, k) => SpecialKind(k)
    case Unreadable(_, _) => false
    case _ => true
  }

  ghost predicate TreesOk(es: seq<Entry>) { forall i :: 0 <= i < |es| ==> TreeOk(es[i]) }

  lemma FirstDifference(a: seq<Entry>, b: seq<Entry>) returns (i: nat)
    requires |a| == |b| && a != b
    ensures i < |a| && a[i] != b[i]
  {
    i :| i < |a| && a[i] != b[i];
  }

  /** Two different trees with the same digest exhibit two byte strings with the same
      hash: the digest binds kinds, names, contents and link targets at every depth. */
  lemma {:induction false} Binding(h: Hash, a: seq<Entry>, b: seq<Entry>) returns (x: Bytes, y: Bytes)
    requires HashOk(h) && TreesOk(a) && TreesOk(b) && a != b
    requires h(Preimage(h, a)) == h(Preimage(h, b))
    ensures Collision(h, x, y)
    decreases a
  {
    if Preimage(h, a) != Preimage(h, b) {
      return Preimage(h, a), Preimage(h, b);
    }
    assert Frames(h, a) == Preimage(h, a)[|TREE_DOMAIN|..];
    assert Frames(h, b) == Preimage(h, b)[|TREE_DOMAIN|..];
    FramesReadBack(h, a, b);
    var i := FirstDifference(a, b);
    x, y := EntryBinding(h, a[i], b[i]);
  }

  lemma {:induction false} EntryBinding(h: Hash, a: Entry, b: Entry) returns (x: Bytes, y: Bytes)
    requires HashOk(h) && TreeOk(a) && TreeOk(b) && a != b
    requires KindOf(a) == KindOf(b) && a.name == b.name && DigestOf(h, a) == DigestOf(h, b)
    ensures Collision(h, x, y)
    decreases a
  {
    match a
    case Dir(_, children) =>
      x, y := Binding(h, children, b.listing);
    case File(_, _, content) =>
      x, y := content, b.content;
    case Link(_, target) =>
      x, y := LINK_DOMAIN + target, LINK_DOMAIN + b.target;
      assert x[|LINK_DOMAIN|..] == target && y[|LINK_DOMAIN|..] == b.target;
    case Special(_, _) =>
      x, y := [], [];
  }

  /** The bytes whose hash is a file's, link's or directory's digest. */
  function Spelled(h: Hash, e: Entry): Bytes
    requires !e.Special? && !e.Unreadable?
  {
    match e
    case Dir(_, children) => Preimage(h, children)
    case Link(_, target) => LINK_DOMAIN + target
    case File(_, _, content) => content
  }

  /** The bytes open with the tag of a tree or of a link. */
  predicate Tagged(b: Bytes) {
    (|TREE_DOMAIN| <= |b| && b[..|TREE_DOMAIN|] == TREE_DOMAIN) || (|LINK_DOMAIN| <= |b| && b[..|LINK_DOMAIN|] == LINK_DOMAIN)
  }

  /** A file whose bytes are what a tree or a link is the hash of has its digest, for
      every tree and link. Only the kind in a parent's frame tells the two apart. */
  lemma FileCanSpellTree(h: Hash, e: Entry, name: Bytes, exec: bool)
    requires e.Dir? || e.Link?
    ensures var f := File(name, exec, Spelled(h, e));
      && DigestOf(h, f) == DigestOf(h, e) && Tagged(f.content)
      && (e.name == name ==> Frame(KindOf(f), name, DigestOf(h, f)) != Frame(KindOf(e), name, DigestOf(h, e)))
  {
    var f := File(name, exec, Spelled(h, e));
    assert Spelled(h, e)[..|TREE_DOMAIN|] == TREE_DOMAIN || Spelled(h, e)[..|LINK_DOMAIN|] == LINK_DOMAIN;
    assert KindByte(KindOf(f)) != KindByte(KindOf(e));
    assert Frame(KindOf(f), name, DigestOf(h, f))[0] == KindByte(KindOf(f));
    assert Frame(KindOf(e), name, DigestOf(h, e))[0] == KindByte(KindOf(e));
  }

  /** Nothing else crosses kinds: when a file, a link or a directory has the digest of
      one of another of those kinds, one of them is a file that opens with a tag and
      spells the other, or two byte strings collide. */
  lemma OnlyFilesSpell(h: Hash, a: Entry, b: Entry) returns (x: Bytes, y: Bytes)
    requires !a.Special? && !a.Unreadable? && !b.Special? && !b.Unreadable?
    requires DigestOf(h, a) == DigestOf(h, b) && (a.Dir? != b.Dir? || a.Link? != b.Link?)
    ensures Collision(h, x, y) || (a.File? && Tagged(a.content) && a.content == Spelled(h, b))
         || (b.File? && Tagged(b.content) && b.content == Spelled(h, a))
  {
    x, y := Spelled(h, a), Spelled(h, b);
    if x == y {
      if a.Dir? || b.Dir? {
        assert x[..|TREE_DOMAIN|] == TREE_DOMAIN;
      }
      if a.Link? || b.Link? {
        assert x[..|LINK_DOMAIN|] == LINK_DOMAIN;
      }
    }
  }

  // ---- the loop that combines ---------------------------------------------

  /** A running hash takes each child's frame in turn. */
  method Combine(h: Hash, children: seq<Entry>) returns (digest: Bytes)
    ensures digest == h(Preimage(h, children))
    decreases children
  {
    var hashed := TREE_DOMAIN;
    for i := 0 to |children|
      invariant hashed + Frames(h, children[i..]) == Preimage(h, children)
    {
      var child := children[i];
      var childDigest;
      if child.Dir? {
        childDigest := Combine(h, child.listing);
      } else {
        childDigest := DigestOf(h, child);
      }
      var frame := [KindByte(KindOf(child))];
      frame := frame + Uvarint(|child.name|);
      frame := frame + child.name;
      frame := frame + childDigest;
      assert frame == Frame(KindOf(child), child.name, DigestOf(h, child));
      assert children[i..][1..] == children[i + 1..];
      assert hashed + (frame + Frames(h, children[i + 1..])) == hashed + frame + Frames(h, children[i + 1..]);
      hashed := hashed + frame;
    }
    assert hashed + [] == hashed;
    digest := h(hashed);
  }
}
