/** The stream of a file tree: nested frames, each file's header followed by its contents and each
    folder's by its entries. Reading a written stream rebuilds the tree on disk and consumes exactly
    what was written. */
module FileStreams {
  import opened Wrappers
  import opened EngineData
  import opened Postcard
  import opened Disks

  /** A file, a folder with its entries in listing order, or something else, such as a socket. */
  datatype Tree = File(data: Bytes) | Folder(entries: seq<Entry>) | Special

  datatype Entry = Entry(name: Bytes, tree: Tree)

  /** The length of a file or the number of entries of a folder. */
  datatype Header = Header(folder: bool, name: Bytes, size: nat)

  function HeaderBytes(h: Header): Bytes {
    [if h.folder then 1 else 0] + Blob(h.name) + Varint(h.size)
  }

  /** A value preceded by its length in eight bytes. */
  function Frame(h: Header): Bytes {
    LittleEndian(|HeaderBytes(h)|, 8) + HeaderBytes(h)
  }

  /** The stream of an entry; a special file writes nothing, although its folder counts it. */
  function Encode(e: Entry): Bytes
    decreases e, 1
  {
    match e.tree
    case File(data) => Frame(Header(false, e.name, |data|)) + data
    case Folder(entries) => Frame(Header(true, e.name, |entries|)) + EncodeAll(entries)
    case Special => []
  }

  function EncodeAll(es: seq<Entry>): Bytes
    decreases es, 0
  {
    if es == [] then [] else Encode(es[0]) + EncodeAll(es[1..])
  }

  function FromLittleEndian(b: Bytes): nat {
    if b == [] then 0 else b[0] as nat + 256 * FromLittleEndian(b[1..])
  }

  /** Reads a number of at most `left` groups whose last possible group is at most `last`. */
  function ReadVarint(b: Bytes, left: nat, last: nat): (r: Option<(nat, Bytes)>)
    ensures r.Some? ==> |r.value.1| < |b|
    decreases left
  {
    if b == [] || left == 0 then None
    else if b[0] < 128 then (if left == 1 && b[0] as nat > last then None else Some((b[0] as nat, b[1..])))
    else
      match ReadVarint(b[1..], left - 1, last)
      case None => None
      case Some(p) => Some((b[0] as nat - 128 + 128 * p.0, p.1))
  }

  function ReadU64(b: Bytes): (r: Option<(nat, Bytes)>)
    ensures r.Some? ==> |r.value.1| < |b|
  {
    ReadVarint(b, 10, 1)
  }

  function ReadBlob(b: Bytes): Option<(Bytes, Bytes)> {
    match ReadU64(b)
    case None => None
    case Some(p) => if p.0 > |p.1| then None else Some((p.1[..p.0], p.1[p.0..]))
  }

  /** Reads a header; bytes after it are ignored. */
  function ReadHeader(b: Bytes): Option<Header> {
    match ReadVarint(b, 5, 15)
    case None => None
    case Some(tag) =>
      match ReadBlob(tag.1)
      case None => None
      case Some(name) =>
        match ReadU64(name.1)
        case None => None
        case Some(n) =>
          if tag.0 <= 1 then Some(Header(tag.0 == 1, name.0, n.0)) else None
  }

  function ReadFrame(b: Bytes): (r: Option<(Header, Bytes)>)
    ensures r.Some? ==> |r.value.1| < |b|
  {
    if |b| < 8 then None
    else
      var length := FromLittleEndian(b[..8]);
      if length > |b| - 8 then None
      else
        match ReadHeader(b[8..8 + length])
        case None => None
        case Some(h) => Some((h, b[8 + length..]))
  }

  /** Reads one entry; a file that the stream cuts short is taken as it is. */
  function Decode(b: Bytes): (r: Option<(Entry, Bytes)>)
    ensures r.Some? ==> |r.value.1| < |b|
    decreases |b|, 0
  {
    match ReadFrame(b)
    case None => None
    case Some(p) =>
      if p.0.folder then
        match DecodeAll(p.0.size, p.1)
        case None => None
        case Some(q) => Some((Entry(p.0.name, Folder(q.0)), q.1))
      else
        var n := if p.0.size <= |p.1| then p.0.size else |p.1|;
        Some((Entry(p.0.name, File(p.1[..n])), p.1[n..]))
  }

  function DecodeAll(count: nat, b: Bytes): (r: Option<(seq<Entry>, Bytes)>)
    ensures r.Some? ==> |r.value.1| <= |b|
    decreases |b|, 1, count
  {
    if count == 0 then Some(([], b))
    else
      match Decode(b)
      case None => None
      case Some(p) =>
        match DecodeAll(count - 1, p.1)
        case None => None
        case Some(q) => Some(([p.0] + q.0, q.1))
  }

  /** Sizes fit 64 bits. */
  predicate Fits(h: Header) {
    |h.name| < U64_LIMIT && h.size < U64_LIMIT && |HeaderBytes(h)| < U64_LIMIT
  }

  /** An entry whose sizes fit 64 bits and that holds nothing but files and folders. */
  predicate Plain(e: Entry)
    decreases e, 1
  {
    match e.tree
    case File(data) => Fits(Header(false, e.name, |data|))
    case Folder(entries) => Fits(Header(true, e.name, |entries|)) && AllPlain(entries)
    case Special => false
  }

  predicate AllPlain(es: seq<Entry>)
    decreases es, 0
  {
    es == [] || (Plain(es[0]) && AllPlain(es[1..]))
  }

  lemma {:induction false} LittleEndianInverse(n: nat, width: nat)
    requires n < Power(width)
    ensures FromLittleEndian(LittleEndian(n, width)) == n
    decreases width
  {
    if width > 0 {
      LittleEndianInverse(n / 256, width - 1);
      assert LittleEndian(n, width)[1..] == LittleEndian(n / 256, width - 1);
    }
  }

  /** One more than the largest number of `left` groups. */
  function VarintLimit(left: nat, last: nat): nat {
    if left == 0 then 0 else if left == 1 then last + 1 else 128 * VarintLimit(left - 1, last)
  }

  lemma {:induction false} VarintInverse(n: nat, r: Bytes, left: nat, last: nat)
    requires n < VarintLimit(left, last) && last < 128
    ensures ReadVarint(Varint(n) + r, left, last) == Some((n, r))
    decreases left
  {
    var b := Varint(n) + r;
    if n < 128 {
      assert b[0] == n as byte && b[1..] == r;
    } else {
      VarintInverse(n / 128, r, left - 1, last);
      assert b[0] == (n % 128 + 128) as byte && b[1..] == Varint(n / 128) + r;
    }
  }

  lemma U64Inverse(n: u64, r: Bytes)
    ensures ReadU64(Varint(n) + r) == Some((n, r))
  {
    assert VarintLimit(5, 1) == 128 * (128 * (128 * (128 * 2)));
    assert VarintLimit(10, 1) == 128 * (128 * (128 * (128 * (128 * VarintLimit(5, 1)))));
    VarintInverse(n, r, 10, 1);
  }

  lemma BlobInverse(b: Bytes, r: Bytes)
    requires |b| < U64_LIMIT
    ensures ReadBlob(Blob(b) + r) == Some((b, r))
  {
    hide Varint;
    assert Blob(b) + r == Varint(|b|) + (b + r);
    U64Inverse(|b|, b + r);
  }

  lemma HeaderInverse(h: Header)
    requires Fits(h)
    ensures ReadHeader(HeaderBytes(h)) == Some(h)
  {
    hide Varint, Blob, ReadVarint, ReadBlob, ReadU64;
    var tag: nat := if h.folder then 1 else 0;
    var named := Blob(h.name) + Varint(h.size);
    TagInverse(tag, named);
    assert HeaderBytes(h) == Varint(tag) + named by { OneByte(tag); }
    BlobInverse(h.name, Varint(h.size));
    U64Inverse(h.size, []);
    assert Varint(h.size) + [] == Varint(h.size);
  }

  lemma OneByte(n: nat)
    requires n < 128
    ensures Varint(n) == [n as byte]
  {
  }

  lemma TagInverse(n: nat, r: Bytes)
    requires n < 2
    ensures ReadVarint(Varint(n) + r, 5, 15) == Some((n, r))
  {
    assert VarintLimit(5, 15) == 128 * (128 * (128 * (128 * 16)));
    VarintInverse(n, r, 5, 15);
  }

  lemma FrameInverse(h: Header, r: Bytes)
    requires Fits(h)
    ensures ReadFrame(Frame(h) + r) == Some((h, r))
  {
    hide HeaderBytes, ReadHeader, LittleEndian, FromLittleEndian, Power;
    var body := HeaderBytes(h);
    var b := Frame(h) + r;
    assert b[..8] == LittleEndian(|body|, 8);
    EightBytes();
    LittleEndianInverse(|body|, 8);
    assert b[8..8 + |body|] == body && b[8 + |body|..] == r;
    HeaderInverse(h);
  }

  /** Decoding what was encoded gives the entry back and leaves exactly what came after it. */
  lemma {:induction false} DecodeEncode(e: Entry, r: Bytes)
    requires Plain(e)
    ensures Decode(Encode(e) + r) == Some((e, r))
    decreases e, 1
  {
    hide Frame, ReadFrame;
    match e.tree
    case File(data) =>
      assert Encode(e) + r == Frame(Header(false, e.name, |data|)) + (data + r);
      FrameInverse(Header(false, e.name, |data|), data + r);
      assert (data + r)[..|data|] == data && (data + r)[|data|..] == r;
    case Folder(entries) =>
      assert Encode(e) + r == Frame(Header(true, e.name, |entries|)) + (EncodeAll(entries) + r);
      FrameInverse(Header(true, e.name, |entries|), EncodeAll(entries) + r);
      DecodeEncodeAll(entries, r);
  }

  lemma {:induction false} DecodeEncodeAll(es: seq<Entry>, r: Bytes)
    requires AllPlain(es)
    ensures DecodeAll(|es|, EncodeAll(es) + r) == Some((es, r))
    decreases es, 0
  {
    hide Encode, Decode, Plain;
    if es == [] {
      assert EncodeAll(es) + r == r;
    } else {
      assert EncodeAll(es) + r == Encode(es[0]) + (EncodeAll(es[1..]) + r);
      DecodeEncode(es[0], EncodeAll(es[1..]) + r);
      DecodeEncodeAll(es[1..], r);
      assert es == [es[0]] + es[1..];
    }
  }

  /** The format is self-delimiting: entries with one stream in common are the same entry. */
  lemma EncodePrefix(a: Entry, r: Bytes, b: Entry, s: Bytes)
    requires Plain(a) && Plain(b) && Encode(a) + r == Encode(b) + s
    ensures a == b && r == s
  {
    DecodeEncode(a, r);
    DecodeEncode(b, s);
  }

  /** The sizes in an entry fit 64 bits, whatever it holds. */
  predicate Sized(e: Entry)
    decreases e, 1
  {
    match e.tree
    case File(data) => Fits(Header(false, e.name, |data|))
    case Folder(entries) => Fits(Header(true, e.name, |entries|)) && AllSized(entries)
    case Special => true
  }

  predicate AllSized(es: seq<Entry>)
    decreases es, 0
  {
    es == [] || (Sized(es[0]) && AllSized(es[1..]))
  }

  /** How many special files an entry holds: each is announced by its folder but never written. */
  function Specials(e: Entry): nat
    decreases e, 1
  {
    match e.tree
    case File(_) => 0
    case Folder(entries) => SpecialsAll(entries)
    case Special => 1
  }

  function SpecialsAll(es: seq<Entry>): nat
    decreases es, 0
  {
    if es == [] then 0 else Specials(es[0]) + SpecialsAll(es[1..])
  }

  lemma {:induction false} PlainHasNoSpecials(e: Entry)
    ensures Plain(e) <==> Sized(e) && Specials(e) == 0
    decreases e, 1
  {
    if e.tree.Folder? { AllPlainHaveNoSpecials(e.tree.entries); }
  }

  lemma {:induction false} AllPlainHaveNoSpecials(es: seq<Entry>)
    ensures AllPlain(es) <==> AllSized(es) && SpecialsAll(es) == 0
    decreases es, 0
  {
    if es != [] {
      PlainHasNoSpecials(es[0]);
      AllPlainHaveNoSpecials(es[1..]);
    }
  }

  /** What a stream leaves unread when `owed` entries are still expected; a folder's entries are added
      to what is owed. */
  function Settle(owed: nat, b: Bytes): Option<Bytes>
    decreases |b|, owed
  {
    if owed == 0 then Some(b)
    else
      match ReadFrame(b)
      case None => None
      case Some(p) =>
        if p.0.folder then Settle(owed - 1 + p.0.size, p.1)
        else Settle(owed - 1, p.1[if p.0.size <= |p.1| then p.0.size else |p.1|..])
  }

  lemma {:induction false} SettleOne(owed: nat, b: Bytes)
    ensures Settle(owed + 1, b) == if Decode(b).Some? then Settle(owed, Decode(b).value.1) else None
    decreases |b|, 0
  {
    hide ReadFrame;
    var p := ReadFrame(b);
    if p.Some? && p.value.0.folder { SettleMany(owed, p.value.0.size, p.value.1); }
  }

  lemma {:induction false} SettleMany(owed: nat, count: nat, b: Bytes)
    ensures Settle(owed + count, b)
         == if DecodeAll(count, b).Some? then Settle(owed, DecodeAll(count, b).value.1) else None
    decreases |b|, 1, count
  {
    hide Decode, Settle;
    if count > 0 {
      SettleOne(owed + count - 1, b);
      if Decode(b).Some? { SettleMany(owed, count - 1, Decode(b).value.1); }
    }
  }

  /** Writing an entry pays for itself, except for the special files in it. */
  lemma {:induction false} SettleEncode(owed: nat, e: Entry, r: Bytes)
    requires Sized(e)
    ensures Settle(owed + 1, Encode(e) + r) == Settle(owed + Specials(e), r)
    decreases e, 1
  {
    hide Frame, ReadFrame;
    match e.tree
    case File(data) =>
      assert Encode(e) + r == Frame(Header(false, e.name, |data|)) + (data + r);
      FrameInverse(Header(false, e.name, |data|), data + r);
      assert (data + r)[|data|..] == r;
    case Folder(entries) =>
      assert Encode(e) + r == Frame(Header(true, e.name, |entries|)) + (EncodeAll(entries) + r);
      FrameInverse(Header(true, e.name, |entries|), EncodeAll(entries) + r);
      SettleEncodeAll(owed, entries, r);
    case Special => assert Encode(e) + r == r;
  }

  lemma {:induction false} SettleEncodeAll(owed: nat, es: seq<Entry>, r: Bytes)
    requires AllSized(es)
    ensures Settle(owed + |es|, EncodeAll(es) + r) == Settle(owed + SpecialsAll(es), r)
    decreases es, 0
  {
    hide Encode, Settle, Sized;
    if es == [] {
      assert EncodeAll(es) + r == r;
    } else {
      assert EncodeAll(es) + r == Encode(es[0]) + (EncodeAll(es[1..]) + r);
      SettleEncode(owed + |es| - 1, es[0], EncodeAll(es[1..]) + r);
      SettleEncodeAll(owed + Specials(es[0]), es[1..], r);
    }
  }

  /** Reading an entry's stream takes as many further entries from what follows as the entry holds
      special files, and fails exactly if there are not so many. */
  lemma SpecialsSwallow(e: Entry, r: Bytes)
    requires Sized(e)
    ensures Decode(Encode(e) + r).Some? <==> DecodeAll(Specials(e), r).Some?
    ensures Decode(Encode(e) + r).Some? ==> Decode(Encode(e) + r).value.1 == DecodeAll(Specials(e), r).value.1
  {
    hide Decode, DecodeAll, Encode, Specials, Settle, Sized;
    var b := Encode(e) + r;
    SettleOne(0, b);
    SettleEncode(0, e, r);
    SettleMany(0, Specials(e), r);
    if Decode(b).Some? { NothingOwed(Decode(b).value.1); }
    if DecodeAll(Specials(e), r).Some? { NothingOwed(DecodeAll(Specials(e), r).value.1); }
  }

  lemma NothingOwed(b: Bytes)
    ensures Settle(0, b) == Some(b)
  {
  }

  lemma DecodingConsumes(count: nat, b: Bytes)
    requires count > 0 && DecodeAll(count, b).Some?
    ensures |DecodeAll(count, b).value.1| < |b|
  {
    hide Decode;
    assert Decode(b).Some?;
  }

  /** The round trip holds for exactly the entries without special files, whatever follows. */
  lemma RoundTripIffPlain(e: Entry, r: Bytes)
    requires Sized(e)
    ensures Decode(Encode(e) + r) == Some((e, r)) <==> Plain(e)
  {
    hide Decode, DecodeAll, Encode, Specials, Plain, Sized;
    PlainHasNoSpecials(e);
    if Plain(e) {
      DecodeEncode(e, r);
    } else {
      SpecialsSwallow(e, r);
      if Decode(Encode(e) + r).Some? { DecodingConsumes(Specials(e), r); }
    }
  }

  /** A stream with nothing after it cannot be read exactly if a special file was left out of it. */
  lemma UnreadableIffSpecial(e: Entry)
    requires Sized(e)
    ensures Decode(Encode(e)) == None <==> !Plain(e)
  {
    hide Decode, Encode, Specials, Plain, Sized;
    PlainHasNoSpecials(e);
    SpecialsSwallow(e, []);
    assert Encode(e) + [] == Encode(e);
    if Specials(e) > 0 { NothingToDecode(Specials(e)); }
  }

  lemma NothingToDecode(count: nat)
    requires count > 0
    ensures DecodeAll(count, []) == None
  {
    assert ReadFrame([]) == None;
  }

  function Join(p: Path, name: Bytes): Path {
    if name == [] then p else p + [name]
  }

  /** Puts an entry into the folder `target`. */
  function Unpack(d: Disk, target: Path, e: Entry): Option<Disk>
    decreases e, 1
  {
    var p := Join(target, e.name);
    match e.tree
    case File(data) =>
      (match if p == [] then Some(d) else CreateDirs(d, Parent(p))
       case None => None
       case Some(made) => if p in made && made[p].DirItem? then None else Some(made[p := FileItem(data)]))
    case Folder(entries) =>
      (match CreateDirs(d, p)
       case None => None
       case Some(made) => UnpackAll(made, p, entries))
    case Special => None
  }

  function UnpackAll(d: Disk, target: Path, es: seq<Entry>): Option<Disk>
    decreases es, 0
  {
    if es == [] then Some(d)
    else
      match Unpack(d, target, es[0])
      case None => None
      case Some(next) => UnpackAll(next, target, es[1..])
  }

  /** What a tree has at a path below its root. */
  function At(t: Tree, p: Path): Option<Item>
    decreases t, 1
  {
    match t
    case File(data) => if p == [] then Some(FileItem(data)) else None
    case Folder(entries) => if p == [] then Some(DirItem) else AtAll(entries, p)
    case Special => None
  }

  function AtAll(es: seq<Entry>, p: Path): Option<Item>
    requires p != []
    decreases es, 0
  {
    if es == [] then None
    else if es[0].name == p[0] then At(es[0].tree, p[1..])
    else AtAll(es[1..], p)
  }

  /** Siblings have distinct names, and only the root has none. */
  predicate WellNamed(t: Tree)
    decreases t, 1
  {
    match t
    case File(_) => true
    case Folder(entries) => AllWellNamed(entries)
    case Special => false
  }

  predicate AllWellNamed(es: seq<Entry>)
    decreases es, 0
  {
    es == [] ||
    (&& es[0].name != [] && WellNamed(es[0].tree) && AllWellNamed(es[1..])
     && forall i :: 1 <= i < |es| ==> es[i].name != es[0].name)
  }

  ghost predicate Fresh(d: Disk, p: Path) {
    forall q :: p <= q ==> q !in d
  }

  /** Below `p` the disk holds exactly the tree, and elsewhere it is unchanged. */
  ghost predicate Placed(before: Disk, after: Disk, p: Path, t: Tree) {
    forall q :: Look(after, q) == if p <= q then At(t, q[|p|..]) else Look(before, q)
  }

  ghost predicate PlacedAll(before: Disk, after: Disk, p: Path, es: seq<Entry>) {
    forall q :: Look(after, q) == if p < q && AtAll(es, q[|p|..]).Some? then AtAll(es, q[|p|..]) else Look(before, q)
  }

  lemma {:induction false} MissingName(es: seq<Entry>, p: Path)
    requires p != [] && forall i :: 0 <= i < |es| ==> es[i].name != p[0]
    ensures AtAll(es, p) == None
    decreases |es|
  {
    if es != [] { MissingName(es[1..], p); }
  }

  lemma {:induction false} UnpackPlaces(d: Disk, target: Path, e: Entry)
    requires Join(target, e.name) != [] && IsDir(d, Parent(Join(target, e.name)))
    requires Fresh(d, Join(target, e.name)) && WellNamed(e.tree)
    ensures Unpack(d, target, e).Some? && Placed(d, Unpack(d, target, e).value, Join(target, e.name), e.tree)
    decreases e.tree, 1
  {
    hide Join;
    var p := Join(target, e.name);
    assert p <= p;
    match e.tree
    case File(data) =>
      var after := d[p := FileItem(data)];
      forall q ensures Look(after, q) == if p <= q then At(e.tree, q[|p|..]) else Look(d, q) {
        if p <= q && q[|p|..] == [] { assert q == p; }
      }
    case Folder(entries) =>
      var made := d[p := DirItem];
      assert CreateDirs(d, p) == Some(made);
      forall i | 0 <= i < |entries| ensures Fresh(made, p + [entries[i].name]) {
        FreshBelow(d, p, entries[i].name);
      }
      UnpackAllPlaces(made, p, entries);
      FolderPlaced(d, p, entries, UnpackAll(made, p, entries).value);
  }

  lemma FreshBelow(d: Disk, p: Path, name: Bytes)
    requires Fresh(d, p)
    ensures Fresh(d[p := DirItem], p + [name])
  {
  }

  lemma FolderPlaced(d: Disk, p: Path, es: seq<Entry>, after: Disk)
    requires Fresh(d, p) && PlacedAll(d[p := DirItem], after, p, es)
    ensures Placed(d, after, p, Folder(es))
  {
    hide AtAll;
    var made := d[p := DirItem];
    forall q ensures Look(after, q) == if p <= q then At(Folder(es), q[|p|..]) else Look(d, q) {
      assert Look(after, q) == if p < q && AtAll(es, q[|p|..]).Some? then AtAll(es, q[|p|..]) else Look(made, q);
      if p <= q && q[|p|..] == [] { assert q == p; }
    }
  }

  lemma {:induction false} UnpackAllPlaces(d: Disk, p: Path, es: seq<Entry>)
    requires IsDir(d, p) && AllWellNamed(es) && forall i :: 0 <= i < |es| ==> Fresh(d, p + [es[i].name])
    ensures UnpackAll(d, p, es).Some? && PlacedAll(d, UnpackAll(d, p, es).value, p, es)
    decreases es, 0
  {
    hide Fresh, WellNamed, Placed, PlacedAll, At, Unpack;
    if es == [] {
      NothingPlaced(d, p);
    } else {
      var t := p + [es[0].name];
      assert Join(p, es[0].name) == t && Parent(t) == p;
      UnpackPlaces(d, p, es[0]);
      var next := Unpack(d, p, es[0]).value;
      RestStaysFresh(d, next, p, es);
      UnpackAllPlaces(next, p, es[1..]);
      OnePlaced(d, next, UnpackAll(next, p, es[1..]).value, p, es);
    }
  }

  lemma NothingPlaced(d: Disk, p: Path)
    ensures PlacedAll(d, d, p, [])
  {
  }

  lemma RestStaysFresh(d: Disk, next: Disk, p: Path, es: seq<Entry>)
    requires es != [] && AllWellNamed(es) && IsDir(d, p) && (forall i :: 0 <= i < |es| ==> Fresh(d, p + [es[i].name]))
    requires Placed(d, next, p + [es[0].name], es[0].tree)
    ensures IsDir(next, p) && forall i :: 0 <= i < |es[1..]| ==> Fresh(next, p + [es[1..][i].name])
  {
    hide At, WellNamed;
    var t := p + [es[0].name];
    assert Look(next, p) == Look(d, p);
    forall i | 0 <= i < |es[1..]| ensures Fresh(next, p + [es[1..][i].name]) {
      var u := p + [es[i + 1].name];
      assert es[1..][i] == es[i + 1] && es[i + 1].name != es[0].name;
      forall q | u <= q ensures q !in next {
        assert q[|p|] == es[i + 1].name && t[|p|] == es[0].name;
        assert Look(next, q) == Look(d, q);
        assert Fresh(d, u);
      }
    }
  }

  lemma OnePlaced(d: Disk, next: Disk, after: Disk, p: Path, es: seq<Entry>)
    requires es != [] && AllWellNamed(es) && Fresh(d, p + [es[0].name])
    requires Placed(d, next, p + [es[0].name], es[0].tree) && PlacedAll(next, after, p, es[1..])
    ensures PlacedAll(d, after, p, es)
  {
    hide At, WellNamed;
    var t := p + [es[0].name];
    forall q ensures Look(after, q) == if p < q && AtAll(es, q[|p|..]).Some? then AtAll(es, q[|p|..]) else Look(d, q) {
      assert Look(next, q) == if t <= q then At(es[0].tree, q[|t|..]) else Look(d, q);
      assert Look(after, q) == if p < q && AtAll(es[1..], q[|p|..]).Some? then AtAll(es[1..], q[|p|..])
                               else Look(next, q);
      if p < q {
        if q[|p|] == es[0].name {
          MissingName(es[1..], q[|p|..]);
          assert q[|p|..][1..] == q[|t|..];
        } else {
          assert !(t <= q);
        }
      }
    }
  }

  /** Reading an entry from a stream into a folder: what is left of the stream, and the disk. */
  function Import(b: Bytes, d: Disk, target: Path): Option<(Bytes, Disk)> {
    match Decode(b)
    case None => None
    case Some(p) =>
      match Unpack(d, target, p.0)
      case None => None
      case Some(after) => Some((p.1, after))
  }

  function ImportAll(count: nat, b: Bytes, d: Disk, target: Path): Option<(Bytes, Disk)> {
    match DecodeAll(count, b)
    case None => None
    case Some(p) =>
      match UnpackAll(d, target, p.0)
      case None => None
      case Some(after) => Some((p.1, after))
  }

  lemma ImportOne(count: nat, b: Bytes, d: Disk, target: Path)
    requires count > 0
    ensures ImportAll(count, b, d, target) == match Import(b, d, target)
                                              case None => None
                                              case Some(p) => ImportAll(count - 1, p.0, p.1, target)
  {
    hide Decode, Unpack;
  }

  /** Importing an exported tree under a fresh path rebuilds it there, changes nothing else and leaves
      the rest of the stream unread. */
  lemma ImportRestores(t: Tree, r: Bytes, d: Disk, target: Path)
    requires Plain(Entry([], t)) && WellNamed(t)
    requires target != [] && IsDir(d, Parent(target)) && Fresh(d, target)
    ensures Import(Encode(Entry([], t)) + r, d, target).Some?
    ensures Import(Encode(Entry([], t)) + r, d, target).value.0 == r
    ensures Placed(d, Import(Encode(Entry([], t)) + r, d, target).value.1, target, t)
  {
    hide Decode, Encode, Plain, WellNamed, Unpack, Placed;
    DecodeEncode(Entry([], t), r);
    UnpackPlaces(d, target, Entry([], t));
  }

  /** Drops the entries below a folder that the filter refuses; the filter sees each entry's path and
      whether it is a folder. */
  function Kept(keep: (Path, bool) -> bool, p: Path, t: Tree): Tree
    decreases t, 1
  {
    match t
    case File(_) => t
    case Folder(entries) => Folder(KeptAll(keep, p, entries))
    case Special => t
  }

  function KeptAll(keep: (Path, bool) -> bool, p: Path, es: seq<Entry>): seq<Entry>
    decreases es, 0
  {
    if es == [] then []
    else
      (if keep(p + [es[0].name],
               es[0].tree.Folder?) then [Entry(es[0].name, Kept(keep, p + [es[0].name], es[0].tree))] else [])
      + KeptAll(keep, p, es[1..])
  }

  /** The entries of a folder that the filter lets through, not yet filtered themselves. */
  function Listed(keep: (Path, bool) -> bool, p: Path, es: seq<Entry>): (r: seq<Entry>)
    ensures forall e :: e in r ==> e in es
  {
    if es == [] then []
    else (if keep(p + [es[0].name], es[0].tree.Folder?) then [es[0]] else []) + Listed(keep, p, es[1..])
  }

  lemma {:induction false} KeptIsListed(keep: (Path, bool) -> bool, p: Path, es: seq<Entry>)
    ensures |KeptAll(keep, p, es)| == |Listed(keep, p, es)|
    ensures forall i :: 0 <= i < |Listed(keep, p, es)| ==>
              KeptAll(keep, p, es)[i] == KeptEntry(keep, p, Listed(keep, p, es)[i])
    decreases |es|
  {
    hide Kept;
    if es != [] { KeptIsListed(keep, p, es[1..]); }
  }

  function KeptEntry(keep: (Path, bool) -> bool, p: Path, e: Entry): Entry {
    Entry(e.name, Kept(keep, p + [e.name], e.tree))
  }

  lemma ImportFolder(b: Bytes, d: Disk, target: Path, h: Header, rest: Bytes)
    requires ReadFrame(b) == Some((h, rest)) && h.folder
    ensures CreateDirs(d, Join(target, h.name)) == None ==> Import(b, d, target) == None
    ensures CreateDirs(d, Join(target, h.name)).Some? ==>
              Import(b, d, target) == ImportAll(h.size, rest, CreateDirs(d, Join(target, h.name)).value,
                                                Join(target, h.name))
  {
    hide ReadFrame, CreateDirs, Join;
  }

  class Exporter {
    var output: Bytes

    constructor ()
      ensures output == []
    {
      output := [];
    }

    method WriteFrame(h: Header)
      modifies this
      ensures output == old(output) + Frame(h)
    {
      output := output + Frame(h);
    }

    method Export(keep: (Path, bool) -> bool, p: Path, e: Entry)
      modifies this
      ensures output == old(output) + Encode(Entry(e.name, Kept(keep, p, e.tree)))
      decreases e.tree
    {
      hide Frame, Kept, KeptAll, Encode, Listed;
      if !e.tree.Folder? { KeptFile(keep, p, e); }
      match e.tree {
        case File(data) =>
          WriteFrame(Header(false, e.name, |data|));
          output := output + data;
        case Folder(entries) =>
          var listed := ListEntries(keep, p, entries);
          ghost var all := KeptAll(keep, p, entries);
          KeptIsListed(keep, p, entries);
          WriteFrame(Header(true, e.name, |listed|));
          ghost var start := output;
          assert all[0..] == all;
          for i := 0 to |listed|
            invariant output + EncodeAll(all[i..]) == start + EncodeAll(all)
          {
            assert listed[i] in entries;
            NextEncoded(all, i);
            Export(keep, p + [listed[i].name], listed[i]);
          }
          assert all[|listed|..] == [] && EncodeAll([]) == [];
          assert output == start + EncodeAll(all);
          KeptFolder(keep, p, e);
        case Special =>
      }
    }
  }

  method ListEntries(keep: (Path, bool) -> bool, p: Path, entries: seq<Entry>) returns (listed: seq<Entry>)
    ensures listed == Listed(keep, p, entries)
  {
    hide Listed;
    listed := [];
    assert entries[0..] == entries;
    for i := 0 to |entries|
      invariant listed + Listed(keep, p, entries[i..]) == Listed(keep, p, entries)
    {
      NextListed(keep, p, entries, i);
      if keep(p + [entries[i].name], entries[i].tree.Folder?) {
        listed := listed + [entries[i]];
      }
    }
    NoneListed(keep, p, entries);
  }

  lemma NoneListed(keep: (Path, bool) -> bool, p: Path, es: seq<Entry>)
    ensures Listed(keep, p, es[|es|..]) == []
  {
  }

  lemma NextListed(keep: (Path, bool) -> bool, p: Path, es: seq<Entry>, i: nat)
    requires i < |es|
    ensures Listed(keep, p, es[i..])
            == (if keep(p + [es[i].name], es[i].tree.Folder?) then [es[i]] else []) + Listed(keep, p, es[i + 1..])
  {
    assert es[i..][0] == es[i] && es[i..][1..] == es[i + 1..];
  }

  lemma NextEncoded(es: seq<Entry>, i: nat)
    requires i < |es|
    ensures EncodeAll(es[i..]) == Encode(es[i]) + EncodeAll(es[i + 1..])
  {
    hide Encode;
    assert es[i..][0] == es[i] && es[i..][1..] == es[i + 1..];
  }

  lemma KeptFolder(keep: (Path, bool) -> bool, p: Path, e: Entry)
    requires e.tree.Folder?
    ensures var all := KeptAll(keep, p, e.tree.entries);
      Encode(Entry(e.name, Kept(keep, p, e.tree))) == Frame(Header(true, e.name, |all|)) + EncodeAll(all)
  {
    hide Frame;
  }

  lemma KeptFile(keep: (Path, bool) -> bool, p: Path, e: Entry)
    requires !e.tree.Folder?
    ensures Encode(Entry(e.name, Kept(keep, p, e.tree))) == Encode(e)
    ensures e.tree.File? ==> Encode(e) == Frame(Header(false, e.name, |e.tree.data|)) + e.tree.data
    ensures e.tree.Special? ==> Encode(e) == []
  {
    hide Frame;
  }

  class Importer {
    var input: Bytes
    var disk: Disk

    constructor (b: Bytes, d: Disk)
      ensures input == b && disk == d
    {
      input, disk := b, d;
    }

    method ReadEntry(target: Path) returns (ok: bool)
      modifies this
      ensures ok <==> Import(old(input), old(disk), target).Some?
      ensures ok ==> Import(old(input), old(disk), target) == Some((input, disk))
      ensures ok ==> |input| < old(|input|)
      decreases |input|
    {
      hide ReadFrame, CreateDirs, Join, Decode, DecodeAll, Unpack, UnpackAll, Import, ImportAll;
      var frame := ReadFrame(input);
      if frame.None? {
        NoFrame(input, disk, target);
        return false;
      }
      var h, rest := frame.value.0, frame.value.1;
      if !h.folder {
        ok := ReadFile(target, h, rest);
        return;
      }
      ImportFolder(input, disk, target, h, rest);
      var p := Join(target, h.name);
      var made := CreateDirs(disk, p);
      if made.None? { return false; }
      input, disk := rest, made.value;
      for i := 0 to h.size
        invariant |input| <= |rest|
        invariant ImportAll(h.size - i, input, disk, p) == ImportAll(h.size, rest, made.value, p)
      {
        ImportOne(h.size - i, input, disk, p);
        ok := ReadEntry(p);
        if !ok { return; }
      }
      ImportNone(input, disk, p);
      ok := true;
    }

    method ReadFile(target: Path, h: Header, rest: Bytes) returns (ok: bool)
      requires ReadFrame(input) == Some((h, rest)) && !h.folder
      modifies this
      ensures ok <==> Import(old(input), old(disk), target).Some?
      ensures ok ==> Import(old(input), old(disk), target) == Some((input, disk))
      ensures ok ==> |input| < old(|input|)
    {
      hide ReadFrame, CreateDirs, Join;
      var p := Join(target, h.name);
      var made := if p == [] then Some(disk) else CreateDirs(disk, Parent(p));
      if made.None? || (p in made.value && made.value[p].DirItem?) { return false; }
      var n := if h.size <= |rest| then h.size else |rest|;
      input, disk := rest[n..], made.value[p := FileItem(rest[..n])];
      ok := true;
    }
  }

  lemma NoFrame(b: Bytes, d: Disk, target: Path)
    requires ReadFrame(b) == None
    ensures Import(b, d, target) == None
  {
  }

  lemma ImportNone(b: Bytes, d: Disk, target: Path)
    ensures ImportAll(0, b, d, target) == Some((b, d))
  {
  }
}
