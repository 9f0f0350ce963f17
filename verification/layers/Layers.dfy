/** Exporting the upper directory of an overlay as an image layer. Applying the exported entries to the
    lower directory, as the image specification prescribes, gives what the overlay shows. */
module Layers {
  import opened Wrappers
  import opened Postcard
  import opened Disks

  /** A node of an upper directory: a mark that hides a name, a file, or a directory, which if opaque
      hides everything below it. */
  datatype Upper = Whiteout | UpperFile(data: Bytes) | UpperDir(isOpaque: bool, entries: seq<UpperEntry>)

  datatype UpperEntry = UpperEntry(name: Bytes, node: Upper)

  /** ".wh.", the prefix of whiteouts, and ".wh..wh..opq", the name of opaque whiteouts. */
  const WH: Bytes := [46, 119, 104, 46]
  const OPQ: Bytes := WH + WH + [46, 111, 112, 113]

  datatype Body = FileBody(data: Bytes) | DirBody

  datatype TarEntry = TarEntry(path: Path, body: Body)

  /** The entries for a node, a directory before what it holds. An opaque directory is only announced
      by the whiteout inside it. */
  function Export(p: Path, e: UpperEntry): seq<TarEntry>
    decreases e, 1
  {
    match e.node
    case Whiteout => [TarEntry(p + [WH + e.name], FileBody([]))]
    case UpperFile(data) => [TarEntry(p + [e.name], FileBody(data))]
    case UpperDir(isOpaque, entries) => [DirEntry(p + [e.name], isOpaque)] + ExportAll(p + [e.name], entries)
  }

  function DirEntry(p: Path, isOpaque: bool): TarEntry {
    if isOpaque then TarEntry(p + [OPQ], FileBody([])) else TarEntry(p, DirBody)
  }

  function ExportAll(p: Path, es: seq<UpperEntry>): seq<TarEntry>
    decreases es, 0
  {
    if es == [] then [] else Export(p, es[0]) + ExportAll(p, es[1..])
  }

  function RemoveFrom(d: Disk, p: Path): Disk {
    map q | q in d && !(p <= q) :: d[q]
  }

  function RemoveBelow(d: Disk, p: Path): Disk {
    map q | q in d && !(p < q) :: d[q]
  }

  /** Applies one entry: an opaque whiteout empties its directory, another whiteout removes the name it
      hides, and anything else replaces what was there, except that a directory keeps its content. */
  function ApplyEntry(d: Disk, t: TarEntry): Option<Disk> {
    if t.path == [] then None
    else
      var base, dir := t.path[|t.path| - 1], Parent(t.path);
      match CreateDirs(d, dir)
      case None => None
      case Some(made) =>
        if base == OPQ then Some(RemoveBelow(made, dir))
        else if WH <= base then Some(RemoveFrom(made, dir + [base[4..]]))
        else if t.body.FileBody? then Some(RemoveFrom(made, t.path)[t.path := FileItem(t.body.data)])
        else if IsDir(made, t.path) then Some(made)
        else Some(RemoveFrom(made, t.path)[t.path := DirItem])
  }

  function Apply(d: Disk, ts: seq<TarEntry>): Option<Disk>
    decreases |ts|
  {
    if ts == [] then Some(d)
    else
      match ApplyEntry(d, ts[0])
      case None => None
      case Some(next) => Apply(next, ts[1..])
  }

  lemma {:induction false} ApplySplit(d: Disk, xs: seq<TarEntry>, ys: seq<TarEntry>)
    ensures Apply(d, xs + ys) == match Apply(d, xs)
                                 case None => None
                                 case Some(next) => Apply(next, ys)
    decreases |xs|
  {
    hide ApplyEntry;
    if xs == [] {
      assert xs + ys == ys;
    } else {
      assert (xs + ys)[0] == xs[0] && (xs + ys)[1..] == xs[1..] + ys;
      if ApplyEntry(d, xs[0]).Some? { ApplySplit(ApplyEntry(d, xs[0]).value, xs[1..], ys); }
    }
  }

  /** What the overlay shows at `rel` below an upper node at `p`. */
  function Overlay(lower: Disk, p: Path, u: Upper, rel: Path): Option<Item>
    decreases u, 1
  {
    match u
    case Whiteout => None
    case UpperFile(data) => if rel == [] then Some(FileItem(data)) else None
    case UpperDir(isOpaque, entries) =>
      if rel == [] then Some(DirItem) else OverlayAll(Shown(lower, p, isOpaque), p, entries, rel)
  }

  /** The lower directory that shows through an upper one. */
  function Shown(lower: Disk, p: Path, isOpaque: bool): Disk {
    if !isOpaque && IsDir(lower, p) then lower else map[]
  }

  function OverlayAll(lower: Disk, p: Path, es: seq<UpperEntry>, rel: Path): Option<Item>
    requires rel != []
    decreases es, 0
  {
    if es == [] then Look(lower, p + rel)
    else if es[0].name == rel[0] then Overlay(lower, p + [rel[0]], es[0].node, rel[1..])
    else OverlayAll(lower, p, es[1..], rel)
  }

  /** Siblings have distinct names, no whiteout would read as an opaque one, and no directory that is
      announced by name would read as a whiteout. */
  predicate Named(es: seq<UpperEntry>)
    decreases es, 0
  {
    es == [] || (NamedEntry(es[0]) && Named(es[1..]) && forall i :: 1 <= i < |es| ==> es[i].name != es[0].name)
  }

  predicate NamedEntry(e: UpperEntry)
    decreases e, 1
  {
    match e.node
    case Whiteout => WH + e.name != OPQ
    case UpperFile(_) => true
    case UpperDir(isOpaque, entries) => (isOpaque || !(WH <= e.name)) && Named(entries)
  }

  /** No file has a name reserved for whiteouts. */
  predicate Unreserved(es: seq<UpperEntry>)
    decreases es, 0
  {
    es == [] || (UnreservedEntry(es[0]) && Unreserved(es[1..]))
  }

  predicate UnreservedEntry(e: UpperEntry)
    decreases e, 1
  {
    match e.node
    case Whiteout => true
    case UpperFile(_) => !(WH <= e.name)
    case UpperDir(_, entries) => Unreserved(entries)
  }

  predicate Clean(es: seq<UpperEntry>) {
    Named(es) && Unreserved(es)
  }

  predicate CleanEntry(e: UpperEntry) {
    NamedEntry(e) && UnreservedEntry(e)
  }

  /** No opaque directory lies over a lower file. */
  predicate Fits(lower: Disk, p: Path, u: Upper)
    decreases u, 1
  {
    u.UpperDir? ==> if u.isOpaque then p !in lower || IsDir(lower, p) else FitsAll(Shown(lower, p, false), p, u.entries)
  }

  predicate FitsAll(lower: Disk, p: Path, es: seq<UpperEntry>)
    decreases es, 0
  {
    es == [] || (Fits(lower, p + [es[0].name], es[0].node) && FitsAll(lower, p, es[1..]))
  }

  /** The disk shows the overlay below `p` and is unchanged elsewhere. */
  ghost predicate Merged(lower: Disk, p: Path, u: Upper, after: Disk) {
    forall q :: Look(after, q) == if p <= q then Overlay(lower, p, u, q[|p|..]) else Look(lower, q)
  }

  ghost predicate MergedAll(lower: Disk, p: Path, es: seq<UpperEntry>, after: Disk) {
    forall q :: Look(after, q) == if p < q then OverlayAll(lower, p, es, q[|p|..]) else Look(lower, q)
  }

  ghost predicate SameFrom(a: Disk, b: Disk, p: Path) {
    forall q :: p <= q ==> Look(a, q) == Look(b, q)
  }

  /** The overlay at a node depends on the lower directory only from there on. */
  lemma {:induction false} OverlayDepends(a: Disk, b: Disk, p: Path, u: Upper, rel: Path)
    requires SameFrom(a, b, p)
    ensures Overlay(a, p, u, rel) == Overlay(b, p, u, rel)
    decreases u, 1
  {
    if u.UpperDir? && rel != [] {
      assert Look(a, p) == Look(b, p);
      forall q | p + [rel[0]] <= q ensures Look(a, q) == Look(b, q) {
        assert p <= p + [rel[0]] <= q;
      }
      OverlayAllDepends(Shown(a, p, u.isOpaque), Shown(b, p, u.isOpaque), p, u.entries, rel);
    }
  }

  lemma {:induction false} OverlayAllDepends(a: Disk, b: Disk, p: Path, es: seq<UpperEntry>, rel: Path)
    requires rel != [] && SameFrom(a, b, p + [rel[0]])
    ensures OverlayAll(a, p, es, rel) == OverlayAll(b, p, es, rel)
    decreases es, 0
  {
    if es == [] {
      assert p + rel == p + [rel[0]] + rel[1..];
    } else if es[0].name == rel[0] {
      OverlayDepends(a, b, p + [rel[0]], es[0].node, rel[1..]);
    } else {
      OverlayAllDepends(a, b, p, es[1..], rel);
    }
  }

  ghost predicate SameBelow(a: Disk, b: Disk, p: Path) {
    forall q :: p < q ==> Look(a, q) == Look(b, q)
  }

  lemma Narrow(a: Disk, b: Disk, p: Path, name: Bytes)
    requires SameBelow(a, b, p)
    ensures SameFrom(a, b, p + [name])
  {
    forall q | p + [name] <= q ensures Look(a, q) == Look(b, q) {
      assert p < p + [name] <= q;
    }
  }

  lemma {:induction false} FitsDepends(a: Disk, b: Disk, p: Path, u: Upper)
    requires SameFrom(a, b, p)
    ensures Fits(a, p, u) <==> Fits(b, p, u)
    decreases u, 1
  {
    assert Look(a, p) == Look(b, p);
    if u.UpperDir? && !u.isOpaque {
      FitsAllDepends(Shown(a, p, false), Shown(b, p, false), p, u.entries);
    }
  }

  lemma {:induction false} FitsAllDepends(a: Disk, b: Disk, p: Path, es: seq<UpperEntry>)
    requires SameBelow(a, b, p)
    ensures FitsAll(a, p, es) <==> FitsAll(b, p, es)
    decreases es, 0
  {
    if es != [] {
      Narrow(a, b, p, es[0].name);
      FitsDepends(a, b, p + [es[0].name], es[0].node);
      FitsAllDepends(a, b, p, es[1..]);
    }
  }

  lemma {:induction false} FitsNothing(p: Path, u: Upper)
    ensures Fits(map[], p, u)
    decreases u, 1
  {
    if u.UpperDir? { FitsAllNothing(p, u.entries); }
  }

  lemma {:induction false} FitsAllNothing(p: Path, es: seq<UpperEntry>)
    ensures FitsAll(map[], p, es)
    decreases es, 0
  {
    if es != [] {
      FitsNothing(p + [es[0].name], es[0].node);
      FitsAllNothing(p, es[1..]);
    }
  }

  lemma {:induction false} NotAmong(lower: Disk, p: Path, es: seq<UpperEntry>, rel: Path)
    requires rel != [] && forall i :: 0 <= i < |es| ==> es[i].name != rel[0]
    ensures OverlayAll(lower, p, es, rel) == Look(lower, p + rel)
    decreases |es|
  {
    if es != [] { NotAmong(lower, p, es[1..], rel); }
  }

  lemma Base(p: Path, name: Bytes)
    ensures Parent(p + [name]) == p && (p + [name])[|p + [name]| - 1] == name
  {
  }

  lemma Reserved(name: Bytes)
    ensures WH <= OPQ && (WH + name == OPQ ==> WH <= name)
  {
    if WH + name == OPQ {
      assert name == (WH + name)[4..];
    }
  }

  /** Applying the entry of a whiteout or a file. */
  lemma LeafApplies(d: Disk, p: Path, e: UpperEntry)
    requires IsDir(d, p) && !e.node.UpperDir? && CleanEntry(e)
    ensures Apply(d, Export(p, e)).Some? && Merged(d, p + [e.name], e.node, Apply(d, Export(p, e)).value)
  {
    var q := p + [e.name];
    var t := Export(p, e)[0];
    var name := if e.node.Whiteout? then WH + e.name else e.name;
    Base(p, name);
    assert t.path == p + [name];
    Reserved(e.name);
    assert e.node.Whiteout? ==> name[4..] == e.name && WH <= name;
    var after := ApplyEntry(d, t).value;
    forall x ensures Look(after, x) == if q <= x then Overlay(d, q, e.node, x[|q|..]) else Look(d, x) {
      if q <= x && x[|q|..] == [] { assert x == q; }
    }
  }

  /** Applying the entry of a directory leaves what shows through it. */
  lemma DirApplies(d: Disk, p: Path, name: Bytes, isOpaque: bool)
    requires IsDir(d, p) && (isOpaque || !(WH <= name)) && (isOpaque ==> p + [name] !in d || IsDir(d, p + [name]))
    ensures var t, q := DirEntry(p + [name], isOpaque), p + [name];
      ApplyEntry(d, t).Some? && Opened(d, q, isOpaque, ApplyEntry(d, t).value)
  {
    var q := p + [name];
    Base(p, name);
    Base(q, OPQ);
    Reserved(name);
    if isOpaque {
      var made := if q in d then d else d[q := DirItem];
      assert CreateDirs(d, q) == Some(made);
      Emptied(d, q, made);
    } else if IsDir(d, q) {
      assert ApplyEntry(d, TarEntry(q, DirBody)) == Some(d);
    } else {
      assert ApplyEntry(d, TarEntry(q, DirBody)) == Some(RemoveFrom(d, q)[q := DirItem]);
      Replaced(d, q);
    }
  }

  lemma Emptied(d: Disk, q: Path, made: Disk)
    requires made == d || made == d[q := DirItem]
    requires IsDir(made, q)
    ensures Opened(d, q, true, RemoveBelow(made, q))
  {
  }

  lemma Replaced(d: Disk, q: Path)
    requires !IsDir(d, q)
    ensures Opened(d, q, false, RemoveFrom(d, q)[q := DirItem])
  {
  }

  /** A directory at `q` that holds what shows through; all else is as before. */
  ghost predicate Opened(d: Disk, q: Path, isOpaque: bool, after: Disk) {
    && IsDir(after, q) && SameBelow(Shown(d, q, isOpaque), after, q)
    && forall x :: !(q <= x) ==> Look(after, x) == Look(d, x)
  }

  lemma {:induction false} ExportApplies(d: Disk, p: Path, e: UpperEntry)
    requires IsDir(d, p) && CleanEntry(e) && Fits(d, p + [e.name], e.node)
    ensures Apply(d, Export(p, e)).Some? && Merged(d, p + [e.name], e.node, Apply(d, Export(p, e)).value)
    decreases e.node, 1
  {
    hide ApplyEntry, Merged, Opened;
    var q := p + [e.name];
    match e.node
    case Whiteout => LeafApplies(d, p, e);
    case UpperFile(_) => LeafApplies(d, p, e);
    case UpperDir(isOpaque, entries) =>
      DirApplies(d, p, e.name, isOpaque);
      var made := ApplyEntry(d, DirEntry(q, isOpaque)).value;
      OpenedFits(d, q, e.node, made);
      ExportAllApplies(made, q, entries);
      ApplyFirst(d, DirEntry(q, isOpaque), ExportAll(q, entries));
      OpenedMerges(d, q, e.node, made, Apply(made, ExportAll(q, entries)).value);
  }

  lemma ApplyFirst(d: Disk, t: TarEntry, ts: seq<TarEntry>)
    requires ApplyEntry(d, t).Some?
    ensures Apply(d, [t] + ts) == Apply(ApplyEntry(d, t).value, ts)
  {
    hide ApplyEntry;
    assert ([t] + ts)[1..] == ts;
  }

  lemma OpenedFits(d: Disk, q: Path, u: Upper, made: Disk)
    requires u.UpperDir? && (u.isOpaque ==> Fits(d, q, u)) && Opened(d, q, u.isOpaque, made)
    ensures IsDir(made, q) && (Fits(d, q, u) <==> FitsAll(made, q, u.entries))
  {
    hide FitsAll;
    if u.isOpaque { FitsAllNothing(q, u.entries); }
    FitsAllDepends(Shown(d, q, u.isOpaque), made, q, u.entries);
  }

  lemma OpenedMerges(d: Disk, q: Path, u: Upper, made: Disk, after: Disk)
    requires u.UpperDir? && Opened(d, q, u.isOpaque, made) && MergedAll(made, q, u.entries, after)
    ensures Merged(d, q, u, after)
  {
    hide OverlayAll;
    forall x ensures Look(after, x) == if q <= x then Overlay(d, q, u, x[|q|..]) else Look(d, x) {
      assert Look(after, x) == if q < x then OverlayAll(made, q, u.entries, x[|q|..]) else Look(made, x);
      if q <= x && x[|q|..] == [] {
        assert x == q;
      } else if q <= x {
        Narrow(Shown(d, q, u.isOpaque), made, q, x[|q|]);
        OverlayAllDepends(Shown(d, q, u.isOpaque), made, q, u.entries, x[|q|..]);
      }
    }
  }

  /** Exporting what an upper directory holds and applying it to the lower directory gives the overlay. */
  lemma {:induction false} ExportAllApplies(d: Disk, p: Path, es: seq<UpperEntry>)
    requires IsDir(d, p) && Clean(es) && FitsAll(d, p, es)
    ensures Apply(d, ExportAll(p, es)).Some? && MergedAll(d, p, es, Apply(d, ExportAll(p, es)).value)
    decreases es, 0
  {
    hide Merged, MergedAll, CleanEntry, Fits, Apply, Export;
    if es == [] {
      NothingMerged(d, p);
    } else {
      HeadIsClean(es);
      ExportApplies(d, p, es[0]);
      var next := Apply(d, Export(p, es[0])).value;
      RestFits(d, p, es, next);
      ExportAllApplies(next, p, es[1..]);
      ApplySplit(d, Export(p, es[0]), ExportAll(p, es[1..]));
      OneMerged(d, p, es, next, Apply(next, ExportAll(p, es[1..])).value);
    }
  }

  lemma NothingMerged(d: Disk, p: Path)
    ensures Apply(d, []) == Some(d) && MergedAll(d, p, [], d)
  {
    forall q | p < q ensures OverlayAll(d, p, [], q[|p|..]) == Look(d, q) {
      assert p + q[|p|..] == q;
    }
  }

  lemma RestFits(d: Disk, p: Path, es: seq<UpperEntry>, next: Disk)
    requires es != [] && IsDir(d, p) && Named(es) && Merged(d, p + [es[0].name], es[0].node, next)
    ensures IsDir(next, p) && (FitsAll(d, p, es[1..]) <==> FitsAll(next, p, es[1..]))
  {
    hide Overlay, NamedEntry, Fits;
    assert Look(next, p) == Look(d, p);
    OthersFit(d, next, p, es[0].name, es[0].node, es[1..]);
  }

  lemma {:induction false} OthersFit(d: Disk, next: Disk, p: Path, name: Bytes, u: Upper, es: seq<UpperEntry>)
    requires Merged(d, p + [name], u, next) && forall i :: 0 <= i < |es| ==> es[i].name != name
    ensures FitsAll(d, p, es) <==> FitsAll(next, p, es)
    decreases |es|
  {
    hide Overlay, Fits;
    if es != [] {
      Beside(d, next, p, name, u, es[0].name);
      FitsDepends(d, next, p + [es[0].name], es[0].node);
      OthersFit(d, next, p, name, u, es[1..]);
    }
  }

  lemma Beside(d: Disk, next: Disk, p: Path, name: Bytes, u: Upper, other: Bytes)
    requires Merged(d, p + [name], u, next) && name != other
    ensures SameFrom(d, next, p + [other])
  {
    hide Overlay;
    forall q | p + [other] <= q ensures Look(d, q) == Look(next, q) {
      assert q[|p|] == other && (p + [name])[|p|] == name;
    }
  }

  lemma OneMerged(d: Disk, p: Path, es: seq<UpperEntry>, next: Disk, after: Disk)
    requires es != [] && Clean(es)
    requires Merged(d, p + [es[0].name], es[0].node, next) && MergedAll(next, p, es[1..], after)
    ensures MergedAll(d, p, es, after)
  {
    hide Overlay, NamedEntry, Unreserved;
    var name := es[0].name;
    forall q ensures Look(after, q) == if p < q then OverlayAll(d, p, es, q[|p|..]) else Look(d, q) {
      assert Look(after, q) == if p < q then OverlayAll(next, p, es[1..], q[|p|..]) else Look(next, q);
      assert Look(next, q) == if p + [name] <= q then Overlay(d, p + [name], es[0].node, q[|p| + 1..]) else Look(d, q);
      if p < q {
        var rel := q[|p|..];
        if rel[0] == name {
          NotAmong(next, p, es[1..], rel);
          assert p + rel == q && rel[1..] == q[|p| + 1..] && p + [name] <= q;
        } else {
          Beside(d, next, p, name, es[0].node, rel[0]);
          OverlayAllDepends(d, next, p, es[1..], rel);
        }
      }
    }
  }

  lemma HeadIsClean(es: seq<UpperEntry>)
    requires es != [] && Clean(es)
    ensures CleanEntry(es[0]) && Clean(es[1..])
  {
    hide NamedEntry, UnreservedEntry;
  }

  lemma {:induction false} ExportFails(d: Disk, p: Path, e: UpperEntry)
    requires IsDir(d, p) && CleanEntry(e) && !Fits(d, p + [e.name], e.node)
    ensures Apply(d, Export(p, e)) == None
    decreases e.node, 1
  {
    hide ApplyEntry, Merged, Opened;
    var q, u := p + [e.name], e.node;
    if u.isOpaque {
      OpaqueOverFileFails(d, p, e.name, u.entries);
    } else {
      DirApplies(d, p, e.name, false);
      var made := ApplyEntry(d, DirEntry(q, false)).value;
      OpenedFits(d, q, u, made);
      ExportAllFails(made, q, u.entries);
      ApplyFirst(d, DirEntry(q, false), ExportAll(q, u.entries));
    }
  }

  lemma {:induction false} ExportAllFails(d: Disk, p: Path, es: seq<UpperEntry>)
    requires IsDir(d, p) && Clean(es) && !FitsAll(d, p, es)
    ensures Apply(d, ExportAll(p, es)) == None
    decreases es, 0
  {
    hide Merged, CleanEntry, Fits, Apply, Export;
    HeadIsClean(es);
    ApplySplit(d, Export(p, es[0]), ExportAll(p, es[1..]));
    if Fits(d, p + [es[0].name], es[0].node) {
      ExportApplies(d, p, es[0]);
      var next := Apply(d, Export(p, es[0])).value;
      RestFits(d, p, es, next);
      ExportAllFails(next, p, es[1..]);
    } else {
      ExportFails(d, p, es[0]);
    }
  }

  /** The exported entries can be applied exactly if no opaque directory lies over a lower file. */
  lemma AppliesIffFits(d: Disk, p: Path, es: seq<UpperEntry>)
    requires IsDir(d, p) && Clean(es)
    ensures Apply(d, ExportAll(p, es)).Some? <==> FitsAll(d, p, es)
  {
    hide Apply, ExportAll, Clean, FitsAll, MergedAll;
    if FitsAll(d, p, es) { ExportAllApplies(d, p, es); } else { ExportAllFails(d, p, es); }
  }

  /** An opaque directory over a lower file cannot be applied, whatever it holds. */
  lemma OpaqueOverFileFails(d: Disk, p: Path, name: Bytes, es: seq<UpperEntry>)
    requires p + [name] in d && !IsDir(d, p + [name])
    ensures Apply(d, Export(p, UpperEntry(name, UpperDir(true, es)))) == None
  {
    var q := p + [name];
    var t := DirEntry(q, true);
    Base(q, OPQ);
    assert ApplyEntry(d, t) == None;
  }

  /** A file whose name is reserved for whiteouts comes out as a whiteout: it is not there, and what had
      the rest of its name is gone. */
  lemma ReservedNamesGetLost(d: Disk, p: Path, name: Bytes, data: Bytes)
    requires IsDir(d, p) && WH <= name && name != OPQ
    ensures Apply(d, Export(p, UpperEntry(name, UpperFile(data)))) == Some(RemoveFrom(d, p + [name[4..]]))
  {
    var t := TarEntry(p + [name], FileBody(data));
    Base(p, name);
    assert ApplyEntry(d, t) == Some(RemoveFrom(d, p + [name[4..]]));
    assert Export(p, UpperEntry(name, UpperFile(data))) == [t] && [t][1..] == [];
  }

  /** No file of the disk has a name reserved for whiteouts, as in everything that layers build. */
  ghost predicate FilesUnreserved(d: Disk) {
    forall q :: q in d && q != [] && d[q].FileItem? ==> !(WH <= q[|q| - 1])
  }

  lemma {:induction false} CreatingKeepsUnreserved(d: Disk, p: Path)
    requires FilesUnreserved(d) && CreateDirs(d, p).Some?
    ensures FilesUnreserved(CreateDirs(d, p).value)
    decreases |p|
  {
    if p !in d && p != [] { CreatingKeepsUnreserved(d, Parent(p)); }
  }

  lemma EntryKeepsUnreserved(d: Disk, t: TarEntry)
    requires FilesUnreserved(d) && ApplyEntry(d, t).Some?
    ensures FilesUnreserved(ApplyEntry(d, t).value)
  {
    hide CreateDirs;
    CreatingKeepsUnreserved(d, Parent(t.path));
    Reserved([]);
  }

  /** Layers never build a file with a reserved name. */
  lemma {:induction false} ApplyKeepsUnreserved(d: Disk, ts: seq<TarEntry>)
    requires FilesUnreserved(d) && Apply(d, ts).Some?
    ensures FilesUnreserved(Apply(d, ts).value)
    decreases |ts|
  {
    hide ApplyEntry, FilesUnreserved;
    if ts != [] {
      EntryKeepsUnreserved(d, ts[0]);
      ApplyKeepsUnreserved(ApplyEntry(d, ts[0]).value, ts[1..]);
    }
  }

  ghost predicate ReservedFile(i: Option<Item>, name: Bytes) {
    i.Some? && i.value.FileItem? && WH <= name
  }

  /** Where the overlay shows a file with a reserved name. */
  lemma {:induction false} FindReserved(lower: Disk, p: Path, es: seq<UpperEntry>) returns (rel: Path)
    requires Named(es) && !Unreserved(es)
    ensures rel != [] && ReservedFile(OverlayAll(lower, p, es, rel), rel[|rel| - 1])
    ensures exists i :: 0 <= i < |es| && es[i].name == rel[0]
    decreases es, 0
  {
    var e := es[0];
    if UnreservedEntry(e) {
      rel := FindReserved(lower, p, es[1..]);
      var i :| 0 <= i < |es[1..]| && es[1..][i].name == rel[0];
      assert es[i + 1].name == rel[0];
    } else if e.node.UpperFile? {
      rel := [e.name];
    } else {
      var q := p + [e.name];
      var below := FindReserved(Shown(lower, q, e.node.isOpaque), q, e.node.entries);
      rel := [e.name] + below;
      assert rel[1..] == below && rel[|rel| - 1] == below[|below| - 1];
    }
  }

  /** Applying the exported entries gives the overlay. */
  ghost predicate Rebuilds(d: Disk, p: Path, es: seq<UpperEntry>) {
    Apply(d, ExportAll(p, es)).Some? && MergedAll(d, p, es, Apply(d, ExportAll(p, es)).value)
  }

  /** A layer rebuilds the overlay exactly if no file in it has a reserved name and no opaque directory
      lies over a lower file. */
  lemma RebuildsIff(d: Disk, p: Path, es: seq<UpperEntry>)
    requires IsDir(d, p) && Named(es) && FilesUnreserved(d)
    ensures Rebuilds(d, p, es) <==> Unreserved(es) && FitsAll(d, p, es)
  {
    hide Apply, ExportAll, Named, Unreserved, FitsAll, OverlayAll, FilesUnreserved;
    if Unreserved(es) {
      AppliesIffFits(d, p, es);
      if FitsAll(d, p, es) { ExportAllApplies(d, p, es); }
    } else if Rebuilds(d, p, es) {
      var rel := FindReserved(d, p, es);
      ApplyKeepsUnreserved(d, ExportAll(p, es));
      LostReserved(d, p, es, rel, Apply(d, ExportAll(p, es)).value);
    }
  }

  lemma LostReserved(d: Disk, p: Path, es: seq<UpperEntry>, rel: Path, after: Disk)
    requires rel != [] && ReservedFile(OverlayAll(d, p, es, rel), rel[|rel| - 1]) && FilesUnreserved(after)
    ensures !MergedAll(d, p, es, after)
  {
    hide OverlayAll;
    var q := p + rel;
    assert q[|p|..] == rel && p < q && q[|q| - 1] == rel[|rel| - 1];
    assert Look(after, q) != OverlayAll(d, p, es, q[|p|..]);
  }

  class TarBuilder {
    var entries: seq<TarEntry>

    constructor ()
      ensures entries == []
    {
      entries := [];
    }

    /** Walks a directory and appends an entry for everything in it. */
    method AppendUpperdir(p: Path, es: seq<UpperEntry>)
      modifies this
      ensures entries == old(entries) + ExportAll(p, es)
      decreases es
    {
      assert es[0..] == es;
      for i := 0 to |es|
        invariant entries + ExportAll(p, es[i..]) == old(entries) + ExportAll(p, es)
      {
        assert es[i..][0] == es[i] && es[i..][1..] == es[i + 1..];
        var q := p + [es[i].name];
        match es[i].node {
          case Whiteout => entries := entries + [TarEntry(p + [WH + es[i].name], FileBody([]))];
          case UpperFile(data) => entries := entries + [TarEntry(q, FileBody(data))];
          case UpperDir(isOpaque, below) =>
            entries := entries + [DirEntry(q, isOpaque)];
            AppendUpperdir(q, below);
        }
      }
      assert es[|es|..] == [];
    }
  }
}
