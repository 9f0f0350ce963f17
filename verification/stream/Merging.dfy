/** Importing a file tree over what a disk already has, and what a filter lets through on the way out. */
module Merging {
  import opened Wrappers
  import opened Postcard
  import opened Disks
  import opened FileStreams

  /** Everything on the disk is in a folder, up to the root. */
  ghost predicate Whole(d: Disk) {
    forall p :: p in d && p != [] ==> IsDir(d, Parent(p))
  }

  /** There is room for the tree at `p`: no file is in the way of a folder, nor a folder of a file. */
  ghost predicate Room(d: Disk, p: Path, t: Tree) {
    && (forall q :: q < p && q in d ==> d[q].DirItem?)
    && (forall rel :: At(t, rel).Some? && p + rel in d ==> (d[p + rel].DirItem? <==> At(t, rel).value.DirItem?))
  }

  /** The disk has the tree at `p`, in folders, and is otherwise as before. */
  ghost predicate Merged(before: Disk, after: Disk, p: Path, t: Tree) {
    forall q :: Look(after, q) == MergedLook(before, p, t, q)
  }

  function MergedLook(before: Disk, p: Path, t: Tree, q: Path): Option<Item> {
    if p <= q && At(t, q[|p|..]).Some? then At(t, q[|p|..])
    else if q < p then Some(DirItem)
    else Look(before, q)
  }

  lemma {:induction false} AncestorsAreDirs(d: Disk, p: Path, q: Path)
    requires Whole(d) && p in d && q < p
    ensures IsDir(d, q)
    decreases |p|
  {
    if q != Parent(p) {
      assert q < Parent(p);
      AncestorsAreDirs(d, Parent(p), q);
    }
  }

  lemma PrefixStep(q: Path, p: Path)
    requires p != []
    ensures q <= p <==> q == p || q <= Parent(p)
    ensures q <= p && q != p ==> q < p
  {
  }

  ghost predicate FoldersTo(d: Disk, p: Path) {
    forall q :: q <= p && q in d ==> d[q].DirItem?
  }

  /** The disk with folders up to `p`. */
  ghost predicate WithFolders(before: Disk, after: Disk, p: Path) {
    forall q :: Look(after, q) == if q <= p then Some(DirItem) else Look(before, q)
  }

  /** Folders can be made unless a file is in the way, and nothing else changes. */
  lemma {:induction false} CreateDirsIs(d: Disk, p: Path)
    requires Whole(d)
    ensures CreateDirs(d, p).Some? <==> FoldersTo(d, p)
    ensures CreateDirs(d, p).Some? ==> Whole(CreateDirs(d, p).value) && WithFolders(d, CreateDirs(d, p).value, p)
    decreases |p|
  {
    if p in d {
      assert p <= p;
      forall q | q <= p && q in d && q != p ensures IsDir(d, q) { AncestorsAreDirs(d, p, q); }
      if d[p].DirItem? {
        forall q ensures Look(d, q) == if q <= p then Some(DirItem) else Look(d, q) {
          if q <= p && q != p { AncestorsAreDirs(d, p, q); }
        }
      }
    } else if p != [] {
      CreateDirsIs(d, Parent(p));
      FoldersAbove(d, p);
      if CreateDirs(d, p).Some? { OneFolder(d, CreateDirs(d, Parent(p)).value, p); }
    } else {
      NothingThere(d);
    }
  }

  lemma FoldersAbove(d: Disk, p: Path)
    requires p != [] && p !in d
    ensures FoldersTo(d, p) <==> FoldersTo(d, Parent(p))
  {
    forall q | q in d ensures q <= p <==> q <= Parent(p) { PrefixStep(q, p); }
  }

  lemma NothingThere(d: Disk)
    requires Whole(d) && [] !in d
    ensures d == map[]
  {
    if x :| x in d {
      if x != [] { AncestorsAreDirs(d, x, []); }
    }
  }

  lemma OneFolder(d: Disk, above: Disk, p: Path)
    requires p != [] && p !in d && Whole(above) && WithFolders(d, above, Parent(p))
    ensures Whole(above[p := DirItem]) && WithFolders(d, above[p := DirItem], p)
  {
    var after := above[p := DirItem];
    assert Parent(p) <= Parent(p);
    assert Look(above, Parent(p)) == Some(DirItem);
    forall x | x in after && x != [] ensures IsDir(after, Parent(x)) {
      if x != p { assert IsDir(above, Parent(x)); }
    }
    forall q ensures Look(after, q) == if q <= p then Some(DirItem) else Look(d, q) {
      PrefixStep(q, p);
      assert Look(above, q) == if q <= Parent(p) then Some(DirItem) else Look(d, q);
    }
    assert WithFolders(d, after, p);
  }

  /** The same for the entries of a folder that is there. */
  ghost predicate RoomAll(d: Disk, p: Path, es: seq<Entry>) {
    forall rel :: rel != [] && AtAll(es, rel).Some? && p + rel in d ==>
      (d[p + rel].DirItem? <==> AtAll(es, rel).value.DirItem?)
  }

  ghost predicate MergedAll(before: Disk, after: Disk, p: Path, es: seq<Entry>) {
    forall q :: Look(after, q) == if p < q && AtAll(es, q[|p|..]).Some? then AtAll(es, q[|p|..]) else Look(before, q)
  }

  lemma FileMerges(d: Disk, target: Path, e: Entry)
    requires Whole(d) && e.tree.File?
    ensures var p := Join(target, e.name);
      && (Unpack(d, target, e).Some? <==> Room(d, p, e.tree))
      && (Unpack(d, target, e).Some? ==>
            Whole(Unpack(d, target, e).value) && Merged(d, Unpack(d, target, e).value, p, e.tree))
  {
    hide Join, CreateDirs;
    var p, t := Join(target, e.name), e.tree;
    FileAt(t, p);
    if p == [] {
      assert Room(d, p, t) <==> !IsDir(d, []) by { assert forall rel: Path :: [] + rel == rel; }
      if !IsDir(d, []) { RootFile(d, t); }
    } else {
      CreateDirsIs(d, Parent(p));
      FoldersBefore(d, p);
      var made := CreateDirs(d, Parent(p));
      if made.Some? { FileOnFolders(d, made.value, p, t); }
    }
  }

  lemma FoldersBefore(d: Disk, p: Path)
    requires p != []
    ensures FoldersTo(d, Parent(p)) <==> forall q :: q < p && q in d ==> d[q].DirItem?
  {
    forall q | q in d ensures q <= Parent(p) <==> q < p { PrefixStep(q, p); }
  }

  lemma FileOnFolders(d: Disk, made: Disk, p: Path, t: Tree)
    requires p != [] && t.File? && Whole(made) && WithFolders(d, made, Parent(p))
    ensures IsDir(made, p) <==> IsDir(d, p)
    ensures !IsDir(made, p) ==> Whole(made[p := FileItem(t.data)]) && Merged(d, made[p := FileItem(t.data)], p, t)
  {
    assert Look(made, p) == Look(d, p);
    if !IsDir(made, p) {
      var after := made[p := FileItem(t.data)];
      forall x | x in after && x != [] ensures IsDir(after, Parent(x)) {
        if x == p {
          assert Parent(p) <= Parent(p) && Look(made, Parent(p)) == Some(DirItem);
        } else {
          assert IsDir(made, Parent(x));
        }
      }
      forall q ensures Look(after, q) == MergedLook(d, p, t, q) {
        PrefixStep(q, p);
        assert Look(made, q) == if q <= Parent(p) then Some(DirItem) else Look(d, q);
        if p <= q && q[|p|..] == [] { assert q == p; }
      }
    }
  }

  lemma FileAt(t: Tree, p: Path)
    requires t.File?
    ensures forall rel :: At(t, rel).Some? <==> rel == []
    ensures p + [] == p
  {
  }

  lemma RootFile(d: Disk, t: Tree)
    requires Whole(d) && t.File? && !IsDir(d, [])
    ensures Whole(d[[] := FileItem(t.data)]) && Merged(d, d[[] := FileItem(t.data)], [], t)
  {
  }

  /** Unpacking an entry succeeds exactly if there is room for it, and then merges it with what is there. */
  lemma {:induction false} UnpackMerges(d: Disk, target: Path, e: Entry)
    requires Whole(d) && WellNamed(e.tree)
    ensures var p := Join(target, e.name);
      && (Unpack(d, target, e).Some? <==> Room(d, p, e.tree))
      && (Unpack(d, target, e).Some? ==>
            Whole(Unpack(d, target, e).value) && Merged(d, Unpack(d, target, e).value, p, e.tree))
    decreases e.tree, 1
  {
    hide Join, CreateDirs, Room, Merged;
    var p := Join(target, e.name);
    match e.tree
    case File(_) => FileMerges(d, target, e);
    case Folder(entries) =>
      CreateDirsIs(d, p);
      var made := CreateDirs(d, p);
      if made.Some? {
        FolderIsThere(d, made.value, p);
        UnpackAllMerges(made.value, p, entries);
        FolderRoom(d, made.value, p, entries);
        var after := UnpackAll(made.value, p, entries);
        if after.Some? { FolderMerges(d, made.value, after.value, p, entries); }
      } else {
        NoRoom(d, p, entries);
      }
  }

  lemma FolderIsThere(d: Disk, made: Disk, p: Path)
    requires WithFolders(d, made, p)
    ensures IsDir(made, p)
  {
    assert p <= p && Look(made, p) == Some(DirItem);
  }

  lemma NoRoom(d: Disk, p: Path, es: seq<Entry>)
    requires !FoldersTo(d, p)
    ensures !Room(d, p, Folder(es))
  {
    var q :| q <= p && q in d && !d[q].DirItem?;
    if q == p {
      assert At(Folder(es), []) == Some(DirItem) && p + [] == p;
    }
  }

  lemma FolderRoom(d: Disk, made: Disk, p: Path, es: seq<Entry>)
    requires FoldersTo(d, p) && WithFolders(d, made, p)
    ensures Room(d, p, Folder(es)) <==> RoomAll(made, p, es)
  {
    hide AtAll;
    assert p + [] == p && p <= p;
    forall rel: Path | rel != [] ensures Look(made, p + rel) == Look(d, p + rel) { assert !(p + rel <= p); }
    if Room(d, p, Folder(es)) {
      forall rel | rel != [] && AtAll(es, rel).Some? && p + rel in made
        ensures made[p + rel].DirItem? <==> AtAll(es, rel).value.DirItem?
      {
        assert Look(made, p + rel) == Look(d, p + rel) && At(Folder(es), rel) == AtAll(es, rel);
      }
    }
    if RoomAll(made, p, es) {
      forall rel | At(Folder(es), rel).Some? && p + rel in d
        ensures d[p + rel].DirItem? <==> At(Folder(es), rel).value.DirItem?
      {
        if rel != [] { assert Look(made, p + rel) == Look(d, p + rel) && At(Folder(es), rel) == AtAll(es, rel); }
      }
    }
  }

  lemma FolderMerges(d: Disk, made: Disk, after: Disk, p: Path, es: seq<Entry>)
    requires WithFolders(d, made, p) && MergedAll(made, after, p, es)
    ensures Merged(d, after, p, Folder(es))
  {
    hide AtAll;
    forall q ensures Look(after, q) == MergedLook(d, p, Folder(es), q) {
      assert Look(made, q) == if q <= p then Some(DirItem) else Look(d, q);
      assert Look(after, q) == if p < q && AtAll(es, q[|p|..]).Some? then AtAll(es, q[|p|..]) else Look(made, q);
      if p <= q && q[|p|..] == [] { assert q == p; }
    }
  }

  lemma {:induction false} UnpackAllMerges(d: Disk, p: Path, es: seq<Entry>)
    requires Whole(d) && IsDir(d, p) && AllWellNamed(es)
    ensures UnpackAll(d, p, es).Some? <==> RoomAll(d, p, es)
    ensures UnpackAll(d, p, es).Some? ==>
              Whole(UnpackAll(d, p, es).value) && MergedAll(d, UnpackAll(d, p, es).value, p, es)
    decreases es, 0
  {
    hide WellNamed, Unpack, Whole, Room, RoomAll, Merged, MergedAll, At;
    if es == [] {
      NothingToMerge(d, p);
    } else {
      var t := p + [es[0].name];
      assert Join(p, es[0].name) == t;
      UnpackMerges(d, p, es[0]);
      RoomSplits(d, p, es);
      var next := Unpack(d, p, es[0]);
      if next.Some? {
        StillThere(d, next.value, p, es[0]);
        UnpackAllMerges(next.value, p, es[1..]);
        OthersHaveRoom(d, next.value, p, es);
        var after := UnpackAll(next.value, p, es[1..]);
        if after.Some? { EntriesMerge(d, next.value, after.value, p, es); }
      }
    }
  }

  lemma NothingToMerge(d: Disk, p: Path)
    ensures RoomAll(d, p, []) && MergedAll(d, d, p, [])
  {
  }

  lemma StillThere(d: Disk, next: Disk, p: Path, e: Entry)
    requires IsDir(d, p) && Merged(d, next, p + [e.name], e.tree)
    ensures IsDir(next, p)
  {
    hide At;
    assert p < p + [e.name] && Look(next, p) == MergedLook(d, p + [e.name], e.tree, p);
  }

  /** There is room for all entries if there is room for the first and for the others. */
  lemma RoomSplits(d: Disk, p: Path, es: seq<Entry>)
    requires es != [] && Whole(d) && IsDir(d, p) && AllWellNamed(es)
    ensures RoomAll(d, p, es) <==> Room(d, p + [es[0].name], es[0].tree) && RoomAll(d, p, es[1..])
  {
    hide At, WellNamed, Whole;
    var t := p + [es[0].name];
    assert forall q :: q < t && q in d ==> d[q].DirItem? by { FoldersAboveChild(d, p, es[0].name); }
    forall rel: Path | rel != [] && rel[0] == es[0].name
      ensures AtAll(es, rel) == At(es[0].tree, rel[1..]) && AtAll(es[1..], rel) == None
    {
      MissingName(es[1..], rel);
    }
    if RoomAll(d, p, es) {
      forall rel | At(es[0].tree, rel).Some? && t + rel in d
        ensures d[t + rel].DirItem? <==> At(es[0].tree, rel).value.DirItem?
      {
        var whole := [es[0].name] + rel;
        assert p + whole == t + rel && whole[1..] == rel && AtAll(es, whole) == At(es[0].tree, rel);
      }
      forall rel | rel != [] && AtAll(es[1..], rel).Some? && p + rel in d
        ensures d[p + rel].DirItem? <==> AtAll(es[1..], rel).value.DirItem?
      {
        assert AtAll(es, rel) == AtAll(es[1..], rel);
      }
    }
    if Room(d, t, es[0].tree) && RoomAll(d, p, es[1..]) {
      forall rel | rel != [] && AtAll(es, rel).Some? && p + rel in d
        ensures d[p + rel].DirItem? <==> AtAll(es, rel).value.DirItem?
      {
        if rel[0] == es[0].name { assert t + rel[1..] == p + rel; }
      }
    }
  }

  lemma FoldersAboveChild(d: Disk, p: Path, name: Bytes)
    requires Whole(d) && IsDir(d, p)
    ensures forall q :: q < p + [name] && q in d ==> d[q].DirItem?
  {
    forall q | q < p + [name] && q in d ensures d[q].DirItem? {
      if q != p {
        assert q < p;
        AncestorsAreDirs(d, p, q);
      }
    }
  }

  /** What the first entry changed leaves the room for the others as it was. */
  lemma OthersHaveRoom(d: Disk, next: Disk, p: Path, es: seq<Entry>)
    requires es != [] && AllWellNamed(es) && Merged(d, next, p + [es[0].name], es[0].tree)
    ensures RoomAll(next, p, es[1..]) <==> RoomAll(d, p, es[1..])
  {
    hide At, WellNamed;
    forall rel | rel != [] && AtAll(es[1..], rel).Some? ensures Look(next, p + rel) == Look(d, p + rel) {
      if rel[0] == es[0].name { MissingName(es[1..], rel); }
      Beside(d, next, p, es[0], rel);
    }
    assert forall rel :: rel != [] && AtAll(es[1..], rel).Some? ==> Look(next, p + rel) == Look(d, p + rel);
  }

  lemma Beside(d: Disk, next: Disk, p: Path, e: Entry, rel: Path)
    requires Merged(d, next, p + [e.name], e.tree) && rel != [] && rel[0] != e.name
    ensures Look(next, p + rel) == Look(d, p + rel)
  {
    hide At;
    var t, q := p + [e.name], p + rel;
    assert q[|p|] == rel[0] && t[|p|] == e.name;
    assert Look(next, q) == MergedLook(d, t, e.tree, q);
  }

  lemma EntriesMerge(d: Disk, next: Disk, after: Disk, p: Path, es: seq<Entry>)
    requires es != [] && AllWellNamed(es) && IsDir(d, p)
    requires Whole(d) && Merged(d, next, p + [es[0].name], es[0].tree) && MergedAll(next, after, p, es[1..])
    ensures MergedAll(d, after, p, es)
  {
    hide At, WellNamed, Whole;
    var t := p + [es[0].name];
    forall q ensures Look(after, q) == if p < q && AtAll(es, q[|p|..]).Some? then AtAll(es, q[|p|..]) else Look(d, q) {
      assert Look(after, q) == if p < q && AtAll(es[1..], q[|p|..]).Some? then AtAll(es[1..], q[|p|..])
                               else Look(next, q);
      assert Look(next, q) == MergedLook(d, t, es[0].tree, q);
      if p < q {
        if q[|p|] == es[0].name {
          MissingName(es[1..], q[|p|..]);
          assert t <= q && q[|p|..][1..] == q[|t|..];
        } else {
          assert !(t <= q) && !(q < t);
        }
      } else if q < t {
        if q != p { AncestorsAreDirs(d, p, q); }
      }
    }
  }

  /** The nodes from the root of the tree down to `rel` all pass the filter, which sees the path of each and
      whether it is a folder. */
  ghost predicate Passes(keep: (Path, bool) -> bool, p: Path, t: Tree, rel: Path) {
    forall i :: 0 < i <= |rel| ==> keep(p + rel[..i], At(t, rel[..i]) == Some(DirItem))
  }

  /** A filtered tree has what the tree has wherever the filter lets through the path and all folders above
      it, and nothing else. */
  lemma {:induction false} KeptIs(keep: (Path, bool) -> bool, p: Path, t: Tree, rel: Path)
    requires WellNamed(t)
    ensures At(Kept(keep, p, t), rel) == if Passes(keep, p, t, rel) then At(t, rel) else None
    decreases t, 1
  {
    if t.Folder? && rel != [] { KeptAllIs(keep, p, t.entries, rel); }
  }

  lemma {:induction false} KeptAllIs(keep: (Path, bool) -> bool, p: Path, es: seq<Entry>, rel: Path)
    requires AllWellNamed(es) && rel != []
    ensures AtAll(KeptAll(keep, p, es), rel) == if Passes(keep, p, Folder(es), rel) then AtAll(es, rel) else None
    decreases es, 0
  {
    hide Kept, WellNamed, Passes;
    if es != [] {
      var e := es[0];
      var kept := KeptAll(keep, p, es[1..]);
      if rel[0] == e.name {
        KeptIs(keep, p + [e.name], e.tree, rel[1..]);
        PassesFirst(keep, p, es, rel);
        if HasName(kept, e.name) { KeptNames(keep, p, es[1..], e.name); }
        MissingName(kept, rel);
        if keep(p + [e.name], e.tree.Folder?) {
          assert KeptAll(keep, p, es)[0] == Entry(e.name, Kept(keep, p + [e.name], e.tree));
        } else {
          assert KeptAll(keep, p, es) == kept;
        }
      } else {
        KeptAllIs(keep, p, es[1..], rel);
        PassesOther(keep, p, es, rel);
        if keep(p + [e.name], e.tree.Folder?) {
          assert KeptAll(keep, p, es)[1..] == kept && KeptAll(keep, p, es)[0].name == e.name;
        } else {
          assert KeptAll(keep, p, es) == kept;
        }
      }
    }
  }

  predicate HasName(es: seq<Entry>, name: Bytes) {
    exists j :: 0 <= j < |es| && es[j].name == name
  }

  lemma {:induction false} KeptNames(keep: (Path, bool) -> bool, p: Path, es: seq<Entry>, name: Bytes)
    requires HasName(KeptAll(keep, p, es), name)
    ensures HasName(es, name)
    decreases |es|
  {
    hide Kept;
    if es != [] && es[0].name != name {
      var kept, rest := KeptAll(keep, p, es), KeptAll(keep, p, es[1..]);
      var i :| 0 <= i < |kept| && kept[i].name == name;
      assert rest[i - (|kept| - |rest|)] == kept[i];
      KeptNames(keep, p, es[1..], name);
      var j :| 0 <= j < |es[1..]| && es[1..][j].name == name;
      assert es[j + 1].name == name;
    }
  }

  lemma PassesFirst(keep: (Path, bool) -> bool, p: Path, es: seq<Entry>, rel: Path)
    requires es != [] && rel != [] && rel[0] == es[0].name
    ensures Passes(keep, p, Folder(es), rel) <==>
              keep(p + [es[0].name], es[0].tree.Folder?) && Passes(keep, p + [es[0].name], es[0].tree, rel[1..])
  {
    var t, rest := p + [es[0].name], rel[1..];
    assert rel[..1] == [es[0].name];
    assert (At(es[0].tree, []) == Some(DirItem)) == es[0].tree.Folder?;
    assert rel[..1][1..] == [];
    assert At(Folder(es), rel[..1]) == At(es[0].tree, []);
    forall i | 1 < i <= |rel|
      ensures p + rel[..i] == t + rest[..i - 1] && At(Folder(es), rel[..i]) == At(es[0].tree, rest[..i - 1])
    {
      assert rel[..i][1..] == rest[..i - 1];
    }
    if Passes(keep, p, Folder(es), rel) {
      assert keep(p + rel[..1], At(Folder(es), rel[..1]) == Some(DirItem));
      forall i | 0 < i <= |rest| ensures keep(t + rest[..i], At(es[0].tree, rest[..i]) == Some(DirItem)) {
        assert keep(p + rel[..i + 1], At(Folder(es), rel[..i + 1]) == Some(DirItem));
      }
    }
    if keep(t, es[0].tree.Folder?) && Passes(keep, t, es[0].tree, rest) {
      forall i | 0 < i <= |rel| ensures keep(p + rel[..i], At(Folder(es), rel[..i]) == Some(DirItem)) {
        if i > 1 { assert keep(t + rest[..i - 1], At(es[0].tree, rest[..i - 1]) == Some(DirItem)); }
      }
    }
  }

  lemma PassesOther(keep: (Path, bool) -> bool, p: Path, es: seq<Entry>, rel: Path)
    requires es != [] && rel != [] && rel[0] != es[0].name
    ensures Passes(keep, p, Folder(es), rel) <==> Passes(keep, p, Folder(es[1..]), rel)
  {
    forall i | 0 < i <= |rel| ensures At(Folder(es), rel[..i]) == At(Folder(es[1..]), rel[..i]) {
      assert rel[..i][0] == rel[0];
    }
  }
}
