/** Exporting the snapshots of a container to the cache and importing them elsewhere. A value whose
    snapshots were all exported passes its health check on an empty store, and everything it needs is
    there again with the same contents. */
module Snapshots {
  import opened Wrappers
  import opened EngineData
  import opened Postcard
  import opened Disks
  import opened Layers

  /** How a cached snapshot differs from its parent: a layer of a registry, or exported entries. */
  datatype Layer = Remote(manifest: string) | Local(entries: seq<TarEntry>)

  /** Where a stored snapshot comes from: a registry, an overlay whose upper directory it keeps, or an
      import of what the cache has under its name. */
  datatype Origin = Pulled(manifest: string) | Overlaid(upper: seq<UpperEntry>) | Imported

  datatype Snapshot = Snapshot(parent: Option<string>, contents: Disk, origin: Origin)

  /** The header of a cache entry and what follows it. */
  datatype CacheEntry = CacheEntry(parent: Option<string>, layer: Layer)

  type Store = map<string, Snapshot>

  type Cached = map<string, CacheEntry>

  /** The layers that registries serve. */
  type Registry = string -> seq<TarEntry>

  const EMPTY: Disk := map[[] := DirItem]

  function ApplyLayer(r: Registry, base: Disk, l: Layer): Option<Disk> {
    match l
    case Remote(m) => Apply(base, r(m))
    case Local(entries) => Apply(base, entries)
  }

  function BaseOf(s: Store, parent: Option<string>): Disk {
    if parent.Some? && parent.value in s then s[parent.value].contents else EMPTY
  }

  /** The contents of a snapshot are its registry's layer on its parent, or what an overlay over its
      parent shows; an imported one is still cached. */
  ghost predicate Sourced(r: Registry, s: Store, c: Cached, n: string)
    requires n in s
  {
    var base := BaseOf(s, s[n].parent);
    match s[n].origin
    case Pulled(m) => Apply(base, r(m)) == Some(s[n].contents)
    case Overlaid(upper) => Clean(upper) && FitsAll(base, [], upper) && MergedAll(base, [], upper, s[n].contents)
    case Imported => n in c
  }

  /** The parents of stored snapshots are stored, and each snapshot has its contents from its origin. */
  ghost predicate Sound(r: Registry, s: Store, c: Cached, rank: string -> nat) {
    forall n :: n in s ==>
      && Sourced(r, s, c, n) && IsDir(s[n].contents, [])
      && (s[n].parent.Some? ==> s[n].parent.value in s && rank(s[n].parent.value) < rank(n))
  }

  /** The disk that an overlay shows over its parent is the exported upper directory applied to it. */
  lemma OverlayIsItsLayer(base: Disk, upper: seq<UpperEntry>, contents: Disk)
    requires IsDir(base, []) && Clean(upper) && FitsAll(base, [], upper) && MergedAll(base, [], upper, contents)
    ensures Apply(base, ExportAll([], upper)) == Some(contents)
  {
    hide Apply, Clean, FitsAll, OverlayAll;
    ExportAllApplies(base, [], upper);
    var after := Apply(base, ExportAll([], upper)).value;
    var root: Path := [];
    forall q ensures Look(after, q) == Look(contents, q) {
      assert Look(after, q) == if root < q then OverlayAll(base, root, upper, q[|root|..]) else Look(base, q);
      assert Look(contents, q) == if root < q then OverlayAll(base, root, upper, q[|root|..]) else Look(base, q);
    }
    SameLooks(after, contents);
  }

  lemma SoundStays(r: Registry, s: Store, c: Cached, d: Cached, rank: string -> nat)
    requires Sound(r, s, c, rank) && Extends(c, d)
    ensures Sound(r, s, d, rank)
  {
    hide Apply, Clean, FitsAll, MergedAll;
    forall n | n in s ensures Sourced(r, s, d, n) {
      assert Sourced(r, s, c, n);
    }
  }

  lemma {:induction false} ApplyKeepsRoot(d: Disk, ts: seq<TarEntry>)
    requires IsDir(d, []) && Apply(d, ts).Some?
    ensures IsDir(Apply(d, ts).value, [])
    decreases |ts|
  {
    hide ApplyEntry;
    if ts != [] {
      EntryKeepsRoot(d, ts[0]);
      ApplyKeepsRoot(ApplyEntry(d, ts[0]).value, ts[1..]);
    }
  }

  lemma {:induction false} CreatingKeepsRoot(d: Disk, p: Path)
    requires IsDir(d, []) && CreateDirs(d, p).Some?
    ensures IsDir(CreateDirs(d, p).value, [])
    decreases |p|
  {
    if p !in d { CreatingKeepsRoot(d, Parent(p)); }
  }

  lemma EntryKeepsRoot(d: Disk, t: TarEntry)
    requires IsDir(d, []) && ApplyEntry(d, t).Some?
    ensures IsDir(ApplyEntry(d, t).value, [])
  {
    CreatingKeepsRoot(d, Parent(t.path));
  }

  /** Where an imported snapshot comes from: a pulled layer keeps its manifest as a label. */
  function OriginOf(l: Layer): Origin {
    match l
    case Remote(m) => Pulled(m)
    case Local(_) => Imported
  }

  /** A store stays sound when a cached snapshot is imported on its stored parent. */
  lemma ImportedIsSound(r: Registry, s: Store, c: Cached, rank: string -> nat, n: string, contents: Disk)
    requires Sound(r, s, c, rank) && n in c && n !in s
    requires c[n].parent.Some? ==> c[n].parent.value in s && rank(c[n].parent.value) < rank(n)
    requires ApplyLayer(r, BaseOf(s, c[n].parent), c[n].layer) == Some(contents)
    ensures Sound(r, s[n := Snapshot(c[n].parent, contents, OriginOf(c[n].layer))], c, rank)
  {
    hide Apply, Clean, FitsAll, MergedAll;
    var t := s[n := Snapshot(c[n].parent, contents, OriginOf(c[n].layer))];
    ApplyKeepsRoot(BaseOf(s, c[n].parent), if c[n].layer.Remote? then r(c[n].layer.manifest) else c[n].layer.entries);
    forall m | m in t ensures Sourced(r, t, c, m) {
      if m != n { assert Sourced(r, s, c, m) && BaseOf(t, s[m].parent) == BaseOf(s, s[m].parent); }
    }
  }

  /** What a snapshot is exported as. */
  function LayerOf(o: Origin): Layer
    requires !o.Imported?
  {
    match o
    case Pulled(m) => Remote(m)
    case Overlaid(upper) => Local(ExportAll([], upper))
  }

  /** The layer that a sound snapshot is exported as restores it. */
  lemma ExportRestores(r: Registry, s: Store, c: Cached, rank: string -> nat, n: string)
    requires Sound(r, s, c, rank) && n in s && !s[n].origin.Imported?
    ensures Restores(r, s, n, CacheEntry(s[n].parent, LayerOf(s[n].origin)))
  {
    hide Apply, Clean, FitsAll, MergedAll, ExportAll;
    assert Sourced(r, s, c, n);
    if s[n].origin.Overlaid? {
      assert IsDir(BaseOf(s, s[n].parent), []);
      OverlayIsItsLayer(BaseOf(s, s[n].parent), s[n].origin.upper, s[n].contents);
    }
  }

  lemma SameLooks(a: Disk, b: Disk)
    requires forall q :: Look(a, q) == Look(b, q)
    ensures a == b
  {
    forall q ensures q in a <==> q in b {
      assert Look(a, q) == Look(b, q);
    }
    forall q | q in a ensures a[q] == b[q] {
      assert Look(a, q) == Look(b, q);
    }
  }

  /** The entry restores the snapshot on its parent. */
  ghost predicate Restores(r: Registry, s: Store, n: string, e: CacheEntry)
    requires n in s
  {
    e.parent == s[n].parent && ApplyLayer(r, BaseOf(s, s[n].parent), e.layer) == Some(s[n].contents)
  }

  /** Names stand for contents: a cached entry restores any snapshot stored under its name. */
  ghost predicate Honest(r: Registry, s: Store, c: Cached) {
    forall n :: n in s && n in c ==> Restores(r, s, n, c[n])
  }

  /** The snapshot and all its ancestors are cached. */
  ghost predicate Backed(r: Registry, s: Store, c: Cached, rank: string -> nat, n: string)
    decreases rank(n)
  {
    && n in s && n in c && Restores(r, s, n, c[n])
    && (s[n].parent.Some? ==> rank(s[n].parent.value) < rank(n) && Backed(r, s, c, rank, s[n].parent.value))
  }

  /** The same for everything that a container refers to. */
  ghost predicate AllBacked(r: Registry, s: Store, c: Cached, rank: string -> nat, x: ContainerState)
    decreases x, 1
  {
    Backed(r, s, c, rank, x.snapshot) && ServicesBacked(r, s, c, rank, x.config.services)
  }

  ghost predicate ServicesBacked(r: Registry, s: Store, c: Cached, rank: string -> nat, xs: seq<NamedService>)
    decreases xs, 0
  {
    xs == [] || (AllBacked(r, s, c, rank, xs[0].service.container) && ServicesBacked(r, s, c, rank, xs[1..]))
  }

  /** The snapshot and all its ancestors are stored with the contents they have in `origin`. */
  ghost predicate Restored(origin: Store, s: Store, rank: string -> nat, n: string)
    decreases rank(n)
  {
    && n in origin && n in s && s[n].contents == origin[n].contents && s[n].parent == origin[n].parent
    && (s[n].parent.Some? ==> rank(s[n].parent.value) < rank(n) && Restored(origin, s, rank, s[n].parent.value))
  }

  ghost predicate AllRestored(origin: Store, s: Store, rank: string -> nat, x: ContainerState)
    decreases x, 1
  {
    Restored(origin, s, rank, x.snapshot) && ServicesRestored(origin, s, rank, x.config.services)
  }

  ghost predicate ServicesRestored(origin: Store, s: Store, rank: string -> nat, xs: seq<NamedService>)
    decreases xs, 0
  {
    xs == [] || (AllRestored(origin, s, rank, xs[0].service.container) && ServicesRestored(origin, s, rank, xs[1..]))
  }

  /** Entries are only ever added. */
  ghost predicate Extends<T>(a: map<string, T>, b: map<string, T>) {
    forall n :: n in a ==> n in b && b[n] == a[n]
  }

  lemma {:induction false} BackedStays(r: Registry, s: Store, c: Cached, d: Cached, rank: string -> nat, n: string)
    requires Backed(r, s, c, rank, n) && Extends(c, d)
    ensures Backed(r, s, d, rank, n)
    decreases rank(n)
  {
    if s[n].parent.Some? { BackedStays(r, s, c, d, rank, s[n].parent.value); }
  }

  lemma {:induction false} AllBackedStays(r: Registry, s: Store, c: Cached, d: Cached, rank: string -> nat,
                                          x: ContainerState)
    requires AllBacked(r, s, c, rank, x) && Extends(c, d)
    ensures AllBacked(r, s, d, rank, x)
    decreases x, 1
  {
    BackedStays(r, s, c, d, rank, x.snapshot);
    ServicesBackedStay(r, s, c, d, rank, x.config.services);
  }

  lemma {:induction false} ServicesBackedStay(r: Registry, s: Store, c: Cached, d: Cached, rank: string -> nat,
                                              xs: seq<NamedService>)
    requires ServicesBacked(r, s, c, rank, xs) && Extends(c, d)
    ensures ServicesBacked(r, s, d, rank, xs)
    decreases xs, 0
  {
    if xs != [] {
      AllBackedStays(r, s, c, d, rank, xs[0].service.container);
      ServicesBackedStay(r, s, c, d, rank, xs[1..]);
    }
  }

  lemma {:induction false} RestoredStays(origin: Store, s: Store, t: Store, rank: string -> nat, n: string)
    requires Restored(origin, s, rank, n) && Extends(s, t)
    ensures Restored(origin, t, rank, n)
    decreases rank(n)
  {
    if s[n].parent.Some? { RestoredStays(origin, s, t, rank, s[n].parent.value); }
  }

  lemma {:induction false} AllRestoredStays(origin: Store, s: Store, t: Store, rank: string -> nat, x: ContainerState)
    requires AllRestored(origin, s, rank, x) && Extends(s, t)
    ensures AllRestored(origin, t, rank, x)
    decreases x, 1
  {
    RestoredStays(origin, s, t, rank, x.snapshot);
    ServicesRestoredStay(origin, s, t, rank, x.config.services);
  }

  lemma {:induction false} ServicesRestoredStay(origin: Store, s: Store, t: Store, rank: string -> nat,
                                                xs: seq<NamedService>)
    requires ServicesRestored(origin, s, rank, xs) && Extends(s, t)
    ensures ServicesRestored(origin, t, rank, xs)
    decreases xs, 0
  {
    if xs != [] {
      AllRestoredStays(origin, s, t, rank, xs[0].service.container);
      ServicesRestoredStay(origin, s, t, rank, xs[1..]);
    }
  }

  /** Names that two stores share stand for the same snapshot, and parents are stored. */
  ghost predicate Agrees(origin: Store, s: Store, rank: string -> nat) {
    forall n :: n in s && n in origin ==> s[n].contents == origin[n].contents && s[n].parent == origin[n].parent
  }

  ghost predicate Closed(s: Store, rank: string -> nat) {
    forall n :: n in s && s[n].parent.Some? ==> s[n].parent.value in s && rank(s[n].parent.value) < rank(n)
  }

  lemma {:induction false} StoredIsRestored(r: Registry, origin: Store, s: Store, c: Cached, rank: string -> nat,
                                            n: string)
    requires Agrees(origin, s, rank) && Closed(s, rank) && n in s && Backed(r, origin, c, rank, n)
    ensures Restored(origin, s, rank, n)
    decreases rank(n)
  {
    if s[n].parent.Some? { StoredIsRestored(r, origin, s, c, rank, s[n].parent.value); }
  }

  ghost predicate Founded(c: Cached, rank: string -> nat) {
    forall n :: n in c && c[n].parent.Some? ==> rank(c[n].parent.value) < rank(n)
  }

  lemma ParentIsSmaller(c: Cached, rank: string -> nat, n: string)
    requires Founded(c, rank) && n in c
    ensures c[n].parent.Some? ==> rank(c[n].parent.value) < rank(n)
  {
  }

  /** Importing a cached snapshot on its stored parent keeps the agreement with the store it came from;
      if that store has the snapshot, its layer applies. */
  lemma ImportedAgrees(r: Registry, origin: Store, s: Store, c: Cached, rank: string -> nat, n: string)
    requires Agrees(origin, s, rank) && Closed(origin, rank) && Closed(s, rank) && Honest(r, origin, c)
    requires Founded(c, rank)
    requires n in c && (c[n].parent.Some? ==> c[n].parent.value in s)
    ensures n in origin ==> ApplyLayer(r, BaseOf(s, c[n].parent), c[n].layer).Some?
    ensures var applied := ApplyLayer(r, BaseOf(s, c[n].parent), c[n].layer);
      applied.Some? ==> KeepsAgreeing(origin, s, rank, n, Snapshot(c[n].parent, applied.value, OriginOf(c[n].layer)))
  {
    hide ApplyLayer;
    if n in origin {
      assert Restores(r, origin, n, c[n]);
      assert BaseOf(s, c[n].parent) == BaseOf(origin, c[n].parent);
    }
  }

  ghost predicate KeepsAgreeing(origin: Store, s: Store, rank: string -> nat, n: string, x: Snapshot) {
    Agrees(origin, s[n := x], rank) && Closed(s[n := x], rank)
  }

  lemma SoundIsClosed(r: Registry, s: Store, c: Cached, rank: string -> nat)
    requires Sound(r, s, c, rank)
    ensures Closed(s, rank)
  {
  }

  /** The contents that a snapshot has, or gets by applying what is cached for it and its ancestors. */
  ghost function ContentsOf(r: Registry, s: Store, c: Cached, rank: string -> nat, n: string): Option<Disk>
    decreases rank(n)
  {
    if n in s then Some(s[n].contents)
    else if n !in c then None
    else match c[n].parent
      case None => ApplyLayer(r, EMPTY, c[n].layer)
      case Some(p) =>
        if rank(p) >= rank(n) || ContentsOf(r, s, c, rank, p).None? then None
        else ApplyLayer(r, ContentsOf(r, s, c, rank, p).value, c[n].layer)
  }

  /** What a store has gained has the contents that could be rebuilt from it. */
  ghost predicate Grown(r: Registry, before: Store, after: Store, c: Cached, rank: string -> nat) {
    && Extends(before, after)
    && forall n :: n in after && n !in before ==> ContentsOf(r, before, c, rank, n) == Some(after[n].contents)
  }

  lemma {:induction false} GrownRebuilds(r: Registry, before: Store, after: Store, c: Cached, rank: string -> nat,
                                         n: string)
    requires Grown(r, before, after, c, rank)
    ensures ContentsOf(r, after, c, rank, n) == ContentsOf(r, before, c, rank, n)
    decreases rank(n)
  {
    hide ApplyLayer;
    if n !in after && n in c && c[n].parent.Some? && rank(c[n].parent.value) < rank(n) {
      GrownRebuilds(r, before, after, c, rank, c[n].parent.value);
    }
  }

  lemma GrownTwice(r: Registry, a: Store, b: Store, d: Store, c: Cached, rank: string -> nat)
    requires Grown(r, a, b, c, rank) && Grown(r, b, d, c, rank)
    ensures Grown(r, a, d, c, rank)
  {
    hide ContentsOf;
    forall n | n in d && n !in a ensures ContentsOf(r, a, c, rank, n) == Some(d[n].contents) {
      GrownRebuilds(r, a, b, c, rank, n);
      if n in b { assert d[n] == b[n]; }
    }
  }

  /** Everything that a container refers to is stored or can be rebuilt. */
  ghost predicate AllRebuilt(r: Registry, s: Store, c: Cached, rank: string -> nat, x: ContainerState)
    decreases x, 1
  {
    ContentsOf(r, s, c, rank, x.snapshot).Some? && ServicesRebuilt(r, s, c, rank, x.config.services)
  }

  ghost predicate ServicesRebuilt(r: Registry, s: Store, c: Cached, rank: string -> nat, xs: seq<NamedService>)
    decreases xs, 0
  {
    xs == [] || (AllRebuilt(r, s, c, rank, xs[0].service.container) && ServicesRebuilt(r, s, c, rank, xs[1..]))
  }

  lemma {:induction false} AllRebuiltStays(r: Registry, before: Store, after: Store, c: Cached, rank: string -> nat,
                                           x: ContainerState)
    requires Grown(r, before, after, c, rank)
    ensures AllRebuilt(r, after, c, rank, x) <==> AllRebuilt(r, before, c, rank, x)
    decreases x, 1
  {
    hide ContentsOf, Grown;
    GrownRebuilds(r, before, after, c, rank, x.snapshot);
    ServicesRebuiltStay(r, before, after, c, rank, x.config.services);
  }

  lemma {:induction false} ServicesRebuiltStay(r: Registry, before: Store, after: Store, c: Cached, rank: string -> nat,
                                               xs: seq<NamedService>)
    requires Grown(r, before, after, c, rank)
    ensures ServicesRebuilt(r, after, c, rank, xs) <==> ServicesRebuilt(r, before, c, rank, xs)
    decreases xs, 0
  {
    hide Grown;
    if xs != [] {
      AllRebuiltStays(r, before, after, c, rank, xs[0].service.container);
      ServicesRebuiltStay(r, before, after, c, rank, xs[1..]);
    }
  }

  /** Everything that a container refers to is stored. */
  ghost predicate AllStored(s: Store, x: ContainerState)
    decreases x, 1
  {
    x.snapshot in s && ServicesStored(s, x.config.services)
  }

  ghost predicate ServicesStored(s: Store, xs: seq<NamedService>)
    decreases xs, 0
  {
    xs == [] || (AllStored(s, xs[0].service.container) && ServicesStored(s, xs[1..]))
  }

  lemma {:induction false} AllStoredStays(s: Store, t: Store, x: ContainerState)
    requires Extends(s, t) && AllStored(s, x)
    ensures AllStored(t, x)
    decreases x, 1
  {
    ServicesStoredStay(s, t, x.config.services);
  }

  lemma {:induction false} ServicesStoredStay(s: Store, t: Store, xs: seq<NamedService>)
    requires Extends(s, t) && ServicesStored(s, xs)
    ensures ServicesStored(t, xs)
    decreases xs, 0
  {
    if xs != [] {
      AllStoredStays(s, t, xs[0].service.container);
      ServicesStoredStay(s, t, xs[1..]);
    }
  }

  lemma {:induction false} OneMoreStored(s: Store, xs: seq<NamedService>, i: nat)
    requires i < |xs| && ServicesStored(s, xs[..i]) && AllStored(s, xs[i].service.container)
    ensures ServicesStored(s, xs[..i + 1])
    decreases i
  {
    hide AllStored;
    if i == 0 {
      assert xs[..1] == [xs[0]] && [xs[0]][1..] == [];
    } else {
      assert xs[..i][0] == xs[0] && xs[..i][1..] == xs[1..][..i - 1];
      OneMoreStored(s, xs[1..], i - 1);
      assert xs[..i + 1][0] == xs[0] && xs[..i + 1][1..] == xs[1..][..i];
    }
  }

  /** The snapshot and its ancestors are stored, and each is cached or may be written. */
  ghost predicate Exportable(s: Store, c: Cached, writes: string -> bool, rank: string -> nat, n: string)
    decreases rank(n)
  {
    && n in s && (n in c || writes(n))
    && (s[n].parent.Some? ==>
          rank(s[n].parent.value) < rank(n) && Exportable(s, c, writes, rank, s[n].parent.value))
  }

  ghost predicate AllExportable(s: Store, c: Cached, writes: string -> bool, rank: string -> nat, x: ContainerState)
    decreases x, 1
  {
    Exportable(s, c, writes, rank, x.snapshot) && ServicesExportable(s, c, writes, rank, x.config.services)
  }

  ghost predicate ServicesExportable(s: Store, c: Cached, writes: string -> bool, rank: string -> nat,
                                     xs: seq<NamedService>)
    decreases xs, 0
  {
    xs == [] ||
    (AllExportable(s, c, writes, rank, xs[0].service.container) && ServicesExportable(s, c, writes, rank, xs[1..]))
  }

  /** Only what may be written was added. */
  ghost predicate Wrote(c: Cached, d: Cached, writes: string -> bool) {
    Extends(c, d) && forall n :: n in d && n !in c ==> writes(n)
  }

  lemma {:induction false} ExportableStays(s: Store, c: Cached, d: Cached, writes: string -> bool, rank: string -> nat,
                                           n: string)
    requires Wrote(c, d, writes)
    ensures Exportable(s, d, writes, rank, n) <==> Exportable(s, c, writes, rank, n)
    decreases rank(n)
  {
    if n in s && s[n].parent.Some? && rank(s[n].parent.value) < rank(n) {
      ExportableStays(s, c, d, writes, rank, s[n].parent.value);
    }
  }

  lemma {:induction false} AllExportableStays(s: Store, c: Cached, d: Cached, writes: string -> bool,
                                              rank: string -> nat, x: ContainerState)
    requires Wrote(c, d, writes)
    ensures AllExportable(s, d, writes, rank, x) <==> AllExportable(s, c, writes, rank, x)
    decreases x, 1
  {
    ExportableStays(s, c, d, writes, rank, x.snapshot);
    ServicesExportableStay(s, c, d, writes, rank, x.config.services);
  }

  lemma {:induction false} ServicesExportableStay(s: Store, c: Cached, d: Cached, writes: string -> bool,
                                                  rank: string -> nat, xs: seq<NamedService>)
    requires Wrote(c, d, writes)
    ensures ServicesExportable(s, d, writes, rank, xs) <==> ServicesExportable(s, c, writes, rank, xs)
    decreases xs, 0
  {
    if xs != [] {
      AllExportableStays(s, c, d, writes, rank, xs[0].service.container);
      ServicesExportableStay(s, c, d, writes, rank, xs[1..]);
    }
  }

  class Client {
    const registry: Registry
    var store: Store
    var cache: Cached

    constructor (r: Registry, s: Store, c: Cached)
      ensures registry == r && store == s && cache == c
    {
      registry, store, cache := r, s, c;
    }

    /** The manifest of a pulled layer, or the entries of the upper directory. */
    method ReadLayer(o: Origin) returns (layer: Layer)
      requires !o.Imported?
      ensures layer == LayerOf(o)
    {
      match o {
        case Pulled(m) => layer := Remote(m);
        case Overlaid(upper) =>
          var builder := new TarBuilder();
          builder.AppendUpperdir([], upper);
          layer := Local(builder.entries);
      }
    }

    /** Exports a snapshot after its parents; an entry that exists is not written again. */
    method ExportSnapshot(snapshot: string, writes: string -> bool, ghost rank: string -> nat) returns (ok: bool)
      requires Sound(registry, store, cache, rank) && Honest(registry, store, cache) && Founded(cache, rank)
      modifies `cache
      ensures Extends(old(cache), cache) && Honest(registry, store, cache) && Founded(cache, rank)
      ensures Sound(registry, store, cache, rank) && Wrote(old(cache), cache, writes)
      ensures forall n :: n in cache && n !in old(cache) ==> rank(n) <= rank(snapshot)
      ensures ok <==> Exportable(store, old(cache), writes, rank, snapshot)
      ensures ok ==> Backed(registry, store, cache, rank, snapshot)
      decreases rank(snapshot)
    {
      hide ApplyLayer, Apply, ExportAll;
      if snapshot !in store { return false; }
      var info := store[snapshot];
      if info.parent.Some? {
        ok := ExportSnapshot(info.parent.value, writes, rank);
        if !ok { return; }
      }
      if snapshot in cache { return true; }
      if !writes(snapshot) { return false; }
      ghost var before := cache;
      assert Sourced(registry, store, cache, snapshot);
      ExportRestores(registry, store, cache, rank, snapshot);
      var layer := ReadLayer(info.origin);
      cache := cache[snapshot := CacheEntry(info.parent, layer)];
      SoundStays(registry, store, before, cache, rank);
      if info.parent.Some? { BackedStays(registry, store, before, cache, rank, info.parent.value); }
      ok := true;
    }

    /** Exports everything a container refers to, going on after errors; tells whether all went well. */
    method ExportSnapshotsFrom(x: ContainerState, writes: string -> bool, ghost rank: string -> nat) returns (ok: bool)
      requires Sound(registry, store, cache, rank) && Honest(registry, store, cache) && Founded(cache, rank)
      modifies `cache
      ensures Extends(old(cache), cache) && Honest(registry, store, cache) && Founded(cache, rank)
      ensures Sound(registry, store, cache, rank) && Wrote(old(cache), cache, writes)
      ensures ok <==> AllExportable(store, old(cache), writes, rank, x)
      ensures ok ==> AllBacked(registry, store, cache, rank, x)
      decreases x
    {
      hide Sound, Honest, Backed, Founded, Exportable;
      ok := ExportSnapshot(x.snapshot, writes, rank);
      var services := x.config.services;
      ghost var first, start := ok, cache;
      ServicesExportableStay(store, old(cache), start, writes, rank, services);
      for i := 0 to |services|
        invariant Extends(old(cache), cache) && Honest(registry, store, cache) && Founded(cache, rank)
        invariant Sound(registry, store, cache, rank) && Wrote(start, cache, writes)
        invariant ok && ServicesExportable(store, start, writes, rank, services[i..])
                  <==> first && ServicesExportable(store, start, writes, rank, services)
        invariant ok ==>
                  Backed(registry, store, cache, rank, x.snapshot) &&
                  ServicesBacked(registry, store, cache, rank, services[..i])
      {
        assert services[i..][0] == services[i] && services[i..][1..] == services[i + 1..];
        ghost var before := cache;
        var exported := ExportSnapshotsFrom(services[i].service.container, writes, rank);
        AllExportableStays(store, start, before, writes, rank, services[i].service.container);
        if ok && exported {
          BackedStays(registry, store, before, cache, rank, x.snapshot);
          ServicesBackedStay(registry, store, before, cache, rank, services[..i]);
          OneMoreBacked(registry, store, cache, rank, services, i);
        }
        ok := ok && exported;
      }
      assert services[..|services|] == services;
    }

    /** What the store and the cache have to do with the store the cache was filled from. */
    ghost predicate Follows(origin: Store, rank: string -> nat)
      reads this
    {
      && Sound(registry, store, cache, rank) && Closed(store, rank) && Agrees(origin, store, rank)
      && Founded(cache, rank) && Honest(registry, origin, cache) && Closed(origin, rank)
    }

    /** Makes sure that a snapshot is stored, importing it if need be. */
    method EnsureSnapshot(snapshot: string, ghost origin: Store, ghost rank: string -> nat) returns (ok: bool)
      requires Follows(origin, rank)
      modifies `store
      ensures Follows(origin, rank) && Grown(registry, old(store), store, cache, rank)
      ensures ok <==> snapshot in store
      ensures ok <==> ContentsOf(registry, old(store), cache, rank, snapshot).Some?
      ensures forall n :: n in store && n !in old(store) ==> rank(n) <= rank(snapshot)
      ensures Backed(registry, origin, cache, rank, snapshot) ==> ok && Restored(origin, store, rank, snapshot)
      decreases rank(snapshot), 1
    {
      hide Honest, Agrees, Founded, Closed, Sound, ApplyLayer;
      if snapshot in store {
        ok := true;
      } else {
        ok := ImportSnapshot(snapshot, origin, rank);
      }
      if Backed(registry, origin, cache, rank, snapshot) {
        StoredIsRestored(registry, origin, store, cache, rank, snapshot);
      }
    }

    /** Imports a snapshot on top of its parent; tells whether it was cached and could be applied. */
    method ImportSnapshot(snapshot: string, ghost origin: Store, ghost rank: string -> nat) returns (ok: bool)
      requires Follows(origin, rank) && snapshot !in store
      modifies `store
      ensures Follows(origin, rank) && Grown(registry, old(store), store, cache, rank)
      ensures ok <==> snapshot in store
      ensures ok <==> ContentsOf(registry, old(store), cache, rank, snapshot).Some?
      ensures forall n :: n in store && n !in old(store) ==> rank(n) <= rank(snapshot)
      ensures Backed(registry, origin, cache, rank, snapshot) ==> ok
      decreases rank(snapshot), 0
    {
      hide ApplyLayer, Agrees, Closed, Honest, Restored, Sound;
      if snapshot !in cache { return false; }
      var entry := cache[snapshot];
      ParentIsSmaller(cache, rank, snapshot);
      if entry.parent.Some? {
        ok := EnsureSnapshot(entry.parent.value, origin, rank);
        if !ok { return; }
      }
      ImportedAgrees(registry, origin, store, cache, rank, snapshot);
      ParentRebuilt(registry, old(store), store, cache, rank, snapshot);
      var applied := ApplyLayer(registry, BaseOf(store, entry.parent), entry.layer);
      if applied.None? { return false; }
      ImportedIsSound(registry, store, cache, rank, snapshot, applied.value);
      ghost var before := store;
      store := store[snapshot := Snapshot(entry.parent, applied.value, OriginOf(entry.layer))];
      OneRebuilt(registry, old(store), before, store, cache, rank, snapshot);
      ok := true;
    }

    /** Whether everything a container refers to is stored, after importing what is missing. */
    method HealthcheckValue(x: ContainerState, ghost origin: Store, ghost rank: string -> nat) returns (ok: bool)
      requires Follows(origin, rank)
      modifies `store
      ensures Follows(origin, rank) && Grown(registry, old(store), store, cache, rank)
      ensures ok <==> AllRebuilt(registry, old(store), cache, rank, x)
      ensures ok ==> AllStored(store, x)
      ensures AllBacked(registry, origin, cache, rank, x) ==> ok && AllRestored(origin, store, rank, x)
      decreases x
    {
      hide Backed, Restored, Follows(), ContentsOf, Grown;
      ok := EnsureSnapshot(x.snapshot, origin, rank);
      GrownIsExtended(registry, old(store), store, cache, rank);
      if !ok { return; }
      var services := x.config.services;
      ServicesRebuiltStay(registry, old(store), store, cache, rank, services);
      ghost var start := store;
      ghost var backed := AllBacked(registry, origin, cache, rank, x);
      for i := 0 to |services|
        invariant Follows(origin, rank) && Grown(registry, old(store), store, cache, rank) && Extends(start, store)
        invariant ServicesRebuilt(registry, old(store), cache, rank, services[i..])
                  <==> ServicesRebuilt(registry, old(store), cache, rank, services)
        invariant ServicesStored(store, services[..i])
        invariant backed ==> ServicesBacked(registry, origin, cache, rank, services[i..])
        invariant backed ==>
                  Restored(origin, store, rank, x.snapshot) && ServicesRestored(origin, store, rank, services[..i])
      {
        assert services[i..][0] == services[i] && services[i..][1..] == services[i + 1..];
        ghost var before := store;
        ok := HealthcheckValue(services[i].service.container, origin, rank);
        AllRebuiltStays(registry, old(store), before, cache, rank, services[i].service.container);
        GrownTwice(registry, old(store), before, store, cache, rank);
        GrownIsExtended(registry, before, store, cache, rank);
        if !ok { return; }
        ServicesStoredStay(before, store, services[..i]);
        OneMoreStored(store, services, i);
        if backed {
          RestoredStays(origin, before, store, rank, x.snapshot);
          ServicesRestoredStay(origin, before, store, rank, services[..i]);
          OneMoreRestored(origin, store, rank, services, i);
        }
      }
      assert services[..|services|] == services;
      ok := true;
    }
  }

  lemma GrownIsExtended(r: Registry, before: Store, after: Store, c: Cached, rank: string -> nat)
    requires Grown(r, before, after, c, rank)
    ensures Extends(before, after)
  {
  }

  /** Once the parent is stored, what can be rebuilt is its layer applied to the parent. */
  lemma ParentRebuilt(r: Registry, before: Store, s: Store, c: Cached, rank: string -> nat, n: string)
    requires Grown(r, before, s, c, rank) && n in c && n !in before && Founded(c, rank)
    requires c[n].parent.Some? ==> c[n].parent.value in s
    ensures ContentsOf(r, before, c, rank, n) == ApplyLayer(r, BaseOf(s, c[n].parent), c[n].layer)
  {
    hide ApplyLayer;
    if c[n].parent.Some? { GrownRebuilds(r, before, s, c, rank, c[n].parent.value); }
  }

  lemma OneRebuilt(r: Registry, before: Store, s: Store, t: Store, c: Cached, rank: string -> nat, n: string)
    requires Grown(r, before, s, c, rank) && n !in s && n in t && t == s[n := t[n]]
    requires ContentsOf(r, before, c, rank, n) == Some(t[n].contents)
    ensures Grown(r, before, t, c, rank)
  {
    hide ContentsOf;
  }

  lemma {:induction false} OneMoreBacked(r: Registry, s: Store, c: Cached, rank: string -> nat, xs: seq<NamedService>,
                                         i: nat)
    requires i < |xs| && ServicesBacked(r, s, c, rank, xs[..i]) && AllBacked(r, s, c, rank, xs[i].service.container)
    ensures ServicesBacked(r, s, c, rank, xs[..i + 1])
    decreases i
  {
    hide AllBacked;
    if i == 0 {
      assert xs[..1] == [xs[0]];
      assert ServicesBacked(r, s, c, rank, [xs[0]][1..]);
    } else {
      assert xs[..i][0] == xs[0] && xs[..i][1..] == xs[1..][..i - 1];
      OneMoreBacked(r, s, c, rank, xs[1..], i - 1);
      assert xs[..i + 1][0] == xs[0] && xs[..i + 1][1..] == xs[1..][..i];
    }
  }

  lemma {:induction false} OneMoreRestored(origin: Store, s: Store, rank: string -> nat, xs: seq<NamedService>, i: nat)
    requires i < |xs| && ServicesRestored(origin, s, rank, xs[..i])
    requires AllRestored(origin, s, rank, xs[i].service.container)
    ensures ServicesRestored(origin, s, rank, xs[..i + 1])
    decreases i
  {
    hide AllRestored;
    if i == 0 {
      assert xs[..1] == [xs[0]];
      assert ServicesRestored(origin, s, rank, [xs[0]][1..]);
    } else {
      assert xs[..i][0] == xs[0] && xs[..i][1..] == xs[1..][..i - 1];
      OneMoreRestored(origin, s, rank, xs[1..], i - 1);
      assert xs[..i + 1][0] == xs[0] && xs[..i + 1][1..] == xs[1..][..i];
    }
  }

  /** Exporting a container on one machine and checking its health on another that has nothing but the
      same cache: it is healthy, and all that it needs is there with the same contents. */
  method Transfer(there: Client, here: Client, x: ContainerState, writes: string -> bool, ghost rank: string -> nat)
    returns (exported: bool, healthy: bool)
    requires there != here && there.registry == here.registry && here.store == map[]
    requires Sound(there.registry, there.store, there.cache, rank) && Honest(there.registry, there.store, there.cache)
    requires Founded(there.cache, rank)
    modifies there, here
    ensures exported <==> AllExportable(old(there.store), old(there.cache), writes, rank, x)
    ensures healthy <==> exported
    ensures exported ==> AllRestored(old(there.store), here.store, rank, x)
    ensures exported ==> Sound(here.registry, here.store, here.cache, rank)
  {
    hide AllBacked, AllRestored, Honest, ApplyLayer, AllExportable, AllRebuilt, AllStored;
    healthy := false;
    SoundIsClosed(there.registry, there.store, there.cache, rank);
    exported := there.ExportSnapshotsFrom(x, writes, rank);
    if !exported { return; }
    here.cache := there.cache;
    healthy := here.HealthcheckValue(x, there.store, rank);
  }
}
