/** Copying files into a container: the snapshot that holds the result is named after the container's
    state and the files, not after where they were put. A copy therefore finds its own files exactly
    when no earlier copy of the same files into the same state left something else under that name. */
module WithSnapshots {
  import opened Wrappers
  import opened EngineData
  import opened Postcard
  import opened CacheKeys

  /** The files of a snapshot by path. */
  type Files = map<Bytes, Bytes>

  /** Snapshot names by hash, joining a path to a working directory, and what copying a file system to
      a place does to the files there. */
  datatype Copying = Copying(
    hashing: Hashing,
    name: Bytes -> string,
    join: (Bytes, Bytes) -> Bytes,
    put: (Files, FileSystem, Bytes) -> Files)

  /** The key of the snapshot that a copy makes: the state and the hash of the files. */
  function CopyKey(c: Copying, state: ContainerState, files: FileSystem): Key {
    WithKey(state, c.hashing.digest(Fed(c.hashing, FilesKey(files))))
  }

  function SnapshotName(c: Copying, state: ContainerState, files: FileSystem): string {
    c.name(c.hashing.digest(Fed(c.hashing, CopyKey(c, state, files))))
  }

  /** All that is hashed to name the snapshot of a copy. */
  function CopyHashed(c: Copying, state: ContainerState, files: FileSystem): set<Bytes> {
    Hashed(c.hashing, FilesKey(files)) + Hashed(c.hashing, CopyKey(c, state, files))
  }

  /** Copies with different states or files never share a snapshot, unless what was hashed collides. */
  lemma NamesAreDistinct(c: Copying, hashed: set<Bytes>, a: ContainerState, f: FileSystem, b: ContainerState,
                         g: FileSystem)
    requires FixedLength(c.hashing) && Apart(c.hashing, hashed) && forall x, y :: c.name(x) == c.name(y) ==> x == y
    requires CopyHashed(c, a, f) <= hashed && CopyHashed(c, b, g) <= hashed
    ensures SnapshotName(c, a, f) == SnapshotName(c, b, g) <==> a == b && f == g
  {
    hide Fed, Hashed, Apart;
    if SnapshotName(c, a, f) == SnapshotName(c, b, g) {
      KeysDoNotCollide(c.hashing, hashed, CopyKey(c, a, f), CopyKey(c, b, g));
      KeysDoNotCollide(c.hashing, hashed, FilesKey(f), FilesKey(g));
    }
  }

  datatype Copy = Copy(state: ContainerState, files: FileSystem, dest: Bytes)

  /** Where a copy goes: relative to the working directory, `.` being that directory itself. */
  function Place(c: Copying, x: Copy): Bytes {
    c.join(x.state.config.workingDir, if x.dest == [46] then [] else x.dest)
  }

  /** Commits a copy; a snapshot that already has the name is kept. */
  function Commit(c: Copying, snapshots: map<string, Files>, x: Copy): map<string, Files> {
    var name := SnapshotName(c, x.state, x.files);
    if name in snapshots || x.state.snapshot !in snapshots then snapshots
    else snapshots[name := c.put(snapshots[x.state.snapshot], x.files, Place(c, x))]
  }

  function CommitAll(c: Copying, snapshots: map<string, Files>, xs: seq<Copy>): map<string, Files>
    decreases |xs|
  {
    if xs == [] then snapshots else CommitAll(c, Commit(c, snapshots, xs[0]), xs[1..])
  }

  /** Snapshots are never replaced. */
  lemma {:induction false} SnapshotsStay(c: Copying, snapshots: map<string, Files>, xs: seq<Copy>, name: string)
    requires name in snapshots
    ensures name in CommitAll(c, snapshots, xs) && CommitAll(c, snapshots, xs)[name] == snapshots[name]
    decreases |xs|
  {
    if xs != [] { SnapshotsStay(c, Commit(c, snapshots, xs[0]), xs[1..], name); }
  }

  /** The result of the copy holds the files where it was asked to put them. */
  predicate Right(c: Copying, snapshots: map<string, Files>, x: Copy) {
    var name := SnapshotName(c, x.state, x.files);
    && name in snapshots && x.state.snapshot in snapshots
    && snapshots[name] == c.put(snapshots[x.state.snapshot], x.files, Place(c, x))
  }

  /** A copy made after an earlier one of the same files into the same state, with any others between,
      comes out right exactly if both destinations lead to the same files. */
  lemma FirstDestinationWins(c: Copying, before: map<string, Files>, first: Copy, between: seq<Copy>, second: Copy)
    requires first.state == second.state && first.files == second.files
    requires first.state.snapshot in before && SnapshotName(c, first.state, first.files) !in before
    ensures var base := before[first.state.snapshot];
      Right(c, CommitAll(c, before, [first] + between + [second]), second)
      <==> c.put(base, first.files, Place(c, first)) == c.put(base, second.files, Place(c, second))
  {
    var after := Commit(c, before, first);
    var all := [first] + between + [second];
    assert all[0] == first && all[1..] == between + [second];
    var name := SnapshotName(c, first.state, first.files);
    SnapshotsStay(c, after, between + [second], name);
    SnapshotsStay(c, after, between + [second], first.state.snapshot);
  }

  /** Putting one file at its destination. */
  function PutFile(base: Files, files: FileSystem, dest: Bytes): Files {
    base[dest := files.stream]
  }

  /** For instance, a file copied to two places of the same state is only at the first. */
  lemma SecondDestinationIsLost(c: Copying, first: Copy, second: Copy, before: map<string, Files>)
    requires c.put == PutFile && first.state == second.state && first.files == second.files
    requires before == map[first.state.snapshot := map[]]
    requires SnapshotName(c, first.state, first.files) != first.state.snapshot
    ensures Right(c, CommitAll(c, before, [first, second]), second) <==> Place(c, first) == Place(c, second)
  {
    hide SnapshotName, Place;
    FirstDestinationWins(c, before, first, [], second);
    assert [first] + [] + [second] == [first, second];
    var one, two := PutFile(map[], first.files, Place(c, first)), PutFile(map[], first.files, Place(c, second));
    if Place(c, first) != Place(c, second) {
      assert Place(c, second) in two && Place(c, second) !in one;
    }
  }

  /** The first copy of some files into some state is right: the files are put where the destination leads
      from the working directory, a single dot leading nowhere else. */
  lemma FirstCopyIsRight(c: Copying, before: map<string, Files>, x: Copy, later: seq<Copy>)
    requires x.state.snapshot in before && SnapshotName(c, x.state, x.files) !in before
    ensures Right(c, CommitAll(c, before, [x] + later), x)
    ensures var name, all := SnapshotName(c, x.state, x.files), CommitAll(c, before, [x] + later);
      var at := x.state.config.workingDir;
      && name in all
      && (Is(x.dest, ".") ==> all[name] == c.put(before[x.state.snapshot], x.files, c.join(at, [])))
      && (!Is(x.dest, ".") ==> all[name] == c.put(before[x.state.snapshot], x.files, c.join(at, x.dest)))
  {
    assert Utf8All(".") == [46] by { assert "."[1..] == "" && Utf8All("") == []; }
    var after := Commit(c, before, x);
    assert ([x] + later)[0] == x && ([x] + later)[1..] == later;
    SnapshotsStay(c, after, later, SnapshotName(c, x.state, x.files));
    SnapshotsStay(c, after, later, x.state.snapshot);
  }

  predicate Is(b: Bytes, s: string) {
    b == Utf8All(s)
  }

  class SnapshotStore {
    var snapshots: map<string, Files>

    constructor (s: map<string, Files>)
      ensures snapshots == s
    {
      snapshots := s;
    }

    /** Copies files into a container and names the snapshot of the result. */
    method CopyIntoContainer(c: Copying, x: Copy) returns (r: Option<ContainerState>)
      modifies this
      ensures snapshots == Commit(c, old(snapshots), x)
      ensures x.state.snapshot in old(snapshots) ==>
                r == Some(x.state.(snapshot := SnapshotName(c, x.state, x.files)))
      ensures x.state.snapshot !in old(snapshots) ==> r == None
    {
      var name := SnapshotName(c, x.state, x.files);
      if x.state.snapshot !in snapshots { return None; }
      var written := c.put(snapshots[x.state.snapshot], x.files, Place(c, x));
      if name !in snapshots { snapshots := snapshots[name := written]; }
      r := Some(x.state.(snapshot := name));
    }
  }
}
