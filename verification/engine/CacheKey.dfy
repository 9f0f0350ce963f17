/** The bytes that are hashed into cache keys. Two keys are fed the same bytes exactly when they are
    the same key, whatever their scopes, node kinds and inputs; file systems count by their digest. */
module CacheKeys {
  import opened Wrappers
  import opened DataModel
  import opened EngineData
  import opened Postcard

  const DIGEST_LENGTH: nat := 32

  /** The hash function; its output has a fixed length. */
  datatype Hashing = Hashing(digest: Bytes -> Bytes)

  ghost predicate FixedLength(h: Hashing) {
    forall b :: |h.digest(b)| == DIGEST_LENGTH
  }

  /** Of the byte strings that were hashed, no two have the same digest. */
  ghost predicate Apart(h: Hashing, hashed: set<Bytes>) {
    forall a, b :: a in hashed && b in hashed && h.digest(a) == h.digest(b) ==> a == b
  }

  /** The first 31 bytes, padded, and their number: a digest that tells all short strings apart. */
  function Pad(b: Bytes): Bytes {
    seq(31, i requires 0 <= i < 31 => if i < |b| then b[i] else 0) + [(|b| % 256) as byte]
  }

  /** Hash functions of fixed length can keep any number of strings apart. */
  lemma ShortStringsStayApart(hashed: set<Bytes>)
    requires forall b :: b in hashed ==> |b| <= 31
    ensures FixedLength(Hashing(Pad)) && Apart(Hashing(Pad), hashed)
  {
    forall a, b | a in hashed && b in hashed && Pad(a) == Pad(b) ensures a == b {
      assert Pad(a)[31] == Pad(b)[31];
      forall i | 0 <= i < |a| ensures a[i] == b[i] {
        assert Pad(a)[i] == Pad(b)[i];
      }
    }
  }

  /** Everything that is ever hashed into a key: a node's kind and inputs, a snapshot's name, a
      command run in a container, the files copied into a container, and that copy itself. */
  datatype Key =
    | NodeKey(kind: u64, inputs: seq<Data>)
    | SnapshotKey(snapshot: string)
    | ExecKey(state: ContainerState, command: string)
    | FilesKey(files: FileSystem)
    | WithKey(into: ContainerState, filesHash: Bytes)

  /** Sizes that the machine types of the program allow. */
  predicate Fits(k: Key) {
    match k
    case NodeKey(_, inputs) => |inputs| < U64_LIMIT
    case WithKey(_, filesHash) => |filesHash| == DIGEST_LENGTH
    case _ => true
  }

  function Tag(t: DataType): byte {
    match t
    case Int => 0
    case String => 1
    case Container => 2
    case Service => 3
    case FileSystem => 4
  }

  function ValueBytes(h: Hashing, d: Data): Bytes {
    match d
    case IntData(n) => Varint(ZigZag(n))
    case StringData(s) => Str(s)
    case ContainerData(c) => Postcard.Container(c)
    case ServiceData(s) => Postcard.Service(s)
    case FileSystemData(f) => h.digest(f.stream)
  }

  function InputBytes(h: Hashing, d: Data): Bytes {
    [Tag(d.Type())] + ValueBytes(h, d)
  }

  function InputsBytes(h: Hashing, ds: seq<Data>): Bytes {
    if ds == [] then [] else InputBytes(h, ds[0]) + InputsBytes(h, ds[1..])
  }

  function Scope(k: Key): byte {
    match k
    case NodeKey(_, _) => 0
    case SnapshotKey(_) => 1
    case ExecKey(_, _) => 2
    case FilesKey(_) => 3
    case WithKey(_, _) => 3
  }

  function Content(h: Hashing, k: Key): Bytes {
    match k
    case NodeKey(kind, inputs) => LittleEndian(kind, 8) + LittleEndian(|inputs| % U64_LIMIT, 8) + InputsBytes(h, inputs)
    case SnapshotKey(s) => Str(s)
    case ExecKey(state, command) => Postcard.Container(state) + Str(command)
    case FilesKey(f) => h.digest(f.stream)
    case WithKey(state, filesHash) => Postcard.Container(state) + filesHash
  }

  /** The whole byte string that is hashed for a key. */
  function Fed(h: Hashing, k: Key): Bytes {
    [Scope(k)] + Content(h, k)
  }

  /** The same value, file systems compared by digest. */
  predicate SameValue(h: Hashing, a: Data, b: Data) {
    a == b || (a.FileSystemData? && b.FileSystemData? && h.digest(a.files.stream) == h.digest(b.files.stream))
  }

  predicate SameValues(h: Hashing, a: seq<Data>, b: seq<Data>) {
    |a| == |b| && forall i :: 0 <= i < |a| ==> SameValue(h, a[i], b[i])
  }

  predicate SameKey(h: Hashing, a: Key, b: Key) {
    match (a, b)
    case (NodeKey(k, i), NodeKey(l, j)) => k == l && SameValues(h, i, j)
    case (FilesKey(f), FilesKey(g)) => h.digest(f.stream) == h.digest(g.stream)
    case _ => a == b
  }

  lemma InputPrefix(h: Hashing, a: Data, r: Bytes, b: Data, s: Bytes)
    requires FixedLength(h) && InputBytes(h, a) + r == InputBytes(h, b) + s
    ensures SameValue(h, a, b) && r == s
  {
    hide Varint, Str, Postcard.Container, Postcard.Service;
    var x, y := ValueBytes(h, a) + r, ValueBytes(h, b) + s;
    assert InputBytes(h, a) + r == [Tag(a.Type())] + x && InputBytes(h, b) + s == [Tag(b.Type())] + y;
    SplitAt([Tag(a.Type())], x, [Tag(b.Type())], y);
    ValuePrefix(h, a, r, b, s);
  }

  lemma ValuePrefix(h: Hashing, a: Data, r: Bytes, b: Data, s: Bytes)
    requires FixedLength(h) && Tag(a.Type()) == Tag(b.Type()) && ValueBytes(h, a) + r == ValueBytes(h, b) + s
    ensures SameValue(h, a, b) && r == s
  {
    hide Varint, Str, Postcard.Container, Postcard.Service;
    match a
    case IntData(n) =>
      VarintPrefix(ZigZag(n), r, ZigZag(b.int_), s);
      ZigZagInjective(n, b.int_);
    case StringData(t) => StrPrefix(t, r, b.str, s);
    case ContainerData(c) => ContainerPrefix(c, r, b.container, s);
    case ServiceData(v) => ServicePrefix(v, r, b.service, s);
    case FileSystemData(f) => SplitAt(h.digest(f.stream), r, h.digest(b.files.stream), s);
  }

  lemma {:induction false} InputsPrefix(h: Hashing, a: seq<Data>, b: seq<Data>)
    requires FixedLength(h) && |a| == |b| && InputsBytes(h, a) == InputsBytes(h, b)
    ensures SameValues(h, a, b)
    decreases |a|
  {
    hide InputBytes, SameValue;
    if a != [] {
      InputPrefix(h, a[0], InputsBytes(h, a[1..]), b[0], InputsBytes(h, b[1..]));
      InputsPrefix(h, a[1..], b[1..]);
      forall i | 0 <= i < |a| ensures SameValue(h, a[i], b[i]) {
        if i > 0 {
          assert a[i] == a[1..][i - 1] && b[i] == b[1..][i - 1];
        }
      }
    }
  }

  /** Node keys: different kinds, different numbers of inputs or different inputs give different bytes. */
  lemma NodeKeyInjective(h: Hashing, a: Key, b: Key)
    requires FixedLength(h) && Fits(a) && Fits(b) && a.NodeKey? && b.NodeKey? && Content(h, a) == Content(h, b)
    ensures SameKey(h, a, b)
  {
    hide InputsBytes, LittleEndian, Power, SameValues;
    var x := LittleEndian(|a.inputs|, 8) + InputsBytes(h, a.inputs);
    var y := LittleEndian(|b.inputs|, 8) + InputsBytes(h, b.inputs);
    assert Content(h, a) == LittleEndian(a.kind, 8) + x && Content(h, b) == LittleEndian(b.kind, 8) + y;
    SplitAt(LittleEndian(a.kind, 8), x, LittleEndian(b.kind, 8), y);
    SplitAt(LittleEndian(|a.inputs|, 8), InputsBytes(h, a.inputs), LittleEndian(|b.inputs|, 8),
            InputsBytes(h, b.inputs));
    EightBytes();
    LittleEndianInjective(a.kind, b.kind, 8);
    LittleEndianInjective(|a.inputs|, |b.inputs|, 8);
    InputsPrefix(h, a.inputs, b.inputs);
  }

  lemma SnapshotKeyInjective(h: Hashing, a: Key, b: Key)
    requires a.SnapshotKey? && b.SnapshotKey? && Content(h, a) == Content(h, b)
    ensures a == b
  {
    hide Str;
    assert Str(a.snapshot) + [] == Str(b.snapshot) + [];
    StrPrefix(a.snapshot, [], b.snapshot, []);
  }

  lemma ExecKeyInjective(h: Hashing, a: Key, b: Key)
    requires a.ExecKey? && b.ExecKey? && Content(h, a) == Content(h, b)
    ensures a == b
  {
    hide Str, Postcard.Container;
    ContainerPrefix(a.state, Str(a.command), b.state, Str(b.command));
    assert Str(a.command) + [] == Str(b.command) + [];
    StrPrefix(a.command, [], b.command, []);
  }

  /** The two kinds of key in the scope of copies are told apart by their length. */
  lemma WithKeyInjective(h: Hashing, a: Key, b: Key)
    requires FixedLength(h) && Fits(a) && Fits(b) && Scope(a) == 3 && Scope(b) == 3 && Content(h, a) == Content(h, b)
    ensures SameKey(h, a, b)
  {
    hide Str, Postcard.Container;
    CopyLength(h, a);
    CopyLength(h, b);
    if a.WithKey? && b.WithKey? {
      ContainerPrefix(a.into, a.filesHash, b.into, b.filesHash);
    }
  }

  lemma CopyLength(h: Hashing, k: Key)
    requires FixedLength(h) && Fits(k) && Scope(k) == 3
    ensures if k.WithKey? then |Content(h, k)| > DIGEST_LENGTH else |Content(h, k)| == DIGEST_LENGTH
  {
    hide Config;
  }

  /** Exactly the same key is fed the same bytes. */
  lemma KeyBytes(h: Hashing, a: Key, b: Key)
    requires FixedLength(h) && Fits(a) && Fits(b)
    ensures Fed(h, a) == Fed(h, b) <==> SameKey(h, a, b)
  {
    hide Content, SameKey;
    if Fed(h, a) == Fed(h, b) {
      SplitAt([Scope(a)], Content(h, a), [Scope(b)], Content(h, b));
      SameScope(h, a, b);
    }
    if SameKey(h, a, b) {
      SameKeyBytes(h, a, b);
    }
  }

  lemma SameScope(h: Hashing, a: Key, b: Key)
    requires FixedLength(h) && Fits(a) && Fits(b) && Scope(a) == Scope(b) && Content(h, a) == Content(h, b)
    ensures SameKey(h, a, b)
  {
    hide Content, SameValues;
    match a
    case NodeKey(_, _) => NodeKeyInjective(h, a, b);
    case SnapshotKey(_) => SnapshotKeyInjective(h, a, b);
    case ExecKey(_, _) => ExecKeyInjective(h, a, b);
    case FilesKey(_) => WithKeyInjective(h, a, b);
    case WithKey(_, _) => WithKeyInjective(h, a, b);
  }

  lemma SameKeyBytes(h: Hashing, a: Key, b: Key)
    requires SameKey(h, a, b)
    ensures Fed(h, a) == Fed(h, b)
  {
    hide LittleEndian, Str, Postcard.Container;
    if a.NodeKey? && b.NodeKey? {
      SameInputsBytes(h, a.inputs, b.inputs);
    }
  }

  lemma {:induction false} SameInputsBytes(h: Hashing, a: seq<Data>, b: seq<Data>)
    requires SameValues(h, a, b)
    ensures InputsBytes(h, a) == InputsBytes(h, b)
    decreases |a|
  {
    hide Varint, Str, Postcard.Container, Postcard.Service;
    if a != [] {
      assert SameValue(h, a[0], b[0]);
      SameInputsBytes(h, a[1..], b[1..]);
    }
  }

  /** The streams of the file systems among the inputs. */
  function Streams(ds: seq<Data>): set<Bytes> {
    set d | d in ds && d.FileSystemData? :: d.files.stream
  }

  /** All that is hashed on the way to the hash of a key: its bytes and the file systems in it. */
  function Hashed(h: Hashing, k: Key): set<Bytes> {
    {Fed(h, k)} + match k
                  case NodeKey(_, inputs) => Streams(inputs)
                  case FilesKey(f) => {f.stream}
                  case _ => {}
  }

  /** Keys of any scopes that were hashed without a collision have the same hash exactly if they are
      the same key. */
  lemma KeysDoNotCollide(h: Hashing, hashed: set<Bytes>, a: Key, b: Key)
    requires FixedLength(h) && Apart(h, hashed) && Fits(a) && Fits(b)
    requires Hashed(h, a) <= hashed && Hashed(h, b) <= hashed
    ensures h.digest(Fed(h, a)) == h.digest(Fed(h, b)) <==> a == b
  {
    hide Fed;
    if h.digest(Fed(h, a)) == h.digest(Fed(h, b)) {
      KeyBytes(h, a, b);
      if a.NodeKey? {
        SameStreams(h, hashed, a.inputs, b.inputs);
      }
    }
  }

  lemma SameStreams(h: Hashing, hashed: set<Bytes>, a: seq<Data>, b: seq<Data>)
    requires Apart(h, hashed) && Streams(a) <= hashed && Streams(b) <= hashed && SameValues(h, a, b)
    ensures a == b
  {
    forall i | 0 <= i < |a| ensures a[i] == b[i] {
      assert SameValue(h, a[i], b[i]);
      if a[i].FileSystemData? && b[i].FileSystemData? {
        assert a[i].files.stream in Streams(a) && b[i].files.stream in Streams(b);
      }
    }
  }

  lemma NodeKeyFed(h: Hashing, kind: u64, inputs: seq<Data>, before: Bytes)
    ensures before + LittleEndian(kind, 8) + LittleEndian(|inputs| % U64_LIMIT, 8) + InputsBytes(h, inputs)
            == before + Content(h, NodeKey(kind, inputs))
  {
    hide LittleEndian, InputsBytes;
  }

  /** A hasher that remembers everything it was fed. */
  class Hasher {
    var fed: Bytes

    constructor ()
      ensures fed == []
    {
      fed := [];
    }

    method Update(b: Bytes)
      modifies this
      ensures fed == old(fed) + b
    {
      fed := fed + b;
    }

    method HashInput(h: Hashing, d: Data)
      modifies this
      ensures fed == old(fed) + InputBytes(h, d)
    {
      Update([Tag(d.Type())]);
      Update(ValueBytes(h, d));
      assert old(fed) + [Tag(d.Type())] + ValueBytes(h, d) == old(fed) + InputBytes(h, d);
    }

    method HashNodeKey(h: Hashing, kind: u64, inputs: seq<Data>)
      modifies this
      ensures fed == old(fed) + Content(h, NodeKey(kind, inputs))
    {
      Update(LittleEndian(kind, 8));
      Update(LittleEndian(|inputs| % U64_LIMIT, 8));
      ghost var start := fed;
      assert inputs[0..] == inputs;
      for i := 0 to |inputs|
        invariant fed + InputsBytes(h, inputs[i..]) == start + InputsBytes(h, inputs)
      {
        assert inputs[i..][1..] == inputs[i + 1..];
        HashInput(h, inputs[i]);
      }
      assert inputs[|inputs|..] == [];
      assert fed + InputsBytes(h, []) == fed;
      NodeKeyFed(h, kind, inputs, old(fed));
    }
  }

  /** The hash under which the result of a node is cached. */
  method FromNodeKey(h: Hashing, kind: u64, inputs: seq<Data>) returns (hash: Bytes)
    ensures hash == h.digest(Fed(h, NodeKey(kind, inputs)))
  {
    var hasher := new Hasher();
    hasher.Update([0]);
    hasher.HashNodeKey(h, kind, inputs);
    assert hasher.fed == Fed(h, NodeKey(kind, inputs));
    hash := h.digest(hasher.fed);
  }
}
