/** The byte formats on known values: what other programs and other versions of this one read and write.
    The laws about these formats would hold of many formats; these answers hold of the right ones. */
module Formats {
  import opened Wrappers
  import opened EngineData
  import opened Postcard
  import opened CacheKeys
  import FileStreams
  import Layers
  import Subnets

  /** Numbers take seven bits to a byte, low ones first; negative numbers are folded in between. */
  lemma Numbers()
    ensures Varint(0) == [0] && Varint(127) == [127] && Varint(128) == [128, 1] && Varint(300) == [172, 2]
    ensures ZigZag(0) == 0 && ZigZag(-1) == 1 && ZigZag(1) == 2 && ZigZag(-150) == 299
    ensures LittleEndian(0x0102, 8) == [2, 1, 0, 0, 0, 0, 0, 0]
  {
    assert Varint(2) == [2] && Varint(1) == [1];
    assert LittleEndian(0, 0) == [] && LittleEndian(0, 1) == [0] && LittleEndian(0, 2) == [0, 0];
    assert LittleEndian(0, 3) == [0, 0, 0] && LittleEndian(0, 4) == [0, 0, 0, 0];
    assert LittleEndian(0, 5) == [0, 0, 0, 0, 0];
    assert LittleEndian(0, 6) == [0, 0, 0, 0, 0, 0];
    assert LittleEndian(1, 7) == [1, 0, 0, 0, 0, 0, 0];
  }

  /** Strings are their length and their UTF-8 bytes, of one to four bytes a character. */
  lemma Strings()
    ensures Str("") == [0] && Str("ab") == [2, 97, 98]
    ensures Str("\U{00E9}") == [2, 0xC3, 0xA9] && Str("\U{20AC}") == [3, 0xE2, 0x82, 0xAC]
    ensures Str("\U{1F600}") == [4, 0xF0, 0x9F, 0x98, 0x80]
  {
    Characters("\U{00E9}");
    Characters("\U{20AC}");
    Characters("\U{1F600}");
    assert Utf8All("ab") == [97] + Utf8All("b") && Utf8All("b") == [98] + Utf8All("") && Utf8All("") == [];
    assert "ab"[1..] == "b" && "b"[1..] == "";
    assert Varint(2) == [2] && Varint(3) == [3] && Varint(4) == [4] && Varint(0) == [0];
  }

  lemma Characters(s: string)
    requires |s| == 1
    ensures Utf8All(s) == Utf8(s[0])
  {
    assert s[1..] == "" && Utf8All("") == [];
  }

  /** A container is its snapshot, its variables, directory, user and services, in this order. */
  lemma Containers()
    ensures Container(ContainerState("ab", ContainerConfig([("k", "v")], [47], Some("u"), [])))
         == [2, 97, 98, 1, 1, 107, 1, 118, 1, 47, 1, 1, 117, 0]
    ensures Container(ContainerState("", ContainerConfig([], [], None, []))) == [0, 0, 0, 0, 0]
  {
    OneLetter('k'); OneLetter('v'); OneLetter('u');
    Strings();
    assert [("k", "v")][1..] == [] && Entries([]) == [];
    assert Entries([("k", "v")]) == Str("k") + Str("v") + Entries([]);
    assert Varint(1) == [1] && Varint(0) == [0] && Services([]) == [];
  }

  lemma OneLetter(c: char)
    requires c as int < 128
    ensures Str([c]) == [1, c as int as byte]
  {
    Characters([c]);
    assert Varint(1) == [1];
  }

  /** A service is its container, entry point and health check. */
  lemma ServiceBytes()
    ensures Service(ServiceState(ContainerState("", ContainerConfig([], [], None, [])),
                                 ServiceConfig("e", "c", Duration(300, 5))))
         == [0, 0, 0, 0, 0, 1, 101, 1, 99, 172, 2, 5]
  {
    Containers();
    OneLetter('e'); OneLetter('c');
    Numbers();
    assert Varint(5) == [5];
  }

  /** The bytes hashed for a node: its scope, the node's id and the number of inputs in eight bytes each,
      low ones first, then every input after the number of its type. */
  lemma NodeKeys(h: Hashing)
    ensures Fed(h, NodeKey(0x0102, [IntData(-150), StringData("ab")]))
         == [0, 2, 1, 0, 0, 0, 0, 0, 0, 2, 0, 0, 0, 0, 0, 0, 0, 0, 171, 2, 1, 2, 97, 98]
  {
    hide LittleEndian, InputsBytes, ZigZag, Varint, Str;
    Numbers();
    TwoInEight();
    TwoInputs(h);
    assert [0] + ([2, 1, 0, 0, 0, 0, 0, 0] + [2, 0, 0, 0, 0, 0, 0, 0] + [0, 171, 2, 1, 2, 97, 98])
        == [0, 2, 1, 0, 0, 0, 0, 0, 0, 2, 0, 0, 0, 0, 0, 0, 0, 0, 171, 2, 1, 2, 97, 98];
  }

  lemma TwoInputs(h: Hashing)
    ensures InputsBytes(h, [IntData(-150), StringData("ab")]) == [0, 171, 2, 1, 2, 97, 98]
  {
    Numbers();
    Strings();
    assert Varint(299) == [171, 2] by { assert Varint(2) == [2]; }
    var a, b := IntData(-150), StringData("ab");
    assert InputBytes(h, a) == [0, 171, 2] && InputBytes(h, b) == [1, 2, 97, 98];
    assert [a, b][1..] == [b] && [b][1..] == [] && InputsBytes(h, []) == [];
    assert InputsBytes(h, [b]) == InputBytes(h, b);
    assert InputsBytes(h, [a, b]) == InputBytes(h, a) + InputsBytes(h, [b]);
  }

  lemma TwoInEight()
    ensures LittleEndian(2, 8) == [2, 0, 0, 0, 0, 0, 0, 0]
  {
    assert LittleEndian(0, 0) == [] && LittleEndian(0, 1) == [0] && LittleEndian(0, 2) == [0, 0];
    assert LittleEndian(0, 3) == [0, 0, 0] && LittleEndian(0, 4) == [0, 0, 0, 0];
    assert LittleEndian(0, 5) == [0, 0, 0, 0, 0];
    assert LittleEndian(0, 6) == [0, 0, 0, 0, 0, 0] && LittleEndian(0, 7) == [0, 0, 0, 0, 0, 0, 0];
  }

  /** The other inputs and the other kinds of key. */
  lemma OtherKeys(h: Hashing, f: FileSystem, c: ContainerState, s: ServiceState, hash: Bytes)
    ensures InputBytes(h, ContainerData(c)) == [2] + Container(c) && InputBytes(h, ServiceData(s)) == [3] + Service(s)
    ensures InputBytes(h, FileSystemData(f)) == [4] + h.digest(f.stream)
    ensures Fed(h, SnapshotKey("ab")) == [1, 2, 97, 98]
    ensures Fed(h, ExecKey(c, "ab")) == [2] + Container(c) + [2, 97, 98]
    ensures Fed(h, FilesKey(f)) == [3] + h.digest(f.stream)
    ensures Fed(h, WithKey(c, hash)) == [3] + Container(c) + hash
  {
    hide Container, Service;
    Strings();
  }

  /** The stream of a folder with one file: frames of eight bytes of length and a header each, in which a file
      has the number 0 and a folder the number 1, and the contents of the file. */
  lemma FileStream()
    ensures var file := FileStreams.Entry([97], FileStreams.File([7, 8]));
      FileStreams.Encode(FileStreams.Entry([], FileStreams.Folder([file])))
         == [3, 0, 0, 0, 0, 0, 0, 0, 1, 0, 1, 4, 0, 0, 0, 0, 0, 0, 0, 0, 1, 97, 2, 7, 8]
  {
    hide FileStreams.Frame;
    var file := FileStreams.Entry([97], FileStreams.File([7, 8]));
    TwoFrames();
    assert [file][1..] == [] && FileStreams.EncodeAll([]) == [];
    var b := FileStreams.Frame(FileStreams.Header(false, [97], 2));
    assert FileStreams.Encode(file) == b + [7, 8];
    assert FileStreams.EncodeAll([file]) == FileStreams.Encode(file) + [];
    assert [3, 0, 0, 0, 0, 0, 0, 0, 1, 0, 1] + ([4, 0, 0, 0, 0, 0, 0, 0, 0, 1, 97, 2] + [7, 8])
        == [3, 0, 0, 0, 0, 0, 0, 0, 1, 0, 1, 4, 0, 0, 0, 0, 0, 0, 0, 0, 1, 97, 2, 7, 8];
  }

  lemma TwoFrames()
    ensures FileStreams.Frame(FileStreams.Header(true, [], 1)) == [3, 0, 0, 0, 0, 0, 0, 0, 1, 0, 1]
    ensures FileStreams.Frame(FileStreams.Header(false, [97], 2)) == [4, 0, 0, 0, 0, 0, 0, 0, 0, 1, 97, 2]
  {
    hide LittleEndian;
    assert Varint(0) == [0] && Varint(1) == [1] && Varint(2) == [2];
    assert Blob([97]) == [1, 97] && Blob([]) == [0];
    var a, b := FileStreams.Header(true, [], 1), FileStreams.Header(false, [97], 2);
    assert FileStreams.HeaderBytes(a) == [1, 0, 1] && FileStreams.HeaderBytes(b) == [0, 1, 97, 2];
    SmallInEight(3);
    SmallInEight(4);
  }

  lemma SmallInEight(n: nat)
    requires n < 256
    ensures LittleEndian(n, 8) == [n as byte, 0, 0, 0, 0, 0, 0, 0]
  {
    TwoInEight();
    assert LittleEndian(0, 7) == LittleEndian(2, 8)[1..];
  }

  /** A header with any other number is refused, as is a frame that is cut short. */
  lemma BrokenFrames(tag: byte, rest: Bytes, b: Bytes)
    requires 2 <= tag < 128
    ensures FileStreams.ReadHeader([tag] + rest) == None
    ensures |b| < 8 || FileStreams.FromLittleEndian(b[..8]) > |b| - 8 ==> FileStreams.ReadFrame(b) == None
  {
    hide FileStreams.FromLittleEndian;
  }

  /** The names of whiteouts. */
  lemma Whiteouts()
    ensures Layers.WH == Utf8All(".wh.") && Layers.OPQ == Utf8All(".wh..wh..opq")
  {
    hide Utf8All;
    Letters(".wh.");
    Letters(".wh..wh..opq");
  }

  lemma {:induction false} Letters(s: string)
    requires forall i :: 0 <= i < |s| ==> s[i] as int < 128
    ensures |Utf8All(s)| == |s| && forall i :: 0 <= i < |s| ==> Utf8All(s)[i] == s[i] as int as byte
    decreases |s|
  {
    if s != "" { Letters(s[1..]); }
  }

  function Dotted(a: nat, b: nat, c: nat, d: nat): nat {
    ((a * 256 + b) * 256 + c) * 256 + d
  }

  /** The first and the last subnets that are drawn. */
  lemma Addresses()
    ensures Subnets.Low(0) == Dotted(198, 18, 0, 0) && Subnets.High(0) == Dotted(198, 18, 0, 1)
    ensures Subnets.Low(1) == Dotted(198, 18, 0, 2) && Subnets.High(65535) == Dotted(198, 19, 255, 255)
    ensures Subnets.Low(65536) == Dotted(198, 18, 0, 0) && Subnets.LOCALHOST == Dotted(127, 0, 0, 1)
  {
  }
}
