/** The postcard wire format of the values that go into cache keys. Every encoding is prefix free:
    what follows an encoded value cannot be mistaken for part of it. */
module Postcard {
  import opened Wrappers
  import opened EngineData

  type Bytes = seq<byte>

  const U64_LIMIT: nat := 0x1_0000_0000_0000_0000

  type u64 = n: nat | n < U64_LIMIT

  function LittleEndian(n: nat, width: nat): (r: Bytes)
    ensures |r| == width
  {
    if width == 0 then [] else [(n % 256) as byte] + LittleEndian(n / 256, width - 1)
  }

  /** Little-endian groups of seven bits; all but the last group carry the high bit. */
  function Varint(n: nat): (r: Bytes)
    ensures r != []
  {
    if n < 128 then [n as byte] else [(n % 128 + 128) as byte] + Varint(n / 128)
  }

  function ZigZag(i: int): nat {
    if i >= 0 then 2 * i else -2 * i - 1
  }

  /** The UTF-8 bytes of one character. */
  function Utf8(c: char): (r: Bytes)
    ensures 1 <= |r| <= 4
  {
    var n := c as int;
    if n < 0x80 then [n as byte]
    else if n < 0x800 then [(0xC0 + n / 64) as byte, (0x80 + n % 64) as byte]
    else if n < 0x10000 then [(0xE0 + n / 4096) as byte, (0x80 + n / 64 % 64) as byte, (0x80 + n % 64) as byte]
    else [(0xF0 + n / 262144) as byte, (0x80 + n / 4096 % 64) as byte, (0x80 + n / 64 % 64) as byte,
          (0x80 + n % 64) as byte]
  }

  function Utf8All(s: string): Bytes {
    if s == "" then [] else Utf8(s[0]) + Utf8All(s[1..])
  }

  function Blob(b: Bytes): Bytes {
    Varint(|b|) + b
  }

  function Str(s: string): Bytes {
    Blob(Utf8All(s))
  }

  function OptionStr(s: Option<string>): Bytes {
    match s
    case None => [0]
    case Some(v) => [1] + Str(v)
  }

  function Entries(env: seq<(string, string)>): Bytes {
    if env == [] then [] else Str(env[0].0) + Str(env[0].1) + Entries(env[1..])
  }

  function Config(c: ContainerConfig): Bytes
    decreases c, 0
  {
    Varint(|c.env|) + Entries(c.env) + Blob(c.workingDir) + OptionStr(c.user) + Varint(|c.services|)
      + Services(c.services)
  }

  function Services(s: seq<NamedService>): Bytes
    decreases s, 1
  {
    if s == [] then [] else Str(s[0].name) + Service(s[0].service) + Services(s[1..])
  }

  function Service(s: ServiceState): Bytes
    decreases s, 0
  {
    Container(s.container) + Str(s.serviceConfig.entrypoint) + Str(s.serviceConfig.command)
    + Varint(s.serviceConfig.timeout.secs) + Varint(s.serviceConfig.timeout.nanos)
  }

  function Container(c: ContainerState): Bytes
    decreases c, 0
  {
    Str(c.snapshot) + Config(c.config)
  }

  /** Concatenations that agree and whose heads have one length agree part by part. */
  lemma SplitAt(a: Bytes, r: Bytes, b: Bytes, s: Bytes)
    requires a + r == b + s && |a| == |b|
    ensures a == b && r == s
  {
    assert a == (a + r)[..|a|] && b == (b + s)[..|b|];
    assert r == (a + r)[|a|..] && s == (b + s)[|b|..];
  }

  lemma {:induction false} LittleEndianInjective(a: nat, b: nat, width: nat)
    requires LittleEndian(a, width) == LittleEndian(b, width)
    requires a < Power(width) && b < Power(width)
    ensures a == b
    decreases width
  {
    if width > 0 {
      assert LittleEndian(a, width)[0] == LittleEndian(b, width)[0];
      assert LittleEndian(a / 256, width - 1) == LittleEndian(a, width)[1..] == LittleEndian(b, width)[1..];
      LittleEndianInjective(a / 256, b / 256, width - 1);
    }
  }

  /** The number of values of `width` bytes. */
  function Power(width: nat): nat {
    if width == 0 then 1 else 256 * Power(width - 1)
  }

  lemma EightBytes()
    ensures Power(8) == U64_LIMIT
  {
    assert Power(4) == 0x1_0000_0000;
    assert Power(8) == 256 * (256 * (256 * (256 * Power(4))));
  }

  lemma {:induction false} VarintPrefix(a: nat, r: Bytes, b: nat, s: Bytes)
    requires Varint(a) + r == Varint(b) + s
    ensures a == b && r == s
    decreases a
  {
    assert (Varint(a) + r)[0] == Varint(a)[0] && (Varint(b) + s)[0] == Varint(b)[0];
    if a >= 128 && b >= 128 {
      assert Varint(a) + r == [Varint(a)[0]] + (Varint(a / 128) + r);
      assert Varint(b) + s == [Varint(b)[0]] + (Varint(b / 128) + s);
      SplitAt([Varint(a)[0]], Varint(a / 128) + r, [Varint(b)[0]], Varint(b / 128) + s);
      VarintPrefix(a / 128, r, b / 128, s);
    } else {
      SplitAt(Varint(a), r, Varint(b), s);
    }
  }

  lemma ZigZagInjective(a: int, b: int)
    requires ZigZag(a) == ZigZag(b)
    ensures a == b
  {
  }

  lemma Utf8Prefix(a: char, r: Bytes, b: char, s: Bytes)
    requires Utf8(a) + r == Utf8(b) + s
    ensures a == b && r == s
  {
    assert (Utf8(a) + r)[0] == Utf8(a)[0] && (Utf8(b) + s)[0] == Utf8(b)[0];
    assert |Utf8(a)| == |Utf8(b)|;
    SplitAt(Utf8(a), r, Utf8(b), s);
    FromUtf8Inverse(a);
    FromUtf8Inverse(b);
  }

  /** The code point that the bytes of one character spell. */
  function FromUtf8(b: Bytes): int
    requires 1 <= |b| <= 4
  {
    if |b| == 1 then b[0] as int
    else if |b| == 2 then (b[0] as int - 0xC0) * 64 + (b[1] as int - 0x80)
    else if |b| == 3 then ((b[0] as int - 0xE0) * 64 + (b[1] as int - 0x80)) * 64 + (b[2] as int - 0x80)
    else (((b[0] as int - 0xF0) * 64 + (b[1] as int - 0x80)) * 64 + (b[2] as int - 0x80)) * 64 + (b[3] as int - 0x80)
  }

  lemma FromUtf8Inverse(c: char)
    ensures FromUtf8(Utf8(c)) == c as int
  {
    var n := c as int;
    assert n / 4096 == n / 64 / 64 && n / 262144 == n / 64 / 64 / 64;
  }

  lemma {:induction false} Utf8AllInjective(a: string, b: string)
    requires Utf8All(a) == Utf8All(b)
    ensures a == b
    decreases |a|
  {
    hide Utf8;
    if a != "" && b != "" {
      Utf8Prefix(a[0], Utf8All(a[1..]), b[0], Utf8All(b[1..]));
      Utf8AllInjective(a[1..], b[1..]);
      assert a == [a[0]] + a[1..] && b == [b[0]] + b[1..];
    } else {
      Utf8AllEmpty(a);
      Utf8AllEmpty(b);
    }
  }

  lemma Utf8AllEmpty(s: string)
    ensures Utf8All(s) == [] <==> s == ""
  {
    hide Utf8;
    if s != "" {
      assert |Utf8All(s)| >= |Utf8(s[0])|;
    }
  }

  lemma BlobPrefix(a: Bytes, r: Bytes, b: Bytes, s: Bytes)
    requires Blob(a) + r == Blob(b) + s
    ensures a == b && r == s
  {
    assert Blob(a) + r == Varint(|a|) + (a + r) && Blob(b) + s == Varint(|b|) + (b + s);
    VarintPrefix(|a|, a + r, |b|, b + s);
    SplitAt(a, r, b, s);
  }

  lemma StrPrefix(a: string, r: Bytes, b: string, s: Bytes)
    requires Str(a) + r == Str(b) + s
    ensures a == b && r == s
  {
    BlobPrefix(Utf8All(a), r, Utf8All(b), s);
    Utf8AllInjective(a, b);
  }

  lemma OptionStrPrefix(a: Option<string>, r: Bytes, b: Option<string>, s: Bytes)
    requires OptionStr(a) + r == OptionStr(b) + s
    ensures a == b && r == s
  {
    hide Str;
    assert (OptionStr(a) + r)[0] == OptionStr(a)[0] && (OptionStr(b) + s)[0] == OptionStr(b)[0];
    if a.Some? && b.Some? {
      assert OptionStr(a) + r == [1] + (Str(a.value) + r) && OptionStr(b) + s == [1] + (Str(b.value) + s);
      SplitAt([1], Str(a.value) + r, [1], Str(b.value) + s);
      StrPrefix(a.value, r, b.value, s);
    } else {
      SplitAt(OptionStr(a), r, OptionStr(b), s);
    }
  }

  lemma {:induction false} EntriesPrefix(a: seq<(string, string)>, r: Bytes, b: seq<(string, string)>, s: Bytes)
    requires Entries(a) + r == Entries(b) + s && |a| == |b|
    ensures a == b && r == s
    decreases |a|
  {
    hide Str;
    if a == [] {
      assert Entries(a) + r == r && Entries(b) + s == s;
    } else {
      var x, y := Entries(a[1..]) + r, Entries(b[1..]) + s;
      assert Entries(a) + r == Str(a[0].0) + (Str(a[0].1) + x) && Entries(b) + s == Str(b[0].0) + (Str(b[0].1) + y);
      StrPrefix(a[0].0, Str(a[0].1) + x, b[0].0, Str(b[0].1) + y);
      StrPrefix(a[0].1, x, b[0].1, y);
      EntriesPrefix(a[1..], r, b[1..], s);
      assert a == [a[0]] + a[1..] && b == [b[0]] + b[1..];
    }
  }

  lemma {:induction false} ConfigPrefix(a: ContainerConfig, r: Bytes, b: ContainerConfig, s: Bytes)
    requires Config(a) + r == Config(b) + s
    ensures a == b && r == s
    decreases a, 0
  {
    hide Varint, Entries, Blob, OptionStr, Services;
    ConfigParts(a, r);
    ConfigParts(b, s);
    var a1, b1 := Services(a.services) + r, Services(b.services) + s;
    var a2, b2 := OptionStr(a.user) + (Varint(|a.services|) + a1), OptionStr(b.user) + (Varint(|b.services|) + b1);
    VarintPrefix(|a.env|, Entries(a.env) + (Blob(a.workingDir) + a2), |b.env|,
                 Entries(b.env) + (Blob(b.workingDir) + b2));
    EntriesPrefix(a.env, Blob(a.workingDir) + a2, b.env, Blob(b.workingDir) + b2);
    BlobPrefix(a.workingDir, a2, b.workingDir, b2);
    OptionStrPrefix(a.user, Varint(|a.services|) + a1, b.user, Varint(|b.services|) + b1);
    VarintPrefix(|a.services|, a1, |b.services|, b1);
    ServicesPrefix(a.services, r, b.services, s);
  }

  function ConfigTail(c: ContainerConfig, r: Bytes): Bytes {
    OptionStr(c.user) + (Varint(|c.services|) + (Services(c.services) + r))
  }

  lemma ConfigParts(c: ContainerConfig, r: Bytes)
    ensures Config(c) + r == Varint(|c.env|) + (Entries(c.env) + (Blob(c.workingDir) + ConfigTail(c, r)))
  {
    hide Varint, Entries, Blob, OptionStr, Services;
  }

  lemma {:induction false} ServicesPrefix(a: seq<NamedService>, r: Bytes, b: seq<NamedService>, s: Bytes)
    requires Services(a) + r == Services(b) + s && |a| == |b|
    ensures a == b && r == s
    decreases a, 1
  {
    hide Str, Service;
    if a == [] {
      assert Services(a) + r == r && Services(b) + s == s;
    } else {
      var x, y := Services(a[1..]) + r, Services(b[1..]) + s;
      assert Services(a) + r == Str(a[0].name) + (Service(a[0].service) + x);
      assert Services(b) + s == Str(b[0].name) + (Service(b[0].service) + y);
      StrPrefix(a[0].name, Service(a[0].service) + x, b[0].name, Service(b[0].service) + y);
      ServicePrefix(a[0].service, x, b[0].service, y);
      ServicesPrefix(a[1..], r, b[1..], s);
      assert a == [a[0]] + a[1..] && b == [b[0]] + b[1..];
    }
  }

  lemma {:induction false} ServicePrefix(a: ServiceState, r: Bytes, b: ServiceState, s: Bytes)
    requires Service(a) + r == Service(b) + s
    ensures a == b && r == s
    decreases a, 0
  {
    hide Varint, Str, Container;
    ServiceParts(a, r);
    ServiceParts(b, s);
    var p, q := a.serviceConfig, b.serviceConfig;
    var a1 := Varint(p.timeout.secs) + (Varint(p.timeout.nanos) + r);
    var b1 := Varint(q.timeout.secs) + (Varint(q.timeout.nanos) + s);
    ContainerPrefix(a.container, Str(p.entrypoint) + (Str(p.command) + a1), b.container,
                    Str(q.entrypoint) + (Str(q.command) + b1));
    StrPrefix(p.entrypoint, Str(p.command) + a1, q.entrypoint, Str(q.command) + b1);
    StrPrefix(p.command, a1, q.command, b1);
    VarintPrefix(p.timeout.secs, Varint(p.timeout.nanos) + r, q.timeout.secs, Varint(q.timeout.nanos) + s);
    VarintPrefix(p.timeout.nanos, r, q.timeout.nanos, s);
  }

  function ServiceTail(c: ServiceConfig, r: Bytes): Bytes {
    Str(c.entrypoint) + (Str(c.command) + (Varint(c.timeout.secs) + (Varint(c.timeout.nanos) + r)))
  }

  lemma ServiceParts(a: ServiceState, r: Bytes)
    ensures Service(a) + r == Container(a.container) + ServiceTail(a.serviceConfig, r)
  {
    hide Varint, Str, Container;
  }

  lemma {:induction false} ContainerPrefix(a: ContainerState, r: Bytes, b: ContainerState, s: Bytes)
    requires Container(a) + r == Container(b) + s
    ensures a == b && r == s
    decreases a, 0
  {
    hide Str, Config;
    assert Container(a) + r == Str(a.snapshot) + (Config(a.config) + r);
    assert Container(b) + s == Str(b.snapshot) + (Config(b.config) + s);
    StrPrefix(a.snapshot, Config(a.config) + r, b.snapshot, Config(b.config) + s);
    ConfigPrefix(a.config, r, b.config, s);
  }
}
