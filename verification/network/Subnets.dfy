/** Realising an abstract topology: every node gets a namespace with an uplink of its own, every edge
    a bridge, and each uplink and bridge a two-address subnet that no other one in the network has. */
module Subnets {
  import opened Wrappers
  import opened Topologies

  /** 198.18.0.0, the prefix of 15 bits that subnets are taken from, and 127.0.0.1. */
  const PREFIX: nat := 0xC612_0000
  const LOCALHOST: nat := 0x7F00_0001

  /** How many subnets of two addresses the prefix has; the counter is a 16-bit number. */
  const SUBNETS: nat := 0x1_0000

  /** The two addresses of the `n`th subnet drawn. */
  function Low(n: nat): nat {
    PREFIX + 2 * (n % SUBNETS)
  }

  function High(n: nat): nat {
    Low(n) + 1
  }

  /** The bitwise or of two numbers. */
  function Or(a: nat, b: nat): nat
    decreases a + b
  {
    if a == 0 && b == 0 then 0 else (if a % 2 == 1 || b % 2 == 1 then 1 else 0) + 2 * Or(a / 2, b / 2)
  }

  function PowerOfTwo(k: nat): nat {
    if k == 0 then 1 else 2 * PowerOfTwo(k - 1)
  }

  /** An or never carries when one number stays below the other's lowest bit. */
  lemma {:induction false} OrIsPlus(a: nat, k: nat, b: nat)
    requires b < PowerOfTwo(k)
    ensures Or(a * PowerOfTwo(k), b) == a * PowerOfTwo(k) + b
    decreases k, a
  {
    if k == 0 {
      if a > 0 {
        OrIsPlus(a / 2, 0, 0);
        assert a * PowerOfTwo(0) == a;
      }
    } else {
      var half := PowerOfTwo(k - 1);
      assert a * PowerOfTwo(k) == 2 * (a * half);
      OrIsPlus(a, k - 1, b / 2);
    }
  }

  /** The shift and the bitwise ors that place a 16-bit counter into the prefix. */
  lemma PlacedInPrefix(counter: nat)
    requires counter < SUBNETS
    ensures Or(PREFIX, 2 * counter) == PREFIX + 2 * counter
    ensures Or(PREFIX + 2 * counter, 1) == PREFIX + 2 * counter + 1
  {
    assert PowerOfTwo(2) == 4 && PowerOfTwo(5) == 0x20 && PowerOfTwo(8) == 0x100;
    assert PowerOfTwo(11) == 0x800 && PowerOfTwo(14) == 0x4000 && PowerOfTwo(17) == 0x2_0000;
    OrIsPlus(0x6309, 17, 2 * counter);
    assert PowerOfTwo(1) == 2;
    OrIsPlus(0x6309_0000 + counter, 1, 1);
  }

  /** All addresses of `m` consecutive draws, starting with the `n`th. */
  function Drawn(n: nat, m: nat): multiset<nat> {
    if m == 0 then multiset{} else Drawn(n, m - 1) + multiset{Low(n + m - 1), High(n + m - 1)}
  }

  predicate InPrefix(a: nat) {
    PREFIX <= a < PREFIX + 2 * SUBNETS
  }

  predicate Draws(n: nat, m: nat, a: nat) {
    exists k :: n <= k < n + m && Covers(k, a)
  }

  predicate Covers(k: nat, a: nat) {
    a == Low(k) || a == High(k)
  }

  /** Up to 65536 consecutive draws never repeat an address. */
  lemma {:induction false} DrawsAreDisjoint(n: nat, m: nat, a: nat)
    requires m <= SUBNETS
    ensures Drawn(n, m)[a] == if Draws(n, m, a) then 1 else 0
    decreases m
  {
    hide Covers, Drawn;
    if m == 0 {
      NothingDrawn(n);
    } else {
      var last := n + m - 1;
      DrawsAreDisjoint(n, m - 1, a);
      DrawOne(n, m - 1);
      CoversOnce(last, a);
      if Covers(last, a) {
        forall k | n <= k < last ensures !Covers(k, a) {
          NoRepeat(k, last, a);
        }
        assert Draws(n, m, a) && !Draws(n, m - 1, a);
      } else {
        assert Draws(n, m, a) == Draws(n, m - 1, a);
      }
    }
  }

  lemma CoversOnce(k: nat, a: nat)
    ensures multiset{Low(k), High(k)}[a] == if Covers(k, a) then 1 else 0
  {
    hide Low;
  }

  lemma NoRepeat(k: nat, l: nat, a: nat)
    requires k < l < k + SUBNETS && Covers(l, a)
    ensures !Covers(k, a)
  {
    DifferentResidues(k, l);
  }

  lemma DifferentResidues(k: nat, l: nat)
    requires k < l < k + 65536
    ensures k % 65536 != l % 65536
  {
  }

  lemma SomeResidue(n: nat, j: nat) returns (k: nat)
    requires j < 65536
    ensures n <= k < n + 65536 && k % 65536 == j
  {
    var r := n % 65536;
    k := if r <= j then n + (j - r) else n + (65536 + j - r);
  }

  /** Any 65536 consecutive draws tile the whole prefix, each address once. */
  lemma DrawsTileThePrefix(n: nat, a: nat)
    ensures Drawn(n, SUBNETS)[a] == if InPrefix(a) then 1 else 0
  {
    hide Drawn, Covers;
    DrawsAreDisjoint(n, SUBNETS, a);
    if InPrefix(a) {
      var k := SomeResidue(n, (a - PREFIX) / 2);
      assert Covers(k, a) by { CoversInPrefix(k, a); }
    } else {
      forall k ensures !Covers(k, a) {
        CoversInPrefix(k, a);
      }
    }
  }

  lemma CoversInPrefix(k: nat, a: nat)
    ensures Covers(k, a) <==> InPrefix(a) && (a - PREFIX) / 2 == k % SUBNETS
  {
  }

  lemma {:induction false} DrawnSplit(n: nat, m: nat, k: nat)
    ensures Drawn(n, m + k) == Drawn(n, m) + Drawn(n + m, k)
    decreases k
  {
    hide Drawn, Low, High;
    if k == 0 {
      NothingDrawn(n + m);
    } else {
      DrawnSplit(n, m, k - 1);
      DrawOne(n, m + k - 1);
      DrawOne(n + m, k - 1);
    }
  }

  /** One side of a bridge. Both sides carry its name, which stands for a random identifier. */
  datatype Bridge = Bridge(name: nat, ip: nat)

  /** A namespace: the address it is reached at, its uplink and its sides of bridges. */
  datatype Namespace = Namespace(ip: nat, host: nat, gateway: nat, bridges: seq<Bridge>)

  function Parents(parent: Option<Bridge>): seq<Bridge> {
    if parent.Some? then [parent.value] else []
  }

  /** The number of the draw for the bridge to child `i` when drawing starts at `n`. */
  function DrawFor(ts: seq<Topology<()>>, n: nat, i: nat): nat
    requires i <= |ts|
  {
    n + 2 * Sizes(ts[..i])
  }

  function Bridges(ts: seq<Topology<()>>, n: nat): (r: seq<Bridge>)
    ensures |r| == |ts| && forall i :: 0 <= i < |ts| ==> r[i] == Bridge(DrawFor(ts, n, i), Low(DrawFor(ts, n, i)))
  {
    seq(|ts|, i requires 0 <= i < |ts| => Bridge(DrawFor(ts, n, i), Low(DrawFor(ts, n, i))))
  }

  /** The network for a topology when drawing starts at `n`. */
  function Realized(t: Topology<()>, parent: Option<Bridge>, n: nat): Topology<Namespace>
    decreases t, 1
  {
    Topology(NamespaceFor(t, parent, n), RealizedAll(t.children, n))
  }

  function NamespaceFor(t: Topology<()>, parent: Option<Bridge>, n: nat): Namespace {
    var uplink := DrawFor(t.children, n, |t.children|);
    Namespace(if parent.Some? then parent.value.ip else LOCALHOST, High(uplink), Low(uplink),
              Parents(parent) + Bridges(t.children, n))
  }

  function ChildBridge(ts: seq<Topology<()>>, n: nat, i: nat): Bridge
    requires i < |ts|
  {
    Bridge(DrawFor(ts, n, i), High(DrawFor(ts, n, i)))
  }

  function RealizedAll(ts: seq<Topology<()>>, n: nat): (r: seq<Topology<Namespace>>)
    ensures |r| == |ts|
    ensures forall i :: 0 <= i < |ts| ==> r[i] == Realized(ts[i], Some(ChildBridge(ts, n, i)), DrawFor(ts, n, i) + 1)
    decreases ts, 0
  {
    seq(|ts|, i requires 0 <= i < |ts| => Realized(ts[i], Some(ChildBridge(ts, n, i)), DrawFor(ts, n, i) + 1))
  }

  /** The network has the shape of the topology it was made for. */
  lemma {:induction false} RealizedShape(t: Topology<()>, parent: Option<Bridge>, n: nat)
    ensures Shape(Realized(t, parent, n)) == t
    decreases t
  {
    hide NamespaceFor, DrawFor;
    var rs := RealizedAll(t.children, n);
    forall i | 0 <= i < |rs| ensures Shapes(rs)[i] == t.children[i] {
      RealizedShape(t.children[i], Some(ChildBridge(t.children, n, i)), DrawFor(t.children, n, i) + 1);
    }
    assert Shapes(rs) == t.children;
    assert t.data == ();
  }

  /** The two ends of a bridge are the two addresses of one subnet. */
  ghost predicate SameSubnet(a: Bridge, b: Bridge) {
    a.name == b.name && a.ip % 2 == 0 && b.ip == a.ip + 1
  }

  /** Each node is reached at its side of its parent's bridge and has one side of a bridge to each
      child, in the order of its children. */
  ghost predicate Wired(r: Topology<Namespace>, parent: Option<Bridge>)
    decreases r, 0
  {
    var own := r.data.bridges;
    && r.data.ip == (if parent.Some? then parent.value.ip else LOCALHOST)
    && |own| == |Parents(parent)| + |r.children| && Parents(parent) <= own
    && forall i :: 0 <= i < |r.children| ==> Joined(own[|Parents(parent)| + i], r.children[i])
  }

  /** Bridge `b` leads to the root of `child`. */
  ghost predicate Joined(b: Bridge, child: Topology<Namespace>)
    decreases child, 1
  {
    exists side :: SameSubnet(b, side) && Wired(child, Some(side))
  }

  lemma EdgeIsWired(t: Topology<()>, parent: Option<Bridge>, n: nat, i: nat)
    requires i < |t.children|
    ensures SameSubnet(NamespaceFor(t, parent, n).bridges[|Parents(parent)| + i], ChildBridge(t.children, n, i))
  {
    hide DrawFor;
  }

  lemma {:induction false} RealizedIsWired(t: Topology<()>, parent: Option<Bridge>, n: nat)
    ensures Wired(Realized(t, parent, n), parent)
    decreases t
  {
    hide NamespaceFor, DrawFor, SameSubnet, RealizedAll, ChildBridge;
    var r := Realized(t, parent, n);
    NamespaceIs(t, parent, n);
    forall i | 0 <= i < |r.children|
      ensures Joined(r.data.bridges[|Parents(parent)| + i], r.children[i])
    {
      var side := ChildBridge(t.children, n, i);
      EdgeIsWired(t, parent, n, i);
      RealizedIsWired(t.children[i], Some(side), DrawFor(t.children, n, i) + 1);
    }
  }

  lemma NamespaceIs(t: Topology<()>, parent: Option<Bridge>, n: nat)
    ensures NamespaceFor(t, parent, n).ip == if parent.Some? then parent.value.ip else LOCALHOST
    ensures |NamespaceFor(t, parent, n).bridges| == |Parents(parent)| + |t.children|
    ensures Parents(parent) <= NamespaceFor(t, parent, n).bridges
  {
    hide DrawFor;
  }

  function BridgeIps(bs: seq<Bridge>): multiset<nat> {
    if bs == [] then multiset{} else BridgeIps(bs[..|bs| - 1]) + multiset{bs[|bs| - 1].ip}
  }

  /** The addresses of all interfaces in a list of networks. */
  function Interfaces(rs: seq<Topology<Namespace>>): multiset<nat>
    decreases rs
  {
    if rs == [] then multiset{}
    else
      var last := rs[|rs| - 1];
      assert last in rs;
      Interfaces(rs[..|rs| - 1]) + (Own(last.data) + Interfaces(last.children))
  }

  function Own(d: Namespace): multiset<nat> {
    multiset{d.gateway, d.host} + BridgeIps(d.bridges)
  }

  lemma {:induction false} BridgeIpsSplit(xs: seq<Bridge>, ys: seq<Bridge>)
    ensures BridgeIps(xs + ys) == BridgeIps(xs) + BridgeIps(ys)
    decreases |ys|
  {
    hide BridgeIps;
    if ys == [] {
      assert xs + ys == xs;
      NothingDrawn(0);
    } else {
      var before, last := ys[..|ys| - 1], ys[|ys| - 1];
      BridgeIpsSplit(xs, before);
      assert ys == before + [last] && xs + ys == (xs + before) + [last];
      BridgeIpsLast(before, last);
      BridgeIpsLast(xs + before, last);
    }
  }

  function ParentIps(parent: Option<Bridge>): multiset<nat> {
    if parent.Some? then multiset{parent.value.ip} else multiset{}
  }

  /** A network of `s` nodes takes 2s-1 draws, and every address drawn is given to one interface. */
  lemma {:induction false} EveryAddressIsUsedOnce(t: Topology<()>, parent: Option<Bridge>, n: nat)
    ensures Interfaces([Realized(t, parent, n)]) == ParentIps(parent) + Drawn(n, 2 * Size(t) - 1)
    decreases t, 1, 0
  {
    hide RealizedAll, Bridges, Low, BridgeIps, Drawn, Interfaces, NamespaceFor;
    var r := Realized(t, parent, n);
    InterfacesOfOne(r);
    OwnIs(t, parent, n);
    ChildrenUse(t.children, n, |t.children|);
    assert Bridges(t.children, n)[..|t.children|] == Bridges(t.children, n);
    assert RealizedAll(t.children, n)[..|t.children|] == RealizedAll(t.children, n);
    assert t.children[..|t.children|] == t.children;
    var drawn := Drawn(n, 2 * Sizes(t.children));
    var uplink := multiset{Low(n + 2 * Sizes(t.children)), High(n + 2 * Sizes(t.children))};
    Regroup(Own(r.data), uplink, ParentIps(parent), BridgeIps(Bridges(t.children, n)), Interfaces(r.children), drawn);
    DrawOne(n, 2 * Sizes(t.children));
  }

  lemma OwnIs(t: Topology<()>, parent: Option<Bridge>, n: nat)
    ensures Own(NamespaceFor(t, parent, n)) == multiset{Low(n + 2 * Sizes(t.children)), High(n + 2 * Sizes(t.children))}
                                               + (ParentIps(parent) + BridgeIps(Bridges(t.children, n)))
  {
    hide Bridges, Low, High, BridgeIps, Sizes;
    BridgeIpsSplit(Parents(parent), Bridges(t.children, n));
    ParentsIps(parent);
    assert t.children[..|t.children|] == t.children;
  }

  lemma Regroup(own: multiset<nat>, uplink: multiset<nat>, parents: multiset<nat>, bridges: multiset<nat>,
                kids: multiset<nat>, drawn: multiset<nat>)
    requires own == uplink + (parents + bridges) && bridges + kids == drawn
    ensures own + kids == parents + (drawn + uplink)
  {
  }

  lemma DrawOne(n: nat, m: nat)
    ensures Drawn(n, m + 1) == Drawn(n, m) + multiset{Low(n + m), High(n + m)}
  {
  }

  lemma InterfacesOfOne(r: Topology<Namespace>)
    ensures Interfaces([r]) == Own(r.data) + Interfaces(r.children)
  {
    hide Own;
    InterfacesLast([], r);
    assert [] + [r] == [r];
  }

  lemma InterfacesLast(rs: seq<Topology<Namespace>>, r: Topology<Namespace>)
    ensures Interfaces(rs + [r]) == Interfaces(rs) + (Own(r.data) + Interfaces(r.children))
  {
    hide Own;
    assert (rs + [r])[..|rs|] == rs;
  }

  lemma ParentsIps(parent: Option<Bridge>)
    ensures BridgeIps(Parents(parent)) == ParentIps(parent)
  {
  }

  /** The first `i` children and the bridges to them use what was drawn for them. */
  lemma {:induction false} ChildrenUse(ts: seq<Topology<()>>, n: nat, i: nat)
    requires i <= |ts|
    ensures BridgeIps(Bridges(ts, n)[..i]) + Interfaces(RealizedAll(ts, n)[..i]) == Drawn(n, 2 * Sizes(ts[..i]))
    decreases ts, 0, i
  {
    hide Low, High, BridgeIps, Drawn, Own, Interfaces, Realized, RealizedAll, Bridges, Size;
    if i == 0 {
      NothingDrawn(n);
      assert Bridges(ts, n)[..0] == [] && RealizedAll(ts, n)[..0] == [] && ts[..0] == [];
    } else {
      ChildrenUse(ts, n, i - 1);
      OneMore(ts, n, i - 1);
      ChildUses(ts, n, i - 1);
      var d := DrawFor(ts, n, i - 1);
      BridgeIpsLast(Bridges(ts, n)[..i - 1], Bridge(d, Low(d)));
      DrawnSplit(n, 2 * Sizes(ts[..i - 1]), 2 * Size(ts[i - 1]));
    }
  }

  /** The bridge to child `k` and the child itself use exactly what was drawn for them. */
  lemma ChildUses(ts: seq<Topology<()>>, n: nat, k: nat)
    requires k < |ts|
    ensures var d := DrawFor(ts, n, k);
      var child := Realized(ts[k], Some(ChildBridge(ts, n, k)), d + 1);
      Interfaces(RealizedAll(ts, n)[..k] + [child]) == Interfaces(RealizedAll(ts, n)[..k])
        + (multiset{High(d)} + Drawn(d + 1, 2 * Size(ts[k]) - 1))
      && Drawn(d, 2 * Size(ts[k])) == multiset{Low(d), High(d)} + Drawn(d + 1, 2 * Size(ts[k]) - 1)
    decreases ts, 0, k
  {
    hide Low, High, BridgeIps, Drawn, Own, Interfaces, Realized, RealizedAll, Bridges, DrawFor;
    var d := DrawFor(ts, n, k);
    var side := ChildBridge(ts, n, k);
    var child := Realized(ts[k], Some(side), d + 1);
    EveryAddressIsUsedOnce(ts[k], Some(side), d + 1);
    InterfacesLast(RealizedAll(ts, n)[..k], child);
    InterfacesOfOne(child);
    DrawnSplit(d, 1, 2 * Size(ts[k]) - 1);
    OneDrawn(d);
  }

  lemma NothingDrawn(n: nat)
    ensures Drawn(n, 0) == multiset{} && BridgeIps([]) == multiset{} && Interfaces([]) == multiset{}
  {
  }

  lemma OneDrawn(d: nat)
    ensures Drawn(d, 1) == multiset{Low(d), High(d)}
  {
  }

  lemma BridgeIpsLast(bs: seq<Bridge>, b: Bridge)
    ensures BridgeIps(bs + [b]) == BridgeIps(bs) + multiset{b.ip}
  {
    assert (bs + [b])[..|bs|] == bs;
  }

  /** No two interfaces of a network of at most 32768 nodes share an address. */
  lemma AddressesAreDistinct(t: Topology<()>, n: nat, a: nat)
    requires 2 * Size(t) - 1 <= SUBNETS
    ensures Interfaces([Realized(t, None, n)])[a] <= 1
  {
    hide Drawn, Realized;
    EveryAddressIsUsedOnce(t, None, n);
    DrawsAreDisjoint(n, 2 * Size(t) - 1, a);
  }

  class Sidecar {
    var counter: nat

    /** How many subnets were drawn; numbers the random names of bridges. */
    var drawn: nat

    ghost predicate Valid()
      reads this
    {
      counter == drawn % SUBNETS
    }

    constructor ()
      ensures Valid() && drawn == 0
    {
      counter, drawn := 0, 0;
    }

    /** The two addresses of the next subnet; the counter wraps around. */
    method PickSubnet() returns (low: nat, high: nat)
      requires Valid()
      modifies this
      ensures Valid() && drawn == old(drawn) + 1
      ensures low == Low(old(drawn)) && high == High(old(drawn))
    {
      PlacedInPrefix(counter);
      var subnet := Or(PREFIX, 2 * counter);
      counter := (counter + 1) % SUBNETS;
      drawn := drawn + 1;
      low, high := subnet, Or(subnet, 1);
    }

    method RealizeTopology(t: Topology<()>, parent: Option<Bridge>) returns (r: Topology<Namespace>)
      requires Valid() && Canonical(t)
      modifies this
      ensures Valid() && drawn == old(drawn) + 2 * Size(t) - 1
      ensures r == Realized(t, parent, old(drawn))
      decreases t
    {
      hide Canonical, Low, High, Realized, Bridges, RealizedAll, Size, Sorted;
      ghost var n := drawn;
      var ts := t.children;
      ChildrenAreCanonical(t);
      var bridges, children := Parents(parent), [];
      NoneYet(ts, n);
      for i := 0 to |ts|
        invariant Valid() && drawn == DrawFor(ts, n, i)
        invariant bridges == Parents(parent) + Bridges(ts, n)[..i]
        invariant children == RealizedAll(ts, n)[..i]
      {
        var name := drawn;
        var mine, theirs := PickSubnet();
        bridges := bridges + [Bridge(name, mine)];
        var child := RealizeTopology(ts[i], Some(Bridge(name, theirs)));
        children := children + [child];
        OneMore(ts, n, i);
      }
      assert Bridges(ts, n)[..|ts|] == Bridges(ts, n) && RealizedAll(ts, n)[..|ts|] == RealizedAll(ts, n);
      var gateway, host := PickSubnet();
      r := New(Namespace(if parent.Some? then parent.value.ip else LOCALHOST, host, gateway, bridges));
      RealizedAreSorted(t, n);
      r := AddChildren(r, children);
      Whole(t, parent, n);
    }
  }

  method AddChildren(start: Topology<Namespace>, children: seq<Topology<Namespace>>) returns (r: Topology<Namespace>)
    requires start.children == [] && Sorted(children)
    ensures r == Topology(start.data, children)
  {
    hide Leq, Sort;
    r := start;
    for i := 0 to |children|
      invariant r == Topology(start.data, children[..i])
    {
      SortKeepsSorted(children[..i + 1]);
      assert children[..i] + [children[i]] == children[..i + 1];
      r := AddChild(r, children[i]);
    }
    assert children[..|children|] == children;
  }

  lemma ChildrenAreCanonical(t: Topology<()>)
    requires Canonical(t)
    ensures forall i :: 0 <= i < |t.children| ==> Canonical(t.children[i])
  {
  }

  lemma NoneYet(ts: seq<Topology<()>>, n: nat)
    ensures DrawFor(ts, n, 0) == n && Bridges(ts, n)[..0] == [] && RealizedAll(ts, n)[..0] == []
  {
  }

  lemma OneMore(ts: seq<Topology<()>>, n: nat, i: nat)
    requires i < |ts|
    ensures DrawFor(ts, n, i + 1) == DrawFor(ts, n, i) + 2 * Size(ts[i])
    ensures Bridges(ts, n)[..i + 1] == Bridges(ts, n)[..i] + [Bridge(DrawFor(ts, n, i), Low(DrawFor(ts, n, i)))]
    ensures RealizedAll(ts, n)[..i + 1]
            == RealizedAll(ts, n)[..i] + [Realized(ts[i], Some(ChildBridge(ts, n, i)), DrawFor(ts, n, i) + 1)]
  {
    hide Realized, Low;
    assert ts[..i + 1][..i] == ts[..i];
  }

  /** Realised siblings are already in order, so adding them one by one moves none. */
  lemma RealizedAreSorted(t: Topology<()>, n: nat)
    requires Canonical(t)
    ensures Sorted(RealizedAll(t.children, n))
  {
    hide Realized, DrawFor;
    var rs := RealizedAll(t.children, n);
    forall i | 0 <= i < |rs| ensures Shapes(rs)[i] == t.children[i] {
      RealizedShape(t.children[i], Some(ChildBridge(t.children, n, i)), DrawFor(t.children, n, i) + 1);
    }
    assert Shapes(rs) == t.children;
    SortedShapes(rs);
  }

  lemma Whole(t: Topology<()>, parent: Option<Bridge>, n: nat)
    ensures Realized(t, parent, n) == Topology(NamespaceFor(t, parent, n), RealizedAll(t.children, n))
    ensures DrawFor(t.children, n, |t.children|) == n + 2 * Size(t) - 2
  {
    assert t.children[..|t.children|] == t.children;
  }

  /** A pooled network fits every tree of containers whose topology equals the one it was made for: each
      container gets a namespace of its own and none is left over. */
  lemma RealizedFits<T>(containers: Topology<T>, t: Topology<()>, n: nat)
    requires Compare(Shape(containers), t) == Equal
    ensures MapData(First, Zip(containers, Realized(t, None, n))) == containers
    ensures MapData(Second, Zip(containers, Realized(t, None, n))) == Realized(t, None, n)
  {
    hide Compare, Realized, Zip, MapData;
    var network := Realized(t, None, n);
    EqualIsSameShape(Shape(containers), t);
    ShapeOfShape(Shape(containers));
    ShapeOfShape(t);
    RealizedShape(t, None, n);
    EqualIsSameShape(containers, network);
    ZipProjects(containers, network);
  }
}
