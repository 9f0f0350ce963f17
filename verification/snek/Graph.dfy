/** The deduplicated graph: how a node id unfolds to the term it stands for, and why hash-consing
    gives every distinct term exactly one node. */
module Graphs {
  import opened DataModel

  type InstanceId = nat

  datatype Node = Node(kind: nat, inputs: seq<InstanceId>, phantoms: seq<InstanceId>)

  type Graph = seq<Node>

  ghost predicate NodeBelow(impls: seq<NodeImpl>, n: Node, bound: nat) {
    && n.kind < |impls|
    && (forall i :: 0 <= i < |n.inputs| ==> n.inputs[i] < bound)
    && (forall i :: 0 <= i < |n.phantoms| ==> n.phantoms[i] < bound)
  }

  /** Every edge points to an older node. */
  ghost predicate Ordered(impls: seq<NodeImpl>, g: Graph) {
    forall id :: 0 <= id < |g| ==> NodeBelow(impls, g[id], id)
  }

  function Unfold(impls: seq<NodeImpl>, g: Graph, id: InstanceId): Term
    requires Ordered(impls, g) && id < |g|
    decreases id
  {
    assert NodeBelow(impls, g[id], id);
    Term(impls[g[id].kind],
         seq(|g[id].inputs|, i requires 0 <= i < |g[id].inputs| => Unfold(impls, g, g[id].inputs[i])),
         seq(|g[id].phantoms|, i requires 0 <= i < |g[id].phantoms| => Unfold(impls, g, g[id].phantoms[i])))
  }

  /** Pushing nodes does not change what older ids mean. */
  lemma {:induction false} UnfoldStable(impls: seq<NodeImpl>, g: Graph, h: Graph, id: InstanceId)
    requires Ordered(impls, g) && Ordered(impls, h) && g <= h && id < |g|
    ensures Unfold(impls, g, id) == Unfold(impls, h, id)
    decreases id
  {
    assert g[id] == h[id];
    assert NodeBelow(impls, g[id], id);
    forall i | 0 <= i < |g[id].inputs|
      ensures Unfold(impls, g, g[id].inputs[i]) == Unfold(impls, h, h[id].inputs[i])
    {
      UnfoldStable(impls, g, h, g[id].inputs[i]);
    }
    forall i | 0 <= i < |g[id].phantoms|
      ensures Unfold(impls, g, g[id].phantoms[i]) == Unfold(impls, h, h[id].phantoms[i])
    {
      UnfoldStable(impls, g, h, g[id].phantoms[i]);
    }
    assert Unfold(impls, g, id).inputs == Unfold(impls, h, id).inputs;
    assert Unfold(impls, g, id).phantoms == Unfold(impls, h, id).phantoms;
  }

  ghost predicate Distinct<T(!new)>(s: seq<T>) {
    forall i, j :: 0 <= i < j < |s| ==> s[i] != s[j]
  }

  /** Maximal sharing: in a graph without duplicate nodes, over a store without duplicate
      implementations, two ids are the same exactly when their unfolded terms are. */
  lemma {:induction false} SharingIsMaximal(impls: seq<NodeImpl>, g: Graph, a: InstanceId, b: InstanceId)
    requires Ordered(impls, g) && Distinct(g) && Distinct(impls) && a < |g| && b < |g|
    ensures a == b <==> Unfold(impls, g, a) == Unfold(impls, g, b)
    decreases a
  {
    if Unfold(impls, g, a) == Unfold(impls, g, b) {
      assert NodeBelow(impls, g[a], a) && NodeBelow(impls, g[b], b);
      var ta, tb := Unfold(impls, g, a), Unfold(impls, g, b);
      assert |g[a].inputs| == |ta.inputs| == |tb.inputs| == |g[b].inputs|;
      assert |g[a].phantoms| == |ta.phantoms| == |tb.phantoms| == |g[b].phantoms|;
      forall i | 0 <= i < |g[a].inputs| ensures g[a].inputs[i] == g[b].inputs[i] {
        assert ta.inputs[i] == Unfold(impls, g, g[a].inputs[i]);
        assert tb.inputs[i] == Unfold(impls, g, g[b].inputs[i]);
        SharingIsMaximal(impls, g, g[a].inputs[i], g[b].inputs[i]);
      }
      forall i | 0 <= i < |g[a].phantoms| ensures g[a].phantoms[i] == g[b].phantoms[i] {
        assert ta.phantoms[i] == Unfold(impls, g, g[a].phantoms[i]);
        assert tb.phantoms[i] == Unfold(impls, g, g[b].phantoms[i]);
        SharingIsMaximal(impls, g, g[a].phantoms[i], g[b].phantoms[i]);
      }
      assert g[a] == g[b];
    }
  }
}
