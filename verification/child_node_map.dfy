/**
 * The search tree's child table: each choice (an int) leads to one edge, and
 * each edge holds an edge add-on and owns at most one child node. Callers keep
 * the edge references `Get` and `Create` hand out, so those references must stay
 * valid and keep naming the same edge as the table grows.
 */
module ChildNodeMaps {

  /** A search-tree node; its contents are not part of this model. */
  class TreeNode {
    constructor ()
    {
    }
  }

  /** The per-edge statistics; their contents are not part of this model. */
  class EdgeAddon {
    constructor ()
    {
    }
  }

  /** One edge: its own add-on and the child node it owns, if any. */
  class ChildType {
    const edgeAddon: EdgeAddon
    var node: TreeNode?

    /** A new edge owns no node and has an add-on of its own. */
    constructor ()
      ensures node == null
      ensures fresh(edgeAddon)
    {
      edgeAddon := new EdgeAddon();
      node := null;
    }

    /** The edge's add-on, the same object for the edge's whole life. */
    function GetEdgeAddon(): (r: EdgeAddon)
      ensures r == edgeAddon
    {
      edgeAddon
    }

    /** The edge now owns `n`. */
    method SetNode(n: TreeNode?)
      modifies this
      ensures GetNode() == n
    {
      node := n;
    }

    /** The node the edge owns, or null when it owns none. */
    function GetNode(): (r: TreeNode?)
      reads this
      ensures r == node
    {
      node
    }
  }

  class ChildNodeMap {
    var children: map<int, ChildType>

    /** Each choice has an edge object of its own. */
    ghost predicate Valid()
      reads this
    {
      forall a, b :: a in children && b in children && a != b ==> children[a] != children[b]
    }

    constructor ()
      ensures Valid() && children == map[]
    {
      children := map[];
    }

    /** The edge for `choice`, or null when the choice has none. */
    function Get(choice: int): (r: ChildType?)
      reads this
      ensures r == null <==> choice !in children
      ensures choice in children ==> r == children[choice]
    {
      if choice in children then children[choice] else null
    }

    /**
     * Adds a new, nodeless edge for a choice that has none. Exactly that key is
     * added; every existing choice keeps its edge object, and that object keeps
     * its node.
     */
    method Create(choice: int) returns (r: ChildType)
      requires Valid()
      requires choice !in children
      modifies this
      ensures Valid()
      ensures fresh(r) && r.GetNode() == null
      ensures children == old(children)[choice := r]
      ensures Get(choice) == r
      ensures forall k :: k != choice ==> Get(k) == old(Get(k))
      ensures forall k :: k in old(children) ==> children[k].GetNode() == old(children[k].GetNode())
    {
      r := new ChildType();
      children := children[choice := r];
    }
  }

  /**
   * Creates an edge for each of several new choices in turn: every edge handed
   * out is still the one `Get` returns for its choice after all the later
   * inserts, and the edges are distinct new objects.
   */
  method CreateAll(m: ChildNodeMap, choices: seq<int>) returns (created: seq<ChildType>)
    requires m.Valid()
    requires forall i :: 0 <= i < |choices| ==> choices[i] !in m.children
    requires forall i, j :: 0 <= i < j < |choices| ==> choices[i] != choices[j]
    modifies m
    ensures m.Valid()
    ensures |created| == |choices|
    ensures forall i :: 0 <= i < |choices| ==> m.Get(choices[i]) == created[i] && fresh(created[i])
    ensures forall k :: k !in choices ==> m.Get(k) == old(m.Get(k))
  {
    created := [];
    var i := 0;
    while i < |choices|
      invariant 0 <= i <= |choices|
      invariant m.Valid()
      invariant |created| == i
      invariant forall j :: 0 <= j < i ==> m.Get(choices[j]) == created[j] && fresh(created[j])
      invariant forall j :: i <= j < |choices| ==> choices[j] !in m.children
      invariant forall k :: k !in choices[..i] ==> m.Get(k) == old(m.Get(k))
    {
      var e := m.Create(choices[i]);
      created := created + [e];
      assert choices[..i + 1] == choices[..i] + [choices[i]];
      i := i + 1;
    }
    assert choices[..i] == choices;
  }

  /**
   * Hands a node to the edge of one choice, through the reference `Get`
   * returns. Because every choice has an edge object of its own, the edges of
   * the other choices keep their nodes.
   */
  method SetChildNode(m: ChildNodeMap, choice: int, n: TreeNode?)
    requires m.Valid() && choice in m.children
    modifies m.children[choice]
    ensures m.Get(choice).GetNode() == n
    ensures forall b :: b in m.children && b != choice ==> m.Get(b).GetNode() == old(m.Get(b).GetNode())
  {
    var edge := m.Get(choice);
    edge.SetNode(n);
  }
}
