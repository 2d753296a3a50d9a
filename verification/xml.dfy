/** A minimal XML element tree and the two navigation primitives the parsers use:
    the first child with a given name, and the next sibling with a given name. */
module Xml {
  import opened Wrappers

  /** An element: its tag name, its text content and its child elements in document order. */
  datatype XmlNode = XmlNode(name: string, text: string, children: seq<XmlNode>)

  /** Reference definition: the nodes of `nodes` whose tag is `name`, in document order. */
  function Named(nodes: seq<XmlNode>, name: string): (r: seq<XmlNode>)
    ensures |r| <= |nodes|
    ensures forall k :: 0 <= k < |r| ==> r[k].name == name && r[k] in nodes
    ensures r == [] <==> forall j :: 0 <= j < |nodes| ==> nodes[j].name != name
  {
    if |nodes| == 0 then []
    else
      var front := Named(nodes[..|nodes| - 1], name);
      if nodes[|nodes| - 1].name == name then front + [nodes[|nodes| - 1]] else front
  }

  /** Position of the first node at or after `from` named `name`; a null node is `None`. */
  function NextNamed(nodes: seq<XmlNode>, name: string, from: nat): (r: Option<nat>)
    requires from <= |nodes|
    ensures r.Some? ==> from <= r.value < |nodes| && nodes[r.value].name == name
    ensures r.Some? ==> forall j :: from <= j < r.value ==> nodes[j].name != name
    ensures r.None? ==> forall j :: from <= j < |nodes| ==> nodes[j].name != name
    decreases |nodes| - from
  {
    if from == |nodes| then None
    else if nodes[from].name == name then Some(from)
    else NextNamed(nodes, name, from + 1)
  }

  /** `XmlNode::FirstChild(name)`: the first child element called `name`, or the null node. */
  function FirstChild(node: Option<XmlNode>, name: string): (r: Option<XmlNode>)
    ensures r.Some? <==> node.Some? && exists j :: 0 <= j < |node.value.children| && node.value.children[j].name == name
    ensures r.Some? ==> r.value.name == name && r.value in node.value.children
    ensures r.Some? ==>
      exists j :: (0 <= j < |node.value.children| && node.value.children[j] == r.value &&
                   forall i :: 0 <= i < j ==> node.value.children[i].name != name)
  {
    if node.None? then None
    else
      match NextNamed(node.value.children, name, 0)
      case Some(j) => Some(node.value.children[j])
      case None => None
  }

  /** Skipping nodes that are not called `name` adds nothing to the filtered prefix. */
  lemma {:induction false} NamedSkip(nodes: seq<XmlNode>, name: string, lo: nat, hi: nat)
    requires lo <= hi <= |nodes|
    requires forall j :: lo <= j < hi ==> nodes[j].name != name
    ensures Named(nodes[..hi], name) == Named(nodes[..lo], name)
    decreases hi
  {
    if lo < hi {
      NamedSkip(nodes, name, lo, hi - 1);
      assert nodes[..hi][..hi - 1] == nodes[..hi - 1];
    }
  }

  /** One step of the walk: from a node called `name` to the next one (or the end), the filtered
      prefix grows by exactly that node. */
  lemma NamedStep(nodes: seq<XmlNode>, name: string, here: nat, stop: nat)
    requires here < stop <= |nodes| && nodes[here].name == name
    requires forall j :: here < j < stop ==> nodes[j].name != name
    ensures Named(nodes[..stop], name) == Named(nodes[..here], name) + [nodes[here]]
  {
    NamedSkip(nodes, name, here + 1, stop);
    assert nodes[..here + 1][..here] == nodes[..here];
  }

  /** The loop both parsers run: start at `FirstChild(name)` and follow `NextNode(name)` until
      the null node, collecting every visited node. It visits exactly the children called `name`. */
  method WalkSiblings(parent: XmlNode, name: string) returns (found: seq<XmlNode>)
    ensures found == Named(parent.children, name)
  {
    var nodes := parent.children;
    var cur := NextNamed(nodes, name, 0);
    found := [];
    NamedSkip(nodes, name, 0, if cur.Some? then cur.value else |nodes|);
    assert nodes[..|nodes|] == nodes;
    while cur.Some?
      invariant cur.Some? ==> cur.value < |nodes| && nodes[cur.value].name == name
      invariant cur.Some? ==> found == Named(nodes[..cur.value], name)
      invariant cur.None? ==> found == Named(nodes, name)
      decreases if cur.Some? then |nodes| - cur.value else 0
    {
      var here := cur.value;
      cur := NextNamed(nodes, name, here + 1);
      NamedStep(nodes, name, here, if cur.Some? then cur.value else |nodes|);
      found := found + [nodes[here]];
    }
  }
}
