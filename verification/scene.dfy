/** The part of a three.js scene graph the model parsers touch: a tree of
    nodes, each with the flags the parsers set, its materials and the
    animation clips attached to it. `traverse` visits every node once and may
    edit the node it visits; `clone` is a fresh structural copy, which in a
    value model is the tree itself. */
module SceneTree {

  /** SkinnedMesh extends Mesh in three.js, so both answer `isMesh`. */
  datatype Kind = Object3D | Mesh | SkinnedMesh

  datatype Material = Material(name: string, skinning: bool)

  datatype Clip = Clip(name: string)

  /** What belongs to one node, apart from its children. */
  datatype NodeData = NodeData(
    kind: Kind,
    castShadow: bool,
    frustumCulled: bool,
    materials: seq<Material>,
    animations: seq<Clip>)

  datatype Node = Node(data: NodeData, children: seq<Node>)

  predicate IsMesh(d: NodeData) {
    d.kind == Mesh || d.kind == SkinnedMesh
  }

  predicate IsSkinnedMesh(d: NodeData) {
    d.kind == SkinnedMesh
  }

  /** `node.traverse(visit)` where `visit` only edits the node it is given. */
  function Traverse(n: Node, visit: NodeData -> NodeData): Node
    decreases n, 1
  {
    Node(visit(n.data), TraverseAll(n.children, visit))
  }

  function TraverseAll(ns: seq<Node>, visit: NodeData -> NodeData): (rs: seq<Node>)
    ensures |rs| == |ns|
    decreases ns, 0
  {
    if |ns| == 0 then []
    else [Traverse(ns[0], visit)] + TraverseAll(ns[1..], visit)
  }

  /** The nodes of a tree in the order `traverse` visits them (pre-order). */
  function Flatten(n: Node): (ds: seq<NodeData>)
    ensures |ds| >= 1 && ds[0] == n.data
    decreases n, 1
  {
    [n.data] + FlattenAll(n.children)
  }

  function FlattenAll(ns: seq<Node>): seq<NodeData>
    decreases ns, 0
  {
    if |ns| == 0 then [] else Flatten(ns[0]) + FlattenAll(ns[1..])
  }

  /** The bare shape of a tree: how many children each node has. Together
      with Flatten it determines the tree. */
  datatype Shape = Shape(children: seq<Shape>)

  function Outline(n: Node): Shape
    decreases n, 1
  {
    Shape(OutlineAll(n.children))
  }

  function OutlineAll(ns: seq<Node>): (ss: seq<Shape>)
    ensures |ss| == |ns|
    decreases ns, 0
  {
    if |ns| == 0 then [] else [Outline(ns[0])] + OutlineAll(ns[1..])
  }

  function MapData(ds: seq<NodeData>, f: NodeData -> NodeData): (rs: seq<NodeData>)
    ensures |rs| == |ds|
    ensures forall i :: 0 <= i < |ds| ==> rs[i] == f(ds[i])
  {
    seq(|ds|, i requires 0 <= i < |ds| => f(ds[i]))
  }

  /** A traversal keeps the shape of the tree and applies the visitor to
      every node exactly once, in visiting order, and to nothing else. */
  lemma {:induction false} TraverseVisitsEveryNode(n: Node, f: NodeData -> NodeData)
    ensures Outline(Traverse(n, f)) == Outline(n)
    ensures Flatten(Traverse(n, f)) == MapData(Flatten(n), f)
    decreases n, 1
  {
    TraverseAllVisitsEveryNode(n.children, f);
  }

  lemma {:induction false} TraverseAllVisitsEveryNode(ns: seq<Node>, f: NodeData -> NodeData)
    ensures OutlineAll(TraverseAll(ns, f)) == OutlineAll(ns)
    ensures FlattenAll(TraverseAll(ns, f)) == MapData(FlattenAll(ns), f)
    decreases ns, 0
  {
    if |ns| > 0 {
      TraverseVisitsEveryNode(ns[0], f);
      TraverseAllVisitsEveryNode(ns[1..], f);
      var ts := TraverseAll(ns, f);
      assert ts[0] == Traverse(ns[0], f);
      assert ts[1..] == TraverseAll(ns[1..], f);
      MapDataAppend(Flatten(ns[0]), FlattenAll(ns[1..]), f);
    }
  }

  lemma MapDataAppend(a: seq<NodeData>, b: seq<NodeData>, f: NodeData -> NodeData)
    ensures MapData(a + b, f) == MapData(a, f) + MapData(b, f)
  {
  }
}
