/**
  * The part of the host scene the contour-morphology logic uses: a sequence of
  * nodes addressed by unique IDs, a batch-processing depth, unique-name and
  * unique-ID generation, node lookup and node addition.
  */
module MrmlScene {
  import opened Common
  import opened MorphologyRules

  type NodeId = string

  /** The active representation of a contour; only the indexed labelmap matters to morphology. */
  datatype Representation = IndexedLabelmap | OtherRepresentation

  /** Origin, spacing and axis directions of a volume: what copying the orientation transfers. */
  datatype Orientation = Orientation(origin: Vec3, spacing: Vec3, directions: seq<real>)

  /** The contour-morphology parameter node's content: the three contours, the operation and the kernel size. */
  datatype MorphologyParameters = MorphologyParameters(
    contourNodeId: NodeId,
    secondaryContourNodeId: NodeId,
    outputContourNodeId: NodeId,
    operation: Operation,
    size: Vec3)

  /** The node kinds the logic reads or creates; every other kind is `OtherNode`. */
  datatype Node =
    | ContourNode(id: NodeId, name: string, activeRepresentation: Representation,
                  labelmapVolumeNodeId: Option<NodeId>)
    | ScalarVolumeNode(id: NodeId, name: string, orientation: Orientation, image: Option<Image>,
                       labelMap: bool, hideFromEditors: bool, displayNodeId: Option<NodeId>)
    | LabelMapVolumeDisplayNode(id: NodeId, name: string, colorNodeId: Option<NodeId>, visibility: int)
    | ContourMorphologyNode(id: NodeId, name: string, parameters: MorphologyParameters)
    | OtherNode(id: NodeId, name: string)

  /** The class name the scene uses as the stem of a new node's ID. */
  function ClassName(n: Node): string
  {
    match n
    case ContourNode(_, _, _, _) => "vtkMRMLContourNode"
    case ScalarVolumeNode(_, _, _, _, _, _, _) => "vtkMRMLScalarVolumeNode"
    case LabelMapVolumeDisplayNode(_, _, _, _) => "vtkMRMLLabelMapVolumeDisplayNode"
    case ContourMorphologyNode(_, _, _) => "vtkMRMLContourMorphologyNode"
    case OtherNode(_, _) => "vtkMRMLNode"
  }

  /** Position of the first node with the given ID. */
  function IndexOf(nodes: seq<Node>, id: NodeId): (r: Option<nat>)
    ensures r.Some? ==> r.value < |nodes| && nodes[r.value].id == id
    ensures r.Some? ==> forall j :: 0 <= j < r.value ==> nodes[j].id != id
    ensures r.None? ==> forall j :: 0 <= j < |nodes| ==> nodes[j].id != id
  {
    if nodes == [] then None
    else if nodes[0].id == id then Some(0)
    else
      match IndexOf(nodes[1..], id)
      case Some(i) => Some(i + 1)
      case None => None
  }

  /** The node with the given ID, if the scene holds one. */
  function Lookup(nodes: seq<Node>, id: NodeId): (r: Option<Node>)
    ensures r.Some? ==> r.value in nodes && r.value.id == id
    ensures r.None? ==> forall n :: n in nodes ==> n.id != id
  {
    match IndexOf(nodes, id)
    case Some(i) => Some(nodes[i])
    case None => None
  }

  predicate UniqueIds(nodes: seq<Node>)
  {
    forall i, j :: 0 <= i < j < |nodes| ==> nodes[i].id != nodes[j].id
  }

  function IdsOf(nodes: seq<Node>): (r: seq<NodeId>)
    ensures |r| == |nodes| && forall i :: 0 <= i < |nodes| ==> r[i] == nodes[i].id
  {
    seq(|nodes|, i requires 0 <= i < |nodes| => nodes[i].id)
  }

  function NamesOf(nodes: seq<Node>): (r: seq<string>)
    ensures |r| == |nodes| && forall i :: 0 <= i < |nodes| ==> r[i] == nodes[i].name
  {
    seq(|nodes|, i requires 0 <= i < |nodes| => nodes[i].name)
  }

  /** An upper bound on the lengths of the given words. */
  function MaxLength(words: seq<string>): (m: nat)
    ensures forall w :: w in words ==> |w| <= m
  {
    if words == [] then 0
    else
      var rest := MaxLength(words[1..]);
      assert forall w :: w in words[1..] ==> w in words;
      if |words[0]| > rest then |words[0]| else rest
  }

  /**
    * A string that starts with `base` and is not among `taken`: `base` itself
    * when it is free, otherwise `base` with a suffix longer than any taken word.
    */
  function Fresh(base: string, taken: seq<string>): (r: string)
    ensures r !in taken
    ensures |base| <= |r| && r[..|base|] == base
  {
    if base !in taken then base
    else
      var r := base + "_" + seq(MaxLength(taken), _ => '1');
      assert |r| > MaxLength(taken);
      r
  }

  /** The ID the scene gives a node it adds: the node's class name, made unique among the current IDs. */
  function NextId(nodes: seq<Node>, n: Node): (id: NodeId)
    ensures forall m :: m in nodes ==> m.id != id
    ensures |ClassName(n)| <= |id| && id[..|ClassName(n)|] == ClassName(n)
  {
    var id := Fresh(ClassName(n), IdsOf(nodes));
    assert forall i :: 0 <= i < |nodes| ==> nodes[i].id in IdsOf(nodes);
    id
  }

  /** The parameters of the first contour-morphology node of the scene, if there is one. */
  function FirstMorphologyParameters(nodes: seq<Node>): (r: Option<MorphologyParameters>)
    ensures r.Some? <==> exists i :: 0 <= i < |nodes| && nodes[i].ContourMorphologyNode?
    ensures r.Some? ==> exists i :: 0 <= i < |nodes| && nodes[i].ContourMorphologyNode?
                                     && nodes[i].parameters == r.value
                                     && forall j :: 0 <= j < i ==> !nodes[j].ContourMorphologyNode?
  {
    if nodes == [] then None
    else if nodes[0].ContourMorphologyNode? then Some(nodes[0].parameters)
    else
      var r := FirstMorphologyParameters(nodes[1..]);
      assert forall i :: 1 <= i < |nodes| ==> nodes[i] == nodes[1..][i - 1];
      r
  }

  /** The host scene: its nodes in insertion order and its batch-processing depth. */
  class Scene {
    var nodes: seq<Node>
    var batchDepth: nat

    /** Node IDs are unique within the scene. */
    ghost predicate Valid()
      reads this
    {
      UniqueIds(nodes)
    }

    constructor ()
      ensures Valid() && nodes == [] && batchDepth == 0
    {
      nodes := [];
      batchDepth := 0;
    }

    /** The node with the given ID, or none. */
    function GetNodeByID(id: NodeId): (r: Option<Node>)
      reads this
      ensures r.Some? ==> r.value in nodes && r.value.id == id
      ensures r.None? <==> forall n :: n in nodes ==> n.id != id
    {
      Lookup(nodes, id)
    }

    /** True while a batch-processing state is open. */
    predicate IsBatchProcessing()
      reads this
    {
      batchDepth > 0
    }

    /** Opens a batch-processing state. */
    method StartState()
      modifies this`batchDepth
      ensures batchDepth == old(batchDepth) + 1
      ensures IsBatchProcessing()
    {
      batchDepth := batchDepth + 1;
    }

    /** Closes the innermost batch-processing state. */
    method EndState()
      requires batchDepth > 0
      modifies this`batchDepth
      ensures batchDepth == old(batchDepth) - 1
    {
      batchDepth := batchDepth - 1;
    }

    /** A name starting with `base` that no node of the scene has. */
    function GenerateUniqueName(base: string): (r: string)
      reads this
      ensures forall n :: n in nodes ==> n.name != r
      ensures |base| <= |r| && r[..|base|] == base
    {
      var r := Fresh(base, NamesOf(nodes));
      assert forall i :: 0 <= i < |nodes| ==> nodes[i].name in NamesOf(nodes);
      r
    }

    /** Appends `n` under a fresh ID and returns that ID. */
    method AddNode(n: Node) returns (id: NodeId)
      requires Valid()
      modifies this`nodes
      ensures Valid()
      ensures id == NextId(old(nodes), n)
      ensures forall m :: m in old(nodes) ==> m.id != id
      ensures nodes == old(nodes) + [n.(id := id)]
    {
      id := NextId(nodes, n);
      nodes := nodes + [n.(id := id)];
    }

    /** Replaces the node at position `i` by an updated node with the same ID. */
    method SetNode(i: nat, n: Node)
      requires Valid() && i < |nodes| && n.id == nodes[i].id
      modifies this`nodes
      ensures Valid()
      ensures nodes == old(nodes)[i := n]
    {
      nodes := nodes[i := n];
    }
  }
}
