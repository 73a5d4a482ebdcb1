/**
  * The contour-morphology module logic: the parameter-node selection, the
  * scene-event guards, the labelmap query and the MorphContour orchestrator,
  * which reads the primary (and for binary operations the secondary) contour's
  * labelmap, runs one morphology operation and adds the result to the scene as
  * a labelmap volume with a display node inside one batch-processing bracket.
  */
module ContourMorphologyLogic {
  import opened Common
  import opened MorphologyRules
  import opened MrmlScene

  /** The ID of the standard label colour table. */
  const LabelsColorTableId: NodeId := "vtkMRMLColorTableNodeLabels"

  /** The node with the given ID, if it is a contour. */
  function ContourById(nodes: seq<Node>, id: NodeId): (r: Option<Node>)
    ensures r.Some? ==> r.value.ContourNode? && r.value in nodes && r.value.id == id
    ensures UniqueIds(nodes) ==> (r.None? <==> forall n :: n in nodes && n.id == id ==> !n.ContourNode?)
  {
    match Lookup(nodes, id)
    case Some(n) => if n.ContourNode? then Some(n) else None
    case None => None
  }

  /** The volume a contour names as its indexed labelmap, if that is a scalar volume. */
  function LabelmapVolume(nodes: seq<Node>, contour: Node): (r: Option<Node>)
    requires contour.ContourNode?
    ensures r.Some? ==> r.value.ScalarVolumeNode? && r.value in nodes
    ensures r.Some? ==> contour.labelmapVolumeNodeId == Some(r.value.id)
    ensures UniqueIds(nodes) ==>
      (r.None? <==> contour.labelmapVolumeNodeId.None?
                    || forall n :: n in nodes && n.id == contour.labelmapVolumeNodeId.value ==> !n.ScalarVolumeNode?)
  {
    match contour.labelmapVolumeNodeId
    case None => None
    case Some(vid) =>
      match Lookup(nodes, vid)
      case Some(v) => if v.ScalarVolumeNode? then Some(v) else None
      case None => None
  }

  /** An image whose sample count is the product of its dimensions, as image data always has. */
  predicate WellFormed(img: Image)
  {
    0 <= img.dims.i && 0 <= img.dims.j && 0 <= img.dims.k
    && |img.voxels| == img.dims.i * img.dims.j * img.dims.k
  }

  /** A scalar volume is present and holds image data. */
  predicate VolumeReady(v: Option<Node>)
  {
    v.Some? && v.value.ScalarVolumeNode? && v.value.image.Some? && WellFormed(v.value.image.value)
  }

  function GeometryOfVolume(v: Node): Geometry
    requires v.ScalarVolumeNode? && v.image.Some?
  {
    Geometry(v.orientation.origin, v.orientation.spacing, v.image.value.dims)
  }

  predicate PrimaryResolves(nodes: seq<Node>, p: MorphologyParameters)
  {
    ContourById(nodes, p.contourNodeId).Some?
  }

  function PrimaryContour(nodes: seq<Node>, p: MorphologyParameters): Node
    requires PrimaryResolves(nodes, p)
  {
    ContourById(nodes, p.contourNodeId).value
  }

  /** The primary contour's active representation is the indexed labelmap. */
  predicate PrimaryIsLabelmap(nodes: seq<Node>, p: MorphologyParameters)
    requires PrimaryResolves(nodes, p)
  {
    PrimaryContour(nodes, p).activeRepresentation == IndexedLabelmap
  }

  predicate PrimaryVolumeReady(nodes: seq<Node>, p: MorphologyParameters)
    requires PrimaryResolves(nodes, p)
  {
    VolumeReady(LabelmapVolume(nodes, PrimaryContour(nodes, p)))
  }

  function PrimaryVolume(nodes: seq<Node>, p: MorphologyParameters): (v: Node)
    requires PrimaryResolves(nodes, p) && PrimaryVolumeReady(nodes, p)
    ensures v.ScalarVolumeNode? && v.image.Some? && WellFormed(v.image.value) && v in nodes
    ensures PrimaryContour(nodes, p).labelmapVolumeNodeId == Some(v.id)
  {
    LabelmapVolume(nodes, PrimaryContour(nodes, p)).value
  }

  predicate SecondaryVolumeReady(nodes: seq<Node>, p: MorphologyParameters)
  {
    ContourById(nodes, p.secondaryContourNodeId).Some?
    && VolumeReady(LabelmapVolume(nodes, ContourById(nodes, p.secondaryContourNodeId).value))
  }

  function SecondaryVolume(nodes: seq<Node>, p: MorphologyParameters): (v: Node)
    requires SecondaryVolumeReady(nodes, p)
    ensures v.ScalarVolumeNode? && v.image.Some? && WellFormed(v.image.value) && v in nodes
    ensures ContourById(nodes, p.secondaryContourNodeId).value.labelmapVolumeNodeId == Some(v.id)
  {
    LabelmapVolume(nodes, ContourById(nodes, p.secondaryContourNodeId).value).value
  }

  /** A binary operation whose two labelmaps fail the tolerance test. */
  predicate RejectsGeometry(nodes: seq<Node>, p: MorphologyParameters)
    requires PrimaryResolves(nodes, p) && PrimaryVolumeReady(nodes, p)
    requires p.operation.IsBinary() ==> SecondaryVolumeReady(nodes, p)
  {
    p.operation.IsBinary()
    && GeometryMismatch(GeometryOfVolume(PrimaryVolume(nodes, p)), GeometryOfVolume(SecondaryVolume(nodes, p)))
  }

  /**
    * What MorphContour dereferences without checking, along the path a call
    * takes: the primary contour; once it is a labelmap, its volume and image,
    * the secondary contour's volume and image for binary operations; once the
    * tolerance test passes, the output contour and a non-zero spacing to divide by.
    */
  predicate MorphInputsResolve(nodes: seq<Node>, p: MorphologyParameters)
  {
    && PrimaryResolves(nodes, p)
    && (PrimaryIsLabelmap(nodes, p) ==>
         && PrimaryVolumeReady(nodes, p)
         && (p.operation.IsBinary() ==> SecondaryVolumeReady(nodes, p))
         && (!RejectsGeometry(nodes, p) ==>
               && ContourById(nodes, p.outputContourNodeId).Some?
               && NonZeroSpacing(PrimaryVolume(nodes, p).orientation.spacing)))
  }

  /** The call gets past both early exits and assembles a result. */
  predicate Proceeds(nodes: seq<Node>, p: MorphologyParameters)
  {
    MorphInputsResolve(nodes, p) && PrimaryIsLabelmap(nodes, p) && !RejectsGeometry(nodes, p)
  }

  /** Grids that pass the tolerance test hold well-formed images of equal sample count. */
  lemma PassingGridsHaveEqualVoxelCounts(a: Node, b: Node)
    requires a.ScalarVolumeNode? && a.image.Some? && WellFormed(a.image.value)
    requires b.ScalarVolumeNode? && b.image.Some? && WellFormed(b.image.value)
    requires !GeometryMismatch(GeometryOfVolume(a), GeometryOfVolume(b))
    ensures |a.image.value.voxels| == |b.image.value.voxels|
  {
    MismatchIffIncompatible(GeometryOfVolume(a), GeometryOfVolume(b));
    CompatibleHasSameDimensions(GeometryOfVolume(a), GeometryOfVolume(b));
  }

  /**
    * The image the dispatch produces from the scene's inputs: the primary
    * labelmap, the secondary one for binary operations, the kernel from the
    * primary spacing and the primary's histogram maximum as true value.
    */
  function MorphedImage(nodes: seq<Node>, p: MorphologyParameters, filters: Filters): (r: Option<Image>)
    requires Proceeds(nodes, p)
    ensures r.None? <==> p.operation.Unrecognized?
    ensures var v := PrimaryVolume(nodes, p);
      p.operation.Expand? ==> r == Some(filters.dilate(v.image.value, KernelFor(p.size, v.orientation.spacing)))
    ensures var v := PrimaryVolume(nodes, p);
      p.operation.Shrink? ==> r == Some(filters.erode(v.image.value, KernelFor(p.size, v.orientation.spacing)))
    ensures p.operation.IsBinary() ==>
      var a := PrimaryVolume(nodes, p).image.value;
      var b := SecondaryVolume(nodes, p).image.value;
      && r.Some? && r.value.dims == a.dims && |r.value.voxels| == |a.voxels| == |b.voxels|
      && forall k :: 0 <= k < |a.voxels| ==>
           && (r.value.voxels[k] == 0.0 || r.value.voxels[k] == filters.histogramMax(a))
           && (Truth(r.value.voxels[k]) <==> Truth(filters.histogramMax(a)) && InResult(p.operation, Truth(a.voxels[k]), Truth(b.voxels[k])))
  {
    var primary := PrimaryVolume(nodes, p);
    var secondary := if p.operation.IsBinary() then SecondaryVolume(nodes, p).image else None;
    if p.operation.IsBinary() then
      PassingGridsHaveEqualVoxelCounts(primary, SecondaryVolume(nodes, p));
      MorphImage(p.operation, primary.image.value, secondary, KernelFor(p.size, primary.orientation.spacing),
                 filters.histogramMax(primary.image.value), filters)
    else
      MorphImage(p.operation, primary.image.value, secondary, KernelFor(p.size, primary.orientation.spacing),
                 filters.histogramMax(primary.image.value), filters)
  }

  /** The colour node a new labelmap display node gets: the label colour table when the scene has it. */
  function LabelColorNode(nodes: seq<Node>): (r: Option<NodeId>)
    ensures r.Some? <==> exists m :: m in nodes && m.id == LabelsColorTableId
    ensures r.Some? ==> r.value == LabelsColorTableId
  {
    if Lookup(nodes, LabelsColorTableId).Some? then Some(LabelsColorTableId) else None
  }

  /**
    * The scene after the result assembly: the output contour (at `out`) now
    * has the new volume as its active indexed labelmap, every other old node
    * is as it was, and exactly two nodes are appended: a labelmap volume with
    * a fresh ID and a fresh name derived from the output contour's, carrying
    * `orientation` and `image`, then its display node, named after the volume
    * plus "Display", visible, coloured by the label colour table exactly when
    * the scene has one.
    */
  ghost predicate ResultAdded(before: seq<Node>, after: seq<Node>, out: nat, orientation: Orientation, image: Option<Image>)
    requires out < |before| && before[out].ContourNode?
  {
    var n := |before|;
    var output := before[out];
    var base := output.name + " - Labelmap";
    && |after| == n + 2
    && var volume := after[n];
       var display := after[n + 1];
       && after[..n] == before[out := output.(activeRepresentation := IndexedLabelmap,
                                              labelmapVolumeNodeId := Some(volume.id))]
       && volume.ScalarVolumeNode?
       && (forall m :: m in before ==> m.id != volume.id && m.name != volume.name)
       && |base| <= |volume.name| && volume.name[..|base|] == base
       && volume.orientation == orientation
       && volume.image == image
       && volume.labelMap && !volume.hideFromEditors
       && volume.displayNodeId == Some(display.id)
       && display.LabelMapVolumeDisplayNode?
       && (forall m :: m in before ==> m.id != display.id)
       && display.id != volume.id
       && display.name == volume.name + "Display"
       && display.visibility == 1
       && display.colorNodeId == LabelColorNode(before)
  }

  /** The scene after a successful MorphContour: the result of the dispatch on the primary's grid, assembled. */
  ghost predicate Assembled(before: seq<Node>, after: seq<Node>, p: MorphologyParameters, filters: Filters)
    requires Proceeds(before, p)
  {
    var out := IndexOf(before, p.outputContourNodeId).value;
    ResultAdded(before, after, out, PrimaryVolume(before, p).orientation, MorphedImage(before, p, filters))
  }

  /**
    * Adds the labelmap volume holding `image` and its display node, and points
    * the output contour at `out` to the volume.
    */
  method AddLabelmapResult(scene: Scene, out: nat, orientation: Orientation, image: Option<Image>)
    requires scene.Valid() && out < |scene.nodes| && scene.nodes[out].ContourNode?
    modifies scene`nodes
    ensures scene.Valid()
    ensures ResultAdded(old(scene.nodes), scene.nodes, out, orientation, image)
  {
    ghost var before := scene.nodes;
    var n := |scene.nodes|;
    var volumeId, name := AddResultVolume(scene, scene.nodes[out].name + " - Labelmap", orientation, image);
    ghost var withVolume := scene.nodes;
    ColorLookupIgnoresNewNodes(before, withVolume, LabelsColorTableId);
    var displayId := AddResultDisplay(scene, n, name);
    var updatedOutput := scene.nodes[out].(activeRepresentation := IndexedLabelmap,
                                           labelmapVolumeNodeId := Some(volumeId));
    scene.SetNode(out, updatedOutput);
    assert scene.nodes == before[out := updatedOutput]
                          + [ScalarVolumeNode(volumeId, name, orientation, image, true, false, Some(displayId)),
                             LabelMapVolumeDisplayNode(displayId, name + "Display", LabelColorNode(before), 1)];
    ResultAddedByConstruction(before, out, orientation, image, volumeId, displayId, name);
  }

  /** Adds the output labelmap volume under a fresh ID and a unique name derived from `baseName`. */
  method AddResultVolume(scene: Scene, baseName: string, orientation: Orientation, image: Option<Image>)
    returns (volumeId: NodeId, name: string)
    requires scene.Valid()
    modifies scene`nodes
    ensures scene.Valid()
    ensures scene.nodes == old(scene.nodes) + [ScalarVolumeNode(volumeId, name, orientation, image, true, false, None)]
    ensures forall m :: m in old(scene.nodes) ==> m.id != volumeId && m.name != name
    ensures |baseName| <= |name| && name[..|baseName|] == baseName
    ensures volumeId != LabelsColorTableId
  {
    var n := |scene.nodes|;
    name := scene.GenerateUniqueName(baseName);
    volumeId := scene.AddNode(ScalarVolumeNode("", "", orientation, None, false, false, None));
    scene.SetNode(n, ScalarVolumeNode(volumeId, name, orientation, image, true, false, None));
    NewIdIsNotTheColorTable(volumeId, "vtkMRMLScalarVolumeNode");
  }

  /**
    * Adds the display node of the volume at `volumeIndex`, named after the
    * volume plus "Display", visible, with the label colour table when the
    * scene has one, and makes it the volume's display node.
    */
  method AddResultDisplay(scene: Scene, volumeIndex: nat, name: string) returns (displayId: NodeId)
    requires scene.Valid() && volumeIndex < |scene.nodes| && scene.nodes[volumeIndex].ScalarVolumeNode?
    modifies scene`nodes
    ensures scene.Valid()
    ensures forall m :: m in old(scene.nodes) ==> m.id != displayId
    ensures scene.nodes == old(scene.nodes)[volumeIndex := old(scene.nodes)[volumeIndex].(displayNodeId := Some(displayId))]
                           + [LabelMapVolumeDisplayNode(displayId, name + "Display", LabelColorNode(old(scene.nodes)), 1)]
  {
    ghost var before := scene.nodes;
    var n := |scene.nodes|;
    displayId := scene.AddNode(LabelMapVolumeDisplayNode("", "", None, 1));
    NewIdIsNotTheColorTable(displayId, "vtkMRMLLabelMapVolumeDisplayNode");
    ColorLookupIgnoresNewNodes(before, scene.nodes, LabelsColorTableId);
    var colorNodeId: Option<NodeId> := None;
    if scene.GetNodeByID(LabelsColorTableId).Some? {
      colorNodeId := Some(LabelsColorTableId);
    }
    assert colorNodeId == LabelColorNode(before);
    scene.SetNode(n, LabelMapVolumeDisplayNode(displayId, name + "Display", colorNodeId, 1));
    assert scene.nodes == before + [LabelMapVolumeDisplayNode(displayId, name + "Display", colorNodeId, 1)];
    scene.SetNode(volumeIndex, scene.nodes[volumeIndex].(displayNodeId := Some(displayId)));
  }

  /** The two appended nodes and the rewired output contour, built from fresh IDs and a fresh name, form a ResultAdded state. */
  lemma ResultAddedByConstruction(before: seq<Node>, out: nat, orientation: Orientation, image: Option<Image>,
                                  volumeId: NodeId, displayId: NodeId, name: string)
    requires out < |before| && before[out].ContourNode?
    requires forall m :: m in before ==> m.id != volumeId && m.id != displayId && m.name != name
    requires displayId != volumeId
    requires |before[out].name + " - Labelmap"| <= |name|
    requires name[..|before[out].name + " - Labelmap"|] == before[out].name + " - Labelmap"
    ensures ResultAdded(before,
                        before[out := before[out].(activeRepresentation := IndexedLabelmap,
                                                   labelmapVolumeNodeId := Some(volumeId))]
                        + [ScalarVolumeNode(volumeId, name, orientation, image, true, false, Some(displayId)),
                           LabelMapVolumeDisplayNode(displayId, name + "Display", LabelColorNode(before), 1)],
                        out, orientation, image)
  {
  }

  /** Adding nodes whose IDs differ from `id` does not change whether the scene holds `id`. */
  lemma ColorLookupIgnoresNewNodes(before: seq<Node>, after: seq<Node>, id: NodeId)
    requires |before| <= |after| && after[..|before|] == before
    requires forall i :: |before| <= i < |after| ==> after[i].id != id
    ensures Lookup(after, id).Some? <==> Lookup(before, id).Some?
  {
    if Lookup(after, id).Some? {
      var i :| 0 <= i < |after| && after[i] == Lookup(after, id).value;
      assert before[i] in before;
    }
    if Lookup(before, id).Some? {
      var i :| 0 <= i < |before| && before[i] == Lookup(before, id).value;
      assert after[i] in after;
    }
  }

  /** A node whose class is, or derives from, the contour or the contour-morphology node class. */
  function IsContourOrMorphologyNode(n: Node): (r: bool)
    ensures r <==> ClassName(n) == "vtkMRMLContourNode" || ClassName(n) == "vtkMRMLContourMorphologyNode"
  {
    n.ContourNode? || n.ContourMorphologyNode?
  }

  /**
    * The guard of the node-added and node-removed handlers: node, scene and
    * parameter node present, no batch processing open, and a contour or
    * contour-morphology node.
    */
  function NodeEventMarksModified(node: Option<Node>, hasScene: bool, hasParameterNode: bool,
                                  batchProcessing: bool): (r: bool)
    ensures r <==> node.Some? && hasScene && hasParameterNode && !batchProcessing
                   && IsContourOrMorphologyNode(node.value)
  {
    if node.None? || !hasScene || !hasParameterNode then false
    else if batchProcessing then false
    else IsContourOrMorphologyNode(node.value)
  }

  class ContourMorphologyModuleLogic {
    var scene: Scene?
    /** The selected contour-morphology parameter node, held by value. */
    var parameterNode: Option<MorphologyParameters>
    /** Counts the logic's modification notifications. */
    var modifiedTime: nat

    constructor (scene: Scene?)
      ensures this.scene == scene && parameterNode == None && modifiedTime == 0
    {
      this.scene := scene;
      parameterNode := None;
      modifiedTime := 0;
    }

    method SetAndObserveContourMorphologyNode(node: Option<MorphologyParameters>)
      modifies this`parameterNode
      ensures parameterNode == node
    {
      parameterNode := node;
    }

    /** Whether the scene is open in a batch-processing state. */
    predicate SceneBatchProcessing()
      reads this, scene
    {
      scene != null && scene.IsBatchProcessing()
    }

    method OnMRMLSceneNodeAdded(node: Option<Node>)
      modifies this`modifiedTime
      ensures modifiedTime == old(modifiedTime)
        + (if NodeEventMarksModified(node, scene != null, parameterNode.Some?, SceneBatchProcessing()) then 1 else 0)
    {
      if node.None? || scene == null || parameterNode.None? {
        return;
      }
      if scene.IsBatchProcessing() {
        return;
      }
      if IsContourOrMorphologyNode(node.value) {
        modifiedTime := modifiedTime + 1;
      }
    }

    method OnMRMLSceneNodeRemoved(node: Option<Node>)
      modifies this`modifiedTime
      ensures modifiedTime == old(modifiedTime)
        + (if NodeEventMarksModified(node, scene != null, parameterNode.Some?, SceneBatchProcessing()) then 1 else 0)
    {
      if node.None? || scene == null || parameterNode.None? {
        return;
      }
      if scene.IsBatchProcessing() {
        return;
      }
      if IsContourOrMorphologyNode(node.value) {
        modifiedTime := modifiedTime + 1;
      }
    }

    /** After an import, the scene's first contour-morphology node becomes the parameter node, if there is one. */
    method OnMRMLSceneEndImport()
      requires scene != null
      modifies this`parameterNode
      ensures FirstMorphologyParameters(scene.nodes).Some? ==> parameterNode == FirstMorphologyParameters(scene.nodes)
      ensures FirstMorphologyParameters(scene.nodes).None? ==> parameterNode == old(parameterNode)
    {
      var found := FirstMorphologyParameters(scene.nodes);
      if found.Some? {
        parameterNode := found;
      }
    }

    /** False without a scene or parameter node; otherwise whether the primary contour is a labelmap. */
    function ContourContainsLabelmap(): (r: bool)
      reads this, scene
      requires scene != null && parameterNode.Some? ==> PrimaryResolves(scene.nodes, parameterNode.value)
      ensures r <==> scene != null && parameterNode.Some? && PrimaryIsLabelmap(scene.nodes, parameterNode.value)
    {
      if scene == null || parameterNode.None? then false
      else PrimaryContour(scene.nodes, parameterNode.value).activeRepresentation == IndexedLabelmap
    }

    ghost predicate MorphReady()
      reads this, scene
    {
      scene != null ==> scene.Valid() && parameterNode.Some? && MorphInputsResolve(scene.nodes, parameterNode.value)
    }

    /**
      * Runs the operation of the parameter node and adds its result to the
      * scene. It always returns 0. Without a labelmap primary it changes
      * nothing; when a binary operation's grids differ it adds nothing but
      * leaves the batch state it opened open; otherwise it assembles the result
      * and closes the batch.
      */
    method MorphContour(filters: Filters) returns (status: int)
      requires MorphReady()
      modifies scene
      ensures status == 0
      ensures scene != null ==> scene.Valid()
      ensures !old(ContourContainsLabelmap()) ==>
        scene == null || (scene.nodes == old(scene.nodes) && scene.batchDepth == old(scene.batchDepth))
      ensures old(ContourContainsLabelmap()) && old(RejectsGeometry(scene.nodes, parameterNode.value)) ==>
        scene.nodes == old(scene.nodes) && scene.batchDepth == old(scene.batchDepth) + 1
      ensures old(ContourContainsLabelmap()) && !old(RejectsGeometry(scene.nodes, parameterNode.value)) ==>
        scene.batchDepth == old(scene.batchDepth)
        && Assembled(old(scene.nodes), scene.nodes, parameterNode.value, filters)
    {
      status := 0;
      if scene == null {
        return;
      }
      var p := parameterNode.value;
      var contour := ContourById(scene.nodes, p.contourNodeId).value;
      if contour.activeRepresentation != IndexedLabelmap {
        // MorphContour logs an error and returns 0 before opening a batch state.
        return;
      }
      var volume := LabelmapVolume(scene.nodes, contour).value;
      var image := volume.image.value;
      var valueMax := filters.histogramMax(image);
      ghost var before := scene.nodes;

      scene.StartState();

      var secondaryImage: Option<Image> := None;
      if p.operation.IsBinary() {
        var secondaryContour := ContourById(scene.nodes, p.secondaryContourNodeId).value;
        // The C++ representation check at this point tests the primary
        // contour again, which is already known to be a labelmap, so it never
        // fails and a secondary contour in any representation is accepted.
        var volume2 := LabelmapVolume(scene.nodes, secondaryContour).value;
        if GeometryMismatch(GeometryOfVolume(volume), GeometryOfVolume(volume2)) {
          // MorphContour logs an error and returns 0; the batch state stays open.
          return;
        }
        PassingGridsHaveEqualVoxelCounts(volume, volume2);
        secondaryImage := volume2.image;
      }

      var kernel := KernelFor(p.size, volume.orientation.spacing);
      var morphed := MorphImage(p.operation, image, secondaryImage, kernel, valueMax, filters);

      assert morphed == MorphedImage(before, p, filters);
      var out := IndexOf(scene.nodes, p.outputContourNodeId).value;
      AddLabelmapResult(scene, out, volume.orientation, morphed);
      scene.EndState();
    }
  }

  /** IDs the scene gives a new volume or display node never equal the label colour table's ID. */
  lemma NewIdIsNotTheColorTable(id: NodeId, className: string)
    requires className == "vtkMRMLScalarVolumeNode" || className == "vtkMRMLLabelMapVolumeDisplayNode"
    requires |className| <= |id| && id[..|className|] == className
    ensures id != LabelsColorTableId
  {
    assert id[7] == className[7];
    assert LabelsColorTableId[7] == 'C';
  }
}
