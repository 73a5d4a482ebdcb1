# Contour morphology and room's-eye-view node, modelled in Dafny

This project models two pieces of a radiotherapy extension to a medical-imaging
host application.

The **contour-morphology module logic** works on contours: segmented structures
whose active representation may be an indexed labelmap volume. `MorphContour`
runs one operation on them: expand (dilate), shrink (erode), union,
intersection or subtraction. It first checks that the primary contour's active
representation is the indexed labelmap, reads that labelmap's geometry and takes
the maximum of its histogram as the true value (lines 213-228). Only then does
it open a batch-processing state of the scene (line 233). Inside that state it
reads, for the three binary operations, the secondary contour's labelmap and
checks that both grids agree on origin, spacing and dimensions within 0.001. It
turns the physical kernel size into whole voxels by dividing by the primary
spacing and truncating, and dispatches to the image filters. Then it adds the
result to the scene as a new labelmap volume with a labelmap display node, and
makes that volume the output contour's active labelmap. It closes the batch
state (line 349) only after the result is assembled; a geometry mismatch
returns with the state still open. The module also has
scene-event handlers that decide when the logic marks itself modified, a
parameter-node selection after scene import, and a query of whether the primary
contour is a labelmap.

The **room's-eye-view parameter node** stores seven treatment-machine
parameters. It reads them from scene-file attributes, writes them under fixed
attribute names and copies them from another node. It also holds sixteen
references to transform nodes, each stored under its own role string.

Files:

- `common.dfy` (module `Common`): `Option`, three-component vectors and axes.
- `morphology_rules.dfy` (module `MorphologyRules`): the grid tolerance test,
  the kernel computation with C++ truncation, the voxel-wise logic operations
  and the five-way dispatch, with lemmas about each.
- `mrml_scene.dfy` (module `MrmlScene`): the part of the host scene the logic
  uses: nodes with unique IDs, lookup, unique names and IDs, node addition and
  the batch-processing depth, as the class `Scene`.
- `contour_morphology_logic.dfy` (module `ContourMorphologyLogic`): the module
  logic as the class `ContourMorphologyModuleLogic`, the result assembly and
  the predicates that describe the scene after `MorphContour`.
- `rooms_eye_view_node.dfy` (module `RoomsEyeView`): the node as the class
  `RoomsEyeViewNode`, with the attribute semantics as functions and lemmas.

Behaviour of `MorphContour` that the model keeps as the code has it:

- The kernel extent is not clamped to at least one voxel. The initial extent of
  1 (line 274) is overwritten by the truncated quotient (lines 275-277), which
  is 0 for a size below one spacing (`ExtentBelowOneVoxelIsZero`).
- The dispatch has no default branch (lines 278-320). An unrecognised operation
  still adds a volume node, with no image, and its display node (`MorphImage`,
  `MorphContour`).
- The representation check inside the binary branch (line 241) tests the
  primary contour a second time. It already passed at line 215, so it never
  fails, and the secondary contour's representation is never checked.
- Every path returns 0 (lines 210, 218, 244, 256, 351). The geometry-mismatch
  path (line 256) returns without closing the batch-processing state opened at
  line 233.

## Model

Source paths are relative to the repository root.

| member | source | states |
|---|---|---|
| MorphologyRules.GeometryMismatch | ContourMorphology/Logic/vtkSlicerContourMorphologyModuleLogic.cxx:251-253 | The nine comparisons of the C++ test. Identical grids pass it, and grids that pass it have equal dimensions. |
| MorphologyRules.MismatchIffIncompatible | ContourMorphology/Logic/vtkSlicerContourMorphologyModuleLogic.cxx:251-253 | The nine-way mismatch test holds exactly when some axis has origin, spacing or dimension differing by more than the 0.001 threshold. |
| MorphologyRules.CompatibleHasSameDimensions | ContourMorphology/Logic/vtkSlicerContourMorphologyModuleLogic.cxx:253 | Integer dimensions that pass the 0.001 test are equal, so passing grids have the same voxel count. |
| MorphologyRules.MismatchSymmetric | ContourMorphology/Logic/vtkSlicerContourMorphologyModuleLogic.cxx:251-253 | The geometry test gives the same answer with the two grids swapped. |
| MorphologyRules.TruncateToInt | ContourMorphology/Logic/vtkSlicerContourMorphologyModuleLogic.cxx:275-277 | The `(int)` conversion truncates toward zero: the result is the whole part of the argument for either sign. |
| MorphologyRules.TruncateMonotone | ContourMorphology/Logic/vtkSlicerContourMorphologyModuleLogic.cxx:275-277 | Truncation is monotone. |
| MorphologyRules.Extent | ContourMorphology/Logic/vtkSlicerContourMorphologyModuleLogic.cxx:275-277 | The kernel extent along one axis is the size-over-spacing quotient truncated toward zero: within one of the quotient, never beyond it, and of the same sign. |
| MorphologyRules.KernelFor | ContourMorphology/Logic/vtkSlicerContourMorphologyModuleLogic.cxx:273-277 | Each kernel axis is the extent computed from that axis's size and that axis's spacing. |
| MorphologyRules.ExtentCountsWholeVoxels | ContourMorphology/Logic/vtkSlicerContourMorphologyModuleLogic.cxx:275-277 | For a positive spacing and a non-negative size, the kernel extent is the number of whole voxels that fit in the size. |
| MorphologyRules.ExtentBelowOneVoxelIsZero | ContourMorphology/Logic/vtkSlicerContourMorphologyModuleLogic.cxx:274-277 | There is no clamp: the initial extent of 1 is overwritten, and a size below one spacing gives 0. |
| MorphologyRules.ExtentMonotone | ContourMorphology/Logic/vtkSlicerContourMorphologyModuleLogic.cxx:275-277 | For a positive spacing, a larger physical size never gives a smaller extent. |
| MorphologyRules.KernelMonotone | ContourMorphology/Logic/vtkSlicerContourMorphologyModuleLogic.cxx:272-277 | Each kernel axis is computed from that axis alone, and is monotone in that axis's size. |
| MorphologyRules.LogicOr | ContourMorphology/Logic/vtkSlicerContourMorphologyModuleLogic.cxx:292-298 | The OR filter keeps the sample count; each output voxel is 0 or the true value, and is non-zero exactly when the true value is non-zero and either input voxel is. |
| MorphologyRules.LogicAnd | ContourMorphology/Logic/vtkSlicerContourMorphologyModuleLogic.cxx:300-307 | The AND filter keeps the sample count; each output voxel is 0 or the true value, and is non-zero exactly when the true value is non-zero and both input voxels are. |
| MorphologyRules.LogicNot | ContourMorphology/Logic/vtkSlicerContourMorphologyModuleLogic.cxx:308-312 | The NOT filter keeps the sample count; each output voxel is 0 or the true value, and is non-zero exactly when the true value is non-zero and the input voxel is 0. |
| MorphologyRules.MorphImage | ContourMorphology/Logic/vtkSlicerContourMorphologyModuleLogic.cxx:278-320 | Expand gives the dilate filter's output and shrink the erode filter's, both with the computed kernel. The binary operations give an image on the primary grid whose every voxel is 0 or the true value. An unrecognised operation, and only that, gives no image. |
| MorphologyRules.BinaryOperationIsSetAlgebra | ContourMorphology/Logic/vtkSlicerContourMorphologyModuleLogic.cxx:292-319 | Union, intersection and subtraction (primary AND NOT secondary) are the union, intersection and difference of the foreground voxel sets, when the true value is non-zero. |
| MorphologyRules.UnionAndIntersectCommute | ContourMorphology/Logic/vtkSlicerContourMorphologyModuleLogic.cxx:292-307 | Union and intersection give the same voxels with primary and secondary swapped. |
| MorphologyRules.SubtractDoesNotCommute | ContourMorphology/Logic/vtkSlicerContourMorphologyModuleLogic.cxx:308-319 | Subtraction depends on the order: a one-voxel example where swapping the inputs changes the result. |
| MorphologyRules.IntersectDisjointIsEmpty | ContourMorphology/Logic/vtkSlicerContourMorphologyModuleLogic.cxx:300-307 | Intersecting masks with no common foreground voxel gives an all-zero image. |
| MrmlScene.IndexOf | ContourMorphology/Logic/vtkSlicerContourMorphologyModuleLogic.cxx:230-231 | The position of the first node with an ID, or none when no node has it. |
| MrmlScene.Lookup | ContourMorphology/Logic/vtkSlicerContourMorphologyModuleLogic.cxx:213-214 | The node found by ID is in the scene and has that ID; none means no node has it. |
| MrmlScene.Fresh | ContourMorphology/Logic/vtkSlicerContourMorphologyModuleLogic.cxx:322-323 | A generated name or ID starts with its base and is not already taken. |
| MrmlScene.NextId | ContourMorphology/Logic/vtkSlicerContourMorphologyModuleLogic.cxx:324 | A node added to the scene gets an ID that starts with its class name and no other node has. |
| MrmlScene.FirstMorphologyParameters | ContourMorphology/Logic/vtkSlicerContourMorphologyModuleLogic.cxx:164 | The first contour-morphology node of the scene: found exactly when one exists, and no earlier node is one. |
| MrmlScene.Scene.GetNodeByID | ContourMorphology/Logic/vtkSlicerContourMorphologyModuleLogic.cxx:338 | Returns a node of the scene with the ID, or none exactly when no node has the ID. |
| MrmlScene.Scene.IsBatchProcessing | ContourMorphology/Logic/vtkSlicerContourMorphologyModuleLogic.cxx:128 | The test both node handlers make (lines 128 and 148): true while a batch-processing state is open, that is while some `StartState` has not been matched by an `EndState`. |
| MrmlScene.Scene.StartState | ContourMorphology/Logic/vtkSlicerContourMorphologyModuleLogic.cxx:233 | Opens one batch-processing level; the scene is then batch processing. |
| MrmlScene.Scene.EndState | ContourMorphology/Logic/vtkSlicerContourMorphologyModuleLogic.cxx:349 | Closes one batch-processing level. |
| MrmlScene.Scene.GenerateUniqueName | ContourMorphology/Logic/vtkSlicerContourMorphologyModuleLogic.cxx:323 | The name starts with the requested base and no node of the scene has it. |
| MrmlScene.Scene.AddNode | ContourMorphology/Logic/vtkSlicerContourMorphologyModuleLogic.cxx:324 | Appends the node under a fresh ID and keeps IDs unique. |
| MrmlScene.Scene.SetNode | ContourMorphology/Logic/vtkSlicerContourMorphologyModuleLogic.cxx:326-330 | Updates one node in place, keeping its ID; every other node is unchanged. |
| ContourMorphologyLogic.ContourById | ContourMorphology/Logic/vtkSlicerContourMorphologyModuleLogic.cxx:213-214 | A contour found by ID is a contour node of the scene with that ID; in a scene with unique IDs, none is found exactly when no contour node has the ID. |
| ContourMorphologyLogic.LabelmapVolume | ContourMorphology/Logic/vtkSlicerContourMorphologyModuleLogic.cxx:220 | A contour's indexed labelmap, when present, is a scalar volume of the scene whose ID is the one the contour names; in a scene with unique IDs, none is returned exactly when the contour names no ID or no scalar volume of the scene has it. |
| ContourMorphologyLogic.PrimaryVolume | ContourMorphology/Logic/vtkSlicerContourMorphologyModuleLogic.cxx:220-223 | The primary labelmap volume is the scene's volume that the primary contour names, and holds a well-formed image. |
| ContourMorphologyLogic.SecondaryVolume | ContourMorphology/Logic/vtkSlicerContourMorphologyModuleLogic.cxx:246-249 | The secondary labelmap volume is the scene's volume that the secondary contour names, and holds a well-formed image. |
| ContourMorphologyLogic.PassingGridsHaveEqualVoxelCounts | ContourMorphology/Logic/vtkSlicerContourMorphologyModuleLogic.cxx:249-258 | Two labelmaps that pass the geometry test have equal sample counts, so the logic filters see matching inputs. |
| ContourMorphologyLogic.MorphedImage | ContourMorphology/Logic/vtkSlicerContourMorphologyModuleLogic.cxx:220-320 | The image `MorphContour` produces from the scene: none exactly for an unrecognised operation; expand and shrink give the dilate and erode of the primary image with the kernel from the primary spacing; a binary operation gives an image on the primary grid whose voxels are 0 or the primary's histogram maximum, non-zero exactly where that maximum is non-zero and the voxel is in the union, intersection or difference of the two foregrounds. |
| ContourMorphologyLogic.LabelColorNode | ContourMorphology/Logic/vtkSlicerContourMorphologyModuleLogic.cxx:338-341 | The display node gets the label colour table exactly when the scene holds a node with that ID. |
| ContourMorphologyLogic.AddLabelmapResult | ContourMorphology/Logic/vtkSlicerContourMorphologyModuleLogic.cxx:322-347 | Leaves exactly the result state: two appended nodes with fresh IDs and names, their flags and links, and the output contour pointing at the new volume. |
| ContourMorphologyLogic.AddResultVolume | ContourMorphology/Logic/vtkSlicerContourMorphologyModuleLogic.cxx:322-330 | Appends one labelmap volume with the orientation and image, not hidden, named uniquely after the output contour plus " - Labelmap". |
| ContourMorphologyLogic.AddResultDisplay | ContourMorphology/Logic/vtkSlicerContourMorphologyModuleLogic.cxx:332-344 | Appends one visible display node named after the volume plus "Display", with the label colour table if present, and links it to the volume. |
| ContourMorphologyLogic.ResultAddedByConstruction | ContourMorphology/Logic/vtkSlicerContourMorphologyModuleLogic.cxx:322-347 | The nodes built from fresh IDs and a fresh name form the result state. |
| ContourMorphologyLogic.ColorLookupIgnoresNewNodes | ContourMorphology/Logic/vtkSlicerContourMorphologyModuleLogic.cxx:338 | Adding nodes with other IDs does not change whether the label colour table is found. |
| ContourMorphologyLogic.NewIdIsNotTheColorTable | ContourMorphology/Logic/vtkSlicerContourMorphologyModuleLogic.cxx:338-340 | The new volume and display nodes never take the colour table's ID. |
| ContourMorphologyLogic.IsContourOrMorphologyNode | ContourMorphology/Logic/vtkSlicerContourMorphologyModuleLogic.cxx:133 | The `IsA` test both node handlers make (lines 133 and 153): true exactly for nodes whose class is the contour or the contour-morphology node class. |
| ContourMorphologyLogic.NodeEventMarksModified | ContourMorphology/Logic/vtkSlicerContourMorphologyModuleLogic.cxx:122-136 | The handlers mark the logic modified exactly when node, scene and parameter node are present, no batch is open, and the node is a contour or contour-morphology node. |
| ContourMorphologyLogic.ContourMorphologyModuleLogic.constructor | ContourMorphology/Logic/vtkSlicerContourMorphologyModuleLogic.cxx:66-69 | A new logic has no parameter node. |
| ContourMorphologyLogic.ContourMorphologyModuleLogic.SetAndObserveContourMorphologyNode | ContourMorphology/Logic/vtkSlicerContourMorphologyModuleLogic.cxx:84-87 | The given parameter node becomes the selected one. |
| ContourMorphologyLogic.ContourMorphologyModuleLogic.OnMRMLSceneNodeAdded | ContourMorphology/Logic/vtkSlicerContourMorphologyModuleLogic.cxx:120-137 | The modification count grows by one exactly when the guard holds, and is unchanged otherwise. |
| ContourMorphologyLogic.ContourMorphologyModuleLogic.OnMRMLSceneNodeRemoved | ContourMorphology/Logic/vtkSlicerContourMorphologyModuleLogic.cxx:140-157 | The same guard as for an added node. |
| ContourMorphologyLogic.ContourMorphologyModuleLogic.OnMRMLSceneEndImport | ContourMorphology/Logic/vtkSlicerContourMorphologyModuleLogic.cxx:160-170 | The scene's first contour-morphology node becomes the parameter node; without one the selection is kept. |
| ContourMorphologyLogic.ContourMorphologyModuleLogic.ContourContainsLabelmap | ContourMorphology/Logic/vtkSlicerContourMorphologyModuleLogic.cxx:179-195 | True exactly when scene and parameter node exist and the primary contour's active representation is the indexed labelmap. |
| ContourMorphologyLogic.ContourMorphologyModuleLogic.MorphContour | ContourMorphology/Logic/vtkSlicerContourMorphologyModuleLogic.cxx:198-352 | Always returns 0. A non-labelmap primary changes nothing. A geometry mismatch adds nothing and leaves one batch level open. Otherwise the batch is balanced and the scene holds exactly the dispatch result, assembled. |
| RoomsEyeView.AttributeName | RoomsEyeView/Logic/vtkMRMLRoomsEyeViewNode.cxx:86-92 | The attribute name under which each parameter is written; `ParameterNamed` proves each name selects its own parameter back. |
| RoomsEyeView.ParameterNamed | RoomsEyeView/Logic/vtkMRMLRoomsEyeViewNode.cxx:109-137 | A name selects a parameter exactly when it is that parameter's attribute name; any other name selects nothing. |
| RoomsEyeView.Set | RoomsEyeView/Logic/vtkMRMLRoomsEyeViewNode.cxx:111-136 | Storing a value changes that one parameter and no other. |
| RoomsEyeView.ApplyAttribute | RoomsEyeView/Logic/vtkMRMLRoomsEyeViewNode.cxx:106-137 | One attribute sets the parameter it names to its value; every other parameter, and every parameter for an unknown name, keeps its value. |
| RoomsEyeView.ApplyAttributes | RoomsEyeView/Logic/vtkMRMLRoomsEyeViewNode.cxx:104-138 | The effect of the attribute loop: the attributes applied one after another, first to last. The lemmas below state what that leaves in each parameter. |
| RoomsEyeView.UnnamedParameterKeepsValue | RoomsEyeView/Logic/vtkMRMLRoomsEyeViewNode.cxx:104-138 | A parameter that no attribute names keeps its value through the whole loop. |
| RoomsEyeView.LastValueWins | RoomsEyeView/Logic/vtkMRMLRoomsEyeViewNode.cxx:104-108 | When a name repeats, the value of its last occurrence is kept. |
| RoomsEyeView.UnrecognisedAttributesIgnored | RoomsEyeView/Logic/vtkMRMLRoomsEyeViewNode.cxx:104-138 | Attributes with unknown names leave all seven parameters unchanged. |
| RoomsEyeView.Written | RoomsEyeView/Logic/vtkMRMLRoomsEyeViewNode.cxx:86-92 | The node writes each parameter once, under its attribute name, in a fixed order. |
| RoomsEyeView.WrittenOrderListsEachParameterOnce | RoomsEyeView/Logic/vtkMRMLRoomsEyeViewNode.cxx:86-92 | The written order lists every parameter exactly once. |
| RoomsEyeView.ReadBackWritten | RoomsEyeView/Logic/vtkMRMLRoomsEyeViewNode.cxx:86-138 | Reading back the written attributes restores all seven parameters, whatever the reading node held before. |
| RoomsEyeView.RoleName | RoomsEyeView/Logic/vtkMRMLRoomsEyeViewNode.cxx:36-55 | The reference-role string of each of the sixteen transform roles; the two lemmas below prove each is recognised as its role and all are distinct. |
| RoomsEyeView.RoleNameIdentifiesRole | RoomsEyeView/Logic/vtkMRMLRoomsEyeViewNode.cxx:36-55 | Each role string is recognised as its own role. |
| RoomsEyeView.RoleNamesDistinct | RoomsEyeView/Logic/vtkMRMLRoomsEyeViewNode.cxx:36-55 | The sixteen role strings are pairwise distinct. |
| RoomsEyeView.RoomsEyeViewNode.constructor | RoomsEyeView/Logic/vtkMRMLRoomsEyeViewNode.cxx:62-71 | A new node has every angle and displacement 0, except imaging-panel movement at -68.5, and no references. |
| RoomsEyeView.RoomsEyeViewNode.ReadXMLAttributes | RoomsEyeView/Logic/vtkMRMLRoomsEyeViewNode.cxx:96-141 | The parameters after the loop are the old ones with the attributes applied first to last. |
| RoomsEyeView.RoomsEyeViewNode.ReadXMLAttribute | RoomsEyeView/Logic/vtkMRMLRoomsEyeViewNode.cxx:106-137 | One pass of the loop body applies one attribute. |
| RoomsEyeView.RoomsEyeViewNode.WriteXMLAttributes | RoomsEyeView/Logic/vtkMRMLRoomsEyeViewNode.cxx:79-93 | The seven attribute names in the written order, and reading them into any node restores this node's parameters. |
| RoomsEyeView.RoomsEyeViewNode.Copy | RoomsEyeView/Logic/vtkMRMLRoomsEyeViewNode.cxx:146-163 | After the copy, all seven parameters equal the source node's. |
| RoomsEyeView.RoomsEyeViewNode.GetTransformNodeId | RoomsEyeView/Logic/vtkMRMLRoomsEyeViewNode.cxx:180-183 | The reference stored under the role's string, or none. |
| RoomsEyeView.RoomsEyeViewNode.SetAndObserveTransformNode | RoomsEyeView/Logic/vtkMRMLRoomsEyeViewNode.cxx:186-189 | The getter then returns the given node, or none when the node is null. Every other role's getter is unchanged. |

The room's-eye-view node has one getter and one setter per role. They differ
only in the role string, so the model has one `GetTransformNodeId` and one
`SetAndObserveTransformNode`, each taking a `TransformRole`. In
`RoomsEyeView/Logic/vtkMRMLRoomsEyeViewNode.cxx`:

- `GantryToFixedReference`: role string on line 36, getter and setter on lines 180-189.
- `CollimatorToGantry`: role string on line 37, getter and setter on lines 191-200.
- `LeftImagingPanelToLeftImagingPanelOrigin`: role string on line 39, getter and setter on lines 202-210.
- `LeftImagingPanelOriginToLeftImagingPanelRotated`: role string on line 40, getter and setter on lines 212-220.
- `LeftImagingPanelRotatedToGantry`: role string on line 41, getter and setter on lines 222-230.
- `LeftImagingPanelTranslation`: role string on line 42, getter and setter on lines 232-239.
- `RightImagingPanelToRightImagingPanelOrigin`: role string on line 44, getter and setter on lines 241-249.
- `RightImagingPanelOriginToRightImagingPanelRotated`: role string on line 45, getter and setter on lines 251-259.
- `RightImagingPanelRotatedToGantry`: role string on line 46, getter and setter on lines 261-269.
- `RightImagingPanelTranslation`: role string on line 47, getter and setter on lines 271-278.
- `PatientSupportToFixedReference`: role string on line 49, getter and setter on lines 282-291.
- `PatientSupportScaledToPatientSupport`: role string on line 50, getter and setter on lines 293-301.
- `PatientSupportScaledMovedToPatientSupportCompress`: role string on line 51, getter and setter on lines 303-311.
- `TableTopToTableTopEccentricRotation`: role string on line 53, getter and setter on lines 315-323.
- `TableTopEccentricRotationToPatientSupport`: role string on line 54, getter and setter on lines 325-333.
- `TableTopMovedToPatientSupportMoved`: role string on line 55, getter and setter on lines 335-343 (the setter is named `SetAndObserveTableMovedToPatientSupportMovedTransformNode`).

## Left out

- The dilate, erode and histogram filters of the imaging library are parameters of `MorphContour` (the `Filters` record). Their results are not modelled, only where they are used.
- The image logic filter's voxel-wise behaviour is assumed, not derived. A non-zero sample counts as true. An output sample is the true value where the operation holds, and 0 elsewhere.
- The subtraction branch never calls `Update()` on its second logic filter. The model treats that output as computed, as the pipeline computes it when the volume's image is used.
- Floating point is modelled by exact reals. The tolerance test is |a − b| > 0.001, and the integer dimensions are compared through the same threshold. Which `abs` overload C++ picks is not modelled.
- MorphologyRules.TruncateToInt: does not model the undefined behaviour of converting a quotient outside the `int` range, because integers here are unbounded.
- The unchecked null dereferences of the logic are preconditions (`MorphReady`, `MorphInputsResolve`, the requires of `ContourContainsLabelmap` and `OnMRMLSceneEndImport`), not modelled crashes. They cover a missing parameter node, a contour ID that resolves to nothing, and a missing labelmap volume or image. So are the `SafeDownCast` type tests.
- A zero spacing is excluded by a precondition too (`NonZeroSpacing` inside `MorphInputsResolve`), although it is not a crash: lines 275-277 divide doubles, which gives an infinity or NaN, and only the `(int)` conversion of that quotient is undefined behaviour in C++.
- The logic holds the selected parameter node by value. Observation of the parameter node, and its Modified events, are not modelled. The logic's own `Modified()` is a counter.
- The scene's own numbering of new IDs and unique names is not modelled. MrmlScene.Fresh: states only that the result starts with the base and is not taken, not the host's numeric suffix scheme.
- MrmlScene.Scene.GenerateUniqueName: states only that the name is unused and starts with the base.
- Line 326 re-sets the new volume's transform to its own current value, a no-op that is not modelled. `SetActiveRepresentationByNode` is modelled as making the indexed labelmap the active representation.
- The direction matrix copied by `CopyOrientation` is an uninterpreted sequence of reals.
- `PrintSelf`, `RegisterNodes`, `SetMRMLSceneInternal`, `UpdateFromMRMLScene` and `OnMRMLSceneEndClose` are registration, event wiring and printing. They have nothing to prove and are not modelled.
- RoomsEyeView.RoomsEyeViewNode.ReadXMLAttributes: attribute values arrive already converted to numbers. The text-to-double conversion is not modelled. Neither is the base class's attribute reading, nor an attribute array with a name but no value.
- RoomsEyeView.RoomsEyeViewNode.WriteXMLAttributes: gives the attribute names and values, not the indentation and number formatting of the output stream, nor the base class's attributes that `Superclass::WriteXML` writes first (line 81). So the read-back property holds for exact values, not up to printed precision.
- RoomsEyeView.RoomsEyeViewNode.Copy: copies only the seven parameters. The base class's copy, of name, attributes and references, is not modelled. Neither is the suspended and pending Modified event.
- RoomsEyeView.RoomsEyeViewNode.GetTransformNodeId: returns the referenced node ID. It does not resolve it in the scene or test that it is a linear transform node.
- Linear-transform semantics and display rendering are not computed by these files, and are not modelled.
