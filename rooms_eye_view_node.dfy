/**
  * The room's-eye-view parameter node: seven treatment-machine parameters
  * (gantry, collimator and couch angles, imaging-panel movement and three
  * table-top displacements) that are read from and written to scene files as
  * named attributes and copied field by field, plus sixteen named references
  * to the linear transforms of the treatment-room model.
  */
module RoomsEyeView {
  import opened Common
  import MrmlScene

  type NodeId = MrmlScene.NodeId

  /** The seven parameters the node stores, in the order the node writes them. */
  datatype Parameter =
    | GantryRotationAngle
    | CollimatorRotationAngle
    | ImagingPanelMovement
    | PatientSupportRotationAngle
    | VerticalTableTopDisplacement
    | LongitudinalTableTopDisplacement
    | LateralTableTopDisplacement

  /** The attribute name under which a parameter is stored in a scene file. */
  function AttributeName(p: Parameter): string
  {
    match p
    case GantryRotationAngle => "GantryRotationAngle"
    case CollimatorRotationAngle => "CollimatorRotationAngle"
    case ImagingPanelMovement => "ImagingPanelMovement"
    case PatientSupportRotationAngle => "PatientSupportRotationAngle"
    case VerticalTableTopDisplacement => "VerticalTableTopDisplacement"
    case LongitudinalTableTopDisplacement => "LongitudinalTableTopDisplacement"
    case LateralTableTopDisplacement => "LateralTableTopDisplacement"
  }

  /** The order in which the attributes are written. */
  const WrittenOrder: seq<Parameter> :=
    [GantryRotationAngle, CollimatorRotationAngle, ImagingPanelMovement, PatientSupportRotationAngle,
     VerticalTableTopDisplacement, LongitudinalTableTopDisplacement, LateralTableTopDisplacement]

  /**
    * The parameter an attribute name selects when a scene file is read: the
    * names are compared in the written order and the first equal one wins;
    * any other name selects nothing.
    */
  function ParameterNamed(name: string): (r: Option<Parameter>)
    ensures forall p :: r == Some(p) <==> name == AttributeName(p)
  {
    if name == "GantryRotationAngle" then Some(GantryRotationAngle)
    else if name == "CollimatorRotationAngle" then Some(CollimatorRotationAngle)
    else if name == "ImagingPanelMovement" then Some(ImagingPanelMovement)
    else if name == "PatientSupportRotationAngle" then Some(PatientSupportRotationAngle)
    else if name == "VerticalTableTopDisplacement" then Some(VerticalTableTopDisplacement)
    else if name == "LongitudinalTableTopDisplacement" then Some(LongitudinalTableTopDisplacement)
    else if name == "LateralTableTopDisplacement" then Some(LateralTableTopDisplacement)
    else None
  }

  /** The values of the seven parameters. */
  datatype Parameters = Parameters(
    gantryRotationAngle: real,
    collimatorRotationAngle: real,
    imagingPanelMovement: real,
    patientSupportRotationAngle: real,
    verticalTableTopDisplacement: real,
    longitudinalTableTopDisplacement: real,
    lateralTableTopDisplacement: real)

  /** The value of one parameter. */
  function Get(ps: Parameters, p: Parameter): real
  {
    match p
    case GantryRotationAngle => ps.gantryRotationAngle
    case CollimatorRotationAngle => ps.collimatorRotationAngle
    case ImagingPanelMovement => ps.imagingPanelMovement
    case PatientSupportRotationAngle => ps.patientSupportRotationAngle
    case VerticalTableTopDisplacement => ps.verticalTableTopDisplacement
    case LongitudinalTableTopDisplacement => ps.longitudinalTableTopDisplacement
    case LateralTableTopDisplacement => ps.lateralTableTopDisplacement
  }

  /** The parameters with `p` replaced by `v`: that one value changes and no other. */
  function Set(ps: Parameters, p: Parameter, v: real): (r: Parameters)
    ensures Get(r, p) == v
    ensures forall q :: q != p ==> Get(r, q) == Get(ps, q)
  {
    match p
    case GantryRotationAngle => ps.(gantryRotationAngle := v)
    case CollimatorRotationAngle => ps.(collimatorRotationAngle := v)
    case ImagingPanelMovement => ps.(imagingPanelMovement := v)
    case PatientSupportRotationAngle => ps.(patientSupportRotationAngle := v)
    case VerticalTableTopDisplacement => ps.(verticalTableTopDisplacement := v)
    case LongitudinalTableTopDisplacement => ps.(longitudinalTableTopDisplacement := v)
    case LateralTableTopDisplacement => ps.(lateralTableTopDisplacement := v)
  }

  /** Two parameter records are equal when every parameter has the same value. */
  lemma ParametersEqualByValue(ps: Parameters, qs: Parameters)
    requires forall p :: Get(ps, p) == Get(qs, p)
    ensures ps == qs
  {
    assert Get(ps, GantryRotationAngle) == Get(qs, GantryRotationAngle);
    assert Get(ps, CollimatorRotationAngle) == Get(qs, CollimatorRotationAngle);
    assert Get(ps, ImagingPanelMovement) == Get(qs, ImagingPanelMovement);
    assert Get(ps, PatientSupportRotationAngle) == Get(qs, PatientSupportRotationAngle);
    assert Get(ps, VerticalTableTopDisplacement) == Get(qs, VerticalTableTopDisplacement);
    assert Get(ps, LongitudinalTableTopDisplacement) == Get(qs, LongitudinalTableTopDisplacement);
    assert Get(ps, LateralTableTopDisplacement) == Get(qs, LateralTableTopDisplacement);
  }

  /** The values a new node starts with: every angle and displacement zero, the imaging panels at -68.5. */
  const Defaults: Parameters := Parameters(0.0, 0.0, -68.5, 0.0, 0.0, 0.0, 0.0)

  /** A scene-file attribute: a name and its value, already converted to a number. */
  datatype Attribute = Attribute(name: string, value: real)

  /** The effect of reading one attribute: the parameter it names takes its value; an unknown name changes nothing. */
  function ApplyAttribute(ps: Parameters, a: Attribute): (r: Parameters)
    ensures forall p :: Get(r, p) == (if ParameterNamed(a.name) == Some(p) then a.value else Get(ps, p))
  {
    match ParameterNamed(a.name)
    case Some(p) => Set(ps, p, a.value)
    case None => ps
  }

  /** The effect of reading the attributes one after another, first to last. */
  function ApplyAttributes(ps: Parameters, atts: seq<Attribute>): Parameters
  {
    if atts == [] then ps
    else ApplyAttribute(ApplyAttributes(ps, atts[..|atts| - 1]), atts[|atts| - 1])
  }

  /** A parameter that no attribute names keeps its value. */
  lemma {:induction false} UnnamedParameterKeepsValue(ps: Parameters, atts: seq<Attribute>, p: Parameter)
    requires forall j :: 0 <= j < |atts| ==> ParameterNamed(atts[j].name) != Some(p)
    ensures Get(ApplyAttributes(ps, atts), p) == Get(ps, p)
  {
    if atts != [] {
      UnnamedParameterKeepsValue(ps, atts[..|atts| - 1], p);
    }
  }

  /** When an attribute names a parameter, the value of its last occurrence is the one kept. */
  lemma {:induction false} LastValueWins(ps: Parameters, atts: seq<Attribute>, i: nat, p: Parameter)
    requires i < |atts| && ParameterNamed(atts[i].name) == Some(p)
    requires forall j :: i < j < |atts| ==> ParameterNamed(atts[j].name) != Some(p)
    ensures Get(ApplyAttributes(ps, atts), p) == atts[i].value
  {
    if i < |atts| - 1 {
      LastValueWins(ps, atts[..|atts| - 1], i, p);
    }
  }

  /** Attributes with unknown names leave every parameter as it was. */
  lemma UnrecognisedAttributesIgnored(ps: Parameters, atts: seq<Attribute>)
    requires forall j :: 0 <= j < |atts| ==> ParameterNamed(atts[j].name).None?
    ensures ApplyAttributes(ps, atts) == ps
  {
    forall p: Parameter
      ensures Get(ApplyAttributes(ps, atts), p) == Get(ps, p)
    {
      UnnamedParameterKeepsValue(ps, atts, p);
    }
    ParametersEqualByValue(ApplyAttributes(ps, atts), ps);
  }

  /** The attributes written for a node: each parameter's name and value, in the written order. */
  function Written(ps: Parameters): (r: seq<Attribute>)
    ensures |r| == |WrittenOrder|
    ensures forall i :: 0 <= i < |r| ==> r[i] == Attribute(AttributeName(WrittenOrder[i]), Get(ps, WrittenOrder[i]))
  {
    [Attribute("GantryRotationAngle", ps.gantryRotationAngle),
     Attribute("CollimatorRotationAngle", ps.collimatorRotationAngle),
     Attribute("ImagingPanelMovement", ps.imagingPanelMovement),
     Attribute("PatientSupportRotationAngle", ps.patientSupportRotationAngle),
     Attribute("VerticalTableTopDisplacement", ps.verticalTableTopDisplacement),
     Attribute("LongitudinalTableTopDisplacement", ps.longitudinalTableTopDisplacement),
     Attribute("LateralTableTopDisplacement", ps.lateralTableTopDisplacement)]
  }

  /** Every parameter occurs exactly once in the written order. */
  lemma WrittenOrderListsEachParameterOnce(p: Parameter)
    ensures exists i :: 0 <= i < |WrittenOrder| && WrittenOrder[i] == p
    ensures forall i, j :: 0 <= i < j < |WrittenOrder| ==> WrittenOrder[i] != WrittenOrder[j]
  {
    match p
    case GantryRotationAngle => assert WrittenOrder[0] == p;
    case CollimatorRotationAngle => assert WrittenOrder[1] == p;
    case ImagingPanelMovement => assert WrittenOrder[2] == p;
    case PatientSupportRotationAngle => assert WrittenOrder[3] == p;
    case VerticalTableTopDisplacement => assert WrittenOrder[4] == p;
    case LongitudinalTableTopDisplacement => assert WrittenOrder[5] == p;
    case LateralTableTopDisplacement => assert WrittenOrder[6] == p;
  }

  /** Reading back what was written restores every parameter, whatever the node held before. */
  lemma ReadBackWritten(ps: Parameters, before: Parameters)
    ensures ApplyAttributes(before, Written(ps)) == ps
  {
    var atts := Written(ps);
    forall p: Parameter
      ensures Get(ApplyAttributes(before, atts), p) == Get(ps, p)
    {
      WrittenOrderListsEachParameterOnce(p);
      var i :| 0 <= i < |WrittenOrder| && WrittenOrder[i] == p;
      assert ParameterNamed(atts[i].name) == Some(p);
      forall j | i < j < |atts|
        ensures ParameterNamed(atts[j].name) != Some(p)
      {
        assert atts[j].name == AttributeName(WrittenOrder[j]);
      }
      LastValueWins(before, atts, i, p);
    }
    ParametersEqualByValue(ApplyAttributes(before, atts), ps);
  }

  /** The sixteen transform references of the treatment-room model. */
  datatype TransformRole =
    | GantryToFixedReference
    | CollimatorToGantry
    | LeftImagingPanelToLeftImagingPanelOrigin
    | LeftImagingPanelOriginToLeftImagingPanelRotated
    | LeftImagingPanelRotatedToGantry
    | LeftImagingPanelTranslation
    | RightImagingPanelToRightImagingPanelOrigin
    | RightImagingPanelOriginToRightImagingPanelRotated
    | RightImagingPanelRotatedToGantry
    | RightImagingPanelTranslation
    | PatientSupportToFixedReference
    | PatientSupportScaledToPatientSupport
    | PatientSupportScaledMovedToPatientSupportCompress
    | TableTopToTableTopEccentricRotation
    | TableTopEccentricRotationToPatientSupport
    | TableTopMovedToPatientSupportMoved

  /** The reference-role string under which the node stores a transform reference. */
  function RoleName(role: TransformRole): string
  {
    match role
    case GantryToFixedReference => "gantryToFixedReferenceTransformRef"
    case CollimatorToGantry => "collimatorToGantryTransformRef"
    case LeftImagingPanelToLeftImagingPanelOrigin => "leftImagingPanelToLeftImagingPanelTransformRef"
    case LeftImagingPanelOriginToLeftImagingPanelRotated => "leftImagingPanelOriginToLeftImagingPanelRotated"
    case LeftImagingPanelRotatedToGantry => "leftImagingPanelRotatedToGantryTransformRef"
    case LeftImagingPanelTranslation => "leftImagingPanelTranslationTransformRef"
    case RightImagingPanelToRightImagingPanelOrigin => "rightImagingPanelToRightImagingPanelTransformRef"
    case RightImagingPanelOriginToRightImagingPanelRotated => "rightImagingPanelOriginToRightImagingPanelRotated"
    case RightImagingPanelRotatedToGantry => "rightImagingPanelRotatedToGantryTransformRef"
    case RightImagingPanelTranslation => "rightImagingPanelTranslationTransformRef"
    case PatientSupportToFixedReference => "patientSupportToFixedReferenceTransformRef"
    case PatientSupportScaledToPatientSupport => "patientSupportScaledToPatientSupportTransformRef"
    case PatientSupportScaledMovedToPatientSupportCompress => "patientSupportScaledMovedToPatientSupportCompressTransformRef"
    case TableTopToTableTopEccentricRotation => "tableTopToTableTopEccentricRotationTransformRef"
    case TableTopEccentricRotationToPatientSupport => "tableTopEccentricToPatientSupportTransformRef"
    case TableTopMovedToPatientSupportMoved => "tableTopMovedToPatientSupportMovedTransformRef"
  }

  /**
    * The role a role string belongs to, told apart by the string's length and
    * its character thirteen places from the end (no two roles agree on both).
    */
  function RoleOfName(name: string): Option<TransformRole>
  {
    if |name| < 13 then None
    else
    match (|name|, name[|name| - 13])
    case (34, 'e') => Some(GantryToFixedReference)
    case (30, 'y') => Some(CollimatorToGantry)
    case (46, 'l') => Some(LeftImagingPanelToLeftImagingPanelOrigin)
    case (47, 'g') => Some(LeftImagingPanelOriginToLeftImagingPanelRotated)
    case (43, 'y') => Some(LeftImagingPanelRotatedToGantry)
    case (39, 'n') => Some(LeftImagingPanelTranslation)
    case (48, 'l') => Some(RightImagingPanelToRightImagingPanelOrigin)
    case (49, 'g') => Some(RightImagingPanelOriginToRightImagingPanelRotated)
    case (44, 'y') => Some(RightImagingPanelRotatedToGantry)
    case (40, 'n') => Some(RightImagingPanelTranslation)
    case (42, 'e') => Some(PatientSupportToFixedReference)
    case (48, 't') => Some(PatientSupportScaledToPatientSupport)
    case (61, 's') => Some(PatientSupportScaledMovedToPatientSupportCompress)
    case (47, 'n') => Some(TableTopToTableTopEccentricRotation)
    case (45, 't') => Some(TableTopEccentricRotationToPatientSupport)
    case (46, 'd') => Some(TableTopMovedToPatientSupportMoved)
    case _ => None
  }

  /** Every role string is recognised as its own role. */
  lemma RoleNameIdentifiesRole(role: TransformRole)
    ensures RoleOfName(RoleName(role)) == Some(role)
  {
    if role.GantryToFixedReference? || role.CollimatorToGantry? {
      BeamRoleNamesIdentified(role);
    } else if role.LeftImagingPanelToLeftImagingPanelOrigin? ||
              role.LeftImagingPanelOriginToLeftImagingPanelRotated? || role.LeftImagingPanelRotatedToGantry? ||
              role.LeftImagingPanelTranslation? {
      LeftImagingPanelRoleNamesIdentified(role);
    } else if role.RightImagingPanelToRightImagingPanelOrigin? ||
              role.RightImagingPanelOriginToRightImagingPanelRotated? ||
              role.RightImagingPanelRotatedToGantry? || role.RightImagingPanelTranslation? {
      RightImagingPanelRoleNamesIdentified(role);
    } else if role.PatientSupportToFixedReference? || role.PatientSupportScaledToPatientSupport? ||
              role.PatientSupportScaledMovedToPatientSupportCompress? {
      PatientSupportRoleNamesIdentified(role);
    } else {
      TableTopRoleNamesIdentified(role);
    }
  }

  /** The role strings of the gantry and collimator roles are recognised as their roles. */
  lemma BeamRoleNamesIdentified(role: TransformRole)
    requires role.GantryToFixedReference? || role.CollimatorToGantry?
    ensures RoleOfName(RoleName(role)) == Some(role)
  {
    var name := RoleName(role);
    match role
    case GantryToFixedReference => assert |name| == 34 && name[21] == 'e';
    case CollimatorToGantry => assert |name| == 30 && name[17] == 'y';
  }

  /** The role strings of the left imaging-panel roles are recognised as their roles. */
  lemma LeftImagingPanelRoleNamesIdentified(role: TransformRole)
    requires role.LeftImagingPanelToLeftImagingPanelOrigin? ||
             role.LeftImagingPanelOriginToLeftImagingPanelRotated? || role.LeftImagingPanelRotatedToGantry? ||
             role.LeftImagingPanelTranslation?
    ensures RoleOfName(RoleName(role)) == Some(role)
  {
    var name := RoleName(role);
    match role
    case LeftImagingPanelToLeftImagingPanelOrigin => assert |name| == 46 && name[33] == 'l';
    case LeftImagingPanelOriginToLeftImagingPanelRotated => assert |name| == 47 && name[34] == 'g';
    case LeftImagingPanelRotatedToGantry => assert |name| == 43 && name[30] == 'y';
    case LeftImagingPanelTranslation => assert |name| == 39 && name[26] == 'n';
  }

  /** The role strings of the right imaging-panel roles are recognised as their roles. */
  lemma RightImagingPanelRoleNamesIdentified(role: TransformRole)
    requires role.RightImagingPanelToRightImagingPanelOrigin? ||
             role.RightImagingPanelOriginToRightImagingPanelRotated? || role.RightImagingPanelRotatedToGantry? ||
             role.RightImagingPanelTranslation?
    ensures RoleOfName(RoleName(role)) == Some(role)
  {
    var name := RoleName(role);
    match role
    case RightImagingPanelToRightImagingPanelOrigin => assert |name| == 48 && name[35] == 'l';
    case RightImagingPanelOriginToRightImagingPanelRotated => assert |name| == 49 && name[36] == 'g';
    case RightImagingPanelRotatedToGantry => assert |name| == 44 && name[31] == 'y';
    case RightImagingPanelTranslation => assert |name| == 40 && name[27] == 'n';
  }

  /** The role strings of the patient-support roles are recognised as their roles. */
  lemma PatientSupportRoleNamesIdentified(role: TransformRole)
    requires role.PatientSupportToFixedReference? || role.PatientSupportScaledToPatientSupport? ||
             role.PatientSupportScaledMovedToPatientSupportCompress?
    ensures RoleOfName(RoleName(role)) == Some(role)
  {
    var name := RoleName(role);
    match role
    case PatientSupportToFixedReference => assert |name| == 42 && name[29] == 'e';
    case PatientSupportScaledToPatientSupport => assert |name| == 48 && name[35] == 't';
    case PatientSupportScaledMovedToPatientSupportCompress => assert |name| == 61 && name[48] == 's';
  }

  /** The role strings of the table-top roles are recognised as their roles. */
  lemma TableTopRoleNamesIdentified(role: TransformRole)
    requires role.TableTopToTableTopEccentricRotation? || role.TableTopEccentricRotationToPatientSupport? ||
             role.TableTopMovedToPatientSupportMoved?
    ensures RoleOfName(RoleName(role)) == Some(role)
  {
    var name := RoleName(role);
    match role
    case TableTopToTableTopEccentricRotation => assert |name| == 47 && name[34] == 'n';
    case TableTopEccentricRotationToPatientSupport => assert |name| == 45 && name[32] == 't';
    case TableTopMovedToPatientSupportMoved => assert |name| == 46 && name[33] == 'd';
  }

  /** No two roles share a role string, so each reference is stored apart from the others. */
  lemma RoleNamesDistinct(a: TransformRole, b: TransformRole)
    requires a != b
    ensures RoleName(a) != RoleName(b)
  {
    RoleNameIdentifiesRole(a);
    RoleNameIdentifiesRole(b);
  }

  /** The room's-eye-view node: the seven parameters and the role-to-ID reference table. */
  class RoomsEyeViewNode {
    var gantryRotationAngle: real
    var collimatorRotationAngle: real
    var imagingPanelMovement: real
    var patientSupportRotationAngle: real
    var verticalTableTopDisplacement: real
    var longitudinalTableTopDisplacement: real
    var lateralTableTopDisplacement: real
    var nodeReferences: map<string, NodeId>

    /** The seven parameter fields as one value. */
    function CurrentParameters(): Parameters
      reads this
    {
      Parameters(gantryRotationAngle, collimatorRotationAngle, imagingPanelMovement,
                 patientSupportRotationAngle, verticalTableTopDisplacement,
                 longitudinalTableTopDisplacement, lateralTableTopDisplacement)
    }

    /** A new node holds the default parameters and no references. */
    constructor ()
      ensures CurrentParameters() == Defaults
      ensures forall p :: Get(CurrentParameters(), p) == if p == ImagingPanelMovement then -68.5 else 0.0
      ensures nodeReferences == map[]
    {
      gantryRotationAngle := 0.0;
      collimatorRotationAngle := 0.0;
      imagingPanelMovement := -68.5;
      patientSupportRotationAngle := 0.0;
      verticalTableTopDisplacement := 0.0;
      longitudinalTableTopDisplacement := 0.0;
      lateralTableTopDisplacement := 0.0;
      nodeReferences := map[];
    }

    /** Reads the attributes in order, storing each recognised value in the field it names. */
    method ReadXMLAttributes(atts: seq<Attribute>)
      modifies this`gantryRotationAngle, this`collimatorRotationAngle, this`imagingPanelMovement,
               this`patientSupportRotationAngle, this`verticalTableTopDisplacement,
               this`longitudinalTableTopDisplacement, this`lateralTableTopDisplacement
      ensures CurrentParameters() == ApplyAttributes(old(CurrentParameters()), atts)
    {
      var i := 0;
      while i < |atts|
        invariant i <= |atts|
        invariant CurrentParameters() == ApplyAttributes(old(CurrentParameters()), atts[..i])
      {
        assert atts[..i + 1][..i] == atts[..i];
        ReadXMLAttribute(atts[i].name, atts[i].value);
        i := i + 1;
      }
      assert atts[..i] == atts;
    }

    /** One step of the reading loop: the field the name selects takes the value; an unknown name is skipped. */
    method ReadXMLAttribute(name: string, value: real)
      modifies this`gantryRotationAngle, this`collimatorRotationAngle, this`imagingPanelMovement,
               this`patientSupportRotationAngle, this`verticalTableTopDisplacement,
               this`longitudinalTableTopDisplacement, this`lateralTableTopDisplacement
      ensures CurrentParameters() == ApplyAttribute(old(CurrentParameters()), Attribute(name, value))
    {
      if name == "GantryRotationAngle" {
        gantryRotationAngle := value;
      } else if name == "CollimatorRotationAngle" {
        collimatorRotationAngle := value;
      } else if name == "ImagingPanelMovement" {
        imagingPanelMovement := value;
      } else if name == "PatientSupportRotationAngle" {
        patientSupportRotationAngle := value;
      } else if name == "VerticalTableTopDisplacement" {
        verticalTableTopDisplacement := value;
      } else if name == "LongitudinalTableTopDisplacement" {
        longitudinalTableTopDisplacement := value;
      } else if name == "LateralTableTopDisplacement" {
        lateralTableTopDisplacement := value;
      }
    }

    /** The attributes written for this node; reading them into any node restores this node's parameters. */
    function WriteXMLAttributes(): (r: seq<Attribute>)
      reads this
      ensures |r| == |WrittenOrder|
      ensures forall i :: 0 <= i < |r| ==> r[i].name == AttributeName(WrittenOrder[i])
      ensures forall before :: ApplyAttributes(before, r) == CurrentParameters()
    {
      var r := Written(CurrentParameters());
      assert forall before :: ApplyAttributes(before, r) == CurrentParameters() by {
        forall before: Parameters
          ensures ApplyAttributes(before, r) == CurrentParameters()
        {
          ReadBackWritten(CurrentParameters(), before);
        }
      }
      r
    }

    /** Copies the seven parameters of `src`; the references are left as they are. */
    method Copy(src: RoomsEyeViewNode)
      modifies this`gantryRotationAngle, this`collimatorRotationAngle, this`imagingPanelMovement,
               this`patientSupportRotationAngle, this`verticalTableTopDisplacement,
               this`longitudinalTableTopDisplacement, this`lateralTableTopDisplacement
      ensures CurrentParameters() == old(src.CurrentParameters())
    {
      gantryRotationAngle := src.gantryRotationAngle;
      collimatorRotationAngle := src.collimatorRotationAngle;
      imagingPanelMovement := src.imagingPanelMovement;
      patientSupportRotationAngle := src.patientSupportRotationAngle;
      verticalTableTopDisplacement := src.verticalTableTopDisplacement;
      longitudinalTableTopDisplacement := src.longitudinalTableTopDisplacement;
      lateralTableTopDisplacement := src.lateralTableTopDisplacement;
    }

    /** The ID of the transform node referenced under `role`, or none. */
    function GetTransformNodeId(role: TransformRole): (r: Option<NodeId>)
      reads this
      ensures r.Some? <==> RoleName(role) in nodeReferences
      ensures r.Some? ==> r.value == nodeReferences[RoleName(role)]
    {
      if RoleName(role) in nodeReferences then Some(nodeReferences[RoleName(role)]) else None
    }

    /**
      * References `node` under `role`, or drops the reference when `node` is
      * absent; the getter then returns `node` and every other role is unchanged.
      */
    method SetAndObserveTransformNode(role: TransformRole, node: Option<NodeId>)
      modifies this`nodeReferences
      ensures nodeReferences == if node.Some? then old(nodeReferences)[RoleName(role) := node.value]
                                else old(nodeReferences) - {RoleName(role)}
      ensures GetTransformNodeId(role) == node
      ensures forall other :: other != role ==> GetTransformNodeId(other) == old(GetTransformNodeId(other))
    {
      if node.Some? {
        nodeReferences := nodeReferences[RoleName(role) := node.value];
      } else {
        nodeReferences := nodeReferences - {RoleName(role)};
      }
      forall other | other != role
        ensures RoleName(other) != RoleName(role)
      {
        RoleNamesDistinct(other, role);
      }
    }
  }
}
