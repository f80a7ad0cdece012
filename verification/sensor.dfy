/**
 * Sensors (esp::sensor): the specification record with its render-sharing
 * predicate and structural equality, the sensor bound to a scene node, and
 * the uuid-keyed sensor suite.
 */
module Sensors {
  import opened Geometry
  import opened Wrappers
  import SceneGraph

  /**
   * Kinds of sensor. Only COLOR, DEPTH and SEMANTIC are told apart by the
   * modelled code; every other enumerator takes the `default` branch of
   * `isBorrowableType`, and NoSensor and Normal stand for those here.
   */
  datatype SensorType = NoSensor | Color | Depth | Normal | Semantic

  /** A sensor's descriptor: the twelve fields that equality compares. */
  datatype SensorSpec = SensorSpec(
    uuid: string,
    sensorType: SensorType,
    sensorSubtype: string,
    parameters: map<string, string>,
    position: Vec3,
    orientation: Vec3,
    resolution: Vec2i,
    channels: int,
    encoding: string,
    observationSpace: seq<nat>,
    noiseModel: string,
    gpu2gpuTransfer: bool)

  // ---------------------------------------------------------------------
  // Render sharing
  // ---------------------------------------------------------------------

  /** Whether a sensor of type `t` may take part in render sharing. */
  function IsBorrowableType(t: SensorType, canBorrowSemanticRendering: bool): (r: bool)
    ensures r <==> t == Color || t == Depth || (t == Semantic && canBorrowSemanticRendering)
  {
    match t
    case Color => true
    case Depth => true
    case Semantic => canBorrowSemanticRendering
    case _ => false
  }

  /** The fields that decide what is rendered: what two sensors must share to share a render. */
  datatype RenderView = RenderView(
    sensorSubtype: string,
    parameters: map<string, string>,
    position: Vec3,
    orientation: Vec3,
    resolution: Vec2i)

  function ViewOf(s: SensorSpec): RenderView {
    RenderView(s.sensorSubtype, s.parameters, s.position, s.orientation, s.resolution)
  }

  /** SensorSpec::canBorrowRenderingFrom: may `spec` reuse the image rendered for `other`? */
  function CanBorrowRenderingFrom(spec: SensorSpec, other: SensorSpec, canBorrowSemanticRendering: bool): (r: bool)
    ensures r <==>
      && IsBorrowableType(spec.sensorType, canBorrowSemanticRendering)
      && IsBorrowableType(other.sensorType, canBorrowSemanticRendering)
      && ViewOf(spec) == ViewOf(other)
  {
    && IsBorrowableType(spec.sensorType, canBorrowSemanticRendering)
    && IsBorrowableType(other.sensorType, canBorrowSemanticRendering)
    && spec.sensorSubtype == other.sensorSubtype
    && spec.parameters == other.parameters
    && spec.position == other.position
    && spec.orientation == other.orientation
    && spec.resolution == other.resolution
  }

  /** operator==: all twelve fields agree. */
  function SpecEquals(a: SensorSpec, b: SensorSpec): (r: bool)
    ensures r <==> a == b
  {
    && a.uuid == b.uuid
    && a.sensorType == b.sensorType
    && a.sensorSubtype == b.sensorSubtype
    && a.parameters == b.parameters
    && a.position == b.position
    && a.orientation == b.orientation
    && a.resolution == b.resolution
    && a.channels == b.channels
    && a.encoding == b.encoding
    && a.observationSpace == b.observationSpace
    && a.noiseModel == b.noiseModel
    && a.gpu2gpuTransfer == b.gpu2gpuTransfer
  }

  /** operator!=: the negation of operator==. */
  function SpecNotEquals(a: SensorSpec, b: SensorSpec): (r: bool)
    ensures r <==> a != b
    ensures r == !SpecEquals(a, b)
  {
    !SpecEquals(a, b)
  }

  /** Allowing semantic borrowing only ever enlarges the set of borrowable types. */
  lemma BorrowableTypeMonotone(t: SensorType)
    ensures IsBorrowableType(t, false) ==> IsBorrowableType(t, true)
    ensures IsBorrowableType(t, true) && !IsBorrowableType(t, false) <==> t == Semantic
  {
  }

  /** The predicate is symmetric. */
  lemma BorrowSymmetric(a: SensorSpec, b: SensorSpec, f: bool)
    ensures CanBorrowRenderingFrom(a, b, f) == CanBorrowRenderingFrom(b, a, f)
  {
  }

  /** Two specs that can share with a third can share with each other. */
  lemma BorrowTransitive(a: SensorSpec, b: SensorSpec, c: SensorSpec, f: bool)
    requires CanBorrowRenderingFrom(a, b, f) && CanBorrowRenderingFrom(b, c, f)
    ensures CanBorrowRenderingFrom(a, c, f)
  {
  }

  /** The predicate is monotone in the semantic flag, and without it a semantic spec on either side vetoes. */
  lemma BorrowMonotoneInFlag(a: SensorSpec, b: SensorSpec)
    ensures CanBorrowRenderingFrom(a, b, false) ==> CanBorrowRenderingFrom(a, b, true)
    ensures a.sensorType == Semantic || b.sensorType == Semantic ==> !CanBorrowRenderingFrom(a, b, false)
  {
  }

  /**
   * The predicate ignores uuid, channels, encoding, observation space, noise
   * model and transfer mode: replacing them on either side changes nothing.
   */
  lemma BorrowIgnoresOutputFields(a: SensorSpec, a': SensorSpec, b: SensorSpec, b': SensorSpec, f: bool)
    requires a'.sensorType == a.sensorType && ViewOf(a') == ViewOf(a)
    requires b'.sensorType == b.sensorType && ViewOf(b') == ViewOf(b)
    ensures CanBorrowRenderingFrom(a', b', f) == CanBorrowRenderingFrom(a, b, f)
  {
  }

  /** The two sensor types need not match: colour borrows from depth, and with the flag semantic borrows from colour. */
  lemma BorrowAcrossTypes(a: SensorSpec, b: SensorSpec)
    requires ViewOf(a) == ViewOf(b)
    ensures a.sensorType == Color && b.sensorType == Depth ==> CanBorrowRenderingFrom(a, b, false)
    ensures a.sensorType == Semantic && b.sensorType == Color ==>
      CanBorrowRenderingFrom(a, b, true) && !CanBorrowRenderingFrom(a, b, false)
  {
  }

  /** Any view difference vetoes, whatever the types. */
  lemma BorrowNeedsSameView(a: SensorSpec, b: SensorSpec, f: bool)
    requires a.position != b.position || a.orientation != b.orientation || a.resolution != b.resolution
      || a.parameters != b.parameters || a.sensorSubtype != b.sensorSubtype
    ensures !CanBorrowRenderingFrom(a, b, f)
  {
  }

  /** A spec equal to another can borrow from it exactly when its type is borrowable. */
  lemma EqualSpecsBorrow(a: SensorSpec, b: SensorSpec, f: bool)
    requires SpecEquals(a, b)
    ensures CanBorrowRenderingFrom(a, b, f) == IsBorrowableType(a.sensorType, f)
  {
  }

  // ---------------------------------------------------------------------
  // Placement
  // ---------------------------------------------------------------------

  /**
   * The node transformation a spec prescribes: identity, then the position,
   * then rotations about X, Y and Z, in that order, by the three orientation angles.
   */
  function Placement(s: SensorSpec): seq<SceneGraph.TransformOp> {
    [ SceneGraph.Reset,
      SceneGraph.Translate(s.position),
      SceneGraph.RotateX(s.orientation.x),
      SceneGraph.RotateY(s.orientation.y),
      SceneGraph.RotateZ(s.orientation.z) ]
  }

  /** What placement from a possibly-null spec leaves on a node whose transformation was `before`. */
  function PlacedFrom(before: seq<SceneGraph.TransformOp>, spec: Option<SensorSpec>): (after: seq<SceneGraph.TransformOp>)
    ensures spec.None? ==> after == before
    ensures spec.Some? ==> after == Placement(spec.value)
  {
    match spec
    case None => before
    case Some(s) => Placement(s)
  }

  /** Re-applying placement from the same spec changes nothing. */
  lemma PlacementIdempotent(before: seq<SceneGraph.TransformOp>, spec: Option<SensorSpec>)
    ensures PlacedFrom(PlacedFrom(before, spec), spec) == PlacedFrom(before, spec)
  {
  }

  /** The placement is determined by position and orientation, and determines them. */
  lemma PlacementDeterminedByPose(a: SensorSpec, b: SensorSpec)
    ensures Placement(a) == Placement(b) <==> a.position == b.position && a.orientation == b.orientation
  {
  }

  /** Sensors that may share a render are placed identically on their nodes. */
  lemma BorrowImpliesSamePlacement(a: SensorSpec, b: SensorSpec, f: bool)
    requires CanBorrowRenderingFrom(a, b, f)
    ensures Placement(a) == Placement(b)
  {
  }

  // ---------------------------------------------------------------------
  // Sensor
  // ---------------------------------------------------------------------

  class Sensor {
    /** The node this sensor is attached to; the sensor does not own it. */
    const node: SceneGraph.SceneNode
    /** The shared specification; absent stands for a null pointer. */
    const spec: Option<SensorSpec>

    /** Tags the node as a sensor and places it; the spec must be present. */
    constructor (node: SceneGraph.SceneNode, spec: Option<SensorSpec>)
      requires spec.Some?
      modifies node
      ensures this.node == node && this.spec == spec
      ensures node.nodeType == SceneGraph.SceneNodeType.Sensor
      ensures node.transformation == Placement(spec.value)
    {
      this.node := node;
      this.spec := spec;
      new;
      node.SetType(SceneGraph.SceneNodeType.Sensor);
      SetTransformationFromSpec();
    }

    /** Places the node from the spec; with a null spec the node is left alone. */
    method SetTransformationFromSpec()
      modifies node
      ensures node.transformation == PlacedFrom(old(node.transformation), spec)
      ensures node.nodeType == old(node.nodeType)
      ensures spec.None? ==> unchanged(node)
    {
      if spec.None? {
        return;
      }
      var s := spec.value;
      node.ResetTransformation();
      node.Translate(s.position);
      node.RotateX(s.orientation.x);
      node.RotateY(s.orientation.y);
      node.RotateZ(s.orientation.z);
    }
  }

  // ---------------------------------------------------------------------
  // SensorSuite
  // ---------------------------------------------------------------------

  class SensorSuite {
    var sensors: map<string, Sensor>

    /** Every entry is keyed by its own sensor's uuid. */
    ghost predicate Valid()
      reads this
    {
      forall uuid | uuid in sensors :: sensors[uuid].spec.Some? && sensors[uuid].spec.value.uuid == uuid
    }

    constructor ()
      ensures Valid() && sensors == map[]
    {
      sensors := map[];
    }

    /** Files `sensor` under its spec's uuid, replacing any sensor filed there before. */
    method Add(sensor: Sensor)
      requires Valid() && sensor.spec.Some?
      modifies this
      ensures Valid()
      ensures sensors == old(sensors)[sensor.spec.value.uuid := sensor]
    {
      var uuid := sensor.spec.value.uuid;
      sensors := sensors[uuid := sensor];
    }

    /** The sensor filed under `uuid`, or None where the lookup would throw. */
    function Get(uuid: string): (r: Option<Sensor>)
      reads this
      requires Valid()
      ensures r.Some? <==> uuid in sensors
      ensures r.Some? ==> r.value == sensors[uuid] && r.value.spec.Some? && r.value.spec.value.uuid == uuid
    {
      if uuid in sensors then Some(sensors[uuid]) else None
    }

    method Clear()
      modifies this
      ensures Valid() && sensors == map[]
    {
      sensors := map[];
    }
  }

  /** A client: a later sensor with the same uuid replaces the earlier one; other entries stay. */
  method SuiteOverwriteScenario(suite: SensorSuite, a: Sensor, b: Sensor, other: string)
    returns (found: Option<Sensor>, kept: Option<Sensor>)
    requires suite.Valid() && a.spec.Some? && b.spec.Some?
    requires a.spec.value.uuid == b.spec.value.uuid != other
    modifies suite
    ensures suite.Valid()
    ensures found == Some(b)
    ensures kept == old(suite.Get(other))
  {
    suite.Add(a);
    suite.Add(b);
    found := suite.Get(b.spec.value.uuid);
    kept := suite.Get(other);
  }

  /** A client: two sensors built from one spec leave their two nodes with the same transformation. */
  method PlacementScenario(n1: SceneGraph.SceneNode, n2: SceneGraph.SceneNode, spec: SensorSpec)
    returns (s1: Sensor, s2: Sensor)
    requires n1 != n2
    modifies n1, n2
    ensures n1.transformation == n2.transformation == Placement(spec)
    ensures n1.nodeType == n2.nodeType == SceneGraph.SceneNodeType.Sensor
  {
    s1 := new Sensor(n1, Some(spec));
    s2 := new Sensor(n2, Some(spec));
  }
}
