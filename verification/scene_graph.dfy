/**
 * The part of a scene-graph node that a sensor touches: its role tag and its
 * transformation. The transformation is kept abstractly as the trace of
 * operations applied since the most recent reset (which opens the trace), not
 * as a matrix.
 */
module SceneGraph {
  import opened Geometry

  /** Node roles; only the sensor role is set by the modelled code. */
  datatype SceneNodeType = Empty | Sensor | Other

  /** One transformation step. Angles are in radians. */
  datatype TransformOp =
    | Reset
    | Translate(offset: Vec3)
    | RotateX(angle: Float32)
    | RotateY(angle: Float32)
    | RotateZ(angle: Float32)

  class SceneNode {
    var nodeType: SceneNodeType
    var transformation: seq<TransformOp>

    /** A node in any role with any prior transformation. */
    constructor (nodeType: SceneNodeType, transformation: seq<TransformOp>)
      ensures this.nodeType == nodeType && this.transformation == transformation
    {
      this.nodeType := nodeType;
      this.transformation := transformation;
    }

    method SetType(t: SceneNodeType)
      modifies this
      ensures nodeType == t && transformation == old(transformation)
    {
      nodeType := t;
    }

    /** Back to the identity: the trace restarts. */
    method ResetTransformation()
      modifies this
      ensures transformation == [Reset] && nodeType == old(nodeType)
    {
      transformation := [Reset];
    }

    method Translate(offset: Vec3)
      modifies this
      ensures transformation == old(transformation) + [TransformOp.Translate(offset)] && nodeType == old(nodeType)
    {
      transformation := transformation + [TransformOp.Translate(offset)];
    }

    /** Rotation about the X axis. */
    method RotateX(angle: Float32)
      modifies this
      ensures transformation == old(transformation) + [TransformOp.RotateX(angle)] && nodeType == old(nodeType)
    {
      transformation := transformation + [TransformOp.RotateX(angle)];
    }

    /** Rotation about the Y axis. */
    method RotateY(angle: Float32)
      modifies this
      ensures transformation == old(transformation) + [TransformOp.RotateY(angle)] && nodeType == old(nodeType)
    {
      transformation := transformation + [TransformOp.RotateY(angle)];
    }

    /** Rotation about the Z axis. */
    method RotateZ(angle: Float32)
      modifies this
      ensures transformation == old(transformation) + [TransformOp.RotateZ(angle)] && nodeType == old(nodeType)
    {
      transformation := transformation + [TransformOp.RotateZ(angle)];
    }
  }
}
