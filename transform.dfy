/** The coordinate and quaternion convention the plugin applies between the backend's
    poses and what the consumer reads (UpdateSensor and the recorded samples). */
module Transform {
  import opened Types

  /** Consumer position: every axis is offset then scaled; the x axis also changes sign. */
  function ReadPosition(p: Vec3, scale: Vec3, offset: Vec3): Vec3
  {
    Vec3(-1.0 * scale.x * (p.x + offset.x), scale.y * (p.y + offset.y), scale.z * (p.z + offset.z))
  }

  predicate Invertible(scale: Vec3)
  {
    scale.x != 0.0 && scale.y != 0.0 && scale.z != 0.0
  }

  /** The backend position a consumer position came from. */
  function RawPosition(r: Vec3, scale: Vec3, offset: Vec3): Vec3
    requires Invertible(scale)
  {
    Vec3(-r.x / scale.x - offset.x, r.y / scale.y - offset.y, r.z / scale.z - offset.z)
  }

  /** With non-zero scales no information is lost, in either direction. */
  lemma PositionRoundTrip(p: Vec3, r: Vec3, scale: Vec3, offset: Vec3)
    requires Invertible(scale)
    ensures RawPosition(ReadPosition(p, scale, offset), scale, offset) == p
    ensures ReadPosition(RawPosition(r, scale, offset), scale, offset) == r
  {
  }

  /** Unit scale and zero offset: the identity except for the sign of x. */
  lemma DefaultPositionFlipsX(p: Vec3)
    ensures ReadPosition(p, Vec3(1.0, 1.0, 1.0), ORIGIN) == Vec3(-p.x, p.y, p.z)
  {
  }

  /** An offset equal to the negated position puts that position at the consumer's origin,
      whatever the scale: this is what an origin reset relies on. */
  lemma NegatedOffsetIsOrigin(p: Vec3, scale: Vec3)
    ensures ReadPosition(p, scale, p.Neg()) == ORIGIN
  {
  }

  /** Rigid orientation: pose[3..6] = (qw, qx, qy, qz) becomes (-qx, qy, qz, -qw). */
  function ReadQuaternion(pose: seq<real>): Quaternion
    requires |pose| == POSE_SIZE
  {
    Quaternion(-1.0 * pose[4], pose[5], pose[6], -1.0 * pose[3])
  }

  /** The backend's (qw, qx, qy, qz) a consumer orientation came from. */
  function RawQuaternion(q: Quaternion): seq<real>
  {
    [-q.w, -q.x, q.y, q.z]
  }

  function Norm2(q: Quaternion): real
  {
    q.x * q.x + q.y * q.y + q.z * q.z + q.w * q.w
  }

  /** The relabelling loses nothing and keeps unit quaternions unit. */
  lemma QuaternionRoundTrip(pose: seq<real>)
    requires |pose| == POSE_SIZE
    ensures RawQuaternion(ReadQuaternion(pose)) == pose[3..7]
    ensures Norm2(ReadQuaternion(pose)) == pose[3] * pose[3] + pose[4] * pose[4] + pose[5] * pose[5] + pose[6] * pose[6]
  {
  }

  /** The backend's identity orientation (1, 0, 0, 0) reads as (0, 0, 0, -1). */
  lemma IdentityOrientation(p: Vec3)
    ensures ReadQuaternion([p.x, p.y, p.z, 1.0, 0.0, 0.0, 0.0]) == Quaternion(0.0, 0.0, 0.0, -1.0)
  {
  }

  /** What a point tracker reports as its orientation. */
  const IDENTITY: Quaternion := Quaternion(0.0, 0.0, 0.0, 1.0)

  /** The seven values UpdateSensor writes for one started sensor. */
  function Output(isRigid: bool, lastGood: seq<real>, scale: Vec3, offset: Vec3): (r: seq<real>)
    requires |lastGood| == POSE_SIZE
    ensures |r| == POSE_SIZE
  {
    var p := ReadPosition(Vec3(lastGood[0], lastGood[1], lastGood[2]), scale, offset);
    var q := if isRigid then ReadQuaternion(lastGood) else IDENTITY;
    [p.x, p.y, p.z, q.x, q.y, q.z, q.w]
  }
}
