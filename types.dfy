/** Values shared by every part of the PhaseSpace sensor plugin model: the constants of
    main.cpp, 3D vectors, the backend's marker and rigid samples, and recorded samples. */
module Types {

  /** Marker ids must lie in [0, MAX_MARKER_COUNT). */
  const MAX_MARKER_COUNT: int := 128
  /** Accepted samples a calibration averages per marker. */
  const RIGID_AVERAGE_SAMPLES: int := 10
  /** Polls with data after which a calibration of one marker gives up. */
  const MAX_RIGID_AVERAGE_TRIALS: int := 1000
  /** A sample is trusted only when its confidence exceeds this value. */
  const MIN_CONDITION: real := 0.1
  /** Largest sample frequency the session accepts. */
  const MAX_FREQUENCY: real := 960.0
  /** Number of floats in a rigid pose, in lastGood and in the host's data field. */
  const POSE_SIZE: int := 7

  datatype Option<T> = None | Some(value: T)

  datatype Vec3 = Vec3(x: real, y: real, z: real)
  {
    function Plus(v: Vec3): Vec3 { Vec3(x + v.x, y + v.y, z + v.z) }
    function Minus(v: Vec3): Vec3 { Vec3(x - v.x, y - v.y, z - v.z) }
    function Neg(): Vec3 { Vec3(-x, -y, -z) }
    function Scale(k: real): Vec3 { Vec3(k * x, k * y, k * z) }
    function Div(k: real): Vec3
      requires k != 0.0
    {
      Vec3(x / k, y / k, z / k)
    }
  }

  const ORIGIN: Vec3 := Vec3(0.0, 0.0, 0.0)

  /** One entry of the backend's marker buffer (position and confidence). */
  datatype MarkerSample = MarkerSample(x: real, y: real, z: real, cond: real)
  {
    function Position(): Vec3 { Vec3(x, y, z) }
  }

  /** One entry of the backend's rigid buffer: pose = (x, y, z, qw, qx, qy, qz). */
  datatype RigidSample = RigidSample(pose: seq<real>, cond: real)
  {
    function Position(): Vec3
      requires |pose| == POSE_SIZE
    {
      Vec3(pose[0], pose[1], pose[2])
    }
  }

  /** One call of the marker poll: its return value n and the buffer it filled. */
  datatype MarkerPoll = MarkerPoll(n: int, markers: seq<MarkerSample>)

  /** Orientation in the consumer's slot order (data[3..6]). */
  datatype Quaternion = Quaternion(x: real, y: real, z: real, w: real)

  /** One recorded sample; point trackers record no orientation. The orientation's x, y, z, w
      are the source's dataRecordMember fields qw, qx, qy, qz in that order (main.cpp:103,
      637-640): the same four values in the same order, named here by their slots in the
      consumer's quaternion. */
  datatype Record = Record(time: real, ttl: bool, position: Vec3, orientation: Option<Quaternion>)

  /** C's conversion of a float to int: truncation toward zero. */
  function Truncate(r: real): (i: int)
    ensures 0.0 <= r ==> i as real <= r < i as real + 1.0
    ensures r < 0.0 ==> i as real - 1.0 < r <= i as real
  {
    if r >= 0.0 then r.Floor else -((-r).Floor)
  }

  /** The marker id or flag word `int(x + 0.5)` read from a command's float argument. */
  function RoundArg(x: real): int
  {
    Truncate(x + 0.5)
  }

  /** The id of a command argument is a valid marker id exactly when the argument lies
      strictly between -1.5 and 127.5. */
  lemma RoundArgInRange(x: real)
    ensures 0 <= RoundArg(x) < MAX_MARKER_COUNT <==> -1.5 < x < 127.5
  {
    var i := RoundArg(x);
    if -1.5 < x < 127.5 {
      if x + 0.5 >= 0.0 {
        assert i as real <= x + 0.5 < 128.0;
      } else {
        assert i as real - 1.0 < x + 0.5 <= i as real;
      }
    }
  }
}
