/** Bringing one sensor up when the session starts (SetUpSensor, main.cpp:335-448): what
    becomes of its isStarted, needsInitialization, status and rigid body definition, given
    the calibration polls and the status the backend reports at each step. */
module Setup {
  import opened Types
  import opened Registry
  import opened Calibration

  /** What the backend does during one sensor's set-up: the marker polls a calibration
      reads, and whether creating the rigid tracker, adding its markers and enabling the
      tracker succeed (owlGetStatus after each). */
  datatype SetupInput = SetupInput(polls: seq<MarkerPoll>, createOk: bool, markersOk: bool, enableOk: bool)

  /** Whether set-up reaches the end, where the sensor is marked started. */
  predicate Succeeds(s: SensorState, slave: bool, input: SetupInput)
  {
    |s.markers| > 0 &&
    (slave ||
     if s.isRigid then
       Geometry(input.polls, s.markers).status == Complete && input.createOk && input.markersOk && input.enableOk
     else input.enableOk)
  }

  /** The sensor after SetUpSensor in a started session, with the session in slave mode or not. */
  function BringUp(s: SensorState, slave: bool, input: SetupInput): (r: SensorState)
    ensures r == s.(isStarted := r.isStarted, needsInitialization := r.needsInitialization,
                    status := r.status, rigidBodyDefinition := r.rigidBodyDefinition)
    ensures r.isStarted <==> Succeeds(s, slave, input)
    ensures r.isStarted ==> !r.needsInitialization && r.status == s.status
    ensures |s.markers| == 0 ==> r == s.(isStarted := false, needsInitialization := false)
    ensures |s.markers| > 0 && !r.isStarted ==> !r.status
    ensures r.isStarted && s.isRigid && !slave ==>
      |r.rigidBodyDefinition| == |s.markers| && r.rigidBodyDefinition[0] == ORIGIN
    ensures r.needsInitialization ==> s.needsInitialization && !r.isStarted && !slave && !input.enableOk
  {
    if |s.markers| == 0 then s.(isStarted := false, needsInitialization := false)
    else if slave then s.(isStarted := true, needsInitialization := false)
    else
      var stopped := s.(isStarted := false);
      if s.isRigid then
        var c := Geometry(input.polls, s.markers);
        var defined := stopped.(rigidBodyDefinition := c.points);
        if |c.points| != |s.markers| || !input.createOk || !input.markersOk then
          defined.(needsInitialization := false, status := false)
        else if !input.enableOk then defined.(status := false)
        else defined.(isStarted := true, needsInitialization := false)
      else if !input.enableOk then stopped.(status := false)
      else stopped.(isStarted := true, needsInitialization := false)
  }

  /** A rigid sensor whose calibration comes back short is left inert: not started and no
      longer waiting for initialisation (main.cpp:379-385). */
  lemma ShortCalibrationLeavesInert(s: SensorState, input: SetupInput)
    requires s.isRigid && |s.markers| > 0
    requires Geometry(input.polls, s.markers).status != Complete
    ensures var r := BringUp(s, false, input);
      !r.isStarted && !r.needsInitialization && !r.status &&
      |r.rigidBodyDefinition| < |s.markers|
  {
  }

  /** A failure to enable the tracker clears status but leaves needsInitialization as it was
      (main.cpp:420-424, 433-438). */
  lemma EnableFailureKeepsPending(s: SensorState, input: SetupInput)
    requires |s.markers| > 0 && !input.enableOk
    requires s.isRigid ==> Geometry(input.polls, s.markers).status == Complete && input.createOk && input.markersOk
    ensures var r := BringUp(s, false, input);
      !r.isStarted && !r.status && r.needsInitialization == s.needsInitialization
  {
  }

  /** Bringing one sensor up keeps the registry invariant, and it can start only with markers. */
  lemma BringUpKeeps(ss: seq<SensorState>, used: set<int>, markerCount: int, rigidCount: int, id: nat, slave: bool, input: SetupInput)
    requires Registered(ss, used, markerCount, rigidCount) && id < |ss|
    ensures var r := ss[id := BringUp(ss[id], slave, input)];
      Registered(r, used, markerCount, rigidCount) && (r[id].isStarted ==> |r[id].markers| > 0)
  {
    var r := ss[id := BringUp(ss[id], slave, input)];
    assert SameLayout(r, ss);
    SameLayoutKeeps(r, ss, used, markerCount, rigidCount);
  }

  /** STREAMING after SetUpSensor in a started session. Set-up turns streaming off first; a
      rigid's calibration turns it on and only a complete calibration turns it off again;
      a sensor that comes up turns it on. */
  function StreamingAfter(s: SensorState, slave: bool, input: SetupInput, streaming: bool): (r: bool)
    ensures Succeeds(s, slave, input) ==> r
    ensures |s.markers| == 0 ==> r == streaming
  {
    if |s.markers| == 0 then streaming
    else if slave then true
    else if s.isRigid && Geometry(input.polls, s.markers).status != Complete then true
    else Succeeds(s, slave, input)
  }

  /** The sensors after the initialisation pass of StartServer (main.cpp:471-478): every
      sensor waiting for initialisation is brought up, the others are left alone. */
  function BringUpAll(ss: seq<SensorState>, slave: bool, inputs: seq<SetupInput>): (r: seq<SensorState>)
    requires |inputs| == |ss|
    ensures |r| == |ss|
  {
    seq(|ss|, i requires 0 <= i < |ss| => if ss[i].needsInitialization then BringUp(ss[i], slave, inputs[i]) else ss[i])
  }

  /** After the initialisation pass, every sensor that was waiting is started with markers,
      or inert, or still waiting only because its tracker could not be enabled; the others
      are untouched. */
  lemma BringUpAllOutcome(ss: seq<SensorState>, slave: bool, inputs: seq<SetupInput>)
    requires |inputs| == |ss|
    ensures var r := BringUpAll(ss, slave, inputs);
      forall i :: 0 <= i < |ss| ==>
        (ss[i].needsInitialization ==>
          (r[i].isStarted ==> |r[i].markers| > 0) &&
          (r[i].isStarted || !r[i].needsInitialization || (!r[i].status && !inputs[i].enableOk && !slave))) &&
        (!ss[i].needsInitialization ==> r[i] == ss[i])
  {
    var r := BringUpAll(ss, slave, inputs);
    forall i | 0 <= i < |ss| && ss[i].needsInitialization
      ensures r[i].isStarted || !r[i].needsInitialization || (!r[i].status && !inputs[i].enableOk && !slave)
    {
      var b := BringUp(ss[i], slave, inputs[i]);
      assert r[i] == b;
    }
  }
}
