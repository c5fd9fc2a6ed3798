/** The plugin's global state (main.cpp:43-116) as one context object, with the entry points
    the host calls: InitializeSensor, CommandSensor and UpdateSensor, the session start behind
    command 8, and one iteration of the read thread. Backend calls are inputs: the status
    owlInit reports, the marker polls and status words of each sensor's set-up, and the
    buffers one read-thread iteration receives. */
module PhaseSpace {
  import opened Types
  import opened Transform
  import opened Registry
  import opened Calibration
  import opened Acquisition
  import opened Setup

  const TWO_TO_64: int := 0x1_0000_0000_0000_0000

  /** The values of an unsigned 64-bit size_t. */
  type Word64 = n: int | 0 <= n < TWO_TO_64

  /** LOCAL_FLAGS after command 11: int(x + 0.5) converted to an unsigned 64-bit size_t. */
  function FlagsOf(x: real): (f: Word64)
    ensures 0 <= RoundArg(x) < TWO_TO_64 ==> f == RoundArg(x)
    ensures -TWO_TO_64 <= RoundArg(x) < 0 ==> f == RoundArg(x) + TWO_TO_64
  {
    RoundArg(x) % TWO_TO_64
  }

  /** Every bit set in mask is set in f: (f & mask) == mask on unsigned words, one binary digit
      at a time. */
  function Covers(f: nat, mask: nat): bool
    decreases mask
  {
    mask == 0 || ((mask % 2 == 0 || f % 2 == 1) && Covers(f / 2, mask / 2))
  }

  /** Binary digit k of n. */
  function Bit(n: nat, k: nat): bool
    decreases k
  {
    if k == 0 then n % 2 == 1 else Bit(n / 2, k - 1)
  }

  /** Every binary digit set in mask is set in f. */
  ghost predicate BitsOf(f: nat, mask: nat)
  {
    forall k: nat :: Bit(mask, k) ==> Bit(f, k)
  }

  /** Covers is the test `(f & mask) == mask`: every binary digit set in mask is set in f. */
  lemma {:induction false} CoversBits(f: nat, mask: nat)
    ensures Covers(f, mask) <==> BitsOf(f, mask)
    decreases mask
  {
    if mask == 0 {
      forall k: nat | Bit(mask, k)
        ensures false
      {
        NoBitOfZero(k);
      }
    } else {
      CoversBits(f / 2, mask / 2);
      if Covers(f, mask) {
        forall k: nat | Bit(mask, k)
          ensures Bit(f, k)
        {
          if k > 0 {
            assert Bit(mask / 2, k - 1);
          }
        }
      }
      if BitsOf(f, mask) {
        assert Bit(mask, 0) ==> Bit(f, 0);
        forall k: nat | Bit(mask / 2, k)
          ensures Bit(f / 2, k)
        {
          assert Bit(mask, k + 1);
        }
      }
    }
  }

  lemma {:induction false} NoBitOfZero(k: nat)
    ensures !Bit(0, k)
  {
    if k > 0 {
      NoBitOfZero(k - 1);
    }
  }

  /** What the backend does when the session is started: whether owlInit succeeds, and the
      set-up input of every sensor, by index. */
  datatype StartInput = StartInput(initOk: bool, setups: seq<SetupInput>)

  /** A sensor as UpdateSensor leaves it: a started sensor shows Output of its last good
      pose, and nothing else about any sensor changes. */
  function Shown(s: SensorState, scale: Vec3, offset: Vec3): (r: SensorState)
    requires |s.lastGood| == POSE_SIZE
    ensures r.data == if s.isStarted then Output(s.isRigid, s.lastGood, scale, offset) else s.data
    ensures r == s.(data := r.data)
  {
    if s.isStarted then s.(data := Output(s.isRigid, s.lastGood, scale, offset)) else s
  }

  /** Showing the data keeps every registry invariant. */
  lemma ShownKeeps(r: seq<SensorState>, ss: seq<SensorState>, used: set<int>, markerCount: int, rigidCount: int, scale: Vec3, offset: Vec3)
    requires Registered(ss, used, markerCount, rigidCount) && |r| == |ss|
    requires forall j :: 0 <= j < |ss| ==> r[j] == Shown(ss[j], scale, offset)
    ensures Registered(r, used, markerCount, rigidCount)
    ensures forall j :: 0 <= j < |ss| ==> r[j].isStarted == ss[j].isStarted
  {
    assert SameLayout(r, ss);
    SameLayoutKeeps(r, ss, used, markerCount, rigidCount);
  }

  /** The seven values UpdateSensor writes into a started sensor's host data
      (main.cpp:575-593), from its last good pose and the current scale and offset. */
  method SensorData(isRigid: bool, lg: seq<real>, sc: Vec3, off: Vec3) returns (data: seq<real>)
    requires |lg| == POSE_SIZE
    ensures data == Output(isRigid, lg, sc, off)
  {
    if isRigid {
      data := [-1.0 * sc.x * (lg[0] + off.x), sc.y * (lg[1] + off.y), sc.z * (lg[2] + off.z),
               -1.0 * lg[4], lg[5], lg[6], -1.0 * lg[3]];
    } else {
      data := [-1.0 * sc.x * (lg[0] + off.x), sc.y * (lg[1] + off.y), sc.z * (lg[2] + off.z),
               0.0, 0.0, 0.0, 1.0];
    }
    ghost var out := Output(isRigid, lg, sc, off);
    assert forall k :: 0 <= k < POSE_SIZE ==> data[k] == out[k];
  }

  class Plugin {
    /** ALL_SENSORS, USED_MARKER, MARKER_COUNT, RIGID_COUNT. */
    var sensors: seq<SensorState>
    var usedMarker: set<int>
    var markerCount: int
    var rigidCount: int
    /** SCALE_*, OFFSET_*, REQUEST_RESET_ORIGIN, ORIGIN_ID. */
    var globals: Globals
    /** SERVER_STARTED, STREAMING, OWL_SERVER, LOCAL_OWL_FREQUENCY, LOCAL_FLAGS, and whether
        READ_THREAD has been created. */
    var serverStarted: bool
    var streaming: bool
    var server: string
    var frequency: real
    var flags: Word64
    var readThread: bool
    /** GLOBAL_MARKERS and GLOBAL_RIGIDS, allocated when the session starts. */
    var globalMarkers: array<MarkerSample>
    var globalRigids: array<RigidSample>
    /** The OWL_SLAVE bit mask of the backend's header. */
    const slaveMask: Word64

    ghost predicate Valid()
      reads this`sensors, this`usedMarker, this`markerCount, this`rigidCount
      reads this`serverStarted, this`streaming, this`readThread, this`globalMarkers, this`globalRigids
    {
      Registered(sensors, usedMarker, markerCount, rigidCount) &&
      (streaming ==> serverStarted) && (readThread ==> serverStarted) &&
      (serverStarted ==> globalMarkers.Length == markerCount && globalRigids.Length == rigidCount) &&
      forall i :: 0 <= i < |sensors| && sensors[i].isStarted ==> serverStarted && |sensors[i].markers| > 0
    }

    /** The session runs as a slave of another master (LOCAL_FLAGS has every OWL_SLAVE bit). */
    predicate Slave()
      reads this`flags
    {
      Covers(flags, slaveMask)
    }

    /** The state at load time; maxFrequency is OWL_MAX_FREQUENCY of the backend's header. */
    constructor (slaveMask: Word64, maxFrequency: real)
      ensures Valid() && this.slaveMask == slaveMask
      ensures sensors == [] && usedMarker == {} && markerCount == 0 && rigidCount == 0
      ensures globals == Globals(Vec3(1.0, 1.0, 1.0), ORIGIN, false, 0)
      ensures !serverStarted && !streaming && !readThread
      ensures server == "" && frequency == maxFrequency && flags == 0
    {
      sensors := [];
      usedMarker := {};
      markerCount := 0;
      rigidCount := 0;
      globals := Globals(Vec3(1.0, 1.0, 1.0), ORIGIN, false, 0);
      serverStarted := false;
      streaming := false;
      server := "";
      frequency := maxFrequency;
      flags := 0;
      readThread := false;
      globalMarkers := new MarkerSample[0];
      globalRigids := new RigidSample[0];
      this.slaveMask := slaveMask;
    }

    /** SetOwlStreaming (main.cpp:219-234): nothing before the session starts; afterwards the
        backend is told only when the state actually changes, so a repeated call is a no-op. */
    method SetOwlStreaming(b: bool) returns (issued: bool)
      modifies this`streaming
      ensures streaming == (if serverStarted then b else old(streaming))
      ensures issued <==> serverStarted && b != old(streaming)
    {
      if !serverStarted {
        return false;
      }
      if b && !streaming {
        streaming := true;
        issued := true;
      } else if !b && streaming {
        streaming := false;
        issued := true;
      } else {
        issued := false;
      }
    }

    /** UpdateRigidCount (main.cpp:237-245). */
    method UpdateRigidCount()
      modifies this`sensors, this`rigidCount
      ensures sensors == Renumber(old(sensors)) && rigidCount == CountRigid(old(sensors))
    {
      var ss := sensors;
      var count := 0;
      var i := 0;
      while i < |ss|
        invariant 0 <= i <= |ss| == |sensors|
        invariant forall j :: 0 <= j < i ==> sensors[j] == Numbered(ss, j)
        invariant forall j :: i <= j < |ss| ==> sensors[j] == ss[j]
        invariant count == CountRigid(ss[..i])
        modifies this`sensors
      {
        assert ss[..i + 1][..i] == ss[..i];
        if ss[i].isRigid {
          sensors := sensors[i := ss[i].(rigidNumber := count)];
          count := count + 1;
        }
        i := i + 1;
      }
      assert ss[..|ss|] == ss;
      forall j | 0 <= j < |ss|
        ensures sensors[j] == Renumber(ss)[j]
      {
        RenumberIndex(ss, j);
      }
      rigidCount := count;
    }

    /** InitializeSensor (main.cpp:504-543): refused once the session is started; otherwise the
        new sensor is appended with its index as tracker id, and that index is the id the
        host stores in the instance. */
    method InitializeSensor() returns (id: Option<nat>)
      requires Valid()
      modifies this`sensors
      ensures Valid()
      ensures serverStarted ==> id == None && sensors == old(sensors)
      ensures !serverStarted ==> id == Some(|old(sensors)|) && sensors == old(sensors) + [NewSensor(|old(sensors)|)]
    {
      if serverStarted {
        return None;
      }
      AppendKeeps(sensors, usedMarker, markerCount, rigidCount);
      id := Some(|sensors|);
      sensors := sensors + [NewSensor(|sensors|)];
    }

    /** Command 2. */
    method SetScale(x: real, y: real, z: real)
      requires Valid()
      modifies this`globals
      ensures Valid()
      ensures globals == old(globals).(scale := Vec3(x, y, z))
    {
      globals := globals.(scale := Vec3(x, y, z));
    }

    /** Command 3. */
    method SetOffset(x: real, y: real, z: real)
      requires Valid()
      modifies this`globals
      ensures Valid()
      ensures globals == old(globals).(offset := Vec3(x, y, z))
    {
      globals := globals.(offset := Vec3(x, y, z));
    }

    /** Command 4: ask the read thread to put sensor id at the origin. */
    method RequestOriginReset(id: int)
      requires Valid()
      modifies this`globals
      ensures Valid()
      ensures globals == old(globals).(requestReset := true, originId := id)
    {
      globals := globals.(requestReset := true, originId := id);
    }

    /** Command 9: the server address, only before the session starts. */
    method SetServer(msg: string)
      requires Valid()
      modifies this`server
      ensures Valid()
      ensures server == if serverStarted then old(server) else msg
    {
      if !serverStarted {
        server := msg;
      }
    }

    /** Command 10: the frequency, only before the session starts and only in (0, 960]. */
    method SetFrequency(x: real) returns (accepted: bool)
      requires Valid()
      modifies this`frequency
      ensures Valid()
      ensures accepted <==> !serverStarted && 0.0 < x <= MAX_FREQUENCY
      ensures frequency == if accepted then x else old(frequency)
    {
      accepted := false;
      if !serverStarted {
        if x > 0.0 && x <= MAX_FREQUENCY {
          frequency := x;
          accepted := true;
        }
      }
    }

    /** Command 11: the session flags, only before the session starts. */
    method SetFlags(x: real)
      requires Valid()
      modifies this`flags
      ensures Valid()
      ensures flags == if serverStarted then old(flags) else FlagsOf(x)
    {
      if !serverStarted {
        flags := FlagsOf(x);
      }
    }

    /** Command 5, add a marker to sensor id (main.cpp:730-746), with the session check that
        keeps MARKER_COUNT equal to the size of the buffers allocated at start: the rounded
        argument must be a marker id in [0, 128) that no sensor holds yet. */
    method AddMarker(id: nat, x: real) returns (refusal: Option<Refusal>)
      requires Valid() && id < |sensors|
      modifies this`sensors, this`usedMarker, this`markerCount
      ensures Valid()
      ensures refusal == AddMarkerCheck(serverStarted, old(sensors)[id].isStarted, x, old(usedMarker))
      ensures refusal.None? ==>
        var m := RoundArg(x);
        sensors == old(sensors)[id := old(sensors)[id].(markers := old(sensors)[id].markers + [m])] &&
        usedMarker == old(usedMarker) + {m} && markerCount == GrownCount(old(markerCount), m)
      ensures refusal.Some? ==>
        sensors == old(sensors) && usedMarker == old(usedMarker) && markerCount == old(markerCount)
    {
      if serverStarted {
        return Some(SessionStarted);
      }
      if sensors[id].isStarted {
        return Some(SensorStarted);
      }
      var marker := RoundArg(x);
      RoundArgInRange(x);
      if marker < 0 || marker >= MAX_MARKER_COUNT {
        return Some(MarkerOutOfRange);
      }
      if marker in usedMarker {
        return Some(MarkerInUse);
      }
      AddMarkerKeeps(sensors, usedMarker, markerCount, rigidCount, id, marker);
      sensors := sensors[id := sensors[id].(markers := sensors[id].markers + [marker])];
      markerCount := GrownCount(markerCount, marker);
      usedMarker := usedMarker + {marker};
      refusal := None;
    }

    /** Command 6, make sensor id a rigid body (main.cpp:747-762), with the session check: it
        needs at least three markers, waits for initialisation, and every rigid is renumbered. */
    method SetRigid(id: nat) returns (refusal: Option<Refusal>)
      requires Valid() && id < |sensors|
      modifies this`sensors, this`rigidCount
      ensures Valid()
      ensures refusal == Some(SessionStarted) <==> serverStarted
      ensures refusal == Some(SensorStarted) <==> !serverStarted && old(sensors)[id].isStarted
      ensures refusal.None? <==> !serverStarted && !old(sensors)[id].isStarted && |old(sensors)[id].markers| >= 3
      ensures refusal.None? ==>
        sensors == Renumber(old(sensors)[id := old(sensors)[id].(isRigid := true, needsInitialization := true)])
      ensures refusal.Some? ==> sensors == old(sensors) && rigidCount == old(rigidCount)
    {
      if serverStarted {
        return Some(SessionStarted);
      }
      if sensors[id].isStarted {
        return Some(SensorStarted);
      }
      if |sensors[id].markers| < 3 {
        return Some(TooFewMarkers);
      }
      RekindKeeps(sensors, usedMarker, markerCount, rigidCount, id, true);
      sensors := sensors[id := sensors[id].(isRigid := true, needsInitialization := true)];
      UpdateRigidCount();
      refusal := None;
    }

    /** Command 7, make sensor id a point tracker (main.cpp:763-773), with the session check
        and the renumbering that command 6 does. */
    method SetPoint(id: nat) returns (refusal: Option<Refusal>)
      requires Valid() && id < |sensors|
      modifies this`sensors, this`rigidCount
      ensures Valid()
      ensures refusal == Some(SessionStarted) <==> serverStarted
      ensures refusal.None? <==> !serverStarted && !old(sensors)[id].isStarted
      ensures refusal.None? ==>
        sensors == Renumber(old(sensors)[id := old(sensors)[id].(isRigid := false, needsInitialization := true)])
      ensures refusal.Some? ==> sensors == old(sensors) && rigidCount == old(rigidCount)
    {
      if serverStarted {
        return Some(SessionStarted);
      }
      if sensors[id].isStarted {
        return Some(SensorStarted);
      }
      RekindKeeps(sensors, usedMarker, markerCount, rigidCount, id, false);
      sensors := sensors[id := sensors[id].(isRigid := false, needsInitialization := true)];
      UpdateRigidCount();
      refusal := None;
    }

    /** Command 100: start a fresh recording of sensor id. */
    method StartRecording(id: nat)
      requires Valid() && id < |sensors|
      modifies this`sensors
      ensures Valid()
      ensures sensors == old(sensors)[id := old(sensors)[id].(record := [], requestRecording := true)]
    {
      ghost var ss := sensors;
      sensors := sensors[id := sensors[id].(record := [], requestRecording := true)];
      SameLayoutKeeps(sensors, ss, usedMarker, markerCount, rigidCount);
    }

    /** Command 101: stop recording sensor id, keeping what was recorded. */
    method StopRecording(id: nat)
      requires Valid() && id < |sensors|
      modifies this`sensors
      ensures Valid()
      ensures sensors == old(sensors)[id := old(sensors)[id].(requestRecording := false)]
    {
      ghost var ss := sensors;
      sensors := sensors[id := sensors[id].(requestRecording := false)];
      SameLayoutKeeps(sensors, ss, usedMarker, markerCount, rigidCount);
    }

    /** Command 103: drop sensor id's recording without changing whether it records. */
    method ClearRecording(id: nat)
      requires Valid() && id < |sensors|
      modifies this`sensors
      ensures Valid()
      ensures sensors == old(sensors)[id := old(sensors)[id].(record := [])]
    {
      ghost var ss := sensors;
      sensors := sensors[id := sensors[id].(record := [])];
      SameLayoutKeeps(sensors, ss, usedMarker, markerCount, rigidCount);
    }

    /** CreateRigidLocations (main.cpp:249-330): with the session started, turn streaming on,
        calibrate the sensor's markers and, only when every marker was averaged, turn it off
        again. The result is the geometry relative to the first marker, or shorter than the
        marker list on failure. */
    method CreateRigidLocations(id: nat, polls: seq<MarkerPoll>) returns (definition: seq<Vec3>)
      requires id < |sensors| && |sensors[id].markers| > 0 && WellFormed(polls, markerCount)
      requires forall a :: 0 <= a < |sensors[id].markers| ==> 0 <= sensors[id].markers[a] < markerCount
      modifies this`streaming
      ensures !serverStarted ==> definition == [] && streaming == old(streaming)
      ensures serverStarted ==>
        definition == Geometry(polls, sensors[id].markers).points &&
        streaming == (|definition| != |sensors[id].markers|)
    {
      if !serverStarted {
        return [];
      }
      var _ := SetOwlStreaming(true);
      var ids := sensors[id].markers;
      var status;
      definition, status := Calibrate(polls, ids, markerCount);
      if status != Complete {
        return;
      }
      var _ := SetOwlStreaming(false);
    }

    /** SetUpSensor (main.cpp:335-448) for sensor id: the sensor becomes BringUp of itself and
        streaming becomes StreamingAfter; nothing happens before the session starts. */
    method SetUpSensor(id: nat, input: SetupInput)
      requires Valid() && id < |sensors| && WellFormed(input.polls, markerCount)
      modifies this`sensors, this`streaming
      ensures Valid()
      ensures serverStarted ==>
        sensors == old(sensors)[id := BringUp(old(sensors)[id], Slave(), input)] &&
        streaming == StreamingAfter(old(sensors)[id], Slave(), input, old(streaming))
      ensures !serverStarted ==> sensors == old(sensors) && streaming == old(streaming)
    {
      if !serverStarted {
        return;
      }
      ghost var r := BringUp(sensors[id], Slave(), input);
      ghost var after := StreamingAfter(sensors[id], Slave(), input, streaming);
      BringUpKeeps(sensors, usedMarker, markerCount, rigidCount, id, Slave(), input);
      var s := sensors[id];
      if |s.markers| == 0 {
        s := s.(isStarted := false, needsInitialization := false);
        assert s == r && streaming == after;
      } else if Slave() {
        var _ := SetOwlStreaming(true);
        s := s.(isStarted := true, needsInitialization := false);
        assert s == r && streaming == after;
      } else {
        forall a | 0 <= a < |s.markers|
          ensures 0 <= s.markers[a] < markerCount
        {
          MarkerInRange(sensors, usedMarker, markerCount, rigidCount, id, a);
        }
        s := SetUpTracker(id, input);
      }
      sensors := sensors[id := s];
    }

    /** The part of SetUpSensor past the checks (main.cpp:359-447), for a sensor with markers
        in a session that is not a slave: stop streaming, then create and enable a rigid
        tracker from a fresh calibration, or a point tracker, and resume streaming once the
        sensor is started. Returns the sensor's new state. */
    method SetUpTracker(id: nat, input: SetupInput) returns (s: SensorState)
      requires serverStarted && !Slave() && id < |sensors| && |sensors[id].markers| > 0
      requires WellFormed(input.polls, markerCount)
      requires forall a :: 0 <= a < |sensors[id].markers| ==> 0 <= sensors[id].markers[a] < markerCount
      modifies this`streaming
      ensures s == BringUp(sensors[id], false, input)
      ensures streaming == StreamingAfter(sensors[id], false, input, old(streaming))
    {
      var _ := SetOwlStreaming(false);
      s := sensors[id].(isStarted := false);
      if s.isRigid {
        var definition := CreateRigidLocations(id, input.polls);
        s := s.(rigidBodyDefinition := definition);
        if |definition| != |s.markers| || !input.createOk || !input.markersOk {
          return s.(needsInitialization := false, status := false);
        }
      }
      if !input.enableOk {
        return s.(status := false);
      }
      var _ := SetOwlStreaming(true);
      s := s.(isStarted := true, needsInitialization := false);
    }

    /** StartServer (main.cpp:450-485): once only, and only if the backend initialises. The
        buffers are allocated at the counts reached, the frequency is applied in slave mode,
        every sensor waiting for initialisation is brought up in order, and streaming and the
        read thread are started. The result is the frequency applied, if any. */
    method StartServer(input: StartInput) returns (appliedFrequency: Option<real>)
      requires Valid() && |input.setups| == |sensors|
      requires forall i :: 0 <= i < |input.setups| ==> WellFormed(input.setups[i].polls, markerCount)
      modifies this`sensors, this`streaming, this`serverStarted, this`readThread, this`globalMarkers, this`globalRigids
      ensures Valid()
      ensures old(serverStarted) || !input.initOk ==> appliedFrequency == None && unchanged(this)
      ensures !old(serverStarted) && input.initOk ==>
        serverStarted && streaming && readThread &&
        fresh(globalMarkers) && fresh(globalRigids) &&
        (appliedFrequency == if Slave() then Some(frequency) else None) &&
        sensors == BringUpAll(old(sensors), Slave(), input.setups)
    {
      if serverStarted || !input.initOk {
        return None;
      }
      globalMarkers := new MarkerSample[markerCount];
      globalRigids := new RigidSample[rigidCount];
      appliedFrequency := if Slave() then Some(frequency) else None;
      serverStarted := true;
      SetUpPending(input.setups);
      var _ := SetOwlStreaming(true);
      readThread := true;
    }

    /** The initialisation pass of StartServer (main.cpp:471-478): every sensor waiting for
        initialisation is set up, in list order. */
    method SetUpPending(setups: seq<SetupInput>)
      requires Valid() && serverStarted && |setups| == |sensors|
      requires forall i :: 0 <= i < |setups| ==> WellFormed(setups[i].polls, markerCount)
      modifies this`sensors, this`streaming
      ensures Valid()
      ensures sensors == BringUpAll(old(sensors), Slave(), setups)
    {
      ghost var target := BringUpAll(sensors, Slave(), setups);
      ghost var ss := sensors;
      var i := 0;
      while i < |sensors|
        invariant 0 <= i <= |sensors| == |ss|
        invariant Valid()
        invariant forall j :: 0 <= j < i ==> sensors[j] == target[j]
        invariant forall j :: i <= j < |ss| ==> sensors[j] == ss[j]
      {
        assert target[i] == if ss[i].needsInitialization then BringUp(ss[i], Slave(), setups[i]) else ss[i];
        if sensors[i].needsInitialization {
          SetUpSensor(i, setups[i]);
        }
        i := i + 1;
      }
    }

    /** One iteration of the read thread (main.cpp:609-679): the backend fills the marker and
        rigid buffers and reports n and m; if either is positive, every started sensor is
        updated in list order from the buffer of its kind. */
    method AcquireStep(snap: Snapshot)
      requires Valid() && readThread && Fits(snap, markerCount, rigidCount)
      modifies this`sensors, this`globals, globalMarkers, globalRigids
      ensures Valid()
      ensures globalMarkers[..] == snap.markers && globalRigids[..] == snap.rigids
      ensures AllReadable(old(sensors), snap) && Batch(globals, sensors) == Acquire(old(globals), old(sensors), snap)
    {
      Publish(snap);
      RegisteredReadable(sensors, usedMarker, markerCount, rigidCount, snap);
      ghost var ss := sensors;
      ghost var g := globals;
      if snap.n > 0 || snap.m > 0 {
        ReadAll(snap);
      }
      AcquireKeepsLayout(g, ss, snap);
      SameLayoutKeeps(sensors, ss, usedMarker, markerCount, rigidCount);
    }

    /** The backend's owlGetMarkers and owlGetRigids fill the shared buffers (main.cpp:610-611). */
    method Publish(snap: Snapshot)
      requires globalMarkers.Length == |snap.markers| && globalRigids.Length == |snap.rigids|
      modifies globalMarkers, globalRigids
      ensures globalMarkers[..] == snap.markers && globalRigids[..] == snap.rigids
    {
      forall k | 0 <= k < globalMarkers.Length {
        globalMarkers[k] := snap.markers[k];
      }
      forall k | 0 <= k < globalRigids.Length {
        globalRigids[k] := snap.rigids[k];
      }
    }

    /** The pass over the sensors of one iteration (main.cpp:617-677), in list order: each
        sensor's update sees the globals the ones before it left. */
    method ReadAll(snap: Snapshot)
      requires AllReadable(sensors, snap)
      requires globalMarkers[..] == snap.markers && globalRigids[..] == snap.rigids
      modifies this`sensors, this`globals
      ensures Batch(globals, sensors) == StepUpTo(old(globals), old(sensors), snap, |old(sensors)|)
    {
      ghost var ss := sensors;
      ghost var g := globals;
      var i := 0;
      while i < |sensors|
        invariant 0 <= i <= |sensors| == |ss|
        invariant Batch(globals, sensors) == StepUpTo(g, ss, snap, i)
      {
        assert sensors[i] == ss[i];
        ReadSensor(i, snap);
        i := i + 1;
      }
    }

    /** The update of sensor i within one iteration (main.cpp:619-677): only a started sensor
        is updated, as a rigid or as a point. */
    method ReadSensor(i: nat, snap: Snapshot)
      requires i < |sensors| && Readable(sensors[i], snap)
      requires globalMarkers[..] == snap.markers && globalRigids[..] == snap.rigids
      modifies this`sensors, this`globals
      ensures var st := StepSensor(old(globals), old(sensors)[i], i, snap);
        globals == st.globals && sensors == old(sensors)[i := st.sensor]
    {
      if !sensors[i].isStarted {
        return;
      }
      if sensors[i].isRigid {
        ReadRigid(i, snap);
      } else {
        ReadPoint(i, snap);
      }
    }

    /** A started rigid sensor, when the rigid buffer brought data (main.cpp:620-650): a
        pending origin reset for this sensor first, then the record, then the whole pose into
        lastGood if the sample is confident. */
    method ReadRigid(i: nat, snap: Snapshot)
      requires i < |sensors| && Readable(sensors[i], snap) && sensors[i].isStarted && sensors[i].isRigid
      requires globalRigids[..] == snap.rigids
      modifies this`sensors, this`globals
      ensures var st := StepSensor(old(globals), old(sensors)[i], i, snap);
        globals == st.globals && sensors == old(sensors)[i := st.sensor]
    {
      if snap.m <= 0 {
        return;
      }
      var s := sensors[i];
      ghost var st := StepSensor(globals, s, i, snap);
      var pose := globalRigids[s.rigidNumber].pose;
      if globals.requestReset && globals.originId == i {
        globals := globals.(offset := Vec3(pose[0], pose[1], pose[2]).Neg(), requestReset := false);
      }
      if s.requestRecording {
        var p := ReadPosition(Vec3(pose[0], pose[1], pose[2]), globals.scale, globals.offset);
        s := s.(record := s.record + [Record(snap.time, snap.ttl, p, Some(ReadQuaternion(pose)))]);
      }
      if globalRigids[s.rigidNumber].cond > MIN_CONDITION {
        var lastGood := s.lastGood;
        for k := 0 to POSE_SIZE
          invariant |lastGood| == POSE_SIZE
          invariant lastGood[..k] == pose[..k]
        {
          lastGood := lastGood[k := pose[k]];
        }
        assert lastGood == lastGood[..POSE_SIZE];
        s := s.(samples := s.samples + 1, lastGood := lastGood);
      }
      assert s.lastGood == st.sensor.lastGood && s.samples == st.sensor.samples && s.record == st.sensor.record;
      sensors := sensors[i := s];
    }

    /** A started point sensor, when the marker buffer brought data (main.cpp:651-675): the
        same order, on its first marker, and only the position slots of lastGood. */
    method ReadPoint(i: nat, snap: Snapshot)
      requires i < |sensors| && Readable(sensors[i], snap) && sensors[i].isStarted && !sensors[i].isRigid
      requires globalMarkers[..] == snap.markers
      modifies this`sensors, this`globals
      ensures var st := StepSensor(old(globals), old(sensors)[i], i, snap);
        globals == st.globals && sensors == old(sensors)[i := st.sensor]
    {
      if snap.n <= 0 {
        return;
      }
      var s := sensors[i];
      ghost var st := StepSensor(globals, s, i, snap);
      var mk := globalMarkers[s.markers[0]];
      if globals.requestReset && globals.originId == i {
        globals := globals.(offset := Vec3(mk.x, mk.y, mk.z).Neg(), requestReset := false);
      }
      if s.requestRecording {
        var p := ReadPosition(Vec3(mk.x, mk.y, mk.z), globals.scale, globals.offset);
        s := s.(record := s.record + [Record(snap.time, snap.ttl, p, None)]);
      }
      if mk.cond > MIN_CONDITION {
        var lastGood := s.lastGood[0 := mk.x][1 := mk.y][2 := mk.z];
        assert lastGood == [mk.x, mk.y, mk.z] + s.lastGood[3..];
        s := s.(samples := s.samples + 1, lastGood := lastGood);
      }
      assert s.lastGood == st.sensor.lastGood && s.samples == st.sensor.samples && s.record == st.sensor.record;
      sensors := sensors[i := s];
    }

    /** UpdateSensor (main.cpp:561-596): once the session is started, streaming and the read
        thread running, every started sensor's data is what Output makes of its last good
        pose; nothing else changes. */
    method UpdateSensor()
      requires Valid()
      modifies this`sensors
      ensures Valid()
      ensures !(serverStarted && streaming && readThread) ==> sensors == old(sensors)
      ensures serverStarted && streaming && readThread ==>
        |sensors| == |old(sensors)| &&
        forall i :: 0 <= i < |sensors| ==> sensors[i] == Shown(old(sensors)[i], globals.scale, globals.offset)
    {
      if !serverStarted || !streaming || !readThread {
        return;
      }
      ghost var ss := sensors;
      var i := 0;
      while i < |sensors|
        invariant 0 <= i <= |sensors| == |ss| && Shaped(ss)
        invariant forall j :: 0 <= j < i ==> sensors[j] == Shown(ss[j], globals.scale, globals.offset)
        invariant forall j :: i <= j < |ss| ==> sensors[j] == ss[j]
      {
        var s := sensors[i];
        if s.isStarted {
          var data := SensorData(s.isRigid, s.lastGood, globals.scale, globals.offset);
          sensors := sensors[i := s.(data := data)];
        }
        i := i + 1;
      }
      ShownKeeps(sensors, ss, usedMarker, markerCount, rigidCount, globals.scale, globals.offset);
    }

    /** The recording commands of CommandSensor (main.cpp:848-876): 100 starts a fresh
        recording, 101 stops it, 103 drops what was recorded. */
    method RecordingCommand(id: nat, code: int)
      requires Valid() && id < |sensors|
      modifies this`sensors
      ensures Valid()
      ensures code == 100 ==> sensors == old(sensors)[id := old(sensors)[id].(record := [], requestRecording := true)]
      ensures code == 101 ==> sensors == old(sensors)[id := old(sensors)[id].(requestRecording := false)]
      ensures code == 103 ==> sensors == old(sensors)[id := old(sensors)[id].(record := [])]
      ensures code !in {100, 101, 103} ==> sensors == old(sensors)
    {
      match code
      case 100 => StartRecording(id);
      case 101 => StopRecording(id);
      case 103 => ClearRecording(id);
      case _ =>
    }

    /** What CommandSensor (main.cpp:694-889) does with the command `code` to sensor id, with
        the three numbers x, y, z and the string msg; start is what the backend does if the
        command starts the session. Each command changes only the state it is about, a
        refused command and a code without an effect on the modelled state (1, 102, 104 and
        any other) change nothing, and once the session is started the marker and rigid
        counts, the used ids and the buffers stay as they were. */
    twostate predicate Commanded(id: nat, code: int, x: real, y: real, z: real, msg: string, start: StartInput)
      requires old(id < |sensors|) && (code == 8 ==> old(|start.setups| == |sensors|))
      reads this
    {
      var s := old(sensors)[id];
      var m := RoundArg(x);
      // once started, the registry and the buffers are fixed
      (old(serverStarted) ==>
        serverStarted && markerCount == old(markerCount) && rigidCount == old(rigidCount) &&
        usedMarker == old(usedMarker) && globalMarkers == old(globalMarkers) && globalRigids == old(globalRigids)) &&
      // every command changes only its own state
      (code !in {2, 3, 4} ==> globals == old(globals)) &&
      (code !in {5, 6, 7, 8, 100, 101, 103} ==> sensors == old(sensors)) &&
      (code != 5 ==> usedMarker == old(usedMarker) && markerCount == old(markerCount)) &&
      (code !in {6, 7} ==> rigidCount == old(rigidCount)) &&
      (code != 8 ==>
        serverStarted == old(serverStarted) && streaming == old(streaming) && readThread == old(readThread) &&
        globalMarkers == old(globalMarkers) && globalRigids == old(globalRigids)) &&
      (code != 9 ==> server == old(server)) &&
      (code != 10 ==> frequency == old(frequency)) &&
      (code != 11 ==> flags == old(flags)) &&
      // the effect of each command
      (code == 2 ==> globals == old(globals).(scale := Vec3(x, y, z))) &&
      (code == 3 ==> globals == old(globals).(offset := Vec3(x, y, z))) &&
      (code == 4 ==> globals == old(globals).(requestReset := true, originId := id)) &&
      (code == 5 && AddMarkerCheck(old(serverStarted), s.isStarted, x, old(usedMarker)).None? ==>
        sensors == old(sensors)[id := s.(markers := s.markers + [m])] &&
        usedMarker == old(usedMarker) + {m} && markerCount == GrownCount(old(markerCount), m)) &&
      (code == 6 && !old(serverStarted) && !s.isStarted && |s.markers| >= 3 ==>
        sensors == Renumber(old(sensors)[id := s.(isRigid := true, needsInitialization := true)])) &&
      (code == 7 && !old(serverStarted) && !s.isStarted ==>
        sensors == Renumber(old(sensors)[id := s.(isRigid := false, needsInitialization := true)])) &&
      (code == 8 && |old(server)| >= 1 && !old(serverStarted) && start.initOk ==>
        serverStarted && streaming && readThread && sensors == BringUpAll(old(sensors), Slave(), start.setups)) &&
      (code == 9 ==> server == if old(serverStarted) then old(server) else msg) &&
      (code == 10 ==> frequency == if !old(serverStarted) && 0.0 < x <= MAX_FREQUENCY then x else old(frequency)) &&
      (code == 11 ==> flags == if old(serverStarted) then old(flags) else FlagsOf(x)) &&
      (code == 100 ==> sensors == old(sensors)[id := s.(record := [], requestRecording := true)]) &&
      (code == 101 ==> sensors == old(sensors)[id := s.(requestRecording := false)]) &&
      (code == 103 ==> sensors == old(sensors)[id := s.(record := [])]) &&
      // refusals
      (code == 5 && AddMarkerCheck(old(serverStarted), s.isStarted, x, old(usedMarker)).Some? ==> unchanged(this)) &&
      (code == 6 && (old(serverStarted) || s.isStarted || |s.markers| < 3) ==> unchanged(this)) &&
      (code == 7 && (old(serverStarted) || s.isStarted) ==> unchanged(this)) &&
      (code == 8 && (|old(server)| < 1 || old(serverStarted) || !start.initOk) ==> unchanged(this)) &&
      (code !in {2, 3, 4, 5, 6, 7, 8, 9, 10, 11, 100, 101, 103} ==> unchanged(this))
    }

    /** The setting commands 2, 3, 4 (main.cpp:720-729) and 9, 10, 11 (main.cpp:782-845). */
    method SettingCommand(id: nat, code: int, x: real, y: real, z: real, msg: string, start: StartInput)
      requires Valid() && id < |sensors| && code in {2, 3, 4, 9, 10, 11}
      modifies this`globals, this`server, this`frequency, this`flags
      ensures Valid() && Commanded(id, code, x, y, z, msg, start)
    {
      match code
      case 2 => SetScale(x, y, z);
      case 3 => SetOffset(x, y, z);
      case 4 => RequestOriginReset(id);
      case 9 => SetServer(msg);
      case 10 => var _ := SetFrequency(x);
      case 11 => SetFlags(x);
    }

    /** Command 5 (main.cpp:730-746): add a marker to a sensor. */
    method MarkerCommand(id: nat, code: int, x: real, y: real, z: real, msg: string, start: StartInput)
      requires Valid() && id < |sensors| && code == 5
      modifies this`sensors, this`usedMarker, this`markerCount
      ensures Valid() && Commanded(id, code, x, y, z, msg, start)
    {
      var _ := AddMarker(id, x);
    }

    /** Commands 6 and 7 (main.cpp:747-773): make a sensor a rigid body or a point tracker. */
    method KindCommand(id: nat, code: int, x: real, y: real, z: real, msg: string, start: StartInput)
      requires Valid() && id < |sensors| && code in {6, 7}
      modifies this`sensors, this`rigidCount
      ensures Valid() && Commanded(id, code, x, y, z, msg, start)
    {
      if code == 6 {
        var _ := SetRigid(id);
      } else {
        var _ := SetPoint(id);
      }
    }

    /** Command 8 (main.cpp:774-781): start the session once a server is set. */
    method StartCommand(id: nat, code: int, x: real, y: real, z: real, msg: string, start: StartInput)
      requires Valid() && id < |sensors| && code == 8 && |start.setups| == |sensors|
      requires forall i :: 0 <= i < |start.setups| ==> WellFormed(start.setups[i].polls, markerCount)
      modifies this`sensors, this`streaming, this`serverStarted, this`readThread, this`globalMarkers, this`globalRigids
      ensures Valid() && Commanded(id, code, x, y, z, msg, start)
    {
      if |server| >= 1 {
        var _ := StartServer(start);
      }
    }

    /** CommandSensor (main.cpp:694-889), dispatching on the code; Commanded states the
        effect of every command. */
    method CommandSensor(id: nat, code: int, x: real, y: real, z: real, msg: string, start: StartInput)
      requires Valid() && id < |sensors|
      requires code == 8 ==>
        |start.setups| == |sensors| &&
        forall i :: 0 <= i < |start.setups| ==> WellFormed(start.setups[i].polls, markerCount)
      modifies this`sensors, this`usedMarker, this`markerCount, this`rigidCount, this`globals
      modifies this`serverStarted, this`streaming, this`server, this`frequency, this`flags
      modifies this`readThread, this`globalMarkers, this`globalRigids
      ensures Valid() && |sensors| == |old(sensors)| && Commanded(id, code, x, y, z, msg, start)
    {
      if code in {2, 3, 4, 9, 10, 11} {
        SettingCommand(id, code, x, y, z, msg, start);
      } else if code == 5 {
        MarkerCommand(id, code, x, y, z, msg, start);
      } else if code in {6, 7} {
        KindCommand(id, code, x, y, z, msg, start);
      } else if code == 8 {
        StartCommand(id, code, x, y, z, msg, start);
      } else if code in {100, 101, 103} {
        RecordingCommand(id, code);
      }
    }
  }
}
