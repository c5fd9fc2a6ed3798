/** One iteration of the read thread (threadMe, main.cpp:603-684): poll the backend's marker
    and rigid buffers once and, if either brought data, update every started sensor in list
    order. The loop, the lock and the shutdown flag around it are not part of this model. */
module Acquisition {
  import opened Types
  import opened Transform
  import opened Registry

  /** The globals an iteration reads and may change: scale, offset, the pending origin-reset
      request and the index of the sensor it is for. */
  datatype Globals = Globals(scale: Vec3, offset: Vec3, requestReset: bool, originId: int)

  /** What one iteration gets from the backend: the values owlGetMarkers and owlGetRigids
      return (n, m), the buffers they leave behind, and the time stamp and TTL bit a record
      would carry. */
  datatype Snapshot = Snapshot(n: int, markers: seq<MarkerSample>, m: int, rigids: seq<RigidSample>, time: real, ttl: bool)

  /** The buffers have the sizes the session allocated and every pose has seven values. */
  predicate Fits(snap: Snapshot, markerCount: int, rigidCount: int)
  {
    |snap.markers| == markerCount && |snap.rigids| == rigidCount &&
    forall k :: 0 <= k < |snap.rigids| ==> |snap.rigids[k].pose| == POSE_SIZE
  }

  /** A started sensor's reads are inside the buffers. */
  predicate Readable(s: SensorState, snap: Snapshot)
  {
    |s.lastGood| == POSE_SIZE &&
    (s.isStarted && s.isRigid ==> 0 <= s.rigidNumber < |snap.rigids| && |snap.rigids[s.rigidNumber].pose| == POSE_SIZE) &&
    (s.isStarted && !s.isRigid ==> |s.markers| > 0 && 0 <= s.markers[0] < |snap.markers|)
  }

  /** Whether the sensor is updated by this snapshot: it is started and the buffer of its
      kind brought data. */
  predicate Fires(s: SensorState, snap: Snapshot)
  {
    s.isStarted && (if s.isRigid then snap.m > 0 else snap.n > 0)
  }

  /** The position the sensor's sample gives in the backend's frame. */
  function SamplePosition(s: SensorState, snap: Snapshot): Vec3
    requires Readable(s, snap) && s.isStarted
  {
    if s.isRigid then snap.rigids[s.rigidNumber].Position() else snap.markers[s.markers[0]].Position()
  }

  /** The sample's confidence. */
  function SampleCond(s: SensorState, snap: Snapshot): real
    requires Readable(s, snap) && s.isStarted
  {
    if s.isRigid then snap.rigids[s.rigidNumber].cond else snap.markers[s.markers[0]].cond
  }

  /** lastGood after a confident sample: the whole pose for a rigid, the position for a
      point, whose other four slots are kept. */
  function Overwritten(s: SensorState, snap: Snapshot): (r: seq<real>)
    requires Readable(s, snap) && s.isStarted
    ensures |r| == POSE_SIZE && Vec3(r[0], r[1], r[2]) == SamplePosition(s, snap)
    ensures s.isRigid ==> r == snap.rigids[s.rigidNumber].pose
    ensures !s.isRigid ==> r[3..] == s.lastGood[3..]
  {
    if s.isRigid then snap.rigids[s.rigidNumber].pose
    else
      var p := snap.markers[s.markers[0]];
      [p.x, p.y, p.z] + s.lastGood[3..]
  }

  datatype Step = Step(globals: Globals, sensor: SensorState)

  /** The update of sensor i (main.cpp:620-676): the origin reset, then the record, then
      lastGood and samples. */
  function StepSensor(g: Globals, s: SensorState, i: int, snap: Snapshot): Step
    requires Readable(s, snap)
  {
    if !Fires(s, snap) then Step(g, s)
    else
      var p := SamplePosition(s, snap);
      var g' := if g.requestReset && g.originId == i then g.(offset := p.Neg(), requestReset := false) else g;
      var orientation := if s.isRigid then Some(ReadQuaternion(snap.rigids[s.rigidNumber].pose)) else None;
      var entry := Record(snap.time, snap.ttl, ReadPosition(p, g'.scale, g'.offset), orientation);
      var confident := SampleCond(s, snap) > MIN_CONDITION;
      Step(g', s.(record := if s.requestRecording then s.record + [entry] else s.record,
                  samples := if confident then s.samples + 1 else s.samples,
                  lastGood := if confident then Overwritten(s, snap) else s.lastGood))
  }

  /** Fields an iteration never changes. */
  predicate SameSetup(a: SensorState, b: SensorState)
  {
    a == b.(record := a.record, samples := a.samples, lastGood := a.lastGood)
  }

  datatype Batch = Batch(globals: Globals, sensors: seq<SensorState>)

  predicate AllReadable(ss: seq<SensorState>, snap: Snapshot)
  {
    forall i :: 0 <= i < |ss| ==> Readable(ss[i], snap)
  }

  /** The first k sensors updated in order; the globals pass from one to the next. */
  function StepUpTo(g: Globals, ss: seq<SensorState>, snap: Snapshot, k: nat): (r: Batch)
    requires k <= |ss| && AllReadable(ss, snap)
    ensures |r.sensors| == |ss| && r.globals.scale == g.scale && r.globals.originId == g.originId
    ensures forall j :: k <= j < |ss| ==> r.sensors[j] == ss[j]
    decreases k
  {
    if k == 0 then Batch(g, ss)
    else
      var prev := StepUpTo(g, ss, snap, k - 1);
      assert Readable(prev.sensors[k - 1], snap);
      var st := StepSensor(prev.globals, prev.sensors[k - 1], k - 1, snap);
      Batch(st.globals, prev.sensors[k - 1 := st.sensor])
  }

  /** An iteration changes nothing but the records, sample counts and last good poses. */
  lemma {:induction false} StepUpToSetup(g: Globals, ss: seq<SensorState>, snap: Snapshot, k: nat)
    requires k <= |ss| && AllReadable(ss, snap)
    ensures var r := StepUpTo(g, ss, snap, k).sensors;
      forall j :: 0 <= j < |ss| ==> SameSetup(r[j], ss[j]) && |r[j].lastGood| == POSE_SIZE
    decreases k
  {
    if k > 0 {
      StepUpToSetup(g, ss, snap, k - 1);
      var prev := StepUpTo(g, ss, snap, k - 1);
      StepSensorRule(prev.globals, prev.sensors[k - 1], k - 1, snap);
    }
  }

  /** One iteration: nothing happens unless one of the polls brought data. */
  function Acquire(g: Globals, ss: seq<SensorState>, snap: Snapshot): (r: Batch)
    requires AllReadable(ss, snap)
    ensures |r.sensors| == |ss|
    ensures forall j :: 0 <= j < |ss| ==> SameSetup(r.sensors[j], ss[j]) && |r.sensors[j].lastGood| == POSE_SIZE
  {
    if snap.n > 0 || snap.m > 0 then
      StepUpToSetup(g, ss, snap, |ss|);
      StepUpTo(g, ss, snap, |ss|)
    else Batch(g, ss)
  }

  /** The entry a firing sensor records: the time stamp and TTL bit of the iteration, the
      sample's position as the consumer reads it under the given offset, and for a rigid its
      relabelled orientation. */
  function Entry(s: SensorState, snap: Snapshot, scale: Vec3, offset: Vec3): Record
    requires Readable(s, snap) && s.isStarted
  {
    Record(snap.time, snap.ttl, ReadPosition(SamplePosition(s, snap), scale, offset),
           if s.isRigid then Some(ReadQuaternion(snap.rigids[s.rigidNumber].pose)) else None)
  }

  /** What one sensor's update does, stated per field: lastGood is overwritten and samples
      incremented exactly when the sample is confident, the entry is appended exactly when
      the sensor fires while recording, under the offset left after a possible reset, and a
      sensor that does not fire is left alone. */
  lemma StepSensorRule(g: Globals, s: SensorState, i: int, snap: Snapshot)
    requires Readable(s, snap)
    ensures var st := StepSensor(g, s, i, snap);
      var r := st.sensor;
      SameSetup(r, s) &&
      (!Fires(s, snap) ==> r == s) &&
      (Fires(s, snap) ==>
        r.samples == (if SampleCond(s, snap) > MIN_CONDITION then s.samples + 1 else s.samples) &&
        r.lastGood == (if SampleCond(s, snap) > MIN_CONDITION then Overwritten(s, snap) else s.lastGood) &&
        r.record == (if s.requestRecording then s.record + [Entry(s, snap, g.scale, st.globals.offset)] else s.record))
  {
  }

  /** Updating one sensor changes the offset and the request only when the pending request is
      for that sensor and it fires; the offset is then the negated sample position, whatever
      its confidence, and the record of that iteration lies at the consumer's origin. */
  lemma StepSensorReset(g: Globals, s: SensorState, i: int, snap: Snapshot)
    requires Readable(s, snap)
    ensures var st := StepSensor(g, s, i, snap);
      var fired := g.requestReset && g.originId == i && Fires(s, snap);
      (fired ==> st.globals == g.(offset := SamplePosition(s, snap).Neg(), requestReset := false) &&
                 (s.requestRecording ==> st.sensor.record[|s.record|].position == ORIGIN)) &&
      (!fired ==> st.globals == g)
  {
    if g.requestReset && g.originId == i && Fires(s, snap) {
      NegatedOffsetIsOrigin(SamplePosition(s, snap), g.scale);
    }
  }

  /** The slots of a point sensor past the position are never written. */
  lemma PointKeepsOrientationSlots(g: Globals, s: SensorState, i: int, snap: Snapshot)
    requires Readable(s, snap) && !s.isRigid
    ensures StepSensor(g, s, i, snap).sensor.lastGood[3..] == s.lastGood[3..]
  {
  }

  /** Updating sensor k - 1 leaves the sensors before it as they were. */
  lemma StepUpToKeeps(g: Globals, ss: seq<SensorState>, snap: Snapshot, k: nat, j: nat)
    requires 0 < k <= |ss| && j < k - 1 && AllReadable(ss, snap)
    ensures StepUpTo(g, ss, snap, k).sensors[j] == StepUpTo(g, ss, snap, k - 1).sensors[j]
  {
  }

  /** Once sensor j has been updated, the later updates leave it alone. */
  lemma {:induction false} StepUpToSettled(g: Globals, ss: seq<SensorState>, snap: Snapshot, k: nat, j: nat)
    requires k <= |ss| && j < k && AllReadable(ss, snap)
    ensures StepUpTo(g, ss, snap, k).sensors[j] == StepUpTo(g, ss, snap, j + 1).sensors[j]
    decreases k
  {
    if j < k - 1 {
      StepUpToSettled(g, ss, snap, k - 1, j);
      StepUpToKeeps(g, ss, snap, k, j);
    }
  }

  /** Sensor j's state after the first k updates is its own update applied to the globals
      left by the sensors before it. */
  lemma StepUpToAt(g: Globals, ss: seq<SensorState>, snap: Snapshot, k: nat, j: nat)
    requires k <= |ss| && j < k && AllReadable(ss, snap)
    ensures StepUpTo(g, ss, snap, k).sensors[j] == StepSensor(StepUpTo(g, ss, snap, j).globals, ss[j], j, snap).sensor
  {
    StepUpToSettled(g, ss, snap, k, j);
    assert StepUpTo(g, ss, snap, j).sensors[j] == ss[j];
  }

  /** Without a request pending, no iteration touches the globals. */
  lemma {:induction false} NoRequestKeepsGlobals(g: Globals, ss: seq<SensorState>, snap: Snapshot, k: nat)
    requires k <= |ss| && AllReadable(ss, snap) && !g.requestReset
    ensures StepUpTo(g, ss, snap, k).globals == g
    decreases k
  {
    if k > 0 {
      var prev := StepUpTo(g, ss, snap, k - 1);
      NoRequestKeepsGlobals(g, ss, snap, k - 1);
      StepSensorReset(prev.globals, prev.sensors[k - 1], k - 1, snap);
    }
  }

  /** Sensors before the origin sensor leave a pending request and the offset alone. */
  lemma {:induction false} BeforeOriginKeepsGlobals(g: Globals, ss: seq<SensorState>, snap: Snapshot, k: nat)
    requires k <= |ss| && AllReadable(ss, snap) && (g.originId < 0 || k <= g.originId)
    ensures StepUpTo(g, ss, snap, k).globals == g
    decreases k
  {
    if k > 0 {
      var prev := StepUpTo(g, ss, snap, k - 1);
      BeforeOriginKeepsGlobals(g, ss, snap, k - 1);
      StepSensorReset(prev.globals, prev.sensors[k - 1], k - 1, snap);
    }
  }

  /** Sensors after the origin sensor see the globals it left. */
  lemma {:induction false} AfterOriginKeepsGlobals(g: Globals, ss: seq<SensorState>, snap: Snapshot, k: nat)
    requires 0 <= g.originId < k <= |ss| && AllReadable(ss, snap)
    ensures StepUpTo(g, ss, snap, k).globals == StepUpTo(g, ss, snap, g.originId + 1).globals
    decreases k
  {
    if k > g.originId + 1 {
      var prev := StepUpTo(g, ss, snap, k - 1);
      AfterOriginKeepsGlobals(g, ss, snap, k - 1);
      StepSensorReset(prev.globals, prev.sensors[k - 1], k - 1, snap);
    }
  }

  /** The origin reset is one-shot (main.cpp:625-630, 655-660): over one iteration it fires
      exactly when the request is pending and the sensor it names fires, and then sets the
      offset to that sensor's negated position, clears the request and records the sensor at
      the origin; otherwise the globals are left as they were. */
  lemma OriginReset(g: Globals, ss: seq<SensorState>, snap: Snapshot)
    requires AllReadable(ss, snap)
    ensures var r := Acquire(g, ss, snap);
      var o := g.originId;
      var fired := g.requestReset && 0 <= o < |ss| && Fires(ss[o], snap);
      (fired ==> r.globals == g.(offset := SamplePosition(ss[o], snap).Neg(), requestReset := false) &&
                 (ss[o].requestRecording ==>
                   |r.sensors[o].record| > |ss[o].record| && r.sensors[o].record[|ss[o].record|].position == ORIGIN)) &&
      (!fired ==> r.globals == g)
  {
    var o := g.originId;
    if !(snap.n > 0 || snap.m > 0) {
    } else if !g.requestReset {
      NoRequestKeepsGlobals(g, ss, snap, |ss|);
    } else if o < 0 || o >= |ss| {
      BeforeOriginKeepsGlobals(g, ss, snap, |ss|);
    } else {
      BeforeOriginKeepsGlobals(g, ss, snap, o);
      assert StepUpTo(g, ss, snap, o).sensors[o] == ss[o];
      StepSensorReset(g, ss[o], o, snap);
      AfterOriginKeepsGlobals(g, ss, snap, |ss|);
      StepUpToAt(g, ss, snap, |ss|, o);
    }
  }

  /** Over one iteration, each sensor's lastGood is overwritten exactly on a confident sample
      of its own kind, samples counts exactly those, and while the recording flag is set the
      sensor's entry is appended under the offset in force once its own update has run (so
      the origin sensor records itself at the new origin). */
  lemma AcquireRule(g: Globals, ss: seq<SensorState>, snap: Snapshot, i: nat)
    requires AllReadable(ss, snap) && i < |ss|
    ensures var s := ss[i];
      var r := Acquire(g, ss, snap).sensors[i];
      var fires := (snap.n > 0 || snap.m > 0) && Fires(s, snap);
      SameSetup(r, s) &&
      (!fires ==> r == s) &&
      (fires ==>
        r.samples == (if SampleCond(s, snap) > MIN_CONDITION then s.samples + 1 else s.samples) &&
        r.lastGood == (if SampleCond(s, snap) > MIN_CONDITION then Overwritten(s, snap) else s.lastGood) &&
        r.record == (if s.requestRecording
                     then s.record + [Entry(s, snap, g.scale, StepUpTo(g, ss, snap, i + 1).globals.offset)]
                     else s.record))
  {
    if snap.n > 0 || snap.m > 0 {
      StepUpToAt(g, ss, snap, |ss|, i);
      var prev := StepUpTo(g, ss, snap, i);
      assert prev.sensors[i] == ss[i];
      StepSensorRule(prev.globals, ss[i], i, snap);
    }
  }

  /** Iterations over a sequence of snapshots. */
  function Run(g: Globals, ss: seq<SensorState>, snaps: seq<Snapshot>): (r: Batch)
    requires forall k :: 0 <= k < |snaps| ==> AllReadable(ss, snaps[k])
    ensures |r.sensors| == |ss| && forall j :: 0 <= j < |ss| ==> SameSetup(r.sensors[j], ss[j])
    decreases |snaps|
  {
    if snaps == [] then Batch(g, ss)
    else
      var b := Acquire(g, ss, snaps[0]);
      assert forall k :: 1 <= k < |snaps| ==> AllReadable(b.sensors, snaps[k]) by {
        forall k | 1 <= k < |snaps| ensures AllReadable(b.sensors, snaps[k]) {
          assert AllReadable(ss, snaps[k]);
        }
      }
      Run(b.globals, b.sensors, snaps[1..])
  }

  /** The sensor fires with a sample it trusts. */
  predicate Confident(s: SensorState, snap: Snapshot)
    requires Readable(s, snap)
  {
    Fires(s, snap) && SampleCond(s, snap) > MIN_CONDITION
  }

  /** No confident sample of sensor i: its last good pose survives any number of dropouts
      and unconfident samples unchanged. */
  lemma {:induction false} StaleSurvives(g: Globals, ss: seq<SensorState>, snaps: seq<Snapshot>, i: nat)
    requires forall k :: 0 <= k < |snaps| ==> AllReadable(ss, snaps[k])
    requires i < |ss|
    requires forall k :: 0 <= k < |snaps| ==> Readable(ss[i], snaps[k]) && !Confident(ss[i], snaps[k])
    ensures Run(g, ss, snaps).sensors[i].lastGood == ss[i].lastGood
    ensures Run(g, ss, snaps).sensors[i].samples == ss[i].samples
    decreases |snaps|
  {
    if snaps != [] {
      var b := Acquire(g, ss, snaps[0]);
      AcquireRule(g, ss, snaps[0], i);
      forall k | 0 <= k < |snaps| - 1
        ensures AllReadable(b.sensors, snaps[1..][k])
        ensures Readable(b.sensors[i], snaps[1..][k]) && !Confident(b.sensors[i], snaps[1..][k])
      {
        assert AllReadable(ss, snaps[k + 1]);
        assert Readable(ss[i], snaps[k + 1]) && !Confident(ss[i], snaps[k + 1]);
      }
      StaleSurvives(b.globals, b.sensors, snaps[1..], i);
    }
  }

  /** Once no request is pending the offset never moves again: the reset is one-shot. */
  lemma {:induction false} OffsetSettles(g: Globals, ss: seq<SensorState>, snaps: seq<Snapshot>)
    requires forall k :: 0 <= k < |snaps| ==> AllReadable(ss, snaps[k])
    requires !g.requestReset
    ensures Run(g, ss, snaps).globals == g
    decreases |snaps|
  {
    if snaps != [] {
      var b := Acquire(g, ss, snaps[0]);
      OriginReset(g, ss, snaps[0]);
      forall k | 0 <= k < |snaps| - 1
        ensures AllReadable(b.sensors, snaps[1..][k])
      {
        assert AllReadable(ss, snaps[k + 1]);
      }
      OffsetSettles(b.globals, b.sensors, snaps[1..]);
    }
  }

  /** Under the registry invariant, with buffers of the sizes allocated at session start,
      every started sensor's reads are in bounds. */
  lemma RegisteredReadable(ss: seq<SensorState>, used: set<int>, markerCount: int, rigidCount: int, snap: Snapshot)
    requires Registered(ss, used, markerCount, rigidCount) && Fits(snap, markerCount, rigidCount)
    requires forall i :: 0 <= i < |ss| && ss[i].isStarted ==> |ss[i].markers| > 0
    ensures AllReadable(ss, snap)
  {
    forall i | 0 <= i < |ss|
      ensures Readable(ss[i], snap)
    {
      if ss[i].isStarted && ss[i].isRigid {
        RigidNumberInRange(ss, i);
      }
      if ss[i].isStarted && !ss[i].isRigid {
        MarkerInRange(ss, used, markerCount, rigidCount, i, 0);
      }
    }
  }

  /** An iteration changes no sensor's markers, kind, number or started flag. */
  lemma AcquireKeepsLayout(g: Globals, ss: seq<SensorState>, snap: Snapshot)
    requires AllReadable(ss, snap)
    ensures var r := Acquire(g, ss, snap).sensors;
      SameLayout(r, ss) && forall j :: 0 <= j < |ss| ==> r[j].isStarted == ss[j].isStarted
  {
    var r := Acquire(g, ss, snap).sensors;
    forall j | 0 <= j < |ss|
      ensures SameSetup(r[j], ss[j]) && |r[j].lastGood| == POSE_SIZE
    {
    }
  }

  /** A point sensor on marker 5, seen at (1, 2, 3) with full confidence, reads as
      (-1, 2, 3) with the identity orientation under the default scale and offset. */
  lemma PointScenario(ms: seq<MarkerSample>)
    requires |ms| == 6 && ms[5] == MarkerSample(1.0, 2.0, 3.0, 1.0)
    ensures var s := NewSensor(0).(markers := [5], isStarted := true);
      var g := Globals(Vec3(1.0, 1.0, 1.0), ORIGIN, false, 0);
      var snap := Snapshot(1, ms, 0, [], 0.0, false);
      AllReadable([s], snap) &&
      Output(false, Acquire(g, [s], snap).sensors[0].lastGood, g.scale, g.offset) == [-1.0, 2.0, 3.0, 0.0, 0.0, 0.0, 1.0]
  {
  }
}
