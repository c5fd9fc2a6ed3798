/** The sensor registry of the plugin: one record per Vizard sensor instance, the markers
    each one owns, and the numbering of the rigid bodies among them (ALL_SENSORS, USED_MARKER,
    MARKER_COUNT and RIGID_COUNT in main.cpp). */
module Registry {
  import opened Types

  /** One SPhaseSpaceSensor together with the two fields of its host object the plugin
      writes: status and the seven data slots the consumer reads. */
  datatype SensorState = SensorState(
    trackerID: int,
    markers: seq<int>,
    isRigid: bool,
    rigidNumber: int,
    rigidBodyDefinition: seq<Vec3>,
    isStarted: bool,
    needsInitialization: bool,
    samples: int,
    requestRecording: bool,
    lastGood: seq<real>,
    record: seq<Record>,
    status: bool,
    data: seq<real>)

  function Zeros(n: nat): (r: seq<real>)
    ensures |r| == n && forall k :: 0 <= k < n ==> r[k] == 0.0
  {
    seq(n, _ => 0.0)
  }

  /** The sensor InitializeSensor appends at position index; the record is value-initialised,
      so every field the source does not set is zero, false or empty. */
  function NewSensor(index: int): SensorState
  {
    SensorState(index, [], false, 0, [], false, false, 0, false, Zeros(POSE_SIZE), [], true, Zeros(POSE_SIZE))
  }

  /** Every sensor sits at the index that is its tracker id, and its pose buffers have
      seven slots. */
  predicate Shaped(ss: seq<SensorState>)
  {
    forall i :: 0 <= i < |ss| ==>
      ss[i].trackerID == i && |ss[i].lastGood| == POSE_SIZE && |ss[i].data| == POSE_SIZE
  }

  /** The markers registered by any sensor. */
  function AllMarkers(ss: seq<SensorState>): set<int>
  {
    set i, m | 0 <= i < |ss| && m in ss[i].markers :: m
  }

  /** No marker id is held twice, by one sensor or by two. */
  predicate MarkersUnique(ss: seq<SensorState>)
  {
    forall i, j, a, b ::
      (0 <= i < |ss| && 0 <= j < |ss| && 0 <= a < |ss[i].markers| && 0 <= b < |ss[j].markers| &&
       ss[i].markers[a] == ss[j].markers[b]) ==> i == j && a == b
  }

  /** Number of rigid sensors. */
  function CountRigid(ss: seq<SensorState>): nat
  {
    if ss == [] then 0
    else CountRigid(ss[..|ss| - 1]) + (if ss[|ss| - 1].isRigid then 1 else 0)
  }

  /** Every rigid sensor's rigidNumber is the number of rigid sensors before it. */
  predicate RigidNumbered(ss: seq<SensorState>)
  {
    forall i {:trigger ss[i].rigidNumber} :: 0 <= i < |ss| && ss[i].isRigid ==> ss[i].rigidNumber == CountRigid(ss[..i])
  }

  /** The sensors after UpdateRigidCount (main.cpp:237-245): the loop visits them in order
      and gives each rigid one the count reached so far. */
  function Renumber(ss: seq<SensorState>): (r: seq<SensorState>)
    ensures |r| == |ss|
  {
    if ss == [] then []
    else
      var front := ss[..|ss| - 1];
      var s := ss[|ss| - 1];
      Renumber(front) + [if s.isRigid then s.(rigidNumber := CountRigid(front)) else s]
  }

  /** Sensor j as UpdateRigidCount leaves it: numbered by the rigids before it if rigid,
      untouched otherwise. */
  function Numbered(ss: seq<SensorState>, j: nat): SensorState
    requires j < |ss|
  {
    if ss[j].isRigid then ss[j].(rigidNumber := CountRigid(ss[..j])) else ss[j]
  }

  /** Renumber, position by position. */
  lemma {:induction false} RenumberIndex(ss: seq<SensorState>, j: nat)
    requires j < |ss|
    ensures Renumber(ss)[j] == Numbered(ss, j)
    decreases |ss|
  {
    var front := ss[..|ss| - 1];
    if j < |ss| - 1 {
      RenumberIndex(front, j);
      assert front[..j] == ss[..j];
    } else {
      assert front == ss[..j];
    }
  }

  /** Same kinds and rigid numbers, position by position. */
  predicate SameNumbering(a: seq<SensorState>, b: seq<SensorState>)
  {
    |a| == |b| && forall i :: 0 <= i < |a| ==> a[i].isRigid == b[i].isRigid && a[i].rigidNumber == b[i].rigidNumber
  }

  /** The rigid count and numbering depend on nothing but kinds and rigid numbers. */
  lemma {:induction false} SameNumberingCount(a: seq<SensorState>, b: seq<SensorState>)
    requires SameNumbering(a, b)
    ensures CountRigid(a) == CountRigid(b)
    decreases |a|
  {
    if a != [] {
      SameNumberingCount(a[..|a| - 1], b[..|b| - 1]);
    }
  }

  lemma SameNumberingKeeps(a: seq<SensorState>, b: seq<SensorState>)
    requires SameNumbering(a, b)
    ensures CountRigid(a) == CountRigid(b)
    ensures RigidNumbered(a) <==> RigidNumbered(b)
  {
    SameNumberingCount(a, b);
    forall i | 0 <= i <= |a|
      ensures CountRigid(a[..i]) == CountRigid(b[..i])
    {
      SameNumberingCount(a[..i], b[..i]);
    }
  }

  /** Renumbering touches nothing but rigidNumber, and so keeps the count of rigids. */
  lemma {:induction false} RenumberKeepsKinds(ss: seq<SensorState>)
    ensures var r := Renumber(ss);
      CountRigid(r) == CountRigid(ss) &&
      forall i :: 0 <= i < |ss| ==> r[i] == ss[i].(rigidNumber := r[i].rigidNumber)
    decreases |ss|
  {
    if ss != [] {
      var front := ss[..|ss| - 1];
      var r := Renumber(ss);
      RenumberKeepsKinds(front);
      assert r[..|r| - 1] == Renumber(front);
    }
  }

  /** After renumbering every rigid sensor is numbered 0, 1, ... in list order. */
  lemma {:induction false} RenumberNumbers(ss: seq<SensorState>)
    ensures RigidNumbered(Renumber(ss))
    decreases |ss|
  {
    if ss != [] {
      var front := ss[..|ss| - 1];
      var r := Renumber(ss);
      RenumberNumbers(front);
      RenumberKeepsKinds(front);
      assert r[..|r| - 1] == Renumber(front);
      forall i | 0 <= i < |ss| && r[i].isRigid
        ensures r[i].rigidNumber == CountRigid(r[..i])
      {
        if i < |ss| - 1 {
          assert r[..i] == Renumber(front)[..i];
        } else {
          assert r[..i] == Renumber(front);
        }
      }
    }
  }

  /** Renumbering touches nothing but rigidNumber, keeps the count of rigids, and leaves
      every rigid sensor numbered 0, 1, ... in list order. */
  lemma RenumberMeaning(ss: seq<SensorState>)
    ensures var r := Renumber(ss);
      CountRigid(r) == CountRigid(ss) && RigidNumbered(r) &&
      forall i :: 0 <= i < |ss| ==> r[i] == ss[i].(rigidNumber := r[i].rigidNumber)
  {
    RenumberKeepsKinds(ss);
    RenumberNumbers(ss);
  }

  /** A prefix holds no more rigids than the whole, and fewer when a rigid follows it. */
  lemma {:induction false} CountRigidPrefix(ss: seq<SensorState>, i: nat)
    requires i < |ss|
    ensures CountRigid(ss[..i]) + (if ss[i].isRigid then 1 else 0) <= CountRigid(ss)
    decreases |ss|
  {
    if i < |ss| - 1 {
      var front := ss[..|ss| - 1];
      assert front[..i] == ss[..i];
      CountRigidPrefix(front, i);
    } else {
      assert ss[..i] == ss[..|ss| - 1];
    }
  }

  /** Under a correct numbering a rigid sensor's rigidNumber indexes a rigid buffer of
      CountRigid entries. */
  lemma RigidNumberInRange(ss: seq<SensorState>, i: nat)
    requires RigidNumbered(ss) && i < |ss| && ss[i].isRigid
    ensures 0 <= ss[i].rigidNumber < CountRigid(ss)
  {
    CountRigidPrefix(ss, i);
  }

  /** The registry invariant: sensors sit at their tracker ids, USED_MARKER is exactly the
      set of registered markers, each held once and below MARKER_COUNT <= MAX_MARKER_COUNT,
      and RIGID_COUNT and every rigidNumber agree with the list. */
  predicate Registered(ss: seq<SensorState>, used: set<int>, markerCount: int, rigidCount: int)
  {
    Shaped(ss) && MarkersUnique(ss) && used == AllMarkers(ss) &&
    0 <= markerCount <= MAX_MARKER_COUNT && (forall m :: m in used ==> 0 <= m < markerCount) &&
    rigidCount == CountRigid(ss) && RigidNumbered(ss)
  }

  /** Same ids, markers and buffer sizes, position by position. */
  predicate SameMarkers(a: seq<SensorState>, b: seq<SensorState>)
  {
    |a| == |b| &&
    forall i :: 0 <= i < |a| ==>
      a[i].trackerID == b[i].trackerID && a[i].markers == b[i].markers &&
      |a[i].lastGood| == |b[i].lastGood| && |a[i].data| == |b[i].data|
  }

  lemma SameMarkersKeeps(a: seq<SensorState>, b: seq<SensorState>)
    requires SameMarkers(a, b)
    ensures Shaped(a) == Shaped(b) && MarkersUnique(a) == MarkersUnique(b) && AllMarkers(a) == AllMarkers(b)
  {
    forall m | m in AllMarkers(a)
      ensures m in AllMarkers(b)
    {
      var i :| 0 <= i < |a| && m in a[i].markers;
      InAllMarkers(b, i, m);
    }
    forall m | m in AllMarkers(b)
      ensures m in AllMarkers(a)
    {
      var i :| 0 <= i < |b| && m in b[i].markers;
      InAllMarkers(a, i, m);
    }
  }

  /** Same markers, kinds and rigid numbers: the registry invariant carries over. */
  predicate SameLayout(a: seq<SensorState>, b: seq<SensorState>)
  {
    SameMarkers(a, b) && SameNumbering(a, b)
  }

  lemma SameLayoutKeeps(a: seq<SensorState>, b: seq<SensorState>, used: set<int>, markerCount: int, rigidCount: int)
    requires SameLayout(a, b) && Registered(b, used, markerCount, rigidCount)
    ensures Registered(a, used, markerCount, rigidCount)
  {
    SameMarkersKeeps(a, b);
    SameNumberingKeeps(a, b);
  }

  /** Changing one sensor's kind and renumbering (what set-rigid and set-point do) keeps the
      registry invariant, with RIGID_COUNT the new number of rigids; no sensor's markers or
      started flag change. */
  lemma RekindKeeps(ss: seq<SensorState>, used: set<int>, markerCount: int, rigidCount: int, id: nat, rigid: bool)
    requires Registered(ss, used, markerCount, rigidCount) && id < |ss|
    ensures var t := ss[id := ss[id].(isRigid := rigid, needsInitialization := true)];
      var r := Renumber(t);
      Registered(r, used, markerCount, CountRigid(t)) &&
      forall i :: 0 <= i < |ss| ==> r[i].isStarted == ss[i].isStarted && r[i].markers == ss[i].markers
  {
    var t := ss[id := ss[id].(isRigid := rigid, needsInitialization := true)];
    var r := Renumber(t);
    RenumberMeaning(t);
    forall i | 0 <= i < |ss|
      ensures r[i].isStarted == ss[i].isStarted && r[i].trackerID == ss[i].trackerID && r[i].markers == ss[i].markers
      ensures |r[i].lastGood| == |ss[i].lastGood| && |r[i].data| == |ss[i].data|
    {
      assert r[i] == t[i].(rigidNumber := r[i].rigidNumber);
    }
    assert SameMarkers(r, ss);
    SameMarkersKeeps(r, ss);
  }

  /** Appending a sensor with no markers at the next index keeps the registry invariant. */
  lemma AppendKeeps(ss: seq<SensorState>, used: set<int>, markerCount: int, rigidCount: int)
    requires Registered(ss, used, markerCount, rigidCount)
    ensures Registered(ss + [NewSensor(|ss|)], used, markerCount, rigidCount)
  {
    var r := ss + [NewSensor(|ss|)];
    assert r[..|ss|] == ss;
    assert CountRigid(r) == CountRigid(ss);
    assert RigidNumbered(r) by {
      forall i | 0 <= i < |r| && r[i].isRigid
        ensures r[i].rigidNumber == CountRigid(r[..i])
      {
        assert r[..i] == ss[..i];
      }
    }
    assert MarkersUnique(r) by {
      forall i, j, a, b |
        0 <= i < |r| && 0 <= j < |r| && 0 <= a < |r[i].markers| && 0 <= b < |r[j].markers| &&
        r[i].markers[a] == r[j].markers[b]
        ensures i == j && a == b
      {
        assert i < |ss| && j < |ss|;
      }
    }
    forall m | m in AllMarkers(r)
      ensures m in AllMarkers(ss)
    {
      var i :| 0 <= i < |r| && m in r[i].markers;
      InAllMarkers(ss, i, m);
    }
    forall m | m in AllMarkers(ss)
      ensures m in AllMarkers(r)
    {
      var i :| 0 <= i < |ss| && m in ss[i].markers;
      InAllMarkers(r, i, m);
    }
  }

  /** Every registered marker is an index into a buffer of markerCount entries. */
  lemma MarkerInRange(ss: seq<SensorState>, used: set<int>, markerCount: int, rigidCount: int, i: nat, a: nat)
    requires Registered(ss, used, markerCount, rigidCount) && i < |ss| && a < |ss[i].markers|
    ensures 0 <= ss[i].markers[a] < markerCount <= MAX_MARKER_COUNT
  {
    InAllMarkers(ss, i, ss[i].markers[a]);
  }

  /** Why a command was refused (the source only logs it). */
  datatype Refusal = SessionStarted | SensorStarted | MarkerOutOfRange | MarkerInUse | TooFewMarkers

  /** The guard of add-marker as main.cpp:730-746 writes it: the sensor must not be started,
      the rounded argument must be a marker id and the id must be free. */
  function AddMarkerAsWritten(sensorStarted: bool, x: real, used: set<int>): (r: Option<Refusal>)
    ensures r.None? <==> !sensorStarted && -1.5 < x < 127.5 && RoundArg(x) !in used
    ensures r.None? ==> 0 <= RoundArg(x) < MAX_MARKER_COUNT
  {
    RoundArgInRange(x);
    var marker := RoundArg(x);
    if sensorStarted then Some(SensorStarted)
    else if marker < 0 || marker >= MAX_MARKER_COUNT then Some(MarkerOutOfRange)
    else if marker in used then Some(MarkerInUse)
    else None
  }

  /** The guard this model uses: as written, and also refused once the session is started,
      since the marker buffers are sized at session start. */
  function AddMarkerCheck(sessionStarted: bool, sensorStarted: bool, x: real, used: set<int>): (r: Option<Refusal>)
    ensures r.None? <==> !sessionStarted && !sensorStarted && -1.5 < x < 127.5 && RoundArg(x) !in used
    ensures r.None? ==> 0 <= RoundArg(x) < MAX_MARKER_COUNT
  {
    if sessionStarted then Some(SessionStarted) else AddMarkerAsWritten(sensorStarted, x, used)
  }

  /** The largest marker id registered, plus one (MARKER_COUNT after an accepted add). */
  function GrownCount(markerCount: int, marker: int): (r: int)
    ensures r >= markerCount && r > marker && (r == markerCount || r == marker + 1)
  {
    if markerCount >= marker + 1 then markerCount else marker + 1
  }

  lemma InAllMarkers(ss: seq<SensorState>, i: nat, m: int)
    requires i < |ss| && m in ss[i].markers
    ensures m in AllMarkers(ss)
  {
    assert exists i', m' :: 0 <= i' < |ss| && m' in ss[i'].markers && m' == m by {
      assert 0 <= i < |ss| && m in ss[i].markers;
    }
  }

  /** Registering a fresh marker with one sensor: the set of markers grows by exactly that
      id, and ids stay unique. */
  lemma AddMarkerKeepsUnique(ss: seq<SensorState>, id: nat, marker: int)
    requires id < |ss| && MarkersUnique(ss) && marker !in AllMarkers(ss)
    ensures var r := ss[id := ss[id].(markers := ss[id].markers + [marker])];
      MarkersUnique(r) && AllMarkers(r) == AllMarkers(ss) + {marker}
  {
    var r := ss[id := ss[id].(markers := ss[id].markers + [marker])];
    forall i, a | 0 <= i < |ss| && 0 <= a < |ss[i].markers|
      ensures ss[i].markers[a] != marker
    {
      InAllMarkers(ss, i, ss[i].markers[a]);
    }
    forall m | m in AllMarkers(r)
      ensures m in AllMarkers(ss) + {marker}
    {
      var i :| 0 <= i < |r| && m in r[i].markers;
      if m != marker {
        InAllMarkers(ss, i, m);
      }
    }
    InAllMarkers(r, id, marker);
    forall m | m in AllMarkers(ss)
      ensures m in AllMarkers(r)
    {
      var i :| 0 <= i < |ss| && m in ss[i].markers;
      InAllMarkers(r, i, m);
    }
  }

  /** Adding a free marker id below MAX_MARKER_COUNT to one sensor keeps the registry
      invariant, with the id added to USED_MARKER and MARKER_COUNT grown to cover it. */
  lemma AddMarkerKeeps(ss: seq<SensorState>, used: set<int>, markerCount: int, rigidCount: int, id: nat, marker: int)
    requires Registered(ss, used, markerCount, rigidCount) && id < |ss|
    requires 0 <= marker < MAX_MARKER_COUNT && marker !in used
    ensures var r := ss[id := ss[id].(markers := ss[id].markers + [marker])];
      Registered(r, used + {marker}, GrownCount(markerCount, marker), rigidCount) &&
      forall i :: 0 <= i < |ss| ==> r[i].isStarted == ss[i].isStarted && |r[i].markers| >= |ss[i].markers|
  {
    var r := ss[id := ss[id].(markers := ss[id].markers + [marker])];
    AddMarkerKeepsUnique(ss, id, marker);
    assert SameNumbering(r, ss);
    SameNumberingKeeps(r, ss);
  }

  /** Set-point as main.cpp:763-773 writes it: a started sensor is refused; otherwise the
      kind changes and the sensor waits for initialisation, but the rigids are not
      renumbered. */
  function SetPointAsWritten(ss: seq<SensorState>, id: nat): (r: seq<SensorState>)
    requires id < |ss|
    ensures |r| == |ss| && forall i :: 0 <= i < |ss| && i != id ==> r[i] == ss[i]
    ensures ss[id].isStarted ==> r == ss
    ensures !ss[id].isStarted ==>
      !r[id].isRigid && r[id].needsInitialization &&
      r[id] == ss[id].(isRigid := r[id].isRigid, needsInitialization := r[id].needsInitialization)
  {
    if ss[id].isStarted then ss else ss[id := ss[id].(isRigid := false, needsInitialization := true)]
  }

  /** Two rigids numbered 0 and 1: turning the first into a point as written leaves one rigid
      while RIGID_COUNT stays 2 and the second keeps rigidNumber 1. Renumbering, as the model's
      set-point does, gives it number 0 and a count of 1. */
  lemma SetPointLeavesStaleNumbers()
    ensures var a := NewSensor(0).(markers := [0, 1, 2], isRigid := true, rigidNumber := 0);
      var b := NewSensor(1).(markers := [3, 4, 5], isRigid := true, rigidNumber := 1);
      var w := SetPointAsWritten([a, b], 0);
      RigidNumbered([a, b]) && CountRigid([a, b]) == 2 &&
      CountRigid(w) == 1 && w[1].rigidNumber == 1 && !RigidNumbered(w) &&
      RigidNumbered(Renumber(w)) && CountRigid(Renumber(w)) == 1 && Renumber(w)[1].rigidNumber == 0
  {
    var a := NewSensor(0).(markers := [0, 1, 2], isRigid := true, rigidNumber := 0);
    var b := NewSensor(1).(markers := [3, 4, 5], isRigid := true, rigidNumber := 1);
    var w := SetPointAsWritten([a, b], 0);
    assert [a, b][..1] == [a] && [a, b][..0] == [];
    assert w[..1] == [w[0]] && w[..0] == [];
    assert CountRigid(w[..1]) == 0;
    RenumberMeaning(w);
  }

  /** After the session has started, a sensor that is not started still takes a new marker as
      main.cpp:730-746 is written: with marker 3 registered (so MARKER_COUNT, and the marker
      buffer allocated at start, is 4) marker 10 is accepted and MARKER_COUNT becomes 11. The
      guard this model uses refuses it. */
  lemma AddAfterStartOutgrowsBuffer()
    ensures AddMarkerAsWritten(NewSensor(1).isStarted, 10.0, {3}) == None
    ensures GrownCount(GrownCount(0, 3), RoundArg(10.0)) == 11 > GrownCount(0, 3) == 4
    ensures AddMarkerCheck(true, NewSensor(1).isStarted, 10.0, {3}) == Some(SessionStarted)
  {
    assert RoundArg(10.0) == 10;
  }

  /** After the session has started, command 6 as main.cpp:747-762 is written checks only the
      sensor's own isStarted. Point P (three markers, never started) before rigid R (started as
      rigid 0, so RIGID_COUNT and the rigid buffer allocated at start hold 1): making P rigid
      renumbers R to 1 and RIGID_COUNT to 2, so R then reads slot 1 of a one-slot buffer. The
      model's command 6 refuses once the session has started. */
  lemma RigidAfterStartOutgrowsBuffer()
    ensures var p := NewSensor(0).(markers := [0, 1, 2]);
      var r := NewSensor(1).(markers := [3, 4, 5], isRigid := true, isStarted := true);
      var w := Renumber([p, r][0 := p.(isRigid := true, needsInitialization := true)]);
      RigidNumbered([p, r]) && CountRigid([p, r]) == 1 &&
      w[1].isStarted && w[1].isRigid && w[1].rigidNumber == 1 && CountRigid(w) == 2
  {
    var p := NewSensor(0).(markers := [0, 1, 2]);
    var r := NewSensor(1).(markers := [3, 4, 5], isRigid := true, isStarted := true);
    var v := [p, r][0 := p.(isRigid := true, needsInitialization := true)];
    assert [p, r][..1] == [p] && [p, r][..0] == [];
    assert v[..1] == [v[0]] && v[..2] == v;
    assert CountRigid(v[..1]) == 1;
    RenumberMeaning(v);
    RenumberNumbers(v);
  }

  /** The same scenario for the renumbering command 7 of this model: rigid A (never started,
      rigid 0) before rigid B (started as rigid 1). Making A a point and renumbering moves B,
      while it streams, from the slot it was started with to slot 0. This is why the model's
      command 7 is refused once the session has started. */
  lemma PointAfterStartMovesNumbers()
    ensures var a := NewSensor(0).(markers := [0, 1, 2], isRigid := true);
      var b := NewSensor(1).(markers := [3, 4, 5], isRigid := true, isStarted := true, rigidNumber := 1);
      var w := Renumber([a, b][0 := a.(isRigid := false, needsInitialization := true)]);
      RigidNumbered([a, b]) && w[1].isStarted && w[1].isRigid && w[1].rigidNumber == 0 != b.rigidNumber
  {
    var a := NewSensor(0).(markers := [0, 1, 2], isRigid := true);
    var b := NewSensor(1).(markers := [3, 4, 5], isRigid := true, isStarted := true, rigidNumber := 1);
    var v := [a, b][0 := a.(isRigid := false, needsInitialization := true)];
    assert [a, b][..1] == [a] && [a, b][..0] == [];
    assert v[..1] == [v[0]];
    assert CountRigid(v[..1]) == 0;
    RenumberMeaning(v);
  }
}
