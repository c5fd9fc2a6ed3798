# PhaseSpace sensor plugin for Vizard — a Dafny model

`main.cpp` is a Vizard sensor plugin that exposes PhaseSpace motion-capture markers and rigid
bodies as Vizard sensors. This project models it in Dafny and proves properties of that model.

The host calls four entry points:

- **InitializeSensor** registers a sensor.
- **CommandSensor** configures it: markers, kind, scale, offset, origin reset, server,
  frequency, flags, session start and recording.
- **UpdateSensor** copies each started sensor's last good pose into the seven values the
  host reads.
- **CloseSensor** shuts down. It is not modelled.

The session start (command 8):

- initialises the backend;
- allocates the marker and rigid buffers at the counts reached;
- brings every pending sensor up (a rigid body is calibrated by averaging its markers);
- starts the read thread. Each iteration of that thread polls both buffers and updates
  every started sensor in list order.

Modules, one file each:

- `types.dfy` (`Types`): the constants of main.cpp, 3D vectors, backend samples, and C's
  float-to-int truncation.
- `transform.dfy` (`Transform`): the coordinate and quaternion convention between backend
  poses and what the host reads.
- `registry.dfy` (`Registry`): the list of sensors (ALL_SENSORS), the markers each owns
  (USED_MARKER, MARKER_COUNT), and the rigid numbering (UpdateRigidCount, RIGID_COUNT).
  It holds the invariant `Registered` that ties them together, and the as-written forms of
  the findings below.
- `calibration.dfy` (`Calibration`): CreateRigidLocations' flush, its per-marker averaging
  loop with the 10-sample and 1000-trial bounds, and the re-expression relative to marker 0.
- `setup.dfy` (`Setup`): what SetUpSensor does to one sensor and to STREAMING, and the
  initialisation pass of StartServer.
- `acquisition.dfy` (`Acquisition`): one read-thread iteration, as functions over a snapshot
  of the backend buffers. It covers the one-shot origin reset, recording, and the lastGood
  rules.
- `plugin.dfy` (`PhaseSpace`): the global state as a class `Plugin`, with one method per
  entry point and per command. Each method is proved against the functions above.

`Plugin.Valid` is the invariant every entry point keeps:

- the registry invariant holds;
- streaming and the read thread imply a started session;
- once started, the buffers hold exactly MARKER_COUNT and RIGID_COUNT entries;
- a started sensor has markers.

Together with `RegisteredReadable`, this makes every buffer read of the read thread in
bounds.

Backend calls (`owl*`) are inputs, not code:

- `MarkerPoll` sequences for calibration;
- a `Snapshot` of the two buffers for one read-thread iteration, with the record's time
  stamp and TTL bit;
- `SetupInput` and `StartInput` for the statuses owlGetStatus reports.

The OWL_SLAVE bit mask and OWL_MAX_FREQUENCY come from the backend's header, which is not
part of this model. They are constructor parameters of `Plugin`.

## Model

| member | source | states |
|---|---|---|
| Types.Truncate | main.cpp:736 | `int(x)` truncates toward zero: the result is within one of x, on x's side of zero |
| Types.RoundArgInRange | main.cpp:736-737 | `int(x+0.5)` is a marker id in [0, 128) exactly when -1.5 < x < 127.5 |
| Transform.PositionRoundTrip | main.cpp:578-580 | with non-zero scales the host position determines the backend position and back: both round trips are the identity |
| Transform.DefaultPositionFlipsX | main.cpp:578-580 | under the initial scale 1 and offset 0 the host sees the backend position with x negated |
| Transform.NegatedOffsetIsOrigin | main.cpp:625-630 | an offset equal to the negated position puts that position at the host origin for any scale |
| Transform.QuaternionRoundTrip | main.cpp:581-584 | the quaternion relabelling (-qx, qy, qz, -qw) loses nothing and keeps the norm |
| Transform.IdentityOrientation | main.cpp:581-584 | the backend identity orientation is read as (0, 0, 0, -1) |
| Transform.Output | main.cpp:576-593 | the data field written for a started sensor has seven values |
| Registry.RenumberIndex | main.cpp:237-245 | after UpdateRigidCount, sensor j is numbered by the rigids before it if rigid and untouched otherwise |
| Registry.RenumberKeepsKinds | main.cpp:237-245 | UpdateRigidCount changes only rigidNumber and keeps the number of rigids |
| Registry.RenumberNumbers | main.cpp:237-245 | after UpdateRigidCount the rigids are numbered 0, 1, ... in list order |
| Registry.RenumberMeaning | main.cpp:237-245 | both of the above together |
| Registry.RigidNumberInRange | main.cpp:622 | under a correct numbering a rigid's rigidNumber indexes a rigid buffer of RIGID_COUNT entries |
| Registry.RekindKeeps | main.cpp:755-758 | changing a sensor's kind and renumbering keeps the registry invariant, with RIGID_COUNT the new number of rigids |
| Registry.AppendKeeps | main.cpp:528-538 | appending a marker-less sensor at the next index keeps the registry invariant |
| Registry.MarkerInRange | main.cpp:654 | every registered marker indexes a marker buffer of MARKER_COUNT <= 128 entries |
| Registry.AddMarkerAsWritten | main.cpp:730-746 | the add-marker guard as written accepts exactly when the sensor is not started, the rounded id is in [0, 128) and no sensor holds it |
| Registry.AddMarkerCheck | main.cpp:730-746 | the guard as written plus a refusal once the session is started (both directions) |
| Registry.GrownCount | main.cpp:743 | MARKER_COUNT after an accepted add covers the new id and is either the old count or the id plus one |
| Registry.AddMarkerKeepsUnique | main.cpp:739-744 | adding a free id keeps marker ids unique and grows the set of used ids by exactly that id |
| Registry.AddMarkerKeeps | main.cpp:742-744 | adding a free id below 128 keeps the registry invariant, with USED_MARKER and MARKER_COUNT updated |
| Registry.SetPointAsWritten | main.cpp:763-773 | command 7 as written: a started sensor is refused and nothing changes; otherwise the sensor becomes a point waiting for initialisation, and no other field or sensor changes (no renumbering) |
| Registry.SetPointLeavesStaleNumbers | main.cpp:771-772 | command 7 as written leaves RIGID_COUNT and a later rigid's number stale; renumbering repairs both |
| Registry.AddAfterStartOutgrowsBuffer | main.cpp:730-746 | after start, command 5 as written grows MARKER_COUNT from 4 to 11 past the buffer allocated at main.cpp:464; the model's guard refuses it |
| Registry.RigidAfterStartOutgrowsBuffer | main.cpp:747-762 | after start, command 6 as written on a point that never started, listed before a started rigid, renumbers that rigid to 1 and makes RIGID_COUNT 2, past the one-slot buffer allocated at main.cpp:465 |
| Registry.PointAfterStartMovesNumbers | main.cpp:763-773 | with the renumbering the model adds to command 7, using it after start would move a started rigid from rigid number 1 to 0 while it streams |
| Calibration.Average | main.cpp:285-301 | the averaging loop stops within the input with at most 10 samples and 1000 trials, and only when its condition fails |
| Calibration.TallySum | main.cpp:286-300 | reading polls adds exactly the sum of their accepted samples |
| Calibration.TallyCount | main.cpp:288-292 | reading polls adds exactly their accepted samples to count |
| Calibration.TallyTrial | main.cpp:287-299 | reading polls adds exactly their polls with data to trial |
| Calibration.AverageTally | main.cpp:285-301 | the loop's totals are those of the polls it consumed, and every earlier prefix still satisfies the loop condition |
| Calibration.FinishedTotals | main.cpp:285-301 | a finished loop summed and counted exactly the accepted samples and the polls with data it consumed |
| Calibration.SuccessIsMeanOfAccepted | main.cpp:302-306 | at most one sample per trial; on success exactly 10 samples were accepted, so dividing by the constant 10 is dividing by the accepted count |
| Calibration.SkipBlind | main.cpp:287-299 | polls that do not see the marker confidently only use up trials |
| Calibration.Steady | main.cpp:287-301 | polls that all see the marker at v complete the missing samples, adding v once each |
| Calibration.BlindThenSteady | main.cpp:301-302 | b blind polls then ten good ones give the true position; the marker succeeds exactly when b < 990, so a tenth sample at trial 1000 is a failure |
| Calibration.BlindExhausts | main.cpp:301-309 | a marker never seen confidently fails after exactly 1000 polls with data |
| Calibration.AverageMarker | main.cpp:283-301 | the do-while loop computes Average |
| Calibration.Drained | main.cpp:274 | the flush stops right after the first poll with n <= 0 and skips only polls with data |
| Calibration.Drain | main.cpp:274 | the flush loop computes Drained |
| Calibration.MarkerMeans | main.cpp:277-311 | the marker loop pushes at most one mean per marker and is complete exactly when it pushed all of them |
| Calibration.Relative | main.cpp:314-321 | the re-expressed geometry has the same length and marker 0 at the origin |
| Calibration.Geometry | main.cpp:249-330 | CreateRigidLocations' result: complete exactly when it has one point per marker, with marker 0 at the origin |
| Calibration.CompleteMeans | main.cpp:277-306 | when the marker loop completes, marker i's loop read its own window of polls, right after the previous marker's. It succeeded there with exactly 10 accepted samples, and its mean is their sum divided by 10 |
| Calibration.GeometryMeans | main.cpp:272-321 | a complete calibration puts marker 0 at the origin. Every other marker gets the mean of its accepted samples over its window, minus marker 0's mean |
| Calibration.SteadyMeans | main.cpp:277-311 | against a steady backend every marker takes ten polls and its mean is its position |
| Calibration.SteadyCalibration | main.cpp:249-330 | against a steady backend the geometry is each marker's position minus marker 0's, and marker 0's is zero |
| Calibration.AverageMarkers | main.cpp:277-311 | the marker loop, with its early returns, computes MarkerMeans |
| Calibration.MakeRelative | main.cpp:314-321 | the in-place loop subtracts marker 0 from every later point, then zeroes marker 0 |
| Calibration.Calibrate | main.cpp:263-321 | flush, marker loop and re-expression together compute Geometry |
| Setup.BringUp | main.cpp:335-448 | SetUpSensor changes only isStarted, needsInitialization, status and rigidBodyDefinition. The sensor starts exactly when it has markers and (slave, or calibration and every backend step succeed). Outside slave mode, a started rigid has a definition of one point per marker with marker 0 at the origin. A sensor with markers that does not start has status false. Only an enable failure leaves it waiting |
| Setup.ShortCalibrationLeavesInert | main.cpp:379-385 | a rigid whose calibration comes back short is neither started nor waiting, and has status false |
| Setup.EnableFailureKeepsPending | main.cpp:420-424 | a failed tracker enable clears status but leaves needsInitialization as it was |
| Setup.BringUpKeeps | main.cpp:335-448 | set-up keeps the registry invariant, and a sensor it starts has markers |
| Setup.StreamingAfter | main.cpp:353-442 | STREAMING after set-up is on whenever the sensor comes up, and unchanged for a sensor without markers |
| Setup.BringUpAll | main.cpp:471-478 | the initialisation pass keeps the number of sensors |
| Setup.BringUpAllOutcome | main.cpp:471-478 | after the pass each waiting sensor is started with markers, inert, or still waiting because its enable failed; the others are untouched |
| Acquisition.Overwritten | main.cpp:644-674 | the new lastGood starts with the sample's position; a rigid stores its whole pose, a point only x, y, z and keeps its other four values |
| Acquisition.StepUpTo | main.cpp:618-678 | updating the first k sensors keeps scale and origin id and leaves the later sensors alone |
| Acquisition.StepUpToSetup | main.cpp:618-678 | an iteration changes no sensor field but record, samples and lastGood |
| Acquisition.Acquire | main.cpp:610-679 | one iteration keeps the number of sensors and changes only records, samples and last good poses |
| Acquisition.StepSensorRule | main.cpp:619-677 | per sensor: a sensor that does not fire is untouched. On firing, samples grows and lastGood is overwritten exactly on a confident sample. While recording it appends one entry: the iteration's time and TTL, the position as read under the offset after a possible reset, and for a rigid the relabelled orientation |
| Acquisition.StepSensorReset | main.cpp:625-630 | the offset and request change only when the request names this sensor and it fires; the offset is then its negated position and its record lies at the origin |
| Acquisition.PointKeepsOrientationSlots | main.cpp:671-673 | a point sensor never writes lastGood[3..6] |
| Acquisition.StepUpToAt | main.cpp:618-678 | sensor j ends up as its own update under the globals left by the sensors before it |
| Acquisition.NoRequestKeepsGlobals | main.cpp:625 | without a pending request an iteration leaves the globals alone |
| Acquisition.BeforeOriginKeepsGlobals | main.cpp:625 | sensors before the origin sensor leave the globals alone |
| Acquisition.AfterOriginKeepsGlobals | main.cpp:655 | sensors after the origin sensor see the globals it left |
| Acquisition.OriginReset | main.cpp:625-660 | over one iteration the reset fires exactly when it is pending and its sensor fires: offset := negated sample position, request cleared, record at the origin; otherwise the globals are untouched |
| Acquisition.AcquireRule | main.cpp:631-674 | per sensor over one iteration: lastGood and samples follow the confident-sample rule. While recording it appends exactly its entry, under the offset in force once its own update ran. A sensor that does not fire is untouched |
| Acquisition.Run | main.cpp:602-685 | any number of iterations changes only records, samples and last good poses |
| Acquisition.StaleSurvives | main.cpp:644-674 | without a confident sample a sensor's last good pose and sample count survive any number of iterations |
| Acquisition.OffsetSettles | main.cpp:625-629 | once no request is pending the globals never change again |
| Acquisition.RegisteredReadable | main.cpp:622-654 | under the registry invariant and buffers of the sizes allocated at start, every started sensor's read is in bounds |
| Acquisition.AcquireKeepsLayout | main.cpp:618-678 | an iteration changes no sensor's markers, kind, number or started flag |
| Acquisition.PointScenario | main.cpp:651-675 | a point on marker 5 seen at (1, 2, 3) reads as (-1, 2, 3) with the identity orientation |
| PhaseSpace.FlagsOf | main.cpp:806 | LOCAL_FLAGS is `int(x+0.5)` converted to size_t, taken to be 64 bits: kept when non-negative, plus 2^64 when negative |
| PhaseSpace.CoversBits | main.cpp:807 | the slave test `(f & mask) == mask` holds exactly when every binary digit set in the mask is set in the flags |
| PhaseSpace.Shown | main.cpp:574-595 | UpdateSensor sets a started sensor's data to Output of its last good pose and changes nothing else |
| PhaseSpace.ShownKeeps | main.cpp:574-595 | writing data keeps the registry invariant and the started flags |
| PhaseSpace.SensorData | main.cpp:576-593 | the seven assignments compute Output |
| PhaseSpace.Plugin.constructor | main.cpp:43-97 | the load-time state: no sensors or markers, scale 1, offset 0, no request, not started, frequency OWL_MAX_FREQUENCY, flags 0 |
| PhaseSpace.Plugin.SetOwlStreaming | main.cpp:219-234 | before start nothing changes; afterwards STREAMING becomes b, and the backend is told exactly when the state changes |
| PhaseSpace.Plugin.UpdateRigidCount | main.cpp:237-245 | the loop leaves the sensors Renumber'd and RIGID_COUNT the number of rigids |
| PhaseSpace.Plugin.InitializeSensor | main.cpp:504-543 | refused after start; otherwise a fresh zeroed sensor is appended with its index as tracker id and returned id; the invariant is kept |
| PhaseSpace.Plugin.SetScale | main.cpp:720-722 | command 2 sets the scale and nothing else |
| PhaseSpace.Plugin.SetOffset | main.cpp:723-725 | command 3 sets the offset and nothing else |
| PhaseSpace.Plugin.RequestOriginReset | main.cpp:726-729 | command 4 sets the request and ORIGIN_ID |
| PhaseSpace.Plugin.SetServer | main.cpp:782-790 | command 9 sets the server only before start |
| PhaseSpace.Plugin.SetFrequency | main.cpp:791-802 | command 10 is accepted exactly before start with 0 < x <= 960, and then sets the frequency |
| PhaseSpace.Plugin.SetFlags | main.cpp:803-845 | command 11 sets FlagsOf(x) only before start |
| PhaseSpace.Plugin.AddMarker | main.cpp:730-746 | command 5: the refusal is AddMarkerCheck. On acceptance the id is appended to the sensor and USED_MARKER and MARKER_COUNT grow; on refusal nothing changes. The invariant is kept |
| PhaseSpace.Plugin.SetRigid | main.cpp:747-762 | command 6: refused for a started sensor or with fewer than three markers, and (Finding 3) after start. Otherwise the sensor becomes rigid and pending and every rigid is renumbered |
| PhaseSpace.Plugin.SetPoint | main.cpp:763-773 | command 7: refused for a started sensor and, in this model, after start. Otherwise the sensor becomes a pending point and (Finding 2) the rigids are renumbered |
| PhaseSpace.Plugin.StartRecording | main.cpp:848-857 | command 100 empties the record and sets requestRecording |
| PhaseSpace.Plugin.StopRecording | main.cpp:858-864 | command 101 clears requestRecording and keeps the record |
| PhaseSpace.Plugin.ClearRecording | main.cpp:869-876 | command 103 empties the record and keeps requestRecording |
| PhaseSpace.Plugin.SettingCommand | main.cpp:720-845 | the setting codes 2, 3, 4, 9, 10 and 11 do what Commanded states: each sets its own value, 9 to 11 only before start, and nothing else changes |
| PhaseSpace.Plugin.MarkerCommand | main.cpp:730-746 | code 5 does what Commanded states: the marker is added exactly when AddMarkerCheck accepts it, and only the registry's marker fields change |
| PhaseSpace.Plugin.KindCommand | main.cpp:747-773 | codes 6 and 7 do what Commanded states: the kind changes and the rigids are renumbered unless refused, and only the sensors and RIGID_COUNT change |
| PhaseSpace.Plugin.StartCommand | main.cpp:774-781 | code 8 does what Commanded states: with a server set it starts the session as StartServer does, and otherwise nothing changes |
| PhaseSpace.Plugin.RecordingCommand | main.cpp:848-876 | the recording codes 100, 101 and 103; any other code leaves the sensors alone |
| PhaseSpace.Plugin.CreateRigidLocations | main.cpp:249-330 | before start the result is empty. Otherwise it is Geometry of the sensor's markers, and streaming is left on exactly when calibration fell short |
| PhaseSpace.Plugin.SetUpSensor | main.cpp:335-448 | after start the sensor becomes BringUp of itself and STREAMING becomes StreamingAfter; before start nothing changes |
| PhaseSpace.Plugin.SetUpTracker | main.cpp:359-447 | the tracker set-up past the early returns computes BringUp and StreamingAfter for a non-slave session |
| PhaseSpace.Plugin.StartServer | main.cpp:450-485 | once only, and only if the backend initialises. It allocates fresh buffers, applies the frequency in slave mode, and leaves the sensors BringUpAll'd, with streaming and the read thread on. Otherwise nothing changes |
| PhaseSpace.Plugin.SetUpPending | main.cpp:471-478 | the initialisation loop leaves the sensors BringUpAll'd and keeps the invariant |
| PhaseSpace.Plugin.AcquireStep | main.cpp:609-679 | one iteration: the buffers hold the snapshot, every read is in bounds, the sensors and globals become Acquire's, and the invariant is kept |
| PhaseSpace.Plugin.Publish | main.cpp:610-611 | the backend fills the shared buffers with the snapshot |
| PhaseSpace.Plugin.ReadAll | main.cpp:618-678 | the loop over the sensors computes StepUpTo over all of them |
| PhaseSpace.Plugin.ReadSensor | main.cpp:619-677 | one sensor's update computes StepSensor |
| PhaseSpace.Plugin.ReadRigid | main.cpp:620-650 | a started rigid's update, including the seven-value copy loop, computes StepSensor |
| PhaseSpace.Plugin.ReadPoint | main.cpp:651-676 | a started point's update computes StepSensor |
| PhaseSpace.Plugin.UpdateSensor | main.cpp:561-596 | nothing changes unless started, streaming and reading. Then every sensor becomes Shown under the current scale and offset, and the invariant is kept |
| PhaseSpace.Plugin.CommandSensor | main.cpp:694-889 | every command does what the two-state predicate Commanded states. That is each code's effect as stated for the methods above, with a refused or unknown code changing nothing. Each code changes only its own fields, and after start the counts, used ids and buffers never change, so the buffers keep matching MARKER_COUNT and RIGID_COUNT |

## Left out

- Threads and the mutex. The model has no read-thread loop or shutdown flag. UpdateSensor,
  the commands and a read-thread iteration are separate atomic steps, which is what
  block_mutex provides for the steps that take it.
- Backend calls are not modelled as code. The owl configuration calls (tracker
  create/enable/destroy, marker LEDs and positions, owlSetFloat) are summarised by the
  statuses they report. owlGetString, the TTL packet layout and the clock are folded into
  a snapshot's `ttl` and `time`. Every entry recorded in one iteration therefore carries the
  same `time`; the source reads the clock at each push (main.cpp:632, 662), so two sensors
  recorded in one iteration get slightly different times.
- Code 1 (printing a sensor), code 102 (DoDumpFile) and code 104 (clock offset) change
  nothing in the model. The same holds for QuerySensor, ResetSensor and the stream output
  operator. CloseSensor (main.cpp:891-933) is not part of this model. Final.py and
  CPrecisionClock.h are not part of this model.
- Float precision: positions and sums are reals. The 32-byte `msg` copy is not modelled,
  nor the undefined behaviour of converting an out-of-range float to int; `int(x + 0.5)`
  is exact truncation toward zero.
- A point tracker's record: the source reuses one `insert` variable, so a point's record
  carries whatever orientation the last rigid record left. The model records no
  orientation for a point.
- Calibration.Geometry: the backend's polls are a finite sequence. When they run out the
  result is `InputExhausted` and set-up treats the calibration as failed; the source
  would keep polling forever.
- PhaseSpace.Plugin.SetUpSensor and PhaseSpace.Plugin.StartServer require every set-up
  input to fill buffers of MARKER_COUNT entries, which the source's allocation guarantees.
- PhaseSpace.Plugin.CommandSensor: command 8 requires one set-up input per sensor. The
  per-code clauses for 5, 6 and 7 state the accepted case; their refusal cases are stated
  as "nothing changes".
- PhaseSpace.Plugin.SetPoint: refuses command 7 once the session has started, which
  main.cpp:763-773 accepts for a sensor not yet started. The model's command 7 renumbers
  the rigids (Finding 2), and after start that would move a started rigid off the slot it
  streams from (PointAfterStartMovesNumbers). Command 7 as written does not renumber, so
  after start it overruns nothing.
- Sensors are values in a sequence. Each SPhaseSpaceSensor is owned only by ALL_SENSORS and
  never aliased, so no heap object is needed. The host object's `status` and `data` are
  fields of that value.
- PhaseSpace.Plugin.UpdateRigidCount assigns RIGID_COUNT once at the end. The source
  counts in the global itself, which no other step can observe.
- Transform.Output: its own contract states only the length. What the seven values mean
  is stated by PositionRoundTrip, QuaternionRoundTrip and IdentityOrientation, and
  SensorData is proved to compute it.
- Setup.BringUpAll: its own contract states only the length. BringUpAllOutcome states what
  happens to each sensor.
- Calibration.MarkerMeans and Calibration.Geometry: their own contracts state the shape of
  the result. CompleteMeans and GeometryMeans state the value of every point.
- Calibration.Relative: its own contract states the length and the zero first point.
  MakeRelative states the value of every other point.
- PhaseSpace.Plugin.InitializeSensor does not model the status it writes into a host object
  that it refuses to register.
- CreateRigidLocations' clean-up (disabling and destroying the temporary tracker and freeing
  its buffer) is a backend call and is not modelled. On a failing marker the source returns
  early without turning streaming off, and the model keeps that.

Design choices where the model keeps main.cpp's own behaviour:

- The calibration mean is the sum divided by the constant 10. `SuccessIsMeanOfAccepted`
  shows that this equals the mean of the accepted samples whenever a marker succeeds.
- A failed calibration returns the partial geometry, and SetUpSensor rejects it by length.
- A failed tracker enable keeps needsInitialization.

## Findings

Findings are numbered in table order.

| source | as written | input that shows it | evidently intended | confidence | as-written member | corrected member |
|---|---|---|---|---|---|---|
| main.cpp:730-746 | command 5 after the session started is accepted for any sensor not yet started, and grows MARKER_COUNT | marker 3 registered and the session started (buffer of 4 markers); command 5 with x = 10 on a new sensor makes MARKER_COUNT 11, and the read thread's owlGetMarkers(GLOBAL_MARKERS, 11) at main.cpp:610 overruns the buffer of 4 allocated at main.cpp:464 | markers are added only before the buffers are sized at session start | not executed | Registry.AddAfterStartOutgrowsBuffer | PhaseSpace.Plugin.AddMarker |
| main.cpp:763-773 | command 7 turns a rigid into a point without calling UpdateRigidCount | two rigids numbered 0 and 1; command 7 on the first leaves RIGID_COUNT 2 and the second rigid reading slot 1 of the rigid buffer | command 7 renumbers the rigids as command 6 does | not executed | Registry.SetPointLeavesStaleNumbers | PhaseSpace.Plugin.SetPoint |
| main.cpp:747-762 | command 6 after the session started is accepted for any sensor not yet started, and renumbers every rigid | point P with three markers whose enable failed, before rigid R started as rigid 0 (RIGID_COUNT 1, buffer of 1 rigid); command 6 on P makes RIGID_COUNT 2 and R rigid 1, so owlGetRigids(GLOBAL_RIGIDS, 2) at main.cpp:611 and R's read of slot 1 overrun the buffer allocated at main.cpp:465 | a sensor changes kind only before the buffers are sized at session start | not executed | Registry.RigidAfterStartOutgrowsBuffer | PhaseSpace.Plugin.SetRigid |
