/** Rigid-body calibration (CreateRigidLocations): the geometry of a rigid body is found by
    averaging each marker's confident positions from a stream of marker polls, then taking
    every marker relative to the first one.

    The backend is a finite sequence of polls. A poll with n <= 0 brought nothing new; the
    source then simply polls again, so a sequence that runs out models a backend that stopped
    delivering, where the source would keep polling forever (status InputExhausted). */
module Calibration {
  import opened Types

  /** Every poll filled a buffer of markerCount entries, the buffer the source allocates. */
  predicate WellFormed(polls: seq<MarkerPoll>, markerCount: int)
  {
    forall k :: 0 <= k < |polls| ==> |polls[k].markers| == markerCount
  }

  /** A poll whose sample of marker `id` is summed: it brought data and the marker was seen
      with confidence above MIN_CONDITION. */
  predicate Accepted(q: MarkerPoll, id: int)
  {
    q.n > 0 && 0 <= id < |q.markers| && q.markers[id].cond > MIN_CONDITION
  }

  /** Polls of a window that count as a trial (the ones that brought data). */
  function TrialCount(w: seq<MarkerPoll>): nat
  {
    if w == [] then 0 else (if w[0].n > 0 then 1 else 0) + TrialCount(w[1..])
  }

  /** Polls of a window whose sample of `id` is accepted. */
  function AcceptedCount(w: seq<MarkerPoll>, id: int): nat
  {
    if w == [] then 0 else (if Accepted(w[0], id) then 1 else 0) + AcceptedCount(w[1..], id)
  }

  /** Sum of the accepted samples of `id` in a window. */
  function AcceptedSum(w: seq<MarkerPoll>, id: int): Vec3
  {
    if w == [] then ORIGIN
    else (if Accepted(w[0], id) then w[0].markers[id].Position() else ORIGIN).Plus(AcceptedSum(w[1..], id))
  }

  /** Running totals of one marker's averaging loop: the sum of accepted positions, the
      accepted samples (count) and the polls that brought data (trial). */
  datatype Totals = Totals(sum: Vec3, count: nat, trial: nat)
  {
    /** The condition of the do-while loop of main.cpp:285-301. */
    predicate Continues()
    {
      count < RIGID_AVERAGE_SAMPLES && trial < MAX_RIGID_AVERAGE_TRIALS
    }
  }

  const NO_SAMPLES: Totals := Totals(ORIGIN, 0, 0)

  /** The loop body of main.cpp:286-300 for one poll. */
  function Take(t: Totals, q: MarkerPoll, id: int): Totals
  {
    var hit := Accepted(q, id);
    Totals(if hit then t.sum.Plus(q.markers[id].Position()) else t.sum,
           if hit then t.count + 1 else t.count,
           if q.n > 0 then t.trial + 1 else t.trial)
  }

  /** The totals after reading the polls of w in order, starting from t. */
  function Tally(t: Totals, w: seq<MarkerPoll>, id: int): Totals
    decreases |w|
  {
    if w == [] then t else Tally(Take(t, w[0], id), w[1..], id)
  }

  /** Reading a window adds exactly the sum of its accepted samples. */
  lemma {:induction false} TallySum(t: Totals, w: seq<MarkerPoll>, id: int)
    ensures Tally(t, w, id).sum == t.sum.Plus(AcceptedSum(w, id))
    decreases |w|
  {
    if w != [] {
      var t1 := Take(t, w[0], id);
      TallySum(t1, w[1..], id);
      var a := if Accepted(w[0], id) then w[0].markers[id].Position() else ORIGIN;
      assert AcceptedSum(w, id) == a.Plus(AcceptedSum(w[1..], id));
      assert t1.sum == t.sum.Plus(a);
    }
  }

  /** Reading a window adds exactly its accepted samples to the count. */
  lemma {:induction false} TallyCount(t: Totals, w: seq<MarkerPoll>, id: int)
    ensures Tally(t, w, id).count == t.count + AcceptedCount(w, id)
    decreases |w|
  {
    if w != [] {
      TallyCount(Take(t, w[0], id), w[1..], id);
    }
  }

  /** Reading a window adds exactly its polls with data to the trials. */
  lemma {:induction false} TallyTrial(t: Totals, w: seq<MarkerPoll>, id: int)
    ensures Tally(t, w, id).trial == t.trial + TrialCount(w)
    decreases |w|
  {
    if w != [] {
      TallyTrial(Take(t, w[0], id), w[1..], id);
    }
  }

  /** Outcome of averaging one marker: the input ran out, or the loop stopped after the
      poll before `next` with these totals. */
  datatype Run = Stalled | Finished(totals: Totals, next: nat)
  {
    /** main.cpp:302: the marker succeeds when the trial budget was not used up. */
    predicate Succeeded()
    {
      Finished? && totals.trial < MAX_RIGID_AVERAGE_TRIALS
    }
  }

  /** The averaging loop of one marker, from poll p with the running totals t. */
  function Average(polls: seq<MarkerPoll>, p: nat, id: int, t: Totals): (r: Run)
    requires p <= |polls|
    requires t.count <= t.trial && t.Continues()
    ensures r.Finished? ==> p < r.next <= |polls| && r.totals.count <= r.totals.trial && !r.totals.Continues()
    ensures r.Finished? ==> r.totals.count <= RIGID_AVERAGE_SAMPLES && r.totals.trial <= MAX_RIGID_AVERAGE_TRIALS
    decreases |polls| - p
  {
    if p == |polls| then Stalled
    else
      var t' := Take(t, polls[p], id);
      if t'.Continues() then Average(polls, p + 1, id, t') else Finished(t', p + 1)
  }

  lemma SliceTail(polls: seq<MarkerPoll>, p: nat, k: nat)
    requires p < k <= |polls|
    ensures polls[p..k][0] == polls[p] && polls[p..k][1..] == polls[p + 1..k]
  {
  }

  /** The loop's totals are those of the polls it consumed, and it stops at the first poll
      after which its condition fails: every shorter prefix still satisfies it. */
  lemma {:induction false} AverageTally(polls: seq<MarkerPoll>, p: nat, id: int, t: Totals)
    requires p <= |polls|
    requires t.count <= t.trial && t.Continues()
    ensures var r := Average(polls, p, id, t);
      r.Finished? ==> r.totals == Tally(t, polls[p..r.next], id)
    ensures var r := Average(polls, p, id, t);
      forall k :: p <= k <= |polls| && (r.Stalled? || k < r.next) ==> Tally(t, polls[p..k], id).Continues()
    decreases |polls| - p
  {
    assert polls[p..p] == [];
    if p < |polls| {
      var t' := Take(t, polls[p], id);
      var r := Average(polls, p, id, t);
      if t'.Continues() {
        AverageTally(polls, p + 1, id, t');
        forall k | p < k <= |polls|
          ensures Tally(t, polls[p..k], id) == Tally(t', polls[p + 1..k], id)
        {
          SliceTail(polls, p, k);
        }
      } else {
        SliceTail(polls, p, p + 1);
        assert polls[p + 1..p + 1] == [];
      }
    }
  }

  /** A finished loop has summed exactly the accepted samples of the polls it consumed and
      counted exactly those samples and the polls that brought data. */
  lemma {:induction false} FinishedTotals(polls: seq<MarkerPoll>, p: nat, id: int, r: Run)
    requires p <= |polls| && r == Average(polls, p, id, NO_SAMPLES) && r.Finished?
    ensures r.totals.sum == AcceptedSum(polls[p..r.next], id)
    ensures r.totals.count == AcceptedCount(polls[p..r.next], id)
    ensures r.totals.trial == TrialCount(polls[p..r.next])
  {
    AverageTally(polls, p, id, NO_SAMPLES);
    var w := polls[p..r.next];
    TallySum(NO_SAMPLES, w, id);
    TallyCount(NO_SAMPLES, w, id);
    TallyTrial(NO_SAMPLES, w, id);
    assert ORIGIN.Plus(AcceptedSum(w, id)) == AcceptedSum(w, id);
  }

  /** Only accepted samples are summed, and dividing by the constant RIGID_AVERAGE_SAMPLES,
      as the source does, is dividing by the number of samples actually accepted: a marker
      that succeeds has exactly that many, never more than one per trial. */
  lemma {:induction false} SuccessIsMeanOfAccepted(polls: seq<MarkerPoll>, p: nat, id: int, r: Run)
    requires p <= |polls| && r == Average(polls, p, id, NO_SAMPLES)
    ensures r.Finished? ==> AcceptedCount(polls[p..r.next], id) <= TrialCount(polls[p..r.next])
    ensures r.Succeeded() ==>
      AcceptedCount(polls[p..r.next], id) == RIGID_AVERAGE_SAMPLES &&
      r.totals.sum.Div(RIGID_AVERAGE_SAMPLES as real) ==
        AcceptedSum(polls[p..r.next], id).Div(AcceptedCount(polls[p..r.next], id) as real)
  {
    if r.Finished? {
      FinishedTotals(polls, p, id, r);
    }
  }

  /** A poll that brought data in which marker `id` was not seen with enough confidence. */
  predicate Blind(q: MarkerPoll, id: int)
  {
    q.n > 0 && !Accepted(q, id)
  }

  /** A poll that brought data in which marker `id` was seen confidently at v. */
  predicate Sees(q: MarkerPoll, id: int, v: Vec3)
  {
    Accepted(q, id) && q.markers[id].Position() == v
  }

  /** Blind polls only use up trials. */
  lemma {:induction false} SkipBlind(polls: seq<MarkerPoll>, p: nat, id: int, t: Totals, k: nat)
    requires p + k <= |polls| && forall j :: p <= j < p + k ==> Blind(polls[j], id)
    requires t.count <= t.trial && t.Continues() && t.trial + k < MAX_RIGID_AVERAGE_TRIALS
    ensures Average(polls, p, id, t) == Average(polls, p + k, id, Totals(t.sum, t.count, t.trial + k))
    decreases k
  {
    if k > 0 {
      SkipBlind(polls, p + 1, id, Take(t, polls[p], id), k - 1);
    }
  }

  /** Polls that all see the marker at v complete the samples still missing, adding v once
      per sample. */
  lemma {:induction false} Steady(polls: seq<MarkerPoll>, p: nat, id: int, t: Totals, v: Vec3)
    requires t.count <= t.trial && t.Continues()
    requires p + (RIGID_AVERAGE_SAMPLES - t.count) <= |polls|
    requires forall j :: p <= j < p + (RIGID_AVERAGE_SAMPLES - t.count) ==> Sees(polls[j], id, v)
    requires t.trial + (RIGID_AVERAGE_SAMPLES - t.count) <= MAX_RIGID_AVERAGE_TRIALS
    ensures var k := RIGID_AVERAGE_SAMPLES - t.count;
      Average(polls, p, id, t) ==
        Finished(Totals(t.sum.Plus(v.Scale(k as real)), RIGID_AVERAGE_SAMPLES, t.trial + k), p + k)
    decreases RIGID_AVERAGE_SAMPLES - t.count
  {
    var k := RIGID_AVERAGE_SAMPLES - t.count;
    assert Sees(polls[p], id, v);
    var t' := Take(t, polls[p], id);
    assert t' == Totals(t.sum.Plus(v), t.count + 1, t.trial + 1);
    assert Average(polls, p, id, t) == if t'.Continues() then Average(polls, p + 1, id, t') else Finished(t', p + 1);
    if t'.Continues() {
      assert forall j :: p + 1 <= j < p + 1 + (RIGID_AVERAGE_SAMPLES - t'.count) ==> Sees(polls[j], id, v);
      Steady(polls, p + 1, id, t', v);
      AddScaled(t.sum, v, k - 1);
    } else {
      assert k == 1 && v.Scale(1.0) == v;
    }
  }

  /** Adding v and then k times v is adding k + 1 times v. */
  lemma AddScaled(a: Vec3, v: Vec3, k: nat)
    ensures a.Plus(v).Plus(v.Scale(k as real)) == a.Plus(v.Scale((k + 1) as real))
  {
  }

  /** The trial boundary: b blind polls followed by ten that see the marker give the mean of
      those ten, and the marker succeeds exactly when b < 990, so a tenth sample that arrives
      at trial 1000 is a failure. */
  lemma BlindThenSteady(polls: seq<MarkerPoll>, p: nat, id: int, v: Vec3, b: nat)
    requires b <= MAX_RIGID_AVERAGE_TRIALS - RIGID_AVERAGE_SAMPLES
    requires p + b + RIGID_AVERAGE_SAMPLES <= |polls|
    requires forall j :: p <= j < p + b ==> Blind(polls[j], id)
    requires forall j :: p + b <= j < p + b + RIGID_AVERAGE_SAMPLES ==> Sees(polls[j], id, v)
    ensures var r := Average(polls, p, id, NO_SAMPLES);
      r == Finished(Totals(v.Scale(10.0), RIGID_AVERAGE_SAMPLES, b + RIGID_AVERAGE_SAMPLES), p + b + RIGID_AVERAGE_SAMPLES) &&
      r.totals.sum.Div(RIGID_AVERAGE_SAMPLES as real) == v &&
      (r.Succeeded() <==> b < MAX_RIGID_AVERAGE_TRIALS - RIGID_AVERAGE_SAMPLES)
  {
    SkipBlind(polls, p, id, NO_SAMPLES, b);
    Steady(polls, p + b, id, Totals(ORIGIN, 0, b), v);
  }

  /** A backend that sees no confident sample of the marker exhausts the trial budget after
      exactly 1000 polls with data, and the marker fails. */
  lemma BlindExhausts(polls: seq<MarkerPoll>, p: nat, id: int)
    requires p + MAX_RIGID_AVERAGE_TRIALS <= |polls|
    requires forall j :: p <= j < p + MAX_RIGID_AVERAGE_TRIALS ==> Blind(polls[j], id)
    ensures var r := Average(polls, p, id, NO_SAMPLES);
      r == Finished(Totals(ORIGIN, 0, MAX_RIGID_AVERAGE_TRIALS), p + MAX_RIGID_AVERAGE_TRIALS) && !r.Succeeded()
  {
    var k := MAX_RIGID_AVERAGE_TRIALS - 1;
    SkipBlind(polls, p, id, NO_SAMPLES, k);
    assert Take(Totals(ORIGIN, 0, k), polls[p + k], id) == Totals(ORIGIN, 0, MAX_RIGID_AVERAGE_TRIALS);
  }

  /** The averaging loop of main.cpp:277-301 for one marker, reading the polls from `from`. */
  method AverageMarker(polls: seq<MarkerPoll>, from: nat, id: int, markerCount: int) returns (run: Run)
    requires from <= |polls| && WellFormed(polls, markerCount) && 0 <= id < markerCount
    ensures run == Average(polls, from, id, NO_SAMPLES)
  {
    var p, sum, count, trial := from, ORIGIN, 0, 0;
    while true
      invariant from <= p <= |polls|
      invariant count <= trial && Totals(sum, count, trial).Continues()
      invariant Average(polls, from, id, NO_SAMPLES) == Average(polls, p, id, Totals(sum, count, trial))
      decreases |polls| - p
    {
      if p == |polls| {
        return Stalled;
      }
      var q := polls[p];
      p := p + 1;
      if q.n > 0 {
        if q.markers[id].cond > MIN_CONDITION {
          sum := sum.Plus(q.markers[id].Position());
          count := count + 1;
        }
        trial := trial + 1;
      }
      if !(count < RIGID_AVERAGE_SAMPLES && trial < MAX_RIGID_AVERAGE_TRIALS) {
        return Finished(Totals(sum, count, trial), p);
      }
    }
  }

  /** The flush of main.cpp:274: polls are read until one returns n <= 0; the result is the
      index after that poll, or None when the input runs out first. */
  function Drained(polls: seq<MarkerPoll>, p: nat): (r: Option<nat>)
    requires p <= |polls|
    ensures r.Some? ==> p < r.value <= |polls| && polls[r.value - 1].n <= 0
    ensures r.Some? ==> forall k :: p <= k < r.value - 1 ==> polls[k].n > 0
    ensures r.None? ==> forall k :: p <= k < |polls| ==> polls[k].n > 0
    decreases |polls| - p
  {
    if p == |polls| then None
    else if polls[p].n > 0 then Drained(polls, p + 1)
    else Some(p + 1)
  }

  datatype Status = Complete | TrialsExhausted | InputExhausted

  /** Averages of the markers ids, in order, each from where the previous one stopped. */
  datatype Means = Means(points: seq<Vec3>, status: Status, next: nat)

  /** The marker loop of main.cpp:277-311: the means pushed so far and why it stopped. On a
      failure the result holds only the markers before the failing one. */
  function MarkerMeans(polls: seq<MarkerPoll>, p: nat, ids: seq<int>): (r: Means)
    requires p <= |polls|
    ensures |r.points| <= |ids|
    ensures r.status == Complete <==> |r.points| == |ids|
    decreases |ids|
  {
    if ids == [] then Means([], Complete, p)
    else
      match Average(polls, p, ids[0], NO_SAMPLES)
      case Stalled => Means([], InputExhausted, |polls|)
      case Finished(t, next) =>
        if t.trial < MAX_RIGID_AVERAGE_TRIALS then
          var rest := MarkerMeans(polls, next, ids[1..]);
          Means([t.sum.Div(RIGID_AVERAGE_SAMPLES as real)] + rest.points, rest.status, rest.next)
        else Means([], TrialsExhausted, next)
  }

  /** Every point taken relative to the first, which becomes the origin (main.cpp:314-321). */
  function Relative(means: seq<Vec3>): (r: seq<Vec3>)
    requires |means| > 0
    ensures |r| == |means| && r[0] == ORIGIN
  {
    seq(|means|, i requires 0 <= i < |means| => if i == 0 then ORIGIN else means[i].Minus(means[0]))
  }

  /** Where the averaging of marker ids[i] starts when the marker loop completes: each
      marker's loop reads on from the poll after the one where the previous loop stopped. */
  function WindowStart(polls: seq<MarkerPoll>, p: nat, ids: seq<int>, i: nat): (r: nat)
    requires p <= |polls| && i <= |ids| && MarkerMeans(polls, p, ids).status == Complete
    ensures p <= r <= |polls|
    decreases i
  {
    if i == 0 then p
    else
      var run := Average(polls, p, ids[0], NO_SAMPLES);
      assert run.Finished? && run.totals.trial < MAX_RIGID_AVERAGE_TRIALS;
      WindowStart(polls, run.next, ids[1..], i - 1)
  }

  /** When the marker loop completes, marker ids[i] was averaged over its own window of polls
      (from WindowStart i up to WindowStart i + 1, where its loop stopped), took exactly
      RIGID_AVERAGE_SAMPLES accepted samples there, and its mean is their sum divided by
      that count. */
  lemma {:induction false} CompleteMeans(polls: seq<MarkerPoll>, p: nat, ids: seq<int>, i: nat)
    requires p <= |polls| && i < |ids| && MarkerMeans(polls, p, ids).status == Complete
    ensures var a, b := WindowStart(polls, p, ids, i), WindowStart(polls, p, ids, i + 1);
      var run := Average(polls, a, ids[i], NO_SAMPLES);
      a < b && run.Succeeded() && run.next == b &&
      AcceptedCount(polls[a..b], ids[i]) == RIGID_AVERAGE_SAMPLES &&
      MarkerMeans(polls, p, ids).points[i] == AcceptedSum(polls[a..b], ids[i]).Div(RIGID_AVERAGE_SAMPLES as real)
    decreases i
  {
    var run := Average(polls, p, ids[0], NO_SAMPLES);
    assert run.Finished? && run.totals.trial < MAX_RIGID_AVERAGE_TRIALS;
    if i == 0 {
      assert WindowStart(polls, run.next, ids[1..], 0) == run.next;
      FinishedTotals(polls, p, ids[0], run);
    } else {
      CompleteMeans(polls, run.next, ids[1..], i - 1);
    }
  }

  datatype Calibrated = Calibrated(points: seq<Vec3>, status: Status)

  /** The geometry CreateRigidLocations returns for the markers ids. */
  function Geometry(polls: seq<MarkerPoll>, ids: seq<int>): (r: Calibrated)
    requires |ids| > 0
    ensures |r.points| <= |ids|
    ensures r.status == Complete <==> |r.points| == |ids|
    ensures r.status == Complete ==> r.points[0] == ORIGIN
  {
    match Drained(polls, 0)
    case None => Calibrated([], InputExhausted)
    case Some(p) =>
      var m := MarkerMeans(polls, p, ids);
      if m.status == Complete then Calibrated(Relative(m.points), Complete)
      else Calibrated(m.points, m.status)
  }

  /** A complete calibration is the mean of each marker's accepted samples over its window,
      taken relative to the first marker's mean: the first marker sits at the origin. */
  lemma GeometryMeans(polls: seq<MarkerPoll>, ids: seq<int>, i: nat)
    requires |ids| > 0 && i < |ids| && Geometry(polls, ids).status == Complete
    ensures Drained(polls, 0).Some?
    ensures var p := Drained(polls, 0).value;
      MarkerMeans(polls, p, ids).status == Complete &&
      var a0, b0 := WindowStart(polls, p, ids, 0), WindowStart(polls, p, ids, 1);
      var a, b := WindowStart(polls, p, ids, i), WindowStart(polls, p, ids, i + 1);
      a0 < b0 && a < b &&
      Geometry(polls, ids).points[i] ==
        if i == 0 then ORIGIN
        else AcceptedSum(polls[a..b], ids[i]).Div(RIGID_AVERAGE_SAMPLES as real)
               .Minus(AcceptedSum(polls[a0..b0], ids[0]).Div(RIGID_AVERAGE_SAMPLES as real))
  {
    var p := Drained(polls, 0).value;
    CompleteMeans(polls, p, ids, 0);
    CompleteMeans(polls, p, ids, i);
  }

  /** From poll p on, the backend reports the same buffer ms every time. */
  predicate SteadyFrom(polls: seq<MarkerPoll>, p: nat, ms: seq<MarkerSample>)
  {
    forall j :: p <= j < |polls| ==> polls[j] == MarkerPoll(1, ms)
  }

  /** Every marker of ids is in ms and seen there with enough confidence. */
  predicate AllSeen(ms: seq<MarkerSample>, ids: seq<int>)
  {
    forall i :: 0 <= i < |ids| ==> 0 <= ids[i] < |ms| && ms[ids[i]].cond > MIN_CONDITION
  }

  function Positions(ms: seq<MarkerSample>, ids: seq<int>): (r: seq<Vec3>)
    requires forall i :: 0 <= i < |ids| ==> 0 <= ids[i] < |ms|
    ensures |r| == |ids| && forall i :: 0 <= i < |ids| ==> r[i] == ms[ids[i]].Position()
  {
    seq(|ids|, i requires 0 <= i < |ids| => ms[ids[i]].Position())
  }

  /** Against a steady backend every marker takes ten polls and its mean is its position. */
  lemma {:induction false} SteadyMeans(polls: seq<MarkerPoll>, p: nat, ids: seq<int>, ms: seq<MarkerSample>)
    requires p + RIGID_AVERAGE_SAMPLES * |ids| <= |polls| && SteadyFrom(polls, p, ms) && AllSeen(ms, ids)
    ensures MarkerMeans(polls, p, ids) == Means(Positions(ms, ids), Complete, p + RIGID_AVERAGE_SAMPLES * |ids|)
    decreases |ids|
  {
    if ids != [] {
      var v := ms[ids[0]].Position();
      var next := p + RIGID_AVERAGE_SAMPLES;
      assert forall j :: p <= j < next ==> Sees(polls[j], ids[0], v);
      BlindThenSteady(polls, p, ids[0], v, 0);
      var run := Average(polls, p, ids[0], NO_SAMPLES);
      assert run.Finished? && run.next == next && run.totals.trial < MAX_RIGID_AVERAGE_TRIALS;
      assert AllSeen(ms, ids[1..]) && SteadyFrom(polls, next, ms);
      SteadyMeans(polls, next, ids[1..], ms);
      var rest := MarkerMeans(polls, next, ids[1..]);
      assert MarkerMeans(polls, p, ids) == Means([v] + rest.points, rest.status, rest.next);
      assert [v] + Positions(ms, ids[1..]) == Positions(ms, ids);
    }
  }

  /** Calibration is deterministic: against a backend that, after the flush, reports fixed
      confident positions, the geometry is every marker's position minus the first marker's,
      and the first marker's offset is exactly zero. */
  lemma SteadyCalibration(polls: seq<MarkerPoll>, ids: seq<int>, ms: seq<MarkerSample>)
    requires |ids| > 0 && AllSeen(ms, ids)
    requires 1 + RIGID_AVERAGE_SAMPLES * |ids| <= |polls| && polls[0].n <= 0 && SteadyFrom(polls, 1, ms)
    ensures var r := Geometry(polls, ids);
      r.status == Complete && |r.points| == |ids| && r.points[0] == ORIGIN &&
      forall i :: 0 <= i < |ids| ==> r.points[i] == ms[ids[i]].Position().Minus(ms[ids[0]].Position())
  {
    SteadyMeans(polls, 1, ids, ms);
  }

  /** The flush loop of main.cpp:274. */
  method Drain(polls: seq<MarkerPoll>) returns (r: Option<nat>)
    ensures r == Drained(polls, 0)
  {
    var p: nat := 0;
    while p < |polls|
      invariant p <= |polls|
      invariant Drained(polls, 0) == Drained(polls, p)
    {
      var n := polls[p].n;
      p := p + 1;
      if n <= 0 {
        return Some(p);
      }
    }
    return None;
  }

  /** The marker loop of main.cpp:277-311: one averaging loop per marker, each continuing
      from the poll where the previous one stopped; it returns early on a failure. */
  method AverageMarkers(polls: seq<MarkerPoll>, start: nat, ids: seq<int>, markerCount: int) returns (points: seq<Vec3>, status: Status)
    requires start <= |polls| && WellFormed(polls, markerCount)
    requires forall i :: 0 <= i < |ids| ==> 0 <= ids[i] < markerCount
    ensures points == MarkerMeans(polls, start, ids).points
    ensures status == MarkerMeans(polls, start, ids).status
  {
    var p: nat := start;
    points := [];
    var i := 0;
    while i < |ids|
      invariant 0 <= i <= |ids| && p <= |polls| && |points| == i
      invariant var rest := MarkerMeans(polls, p, ids[i..]);
        MarkerMeans(polls, start, ids) == Means(points + rest.points, rest.status, rest.next)
    {
      assert ids[i..][0] == ids[i] && ids[i..][1..] == ids[i + 1..];
      var run := AverageMarker(polls, p, ids[i], markerCount);
      if run.Stalled? {
        return points, InputExhausted;
      }
      if run.totals.trial >= MAX_RIGID_AVERAGE_TRIALS {
        return points, TrialsExhausted;
      }
      var mean := run.totals.sum.Div(RIGID_AVERAGE_SAMPLES as real);
      ghost var later := MarkerMeans(polls, run.next, ids[i + 1..]);
      assert MarkerMeans(polls, p, ids[i..]) == Means([mean] + later.points, later.status, later.next);
      assert points + ([mean] + later.points) == (points + [mean]) + later.points;
      points := points + [mean];
      p := run.next;
      i := i + 1;
    }
    assert ids[|ids|..] == [];
    status := Complete;
  }

  /** main.cpp:314-321, in place: every point minus the first, then the first set to zero. */
  method MakeRelative(means: seq<Vec3>) returns (points: seq<Vec3>)
    requires |means| > 0
    ensures points == Relative(means)
    ensures points[0] == ORIGIN && forall j :: 0 < j < |means| ==> points[j] == means[j].Minus(means[0])
  {
    points := means;
    var k := 1;
    while k < |points|
      invariant 1 <= k <= |points| == |means|
      invariant points[0] == means[0]
      invariant forall j :: 1 <= j < k ==> points[j] == means[j].Minus(means[0])
      invariant forall j :: k <= j < |points| ==> points[j] == means[j]
    {
      points := points[k := points[k].Minus(points[0])];
      k := k + 1;
    }
    points := points[0 := ORIGIN];
  }

  /** The polls, marker loop and re-expression of CreateRigidLocations, without the backend
      tracker set-up and streaming it does around them. */
  method Calibrate(polls: seq<MarkerPoll>, ids: seq<int>, markerCount: int) returns (points: seq<Vec3>, status: Status)
    requires |ids| > 0 && WellFormed(polls, markerCount)
    requires forall i :: 0 <= i < |ids| ==> 0 <= ids[i] < markerCount
    ensures Calibrated(points, status) == Geometry(polls, ids)
  {
    var start := Drain(polls);
    if start.None? {
      return [], InputExhausted;
    }
    points, status := AverageMarkers(polls, start.value, ids, markerCount);
    if status == Complete {
      points := MakeRelative(points);
    }
  }
}
