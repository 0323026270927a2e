/** agent/processors/sports_processor.py: the Roboflow-backed sports event processor.
    Each analysed frame yields a list of detections; `_classify_event` runs a small state
    machine over three tracking fields (ball seen, consecutive ball-free frames, big-play
    latch) and may return a `big_play`, `play_result` or `goal_line` event; `_handle_event`
    forwards an event to the agent when the commentary cooldown has elapsed. */
module SportsProcessor {
  import opened Util
  import Cooldown

  const BallClasses: set<string> := {"football", "ball", "sports ball", "sports-ball"}
  const PlayerClasses: set<string> := {"player", "person", "football-player", "football player"}
  /** Consecutive ball-free frames before a big play is called. */
  const NoBallThreshold: nat := 3
  const ClusterDistanceThreshold: real := 100.0
  const ClusterMinPlayers: nat := 6

  /** One object detection: class name, confidence and box centre and size in pixels. */
  datatype Detection = Detection(className: string, confidence: real, x: real, y: real, width: real, height: real)

  /** One entry of the response's `predictions` list; a key the entry lacks is `None`. */
  datatype Prediction = Prediction(
    cls: Option<string>, confidence: Option<real>,
    x: Option<real>, y: Option<real>, width: Option<real>, height: Option<real>)

  // ---------------------------------------------------------------------------
  // _parse_detections
  // ---------------------------------------------------------------------------

  /** One prediction read with its defaults: class "unknown" (lower-cased), numbers 0.0. */
  function ToDetection(p: Prediction): Detection
  {
    Detection(Lower(GetOr(p.cls, "unknown")), GetOr(p.confidence, 0.0),
              GetOr(p.x, 0.0), GetOr(p.y, 0.0), GetOr(p.width, 0.0), GetOr(p.height, 0.0))
  }

  function ToDetections(ps: seq<Prediction>): (r: seq<Detection>)
    ensures |r| == |ps| && forall k :: 0 <= k < |ps| ==> r[k] == ToDetection(ps[k])
  {
    seq(|ps|, k requires 0 <= k < |ps| => ToDetection(ps[k]))
  }

  /** The detections `_parse_detections` keeps: those at or above the threshold, in order. */
  function Confident(ds: seq<Detection>, threshold: real): seq<Detection>
  {
    Filter(ds, (d: Detection) => d.confidence >= threshold)
  }

  /** `_parse_detections`: `response` is the `predictions` value, `None` when the key is
      missing (read as an empty list). */
  method ParseDetections(response: Option<seq<Prediction>>, threshold: real) returns (ds: seq<Detection>)
    ensures ds == Confident(ToDetections(GetOr(response, [])), threshold)
  {
    var predictions := GetOr(response, []);
    ds := [];
    var i := 0;
    while i < |predictions|
      invariant 0 <= i <= |predictions|
      invariant ds == Confident(ToDetections(predictions[..i]), threshold)
    {
      var det := ToDetection(predictions[i]);
      assert ToDetections(predictions[..i + 1]) == ToDetections(predictions[..i]) + [det];
      FilterAppend(ToDetections(predictions[..i]), [det], (d: Detection) => d.confidence >= threshold);
      if det.confidence >= threshold {
        ds := ds + [det];
      }
      i := i + 1;
    }
    assert predictions[..i] == predictions;
  }

  /** The parsed list holds exactly the predictions at or above the threshold, each with its
      class lower-cased and missing fields defaulted, and parsing a concatenation parses
      each part: the input order is kept. */
  lemma ParsedDetections(a: seq<Prediction>, b: seq<Prediction>, threshold: real)
    ensures forall k :: 0 <= k < |Confident(ToDetections(a), threshold)| ==>
              Confident(ToDetections(a), threshold)[k].confidence >= threshold
              && exists i :: 0 <= i < |a| && Confident(ToDetections(a), threshold)[k] == ToDetection(a[i])
    ensures forall i :: 0 <= i < |a| && GetOr(a[i].confidence, 0.0) >= threshold ==>
              ToDetection(a[i]) in Confident(ToDetections(a), threshold)
    ensures Confident(ToDetections(a + b), threshold)
            == Confident(ToDetections(a), threshold) + Confident(ToDetections(b), threshold)
  {
    var da := ToDetections(a);
    forall k | 0 <= k < |Confident(da, threshold)|
      ensures exists i :: 0 <= i < |a| && Confident(da, threshold)[k] == ToDetection(a[i])
    {
      var i :| 0 <= i < |da| && da[i] == Confident(da, threshold)[k];
    }
    assert ToDetections(a + b) == ToDetections(a) + ToDetections(b);
    FilterAppend(ToDetections(a), ToDetections(b), (d: Detection) => d.confidence >= threshold);
  }

  // ---------------------------------------------------------------------------
  // _detect_player_cluster
  // ---------------------------------------------------------------------------

  function Max(xs: seq<real>): (m: real)
    requires |xs| > 0
    ensures forall k :: 0 <= k < |xs| ==> xs[k] <= m
    ensures exists k :: 0 <= k < |xs| && xs[k] == m
    decreases |xs|
  {
    if |xs| == 1 then xs[0]
    else
      var rest := Max(xs[1..]);
      assert forall k :: 1 <= k < |xs| ==> xs[k] == xs[1..][k - 1];
      if xs[0] >= rest then xs[0] else rest
  }

  function Min(xs: seq<real>): (m: real)
    requires |xs| > 0
    ensures forall k :: 0 <= k < |xs| ==> m <= xs[k]
    ensures exists k :: 0 <= k < |xs| && xs[k] == m
    decreases |xs|
  {
    if |xs| == 1 then xs[0]
    else
      var rest := Min(xs[1..]);
      assert forall k :: 1 <= k < |xs| ==> xs[k] == xs[1..][k - 1];
      if xs[0] <= rest then xs[0] else rest
  }

  function Xs(ps: seq<Detection>): (r: seq<real>)
    ensures |r| == |ps| && forall k :: 0 <= k < |ps| ==> r[k] == ps[k].x
  {
    seq(|ps|, k requires 0 <= k < |ps| => ps[k].x)
  }

  function Ys(ps: seq<Detection>): (r: seq<real>)
    ensures |r| == |ps| && forall k :: 0 <= k < |ps| ==> r[k] == ps[k].y
  {
    seq(|ps|, k requires 0 <= k < |ps| => ps[k].y)
  }

  /** `(x_range + y_range) / (2 * len(players))` over the players' box centres. */
  function AvgSpread(ps: seq<Detection>): real
    requires |ps| > 0
  {
    (Max(Xs(ps)) - Min(Xs(ps)) + Max(Ys(ps)) - Min(Ys(ps))) / (2 * |ps|) as real
  }

  /** `_detect_player_cluster`: a `goal_line` event over the players when there are at
      least six of them and their average spread is under 100 pixels per player. */
  function DetectPlayerCluster(players: seq<Detection>): Option<SportEvent>
  {
    if |players| < ClusterMinPlayers then None
    else if AvgSpread(players) < ClusterDistanceThreshold then Some(SportEvent(GoalLine, players))
    else None
  }

  function Abs(r: real): real
  {
    if r < 0.0 then -r else r
  }

  /** No two centres are further apart than the x range plus the y range. */
  lemma WithinRanges(ps: seq<Detection>)
    requires |ps| > 0
    ensures forall i, j :: 0 <= i < |ps| && 0 <= j < |ps| ==>
              Abs(ps[i].x - ps[j].x) + Abs(ps[i].y - ps[j].y)
              <= Max(Xs(ps)) - Min(Xs(ps)) + Max(Ys(ps)) - Min(Ys(ps))
  {
    forall i, j | 0 <= i < |ps| && 0 <= j < |ps|
      ensures Abs(ps[i].x - ps[j].x) + Abs(ps[i].y - ps[j].y)
              <= Max(Xs(ps)) - Min(Xs(ps)) + Max(Ys(ps)) - Min(Ys(ps))
    {
      assert Xs(ps)[i] == ps[i].x && Xs(ps)[j] == ps[j].x;
      assert Ys(ps)[i] == ps[i].y && Ys(ps)[j] == ps[j].y;
    }
  }

  /** What a cluster means geometrically: any two of the clustered players have centres
      less than 200 pixels per player apart (horizontal plus vertical distance), and the
      event carries exactly the players. */
  lemma ClusterIsTight(players: seq<Detection>)
    requires DetectPlayerCluster(players).Some?
    ensures DetectPlayerCluster(players).value == SportEvent(GoalLine, players)
    ensures |players| >= ClusterMinPlayers
    ensures forall i, j :: 0 <= i < |players| && 0 <= j < |players| ==>
              Abs(players[i].x - players[j].x) + Abs(players[i].y - players[j].y)
              < (2 * |players|) as real * ClusterDistanceThreshold
  {
    var range := Max(Xs(players)) - Min(Xs(players)) + Max(Ys(players)) - Min(Ys(players));
    var d := (2 * |players|) as real;
    assert AvgSpread(players) == range / d < ClusterDistanceThreshold;
    DivBelow(range, d, ClusterDistanceThreshold);
    assert range < d * ClusterDistanceThreshold;
    WithinRanges(players);
  }

  lemma DivBelow(a: real, d: real, c: real)
    requires d > 0.0 && a / d < c
    ensures a < d * c
  {
    assert a == (a / d) * d;
  }

  /** Six or more players standing on one spot always form a cluster. */
  lemma StackedPlayersCluster(players: seq<Detection>)
    requires |players| >= ClusterMinPlayers
    requires forall k :: 0 <= k < |players| ==> players[k].x == players[0].x && players[k].y == players[0].y
    ensures DetectPlayerCluster(players) == Some(SportEvent(GoalLine, players))
  {
    ConstantRange(Xs(players), players[0].x);
    ConstantRange(Ys(players), players[0].y);
    assert AvgSpread(players) == 0.0 / (2 * |players|) as real;
  }

  /** A sequence of equal values has that value as its maximum and its minimum. */
  lemma ConstantRange(xs: seq<real>, v: real)
    requires |xs| > 0 && forall k :: 0 <= k < |xs| ==> xs[k] == v
    ensures Max(xs) == v && Min(xs) == v
  {
    var i :| 0 <= i < |xs| && xs[i] == Max(xs);
    var j :| 0 <= j < |xs| && xs[j] == Min(xs);
  }

  // ---------------------------------------------------------------------------
  // _classify_event
  // ---------------------------------------------------------------------------

  datatype EventType = BigPlay | PlayResult | GoalLine

  /** A classified event and the detections it concerns (its prose description is not
      modelled). */
  datatype SportEvent = SportEvent(eventType: EventType, detections: seq<Detection>)

  /** `_ball_was_present`, `_consecutive_no_ball`, `_big_play_triggered`. */
  datatype Tracking = Tracking(ballWasPresent: bool, consecutiveNoBall: nat, bigPlayTriggered: bool)

  const InitialTracking: Tracking := Tracking(false, 0, false)

  predicate IsBall(d: Detection)
  {
    d.className in BallClasses
  }

  predicate IsPlayer(d: Detection)
  {
    d.className in PlayerClasses
  }

  function Balls(ds: seq<Detection>): seq<Detection>
  {
    Filter(ds, IsBall)
  }

  function Players(ds: seq<Detection>): seq<Detection>
  {
    Filter(ds, IsPlayer)
  }

  predicate BallPresent(ds: seq<Detection>)
  {
    |Balls(ds)| > 0
  }

  predicate HasEvent(ev: Option<SportEvent>, e: EventType)
  {
    ev.Some? && ev.value.eventType == e
  }

  /** `_classify_event` on the tracking state: the new state and the event, if any. */
  function Classify(t: Tracking, ds: seq<Detection>): (r: (Tracking, Option<SportEvent>))
    // play_result: exactly a ball frame while latched; it clears the latch and the counter
    ensures HasEvent(r.1, PlayResult) <==> BallPresent(ds) && t.bigPlayTriggered
    ensures HasEvent(r.1, PlayResult) ==> r.0 == Tracking(true, 0, false) && r.1.value.detections == ds
    // a ball frame while not latched resets the counter, marks the ball seen, no ball event
    ensures BallPresent(ds) && !t.bigPlayTriggered ==>
              r.0 == Tracking(true, 0, false) && !HasEvent(r.1, PlayResult) && !HasEvent(r.1, BigPlay)
    // a ball-free frame counts one more missing frame and never clears the latch
    ensures !BallPresent(ds) ==>
              r.0.consecutiveNoBall == t.consecutiveNoBall + 1 && r.0.ballWasPresent == t.ballWasPresent
              && (t.bigPlayTriggered ==> r.0.bigPlayTriggered)
    // big_play: exactly when the ball has been missing for the threshold, was seen, and no latch
    ensures HasEvent(r.1, BigPlay) <==>
              !BallPresent(ds) && t.consecutiveNoBall + 1 >= NoBallThreshold && t.ballWasPresent
              && !t.bigPlayTriggered
    ensures HasEvent(r.1, BigPlay) ==> r.0.bigPlayTriggered && r.1.value.detections == ds
    ensures !HasEvent(r.1, BigPlay) && !HasEvent(r.1, PlayResult) ==> r.0.bigPlayTriggered == t.bigPlayTriggered
    // goal_line: only when no ball event fired, over the players, as the cluster test says
    ensures HasEvent(r.1, GoalLine) <==>
              !HasEvent(r.1, BigPlay) && !HasEvent(r.1, PlayResult) && DetectPlayerCluster(Players(ds)).Some?
    ensures HasEvent(r.1, GoalLine) ==> r.1.value.detections == Players(ds)
  {
    var ballPresent := BallPresent(ds);
    if ballPresent && t.bigPlayTriggered then
      (Tracking(true, 0, false), Some(SportEvent(PlayResult, ds)))
    else if ballPresent then
      (Tracking(true, 0, t.bigPlayTriggered), DetectPlayerCluster(Players(ds)))
    else
      var count := t.consecutiveNoBall + 1;
      if count >= NoBallThreshold && t.ballWasPresent && !t.bigPlayTriggered then
        (Tracking(t.ballWasPresent, count, true), Some(SportEvent(BigPlay, ds)))
      else
        (Tracking(t.ballWasPresent, count, t.bigPlayTriggered), DetectPlayerCluster(Players(ds)))
  }

  /** Only ball and player classes matter: a detection of any other class changes neither
      the tracking nor which event is returned. */
  lemma OtherClassesIgnored(t: Tracking, ds: seq<Detection>, d: Detection)
    requires !IsBall(d) && !IsPlayer(d)
    ensures Classify(t, ds + [d]).0 == Classify(t, ds).0
    ensures Classify(t, ds + [d]).1.Some? == Classify(t, ds).1.Some?
    ensures Classify(t, ds + [d]).1.Some? ==>
              Classify(t, ds + [d]).1.value.eventType == Classify(t, ds).1.value.eventType
  {
    FilterAppend(ds, [d], IsBall);
    FilterAppend(ds, [d], IsPlayer);
    assert Balls(ds + [d]) == Balls(ds);
    assert Players(ds + [d]) == Players(ds);
  }

  /** The latch is only ever set after the ball was seen and at least the threshold of
      frames went by without it. */
  predicate Inv(t: Tracking)
  {
    t.bigPlayTriggered ==> t.ballWasPresent && t.consecutiveNoBall >= NoBallThreshold
  }

  lemma ClassifyKeepsInv(t: Tracking, ds: seq<Detection>)
    requires Inv(t)
    ensures Inv(Classify(t, ds).0)
    ensures t.ballWasPresent ==> Classify(t, ds).0.ballWasPresent
  {
  }

  /** `_classify_event` over a run of frames, from the given tracking state. */
  function ClassifyRun(t: Tracking, frames: seq<seq<Detection>>): (r: (Tracking, seq<Option<SportEvent>>))
    ensures |r.1| == |frames|
    decreases |frames|
  {
    if frames == [] then (t, [])
    else
      var (t', evs) := ClassifyRun(t, frames[..|frames| - 1]);
      var (t'', ev) := Classify(t', frames[|frames| - 1]);
      (t'', evs + [ev])
  }

  /** Number of ball-free frames at the end of `frames`. */
  function TrailingNoBall(frames: seq<seq<Detection>>): nat
    decreases |frames|
  {
    if frames == [] || BallPresent(frames[|frames| - 1]) then 0
    else TrailingNoBall(frames[..|frames| - 1]) + 1
  }

  /** From the initial state, the counter is always the number of ball-free frames since
      the last ball frame, the invariant holds, and "ball seen" means some frame had one. */
  lemma RunTracking(frames: seq<seq<Detection>>)
    ensures ClassifyRun(InitialTracking, frames).0.consecutiveNoBall == TrailingNoBall(frames)
    ensures Inv(ClassifyRun(InitialTracking, frames).0)
    ensures ClassifyRun(InitialTracking, frames).0.ballWasPresent <==>
              exists j :: 0 <= j < |frames| && BallPresent(frames[j])
  {
    RunCounter(frames);
    RunKeepsInv(frames);
    RunBallSeen(frames);
  }

  lemma {:induction false} RunCounter(frames: seq<seq<Detection>>)
    ensures ClassifyRun(InitialTracking, frames).0.consecutiveNoBall == TrailingNoBall(frames)
    decreases |frames|
  {
    if frames != [] {
      RunCounter(frames[..|frames| - 1]);
    }
  }

  lemma {:induction false} RunKeepsInv(frames: seq<seq<Detection>>)
    ensures Inv(ClassifyRun(InitialTracking, frames).0)
    decreases |frames|
  {
    if frames != [] {
      var init := frames[..|frames| - 1];
      RunKeepsInv(init);
      ClassifyKeepsInv(ClassifyRun(InitialTracking, init).0, frames[|frames| - 1]);
    }
  }

  lemma {:induction false} RunBallSeen(frames: seq<seq<Detection>>)
    ensures ClassifyRun(InitialTracking, frames).0.ballWasPresent <==>
              exists j :: 0 <= j < |frames| && BallPresent(frames[j])
    decreases |frames|
  {
    if frames != [] {
      var init := frames[..|frames| - 1];
      RunBallSeen(init);
      assert forall j :: 0 <= j < |init| ==> init[j] == frames[j];
    }
  }

  /** A big play is only ever called after the ball has been on screen in an earlier frame. */
  lemma {:induction false} NoBigPlayBeforeBall(frames: seq<seq<Detection>>)
    ensures forall i :: 0 <= i < |frames| && HasEvent(ClassifyRun(InitialTracking, frames).1[i], BigPlay) ==>
              exists j :: 0 <= j < i && BallPresent(frames[j])
    decreases |frames|
  {
    if frames != [] {
      var init := frames[..|frames| - 1];
      NoBigPlayBeforeBall(init);
      RunTracking(init);
      assert forall j :: 0 <= j < |init| ==> init[j] == frames[j];
    }
  }

  /** Running one more frame extends the run by that frame's classification. */
  lemma RunSnoc(t: Tracking, frames: seq<seq<Detection>>, f: seq<Detection>)
    ensures ClassifyRun(t, frames + [f]).0 == Classify(ClassifyRun(t, frames).0, f).0
    ensures ClassifyRun(t, frames + [f]).1 == ClassifyRun(t, frames).1 + [Classify(ClassifyRun(t, frames).0, f).1]
  {
    assert (frames + [f])[..|frames|] == frames;
  }

  /** At most one big play per absence: over a run of ball-free frames no two frames both
      call a big play, and none does if the ball was never seen or the latch was already
      set when the absence began. */
  lemma {:induction false} OneBigPlayPerAbsence(t: Tracking, frames: seq<seq<Detection>>)
    requires forall k :: 0 <= k < |frames| ==> !BallPresent(frames[k])
    ensures forall i, j :: 0 <= i < j < |frames| ==>
              !(HasEvent(ClassifyRun(t, frames).1[i], BigPlay) && HasEvent(ClassifyRun(t, frames).1[j], BigPlay))
    ensures !t.ballWasPresent || t.bigPlayTriggered ==>
              forall i :: 0 <= i < |frames| ==> !HasEvent(ClassifyRun(t, frames).1[i], BigPlay)
    ensures (exists i :: 0 <= i < |frames| && HasEvent(ClassifyRun(t, frames).1[i], BigPlay))
            ==> ClassifyRun(t, frames).0.bigPlayTriggered
    ensures t.bigPlayTriggered ==> ClassifyRun(t, frames).0.bigPlayTriggered
    ensures ClassifyRun(t, frames).0.ballWasPresent == t.ballWasPresent
    decreases |frames|
  {
    if frames != [] {
      var init := frames[..|frames| - 1];
      assert forall k :: 0 <= k < |init| ==> init[k] == frames[k];
      OneBigPlayPerAbsence(t, init);
    }
  }

  /** Two ball frames, four ball-free frames, then the ball again (no players anywhere):
      the big play is called on the fifth frame, the third without the ball, and the
      reappearance on the seventh. */
  lemma BigPlayScenario(ball: Detection)
    requires IsBall(ball) && !IsPlayer(ball)
    ensures ClassifyRun(InitialTracking, [[ball], [ball], [], [], [], [], [ball]]).1
            == [None, None, None, None, Some(SportEvent(BigPlay, [])), None, Some(SportEvent(PlayResult, [ball]))]
  {
    var b: seq<Detection> := [ball];
    var e: seq<Detection> := [];
    var none: Option<SportEvent> := None;
    var t0 := InitialTracking;
    ScenarioFrames(ball);
    ScenarioPrefix(ball);
    var r4: (Tracking, seq<Option<SportEvent>>) := (Tracking(true, 2, false), [none, none, none, none]);
    RunStep(t0, [b, b, e, e], e, r4, (Tracking(true, 3, true), Some(SportEvent(BigPlay, e))));
    assert [b, b, e, e] + [e] == [b, b, e, e, e];
    var r5 := (Tracking(true, 3, true), r4.1 + [Some(SportEvent(BigPlay, e))]);
    RunStep(t0, [b, b, e, e, e], e, r5, (Tracking(true, 4, true), none));
    assert [b, b, e, e, e] + [e] == [b, b, e, e, e, e];
    var r6 := (Tracking(true, 4, true), r5.1 + [none]);
    RunStep(t0, [b, b, e, e, e, e], b, r6, (Tracking(true, 0, false), Some(SportEvent(PlayResult, b))));
    assert [b, b, e, e, e, e] + [b] == [[ball], [ball], [], [], [], [], [ball]];
  }

  /** The first four frames of `BigPlayScenario`: the ball twice, then two frames without
      it, and no event yet. */
  lemma ScenarioPrefix(ball: Detection)
    requires IsBall(ball) && !IsPlayer(ball)
    ensures ClassifyRun(InitialTracking, [[ball], [ball], [], []])
            == (Tracking(true, 2, false), [None, None, None, None])
  {
    var b: seq<Detection> := [ball];
    var e: seq<Detection> := [];
    var none: Option<SportEvent> := None;
    var t0 := InitialTracking;
    var t1 := Tracking(true, 0, false);
    ScenarioFrames(ball);
    var r0: (Tracking, seq<Option<SportEvent>>) := (t0, []);
    RunStep(t0, [], b, r0, (t1, none));
    assert [] + [b] == [b];
    var r1 := (t1, r0.1 + [none]);
    RunStep(t0, [b], b, r1, (t1, none));
    assert [b] + [b] == [b, b];
    var r2 := (t1, r1.1 + [none]);
    RunStep(t0, [b, b], e, r2, (Tracking(true, 1, false), none));
    assert [b, b] + [e] == [b, b, e];
    var r3 := (Tracking(true, 1, false), r2.1 + [none]);
    RunStep(t0, [b, b, e], e, r3, (Tracking(true, 2, false), none));
    assert [b, b, e] + [e] == [b, b, e, e];
    assert r3.1 + [none] == [none, none, none, none];
  }

  /** The seven frames of `BigPlayScenario`, one at a time. */
  lemma ScenarioFrames(ball: Detection)
    requires IsBall(ball) && !IsPlayer(ball)
    ensures Classify(InitialTracking, [ball]) == (Tracking(true, 0, false), None)
    ensures Classify(Tracking(true, 0, false), [ball]) == (Tracking(true, 0, false), None)
    ensures Classify(Tracking(true, 0, false), []) == (Tracking(true, 1, false), None)
    ensures Classify(Tracking(true, 1, false), []) == (Tracking(true, 2, false), None)
    ensures Classify(Tracking(true, 2, false), []) == (Tracking(true, 3, true), Some(SportEvent(BigPlay, [])))
    ensures Classify(Tracking(true, 3, true), []) == (Tracking(true, 4, true), None)
    ensures Classify(Tracking(true, 4, true), [ball]) == (Tracking(true, 0, false), Some(SportEvent(PlayResult, [ball])))
  {
    var b: seq<Detection> := [ball];
    assert BallPresent(b) && Players(b) == [] by {
      assert [ball][..0] == [];
      assert Balls(b) == [ball];
    }
    assert DetectPlayerCluster([]) == None;
  }

  /** One more frame of a run whose outcome is known. */
  lemma RunStep(t: Tracking, frames: seq<seq<Detection>>, f: seq<Detection>,
                before: (Tracking, seq<Option<SportEvent>>), after: (Tracking, Option<SportEvent>))
    requires ClassifyRun(t, frames) == before && Classify(before.0, f) == after
    ensures ClassifyRun(t, frames + [f]) == (after.0, before.1 + [after.1])
  {
    RunSnoc(t, frames, f);
  }

  // ---------------------------------------------------------------------------
  // _should_comment / _handle_event and the whole frame
  // ---------------------------------------------------------------------------

  /** `_handle_event`: the event is forwarded to the agent only when the cooldown has
      elapsed and an agent is attached; only then does the commentary timer move to `now`.
      Returns the new timer and the forwarded event. */
  function HandleEventSpec(cooldown: real, agentAttached: bool, last: real, ev: SportEvent, now: real): (r: (real, Option<SportEvent>))
    ensures r.1.Some? <==> Cooldown.Open(cooldown, last, now) && agentAttached
    ensures r.1.Some? ==> r == (now, Some(ev))
    ensures r.1.None? ==> r.0 == last
  {
    if !Cooldown.Open(cooldown, last, now) then (last, None)
    else if !agentAttached then (last, None)
    else (now, Some(ev))
  }

  /** The processor's modelled state: tracking fields and the commentary timer. */
  datatype ProcState = ProcState(tracking: Tracking, lastCommentaryTime: real)

  const InitialProcState: ProcState := ProcState(InitialTracking, 0.0)

  /** `_on_frame` after detection: `None` is a failed detector call (the frame is skipped);
      a stopped processor ignores the frame. Returns the new state and what was forwarded. */
  function FrameStep(cooldown: real, agentAttached: bool, running: bool, s: ProcState,
                     detections: Option<seq<Detection>>, now: real): (r: (ProcState, Option<SportEvent>))
  {
    if !running || detections.None? then (s, None)
    else
      var (t, ev) := Classify(s.tracking, detections.value);
      if ev.None? then (ProcState(t, s.lastCommentaryTime), None)
      else
        var (last, fwd) := HandleEventSpec(cooldown, agentAttached, s.lastCommentaryTime, ev.value, now);
        (ProcState(t, last), fwd)
  }

  /** A run of frames, each with its detector result and its clock reading. */
  function Run(cooldown: real, agentAttached: bool, s: ProcState,
               frames: seq<(Option<seq<Detection>>, real)>): (r: (ProcState, seq<Option<SportEvent>>))
    ensures |r.1| == |frames|
    decreases |frames|
  {
    if frames == [] then (s, [])
    else
      var (s', fwd) := Run(cooldown, agentAttached, s, frames[..|frames| - 1]);
      var (s'', f) := FrameStep(cooldown, agentAttached, true, s', frames[|frames| - 1].0, frames[|frames| - 1].1);
      (s'', fwd + [f])
  }

  predicate ClockNondecreasing(frames: seq<(Option<seq<Detection>>, real)>)
  {
    forall i, j :: 0 <= i < j < |frames| ==> frames[i].1 <= frames[j].1
  }

  lemma {:induction false} RunRemembersLastForward(cooldown: real, agentAttached: bool, s: ProcState,
                                                   frames: seq<(Option<seq<Detection>>, real)>)
    requires ClockNondecreasing(frames)
    ensures forall i :: 0 <= i < |frames| && Run(cooldown, agentAttached, s, frames).1[i].Some? ==>
              frames[i].1 <= Run(cooldown, agentAttached, s, frames).0.lastCommentaryTime
    decreases |frames|
  {
    if frames != [] {
      RunRemembersLastForward(cooldown, agentAttached, s, frames[..|frames| - 1]);
    }
  }

  /** The cooldown holds across a session: any two events forwarded to the agent are at
      least `cooldown` seconds apart, whatever the detections were. */
  lemma {:induction false} ForwardedEventsSpaced(cooldown: real, agentAttached: bool, s: ProcState,
                                                 frames: seq<(Option<seq<Detection>>, real)>)
    requires ClockNondecreasing(frames)
    ensures forall i, j ::
              (0 <= i < j < |frames| && Run(cooldown, agentAttached, s, frames).1[i].Some?
               && Run(cooldown, agentAttached, s, frames).1[j].Some?) ==> frames[j].1 - frames[i].1 >= cooldown
    decreases |frames|
  {
    if frames != [] {
      var init := frames[..|frames| - 1];
      ForwardedEventsSpaced(cooldown, agentAttached, s, init);
      RunRemembersLastForward(cooldown, agentAttached, s, init);
    }
  }

  /** Without an attached agent nothing is ever forwarded, and the timer never moves. */
  lemma {:induction false} NoAgentNoCommentary(cooldown: real, s: ProcState, frames: seq<(Option<seq<Detection>>, real)>)
    ensures forall i :: 0 <= i < |frames| ==> Run(cooldown, false, s, frames).1[i].None?
    ensures Run(cooldown, false, s, frames).0.lastCommentaryTime == s.lastCommentaryTime
    decreases |frames|
  {
    if frames != [] {
      NoAgentNoCommentary(cooldown, s, frames[..|frames| - 1]);
    }
  }

  // ---------------------------------------------------------------------------
  // The processor object
  // ---------------------------------------------------------------------------

  class SportsCommentaryProcessor {
    const confidenceThreshold: real
    const commentaryCooldown: real
    var agentAttached: bool
    var running: bool
    var ballWasPresent: bool
    var consecutiveNoBall: nat
    var bigPlayTriggered: bool
    var lastCommentaryTime: real
    /** The events handed to `agent.simple_response`, oldest first. */
    var forwarded: seq<SportEvent>

    function State(): ProcState
      reads this
    {
      ProcState(Tracking(ballWasPresent, consecutiveNoBall, bigPlayTriggered), lastCommentaryTime)
    }

    constructor(confidenceThreshold: real, commentaryCooldown: real)
      ensures this.confidenceThreshold == confidenceThreshold && this.commentaryCooldown == commentaryCooldown
      ensures State() == InitialProcState && !running && !agentAttached && forwarded == []
    {
      this.confidenceThreshold := confidenceThreshold;
      this.commentaryCooldown := commentaryCooldown;
      agentAttached := false;
      running := false;
      ballWasPresent := false;
      consecutiveNoBall := 0;
      bigPlayTriggered := false;
      lastCommentaryTime := 0.0;
      forwarded := [];
    }

    method AttachAgent()
      modifies this
      ensures agentAttached && running == old(running) && State() == old(State()) && forwarded == old(forwarded)
    {
      agentAttached := true;
    }

    method StartProcessing()
      modifies this
      ensures running && agentAttached == old(agentAttached) && State() == old(State()) && forwarded == old(forwarded)
    {
      running := true;
    }

    /** `_classify_event`. */
    method ClassifyEvent(ds: seq<Detection>) returns (ev: Option<SportEvent>)
      modifies this
      ensures (State().tracking, ev) == Classify(old(State().tracking), ds)
      ensures lastCommentaryTime == old(lastCommentaryTime) && forwarded == old(forwarded)
      ensures running == old(running) && agentAttached == old(agentAttached)
    {
      var ballPresent := |Filter(ds, IsBall)| > 0;
      if ballPresent && bigPlayTriggered {
        bigPlayTriggered := false;
        consecutiveNoBall := 0;
        ballWasPresent := true;
        return Some(SportEvent(PlayResult, ds));
      }
      if ballPresent {
        consecutiveNoBall := 0;
        ballWasPresent := true;
      } else {
        consecutiveNoBall := consecutiveNoBall + 1;
        if consecutiveNoBall >= NoBallThreshold && ballWasPresent && !bigPlayTriggered {
          bigPlayTriggered := true;
          return Some(SportEvent(BigPlay, ds));
        }
      }
      ev := DetectPlayerCluster(Filter(ds, IsPlayer));
    }

    /** `_handle_event`, with the clock reading passed in. */
    method HandleEvent(ev: SportEvent, now: real)
      modifies this
      ensures (lastCommentaryTime, if forwarded == old(forwarded) then None else Some(ev))
              == HandleEventSpec(commentaryCooldown, agentAttached, old(lastCommentaryTime), ev, now)
      ensures forwarded == old(forwarded) || forwarded == old(forwarded) + [ev]
      ensures State().tracking == old(State().tracking)
      ensures running == old(running) && agentAttached == old(agentAttached)
    {
      if !(now - lastCommentaryTime >= commentaryCooldown) {
        return;
      }
      if !agentAttached {
        return;
      }
      lastCommentaryTime := now;
      forwarded := forwarded + [ev];
    }

    /** `_on_frame` once the detector has answered (`None`: the call failed). */
    method OnFrame(detections: Option<seq<Detection>>, now: real)
      modifies this
      ensures var (s, fwd) := FrameStep(commentaryCooldown, agentAttached, old(running), old(State()), detections, now);
              State() == s && forwarded == old(forwarded) + (if fwd.Some? then [fwd.value] else [])
      ensures running == old(running) && agentAttached == old(agentAttached)
    {
      if !running {
        return;
      }
      if detections.None? {
        return;
      }
      var ev := ClassifyEvent(detections.value);
      if ev.Some? {
        HandleEvent(ev.value, now);
      }
    }

    /** `stop_processing`: frames are ignored from now on; the tracking state is kept. */
    method StopProcessing()
      modifies this
      ensures !running && State() == old(State()) && forwarded == old(forwarded) && agentAttached == old(agentAttached)
    {
      running := false;
    }

    /** `close`: stops processing and restores all four tracking fields to their initial values. */
    method Close()
      modifies this
      ensures !running && State() == InitialProcState
      ensures forwarded == old(forwarded) && agentAttached == old(agentAttached)
    {
      StopProcessing();
      ballWasPresent := false;
      consecutiveNoBall := 0;
      bigPlayTriggered := false;
      lastCommentaryTime := 0.0;
    }
  }
}
