/** agent/pipeline.py: the commentary pipeline used by the web front end. Detections of
    each frame drive a ball-tracking state machine (no latch: the counter of ball-free
    frames alone decides), gated by a `Debouncer`; a generated reply is post-processed
    into display text, an emotion and a speech speed. */
module Pipeline {
  import opened Util
  import Cooldown
  import DetectionModel

  const CommentaryPrompts: seq<string> := [
    "Describe the current action on the field based on the player positions.",
    "What's happening in the play right now? Call it like you see it.",
    "Break down the formation and what the offense is trying to do.",
    "The ball is in play \U{2014} give us the play-by-play!",
    "Read the field and tell us what's developing."
  ]

  const PlayResultPrompt: string :=
    "The ball just reappeared after being out of frame! "
    + "Describe what likely happened \U{2014} a completed pass, a big run, or a turnover."

  const BigPlayPrompt: string :=
    "Big play! The ball just disappeared from the camera's view \U{2014} "
    + "that means a long pass, a breakaway run, or something dramatic "
    + "is unfolding. Build the excitement!"

  /** `_no_ball_threshold`. */
  const NoBallThreshold: nat := 3

  /** The class names `_filter_detections` keeps. */
  const TrackedClasses: seq<string> := ["person", "sports ball"]

  // ---------------------------------------------------------------------------
  // Debouncer
  // ---------------------------------------------------------------------------

  /** A time-based debouncer; `Check(now)` is `bool(debouncer)` at clock reading `now`. */
  class Debouncer {
    const interval: real
    var lastTime: real

    constructor(interval: real)
      ensures this.interval == interval && lastTime == 0.0
    {
      this.interval := interval;
      lastTime := 0.0;
    }

    /** True exactly when `interval` has elapsed since the last `true`; only then does the
        timer move to `now`. */
    method Check(now: real) returns (fired: bool)
      modifies this
      ensures fired <==> Cooldown.Open(interval, old(lastTime), now)
      ensures lastTime == (if fired then now else old(lastTime))
    {
      if now - lastTime >= interval {
        lastTime := now;
        return true;
      }
      return false;
    }
  }

  // ---------------------------------------------------------------------------
  // _handle_detections
  // ---------------------------------------------------------------------------

  /** `_ball_was_present`, `_consecutive_no_ball` and the debouncer's `_last_time`. */
  datatype TrackState = TrackState(ballWasPresent: bool, consecutiveNoBall: nat, lastTime: real)

  /** `any(obj["label"] == "sports ball" for obj in objects)`. */
  predicate BallDetected(objects: seq<DetectionModel.DetectedObject>)
  {
    exists k :: 0 <= k < |objects| && objects[k].classLabel == "sports ball"
  }

  /** One call of `_handle_detections`: the new state and the prompt handed to
      `_commentate`, if any. `choice` is the index `random.choice` picks. */
  function Step(interval: real, s: TrackState, ball: bool, now: real, choice: nat): (r: (TrackState, Option<string>))
    requires choice < |CommentaryPrompts|
    // a ball frame resets the counter and marks the ball seen; a ball-free frame counts one more
    ensures ball ==> r.0.ballWasPresent && r.0.consecutiveNoBall == 0
    ensures !ball ==> r.0.consecutiveNoBall == s.consecutiveNoBall + 1 && r.0.ballWasPresent == s.ballWasPresent
    // a prompt is issued exactly when the debouncer fired, which moves its timer
    ensures r.1.Some? ==> Cooldown.Open(interval, s.lastTime, now) && r.0.lastTime == now
    ensures r.1.None? ==> r.0.lastTime == s.lastTime
    // reappearance: one play-result prompt at most, and never the routine one
    ensures ball && s.consecutiveNoBall >= NoBallThreshold ==>
              (r.1.Some? <==> Cooldown.Open(interval, s.lastTime, now)) && (r.1.Some? ==> r.1.value == PlayResultPrompt)
    // ordinary ball frame: the routine prompt if the debouncer is open
    ensures ball && s.consecutiveNoBall < NoBallThreshold ==>
              (r.1.Some? <==> Cooldown.Open(interval, s.lastTime, now))
              && (r.1.Some? ==> r.1.value == CommentaryPrompts[choice])
    // big play: counter at the threshold, ball seen before, debouncer open; the debouncer
    // is not even consulted unless the first two hold
    ensures !ball ==>
              (r.1.Some? <==> s.consecutiveNoBall + 1 >= NoBallThreshold && s.ballWasPresent
                               && Cooldown.Open(interval, s.lastTime, now))
              && (r.1.Some? ==> r.1.value == BigPlayPrompt)
    ensures !ball && !(s.consecutiveNoBall + 1 >= NoBallThreshold && s.ballWasPresent) ==> r.0.lastTime == s.lastTime
  {
    if ball && s.consecutiveNoBall >= NoBallThreshold then
      if Cooldown.Open(interval, s.lastTime, now) then (TrackState(true, 0, now), Some(PlayResultPrompt))
      else (TrackState(true, 0, s.lastTime), None)
    else if ball then
      if Cooldown.Open(interval, s.lastTime, now) then (TrackState(true, 0, now), Some(CommentaryPrompts[choice]))
      else (TrackState(true, 0, s.lastTime), None)
    else
      var count := s.consecutiveNoBall + 1;
      if count >= NoBallThreshold && s.ballWasPresent && Cooldown.Open(interval, s.lastTime, now) then
        (TrackState(s.ballWasPresent, count, now), Some(BigPlayPrompt))
      else (TrackState(s.ballWasPresent, count, s.lastTime), None)
  }

  /** One frame's input: whether the ball was detected, the clock, the random pick. */
  datatype Frame = Frame(ball: bool, now: real, choice: nat)

  predicate ValidFrames(frames: seq<Frame>)
  {
    forall k :: 0 <= k < |frames| ==> frames[k].choice < |CommentaryPrompts|
  }

  function OptSeq<T>(o: Option<T>): seq<T>
  {
    if o.Some? then [o.value] else []
  }

  /** `_handle_detections` over a run of frames: final state and the prompt of each frame. */
  function Run(interval: real, s: TrackState, frames: seq<Frame>): (r: (TrackState, seq<Option<string>>))
    requires ValidFrames(frames)
    ensures |r.1| == |frames|
    decreases |frames|
  {
    if frames == [] then (s, [])
    else
      var f := frames[|frames| - 1];
      var (s', ps) := Run(interval, s, frames[..|frames| - 1]);
      var (s'', p) := Step(interval, s', f.ball, f.now, f.choice);
      (s'', ps + [p])
  }

  predicate ClockNondecreasing(frames: seq<Frame>)
  {
    forall i, j :: 0 <= i < j < |frames| ==> frames[i].now <= frames[j].now
  }

  lemma {:induction false} RunRemembersLastPrompt(interval: real, s: TrackState, frames: seq<Frame>)
    requires ValidFrames(frames) && ClockNondecreasing(frames)
    ensures forall i :: 0 <= i < |frames| && Run(interval, s, frames).1[i].Some? ==>
              frames[i].now <= Run(interval, s, frames).0.lastTime
    decreases |frames|
  {
    if frames != [] {
      RunRemembersLastPrompt(interval, s, frames[..|frames| - 1]);
    }
  }

  /** The debouncer spaces the commentary: any two prompts of a session are at least
      `interval` seconds apart, whatever the detections were. */
  lemma {:induction false} PromptsSpaced(interval: real, s: TrackState, frames: seq<Frame>)
    requires ValidFrames(frames) && ClockNondecreasing(frames)
    ensures forall i, j ::
              (0 <= i < j < |frames| && Run(interval, s, frames).1[i].Some? && Run(interval, s, frames).1[j].Some?)
              ==> frames[j].now - frames[i].now >= interval
    decreases |frames|
  {
    if frames != [] {
      PromptsSpaced(interval, s, frames[..|frames| - 1]);
      RunRemembersLastPrompt(interval, s, frames[..|frames| - 1]);
    }
  }

  /** Without a latch the big-play prompt repeats within one absence: after two ball-free
      frames following a sighting, two more ball-free frames an interval apart both prompt. */
  lemma BigPlayRepeats(interval: real, last: real, t: real, choice: nat)
    requires Cooldown.Open(interval, last, t) && choice < |CommentaryPrompts|
    ensures var (s1, p1) := Step(interval, TrackState(true, 2, last), false, t, choice);
            var (s2, p2) := Step(interval, s1, false, t + interval, choice);
            p1 == Some(BigPlayPrompt) && p2 == Some(BigPlayPrompt) && s2.consecutiveNoBall == 4
  {
  }

  // ---------------------------------------------------------------------------
  // _commentate post-processing
  // ---------------------------------------------------------------------------

  /** `\w` on the ASCII range. */
  predicate WordChar(c: char)
  {
    'a' <= c <= 'z' || 'A' <= c <= 'Z' || '0' <= c <= '9' || c == '_'
  }

  const TagOpen: string := "[EMOTION:"

  /** Length of the run of word characters starting at `i`. */
  function WordRun(s: string, i: nat): (n: nat)
    requires i <= |s|
    ensures i + n <= |s|
    ensures forall k :: i <= k < i + n ==> WordChar(s[k])
    ensures i + n < |s| ==> !WordChar(s[i + n])
    decreases |s| - i
  {
    if i < |s| && WordChar(s[i]) then 1 + WordRun(s, i + 1) else 0
  }

  /** Length of the run of `\s` characters starting at `i`. */
  function SpaceRun(s: string, i: nat): (n: nat)
    requires i <= |s|
    ensures i + n <= |s|
    decreases |s| - i
  {
    if i < |s| && PySpace(s[i]) then 1 + SpaceRun(s, i + 1) else 0
  }

  /** The run is all whitespace and stops at the first character that is not. */
  lemma {:induction false} SpaceRunFacts(s: string, i: nat)
    requires i <= |s|
    ensures forall k :: i <= k < i + SpaceRun(s, i) ==> PySpace(s[k])
    ensures i + SpaceRun(s, i) < |s| ==> !PySpace(s[i + SpaceRun(s, i)])
    decreases |s| - i
  {
    if i < |s| && PySpace(s[i]) {
      SpaceRunFacts(s, i + 1);
    }
  }

  /** Where a match of `\[EMOTION:\w+\]` starting at 0 ends, if there is one. `\w+` is
      greedy and `]` is not a word character, so there is no backtracking to do. */
  function TagEnd(s: string): (r: Option<nat>)
    ensures r.Some? ==> |TagOpen| + 2 <= r.value <= |s| && s[r.value - 1] == ']'
  {
    if StartsWith(s, TagOpen) then
      var n := WordRun(s, |TagOpen|);
      if n > 0 && |TagOpen| + n < |s| && s[|TagOpen| + n] == ']' then Some(|TagOpen| + n + 1) else None
    else None
  }

  /** `_EMOTION_RE.sub("", s)`: scanning left to right, each tag and the whitespace after
      it are dropped and every other character is kept. */
  function StripTags(s: string): string
    decreases |s|, 1
  {
    if |s| == 0 then "" else StripAt(s, TagEnd(s))
  }

  /** One step of `StripTags` on a non-empty `s` once it is known whether a tag starts it. */
  function StripAt(s: string, tag: Option<nat>): string
    requires |s| > 0 && (tag.Some? ==> 0 < tag.value <= |s|)
    decreases |s|, 0
  {
    match tag
    case Some(e) => StripTags(s[e + SpaceRun(s, e)..])
    case None => [s[0]] + StripTags(s[1..])
  }

  /** `re.match(r"\[EMOTION:(\w+)\]", s)`'s group, or "neutral". */
  function Emotion(s: string): (e: string)
    ensures e == "neutral" || (|e| > 0 && StartsWith(s, TagOpen + e + "]") && forall k :: 0 <= k < |e| ==> WordChar(e[k]))
  {
    match TagEnd(s)
    case Some(end) =>
      assert s[..end] == TagOpen + s[|TagOpen|..end - 1] + "]";
      s[|TagOpen|..end - 1]
    case None => "neutral"
  }

  /** The display (and speech) text: tags removed, then stripped. */
  function DisplayText(s: string): (r: string)
    ensures |r| > 0 ==> !PySpace(r[0]) && !PySpace(r[|r| - 1])
  {
    TrimEnds(StripTags(s), PySpace);
    PyStrip(StripTags(s))
  }

  /** Text without any `[` has no tag to remove. */
  lemma {:induction false} StripTagsNoBracket(s: string)
    requires '[' !in s
    ensures StripTags(s) == s
    decreases |s|
  {
    if |s| > 0 {
      NoTagWithoutBracket(s);
      assert '[' !in s[1..];
      StripTagsNoBracket(s[1..]);
      assert s == [s[0]] + s[1..];
    }
  }

  lemma NoTagWithoutBracket(s: string)
    requires |s| > 0 && s[0] != '['
    ensures TagEnd(s).None?
    ensures StripTags(s) == [s[0]] + StripTags(s[1..])
  {
    assert TagOpen[0] == '[';
    assert |s| >= |TagOpen| ==> s[..|TagOpen|][0] == s[0];
  }

  /** The run of word characters after the tag opener is exactly the tag's word. */
  lemma WordRunOfTag(w: string, body: string)
    requires |w| > 0 && forall k :: 0 <= k < |w| ==> WordChar(w[k])
    ensures TagEnd(TagOpen + w + "]" + body) == Some(|TagOpen| + |w| + 1)
  {
    var s := TagOpen + w + "]" + body;
    var n := WordRun(s, |TagOpen|);
    assert forall k :: 0 <= k < |w| ==> s[|TagOpen| + k] == w[k];
    assert s[|TagOpen| + |w|] == ']';
    assert !WordChar(']');
    assert n <= |w|;
    assert forall k :: |TagOpen| <= k < |TagOpen| + |w| ==> WordChar(s[k]);
    assert s[..|TagOpen|] == TagOpen;
  }

  /** A reply of the shape the instructions ask for: a leading emotion tag, then the
      commentary. The tag's word is the emotion, and the display text is the commentary
      stripped, without the tag or the whitespace after it. */
  lemma TaggedReply(w: string, body: string)
    requires |w| > 0 && forall k :: 0 <= k < |w| ==> WordChar(w[k])
    requires '[' !in body
    ensures Emotion(TagOpen + w + "]" + body) == w
    ensures DisplayText(TagOpen + w + "]" + body) == PyStrip(body)
  {
    TaggedEmotion(w, body);
    TaggedDisplay(w, body);
  }

  lemma TaggedEmotion(w: string, body: string)
    requires |w| > 0 && forall k :: 0 <= k < |w| ==> WordChar(w[k])
    ensures Emotion(TagOpen + w + "]" + body) == w
  {
    var s := TagOpen + w + "]" + body;
    WordRunOfTag(w, body);
    assert s[|TagOpen|..|TagOpen| + |w|] == w;
  }

  lemma TaggedDisplay(w: string, body: string)
    requires |w| > 0 && forall k :: 0 <= k < |w| ==> WordChar(w[k])
    requires '[' !in body
    ensures DisplayText(TagOpen + w + "]" + body) == PyStrip(body)
  {
    var sp := TagThenSpaces(w, body);
    var rest := body[sp..];
    assert '[' !in rest;
    StripTagsNoBracket(rest);
    assert body == body[..sp] + rest;
    TrimSkipsSpace(body[..sp], rest, PySpace);
  }

  /** Removing a leading tag also removes the `sp` whitespace characters after it. */
  lemma TagThenSpaces(w: string, body: string) returns (sp: nat)
    requires |w| > 0 && forall k :: 0 <= k < |w| ==> WordChar(w[k])
    ensures sp <= |body|
    ensures StripTags(TagOpen + w + "]" + body) == StripTags(body[sp..])
    ensures AllSatisfy(body[..sp], PySpace)
  {
    var s := TagOpen + w + "]" + body;
    var e := |TagOpen| + |w| + 1;
    WordRunOfTag(w, body);
    assert s[e..] == body;
    sp := SpaceRun(s, e);
    StripLeadingTag(s, e);
    SpacesAfter(s, e, body);
  }

  lemma StripLeadingTag(s: string, e: nat)
    requires TagEnd(s) == Some(e)
    ensures StripTags(s) == StripTags(s[e + SpaceRun(s, e)..])
  {
    assert StripTags(s) == StripAt(s, Some(e));
  }

  /** The whitespace run after position `e` is a prefix of whitespace of what follows. */
  lemma SpacesAfter(s: string, e: nat, body: string)
    requires e <= |s| && s[e..] == body
    ensures SpaceRun(s, e) <= |body|
    ensures s[e + SpaceRun(s, e)..] == body[SpaceRun(s, e)..]
    ensures AllSatisfy(body[..SpaceRun(s, e)], PySpace)
  {
    var sp := SpaceRun(s, e);
    SpaceRunFacts(s, e);
    forall k | 0 <= k < sp
      ensures PySpace(body[..sp][k])
    {
      assert body[..sp][k] == s[e + k];
    }
  }

  /** The whitespace run depends only on what follows its start. */
  lemma {:induction false} SpaceRunShift(s: string, e: nat, t: string, j: nat)
    requires e <= |s| && j <= |t| && s[e..] == t[j..]
    ensures SpaceRun(s, e) == SpaceRun(t, j)
    decreases |s| - e
  {
    if e < |s| {
      assert s[e] == t[j];
      assert s[e + 1..] == t[j + 1..];
      SpaceRunShift(s, e + 1, t, j + 1);
    }
  }

  /** A tag anywhere after bracket-free text `a`: the text before it is kept, and the tag
      and the whitespace after it are removed. */
  lemma {:induction false} StripTagsAfterText(a: string, w: string, b: string)
    requires '[' !in a
    requires |w| > 0 && forall k :: 0 <= k < |w| ==> WordChar(w[k])
    ensures StripTags(a + TagOpen + w + "]" + b) == a + StripTags(b[SpaceRun(b, 0)..])
    decreases |a|
  {
    var s := a + TagOpen + w + "]" + b;
    if a == [] {
      var t := TagOpen + w + "]" + b;
      assert s == t;
      var e := |TagOpen| + |w| + 1;
      WordRunOfTag(w, b);
      assert t[e..] == b[0..];
      SpaceRunShift(t, e, b, 0);
      StripLeadingTag(t, e);
      assert t[e + SpaceRun(t, e)..] == b[SpaceRun(b, 0)..];
    } else {
      NoTagWithoutBracket(s);
      assert s[1..] == a[1..] + TagOpen + w + "]" + b;
      StripTagsAfterText(a[1..], w, b);
      assert s[0] == a[0];
      AppendAssoc([a[0]], a[1..], StripTags(b[SpaceRun(b, 0)..]));
      assert [a[0]] + a[1..] == a;
    }
  }

  /** A reply whose commentary carries tags after its start: each is removed with the
      whitespace after it, the rest is kept, and the whole is then stripped. */
  lemma TagsInsideReply(a: string, w: string, b: string)
    requires '[' !in a && '[' !in b
    requires |w| > 0 && forall k :: 0 <= k < |w| ==> WordChar(w[k])
    ensures DisplayText(a + TagOpen + w + "]" + b) == PyStrip(a + b[SpaceRun(b, 0)..])
  {
    StripTagsAfterText(a, w, b);
    var rest := b[SpaceRun(b, 0)..];
    assert '[' !in rest;
    StripTagsNoBracket(rest);
  }

  /** A reply without any `[` is shown stripped, with the neutral emotion. */
  lemma UntaggedReply(s: string)
    requires '[' !in s
    ensures Emotion(s) == "neutral" && DisplayText(s) == PyStrip(s)
  {
    StripTagsNoBracket(s);
    if |s| > 0 {
      NoTagWithoutBracket(s);
    }
  }

  /** `speed_map` in `_synthesize_speech`. */
  const SpeedMap: map<string, real> := map[
    "excited" := 1.2, "tense" := 1.1, "thoughtful" := 0.9,
    "celebratory" := 1.15, "disappointed" := 0.85, "urgent" := 1.2]

  /** `speed_map.get(emotion, 1.0)`. */
  function Speed(emotion: string): real
  {
    if emotion in SpeedMap then SpeedMap[emotion] else 1.0
  }

  /** Every emotion gets a speed between 0.85 and 1.2; exactly the six listed emotions get a
      speed other than 1.0, and the neutral default speaks at normal speed. */
  lemma SpeedTable(emotion: string)
    ensures 0.85 <= Speed(emotion) <= 1.2
    ensures Speed(emotion) != 1.0 <==> emotion in {"excited", "tense", "thoughtful", "celebratory", "disappointed", "urgent"}
    ensures Speed("neutral") == 1.0
  {
  }

  /** The JSON message sent to the front end (its `audio` field is not modelled), together
      with the speed the speech was synthesised at. */
  datatype Commentary = Commentary(text: string, emotion: string, speed: real)

  /** `_commentate` once the reply is known: an empty reply produces nothing (no speech,
      no message); otherwise the speech and the message both carry the display text. */
  function CommentaryFor(reply: string): (r: Option<Commentary>)
    ensures r.None? <==> reply == ""
  {
    if reply == "" then None
    else
      var e := Emotion(reply);
      Some(Commentary(DisplayText(reply), e, Speed(e)))
  }

  /** A content block of the model's reply. */
  datatype ContentBlock = TextBlock(text: string) | OtherBlock

  /** `_generate_commentary`: the first block's text when it is a text block, else "". */
  function GenerateCommentary(content: seq<ContentBlock>): (r: string)
    ensures r != "" ==> |content| > 0 && content[0] == TextBlock(r)
  {
    if |content| > 0 && content[0].TextBlock? then content[0].text else ""
  }

  // ---------------------------------------------------------------------------
  // The pipeline object
  // ---------------------------------------------------------------------------

  class BaseCommentaryPipeline {
    var running: bool
    var modelLoaded: bool
    var classNames: DetectionModel.ClassNames
    var ballWasPresent: bool
    var consecutiveNoBall: nat
    const debouncer: Debouncer
    /** Prompts handed to `_commentate`, oldest first. */
    var prompts: seq<string>
    /** Commentary messages sent over the socket, oldest first. */
    var sent: seq<Commentary>

    function State(): TrackState
      reads this, debouncer
    {
      TrackState(ballWasPresent, consecutiveNoBall, debouncer.lastTime)
    }

    constructor(commentaryCooldown: real)
      ensures State() == TrackState(false, 0, 0.0) && debouncer.interval == commentaryCooldown
      ensures !running && !modelLoaded && classNames == [] && prompts == [] && sent == []
      ensures fresh(debouncer)
    {
      running := false;
      modelLoaded := false;
      classNames := [];
      ballWasPresent := false;
      consecutiveNoBall := 0;
      debouncer := new Debouncer(commentaryCooldown);
      prompts := [];
      sent := [];
    }

    /** `_filter_detections`: only person and sports-ball class ids survive; without a class
        id column the detections come back unchanged. */
    method FilterDetections(d: DetectionModel.Detections) returns (r: DetectionModel.Detections)
      ensures d.Unlabelled? ==> r == d
      ensures d.Labelled? ==> r == DetectionModel.KeepAllowed(d, DetectionModel.AllowedSet(classNames, TrackedClasses))
    {
      if d.Unlabelled? {
        return d;
      }
      var ids := DetectionModel.AllowedIds(classNames, TrackedClasses);
      r := DetectionModel.KeepAllowed(d, ids);
    }

    /** The detections of one frame once inference has run (`predicted`); without a
        model there are none. */
    function Detected(predicted: DetectionModel.Detections): seq<DetectionModel.DetectedObject>
      reads this
    {
      if !modelLoaded then []
      else
        var kept := if predicted.Unlabelled? then predicted
                    else DetectionModel.KeepAllowed(predicted, DetectionModel.AllowedSet(classNames, TrackedClasses));
        DetectionModel.Objects(classNames, kept)
    }

    /** `_detect_from_array`, with the model's prediction passed in. */
    method DetectFromArray(predicted: DetectionModel.Detections) returns (objects: seq<DetectionModel.DetectedObject>)
      ensures objects == Detected(predicted)
    {
      if !modelLoaded {
        return [];
      }
      var kept := FilterDetections(predicted);
      objects := DetectionModel.BuildObjects(classNames, kept);
    }

    /** `_handle_detections` at clock reading `now`, `choice` being the random pick. */
    method HandleDetections(objects: seq<DetectionModel.DetectedObject>, now: real, choice: nat)
      requires choice < |CommentaryPrompts|
      modifies this, debouncer
      ensures var (s, p) := Step(debouncer.interval, old(State()), BallDetected(objects), now, choice);
              State() == s && prompts == old(prompts) + OptSeq(p)
      ensures running == old(running) && modelLoaded == old(modelLoaded) && classNames == old(classNames)
      ensures sent == old(sent)
    {
      var ballDetected := exists k :: 0 <= k < |objects| && objects[k].classLabel == "sports ball";
      if ballDetected && consecutiveNoBall >= NoBallThreshold {
        consecutiveNoBall := 0;
        ballWasPresent := true;
        var fired := debouncer.Check(now);
        if fired {
          prompts := prompts + [PlayResultPrompt];
        }
        return;
      }
      if ballDetected {
        consecutiveNoBall := 0;
        ballWasPresent := true;
        var fired := debouncer.Check(now);
        if fired {
          prompts := prompts + [CommentaryPrompts[choice]];
        }
      } else {
        consecutiveNoBall := consecutiveNoBall + 1;
        if consecutiveNoBall >= NoBallThreshold && ballWasPresent {
          var fired := debouncer.Check(now);
          if fired {
            prompts := prompts + [BigPlayPrompt];
          }
        }
      }
    }

    /** `_commentate` once the model has replied with `reply`. */
    method Commentate(reply: string)
      modifies this
      ensures sent == old(sent) + OptSeq(CommentaryFor(reply))
      ensures prompts == old(prompts) && State() == old(State()) && running == old(running)
      ensures modelLoaded == old(modelLoaded) && classNames == old(classNames)
    {
      if reply == "" {
        return;
      }
      var displayText := PyStrip(StripTags(reply));
      var emotion := Emotion(reply);
      var speed := Speed(emotion);
      sent := sent + [Commentary(displayText, emotion, speed)];
    }

    /** `initialize` once the model is loaded (`classNames` is its class map). */
    method Initialize(classNames: DetectionModel.ClassNames)
      modifies this
      ensures running && modelLoaded && this.classNames == classNames
      ensures State() == old(State()) && prompts == old(prompts) && sent == old(sent)
    {
      running := true;
      modelLoaded := true;
      this.classNames := classNames;
    }

    /** `LiveCommentaryPipeline.process_frame`: ignored unless running; otherwise detection
        then ball tracking. */
    method ProcessFrame(predicted: DetectionModel.Detections, now: real, choice: nat)
      requires choice < |CommentaryPrompts|
      modifies this, debouncer
      ensures !old(running) ==> State() == old(State()) && prompts == old(prompts)
      ensures old(running) ==>
                var (s, p) := Step(debouncer.interval, old(State()), BallDetected(old(Detected(predicted))), now, choice);
                State() == s && prompts == old(prompts) + OptSeq(p)
      ensures running == old(running) && sent == old(sent)
    {
      if !running {
        return;
      }
      var objects := DetectFromArray(predicted);
      HandleDetections(objects, now, choice);
    }
  }
}
