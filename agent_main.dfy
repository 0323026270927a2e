/** agent/main.py: the real-time agent's event-driven commentary. `create_agent` keeps a
    `Debouncer` and two `nonlocal` tracking variables in a closure, and the `on_detection`
    subscriber updates them on every detection event and asks the agent for commentary. */
module AgentMain {
  import opened Util
  import Cooldown
  import DetectionModel
  import Pipeline

  /** `NO_BALL_THRESHOLD` of the closure. */
  const NoBallThreshold: nat := 3

  /** agent/main.py's own copy of the time-based debouncer. */
  class Debouncer {
    const interval: real
    var lastTime: real

    constructor(interval: real)
      ensures this.interval == interval && lastTime == 0.0
    {
      this.interval := interval;
      lastTime := 0.0;
    }

    /** `bool(debouncer)` at clock reading `now`: true exactly when `interval` has
        elapsed since the last `true`, and only then the timer moves to `now`. */
    method Check(now: real) returns (fired: bool)
      modifies this
      ensures fired <==> Cooldown.Open(interval, old(lastTime), now)
      ensures lastTime == (if fired then now else old(lastTime))
    {
      if now - lastTime >= interval {
        lastTime := now;
        return true;
      }
      return false;
    }
  }

  /** The closure state of `create_agent` and the prompts passed to `agent.simple_response`. */
  class DetectionSubscriber {
    var ballWasPresent: bool
    var consecutiveNoBall: nat
    const debouncer: Debouncer
    var responses: seq<string>

    function State(): Pipeline.TrackState
      reads this, debouncer
    {
      Pipeline.TrackState(ballWasPresent, consecutiveNoBall, debouncer.lastTime)
    }

    /** The closure as `create_agent` sets it up: ball not present, counter 0. */
    constructor(commentaryCooldown: real)
      ensures State() == Pipeline.TrackState(false, 0, 0.0) && debouncer.interval == commentaryCooldown
      ensures responses == [] && fresh(debouncer)
    {
      ballWasPresent := false;
      consecutiveNoBall := 0;
      debouncer := new Debouncer(commentaryCooldown);
      responses := [];
    }

    /** `on_detection` at clock reading `now`, `choice` being the random pick. Its
        transitions and prompts are exactly those of agent/pipeline.py's
        `_handle_detections`. */
    method OnDetection(objects: seq<DetectionModel.DetectedObject>, now: real, choice: nat)
      requires choice < |Pipeline.CommentaryPrompts|
      modifies this, debouncer
      ensures var (s, p) := Pipeline.Step(debouncer.interval, old(State()), Pipeline.BallDetected(objects), now, choice);
              State() == s && responses == old(responses) + Pipeline.OptSeq(p)
    {
      var ballDetected := exists k :: 0 <= k < |objects| && objects[k].classLabel == "sports ball";
      if ballDetected && consecutiveNoBall >= NoBallThreshold {
        consecutiveNoBall := 0;
        ballWasPresent := true;
        var fired := debouncer.Check(now);
        if fired {
          responses := responses + [Pipeline.PlayResultPrompt];
        }
        return;
      }
      if ballDetected {
        consecutiveNoBall := 0;
        ballWasPresent := true;
        var fired := debouncer.Check(now);
        if fired {
          responses := responses + [Pipeline.CommentaryPrompts[choice]];
        }
      } else {
        consecutiveNoBall := consecutiveNoBall + 1;
        if consecutiveNoBall >= NoBallThreshold && ballWasPresent {
          var fired := debouncer.Check(now);
          if fired {
            responses := responses + [Pipeline.BigPlayPrompt];
          }
        }
      }
    }
  }
}
