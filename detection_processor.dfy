/** agent/processors/detection_processor.py: the local RF-DETR processor. The model's
    prediction for a frame is an input; the processor filters it by the configured
    class names, turns it into `DetectedObject`s, publishes the frame and, with an
    agent attached, emits a detection event. Annotation, the output video track and
    the frame forwarder are reduced to counters and flags. */
module DetectionProcessor {
  import opened Util
  import opened DetectionModel

  /** `_filter_detections` with filter list `filterClasses` and class map `classNames`. */
  function Filtered(filterClasses: Option<seq<string>>, classNames: ClassNames, d: Detections): Detections
  {
    if filterClasses.None? || d.Unlabelled? then d
    else KeepAllowed(d, AllowedSet(classNames, filterClasses.value))
  }

  /** The filter returns its input when no classes are configured or there is no class
      id column; otherwise a detection survives exactly when the class map names its
      class id and that name is in the list, and the survivors keep their order. */
  lemma FilteredFacts(filterClasses: Option<seq<string>>, classNames: ClassNames, d: Detections,
                      a: seq<Row>, b: seq<Row>, row: Row)
    requires UniqueKeys(classNames)
    ensures filterClasses.None? || d.Unlabelled? ==> Filtered(filterClasses, classNames, d) == d
    ensures filterClasses.Some? && d.Labelled? ==>
              (row in Filtered(filterClasses, classNames, d).rows <==>
                 row in d.rows && Get(classNames, row.classId).Some?
                 && Get(classNames, row.classId).value in filterClasses.value)
    ensures filterClasses.Some? ==>
              Filtered(filterClasses, classNames, Labelled(a + b)).rows
              == Filtered(filterClasses, classNames, Labelled(a)).rows
                 + Filtered(filterClasses, classNames, Labelled(b)).rows
  {
    if filterClasses.Some? {
      AllowedByGet(classNames, filterClasses.value, row.classId);
      KeepAllowedAppend(a, b, AllowedSet(classNames, filterClasses.value));
      if d.Labelled? {
        var r := Filtered(filterClasses, classNames, d);
        if row in r.rows {
          var k :| 0 <= k < |r.rows| && r.rows[k] == row;
        }
        if row in d.rows && row.classId in AllowedSet(classNames, filterClasses.value) {
          var k :| 0 <= k < |d.rows| && d.rows[k] == row;
        }
      }
    }
  }

  /** `LocalDetectionProcessor`. */
  class LocalDetectionProcessor {
    const filterClasses: Option<seq<string>>
    var running: bool
    var modelLoaded: bool
    var classNames: ClassNames
    var agentAttached: bool
    var handlerRegistered: bool
    var framesPublished: nat
    var trackStopped: bool
    /** The `objects` of every detection event sent, in order. */
    var events: seq<seq<DetectedObject>>

    /** `__init__` with the `classes` argument. */
    constructor(classes: Option<seq<string>>)
      ensures filterClasses == classes
      ensures !running && !modelLoaded && classNames == [] && !agentAttached && !handlerRegistered
      ensures framesPublished == 0 && !trackStopped && events == []
    {
      filterClasses := classes;
      running := false;
      modelLoaded := false;
      classNames := [];
      agentAttached := false;
      handlerRegistered := false;
      framesPublished := 0;
      trackStopped := false;
      events := [];
    }

    /** `on_warmed_up`: the model and its class map are stored. */
    method OnWarmedUp(names: ClassNames)
      modifies this
      ensures modelLoaded && classNames == names
      ensures running == old(running) && agentAttached == old(agentAttached)
      ensures handlerRegistered == old(handlerRegistered) && framesPublished == old(framesPublished)
      ensures trackStopped == old(trackStopped) && events == old(events)
    {
      modelLoaded := true;
      classNames := names;
    }

    /** `attach_agent`. */
    method AttachAgent()
      modifies this
      ensures agentAttached
      ensures running == old(running) && modelLoaded == old(modelLoaded) && classNames == old(classNames)
      ensures handlerRegistered == old(handlerRegistered) && framesPublished == old(framesPublished)
      ensures trackStopped == old(trackStopped) && events == old(events)
    {
      agentAttached := true;
    }

    /** `process_video`: processing starts; the frame handler is registered when a
        shared forwarder is given. */
    method ProcessVideo(hasForwarder: bool)
      modifies this
      ensures running && handlerRegistered == (old(handlerRegistered) || hasForwarder)
      ensures modelLoaded == old(modelLoaded) && classNames == old(classNames)
      ensures agentAttached == old(agentAttached) && framesPublished == old(framesPublished)
      ensures trackStopped == old(trackStopped) && events == old(events)
    {
      running := true;
      if hasForwarder {
        handlerRegistered := true;
      }
    }

    /** `_filter_detections`. */
    method FilterDetections(d: Detections) returns (r: Detections)
      ensures r == Filtered(filterClasses, classNames, d)
    {
      if filterClasses.None? || d.Unlabelled? {
        return d;
      }
      var allowed := AllowedIds(classNames, filterClasses.value);
      r := KeepAllowed(d, allowed);
    }

    /** The objects one frame yields once inference returned `predicted`. */
    function FrameObjects(predicted: Detections): seq<DetectedObject>
      reads this
    {
      Objects(classNames, Filtered(filterClasses, classNames, predicted))
    }

    /** `_on_frame` for a frame the model predicts `predicted` on, `None` when the
        guarded block raised (inference, filtering, annotation or `add_frame`) and the
        catch-all skipped the frame: nothing unless running with a model loaded and the
        block succeeded; then the frame is published and, with an agent attached, an
        event carrying the frame's objects is sent. */
    method OnFrame(predicted: Option<Detections>)
      modifies this
      ensures !old(running) || !old(modelLoaded) || predicted.None? ==>
                framesPublished == old(framesPublished) && events == old(events)
      ensures old(running) && old(modelLoaded) && predicted.Some? ==>
                framesPublished == old(framesPublished) + 1
                && events == old(events) + (if agentAttached then [FrameObjects(predicted.value)] else [])
      ensures running == old(running) && modelLoaded == old(modelLoaded) && classNames == old(classNames)
      ensures agentAttached == old(agentAttached) && handlerRegistered == old(handlerRegistered)
      ensures trackStopped == old(trackStopped)
    {
      if !running || !modelLoaded {
        return;
      }
      if predicted.None? {
        return;
      }
      var kept := FilterDetections(predicted.value);
      var objects := BuildObjects(classNames, kept);
      framesPublished := framesPublished + 1;
      if agentAttached {
        events := events + [objects];
      }
    }

    /** `stop_processing`: processing stops, the frame handler is removed and the output
        track stopped. */
    method StopProcessing()
      modifies this
      ensures !running && !handlerRegistered && trackStopped
      ensures modelLoaded == old(modelLoaded) && classNames == old(classNames)
      ensures agentAttached == old(agentAttached) && framesPublished == old(framesPublished)
      ensures events == old(events)
    {
      running := false;
      if handlerRegistered {
        handlerRegistered := false;
      }
      trackStopped := true;
    }

    /** `close`: stops processing and drops the model and its class map. */
    method Close()
      modifies this
      ensures !running && !handlerRegistered && trackStopped
      ensures !modelLoaded && classNames == []
      ensures agentAttached == old(agentAttached) && framesPublished == old(framesPublished)
      ensures events == old(events)
    {
      StopProcessing();
      modelLoaded := false;
      classNames := [];
    }
  }

  /** Once closed the processor ignores frames until it is warmed up and started again. */
  method ClosedIgnoresFrames(p: LocalDetectionProcessor, predicted: Option<Detections>)
    modifies p
    ensures p.framesPublished == old(p.framesPublished) && p.events == old(p.events)
    ensures !p.running && !p.modelLoaded
  {
    p.Close();
    p.OnFrame(predicted);
  }
}
