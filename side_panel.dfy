/** extension/entrypoints/sidepanel/App.tsx: the side panel. Spoken commentary arrives as
    base64 clips that wait in a queue capped at five (the oldest is dropped when full) and
    are played one after another; written commentary is kept as a list of at most twenty
    items. Decoding a clip is an input (`decodes`), the clock is an input (`now`), and the
    messages sent to the service worker are recorded in `sent`. */
module SidePanel {
  import opened Util
  import Pipeline

  /** The queue's capacity in `enqueueAudio`. */
  const QueueCap: nat := 5
  /** `slice(-19)`: how many earlier items survive when a new one is added. */
  const KeptItems: nat := 19

  /** `EMOTION_COLORS`. */
  const EmotionColors: map<string, string> := map[
    "excited" := "#facc15", "tense" := "#f97316", "thoughtful" := "#60a5fa",
    "celebratory" := "#4ade80", "disappointed" := "#f87171", "urgent" := "#ef4444",
    "neutral" := "#9ca3af"]

  /** The border color of an item: its emotion's color, or the neutral one. */
  function EmotionColor(emotion: string): string
  {
    if emotion in EmotionColors then EmotionColors[emotion] else EmotionColors["neutral"]
  }

  /** An unknown emotion is drawn in the neutral color, and the neutral color belongs to
      no listed emotion other than `neutral`. */
  lemma EmotionColorTable(emotion: string)
    ensures emotion !in EmotionColors ==> EmotionColor(emotion) == "#9ca3af"
    ensures EmotionColor(emotion) == "#9ca3af" <==>
              emotion !in {"excited", "tense", "thoughtful", "celebratory", "disappointed", "urgent"}
  {
  }

  /** The side panel and the agent agree on which emotions are special: an emotion has a
      color of its own exactly when the agent speaks it at a speed other than normal. */
  lemma ColorsMatchSpeeds(emotion: string)
    ensures EmotionColor(emotion) != EmotionColor("neutral") <==> Pipeline.Speed(emotion) != 1.0
  {
    EmotionColorTable(emotion);
    Pipeline.SpeedTable(emotion);
  }

  /** `a` is what is left of `b` after dropping some of its first elements. */
  predicate IsSuffix<T(==)>(a: seq<T>, b: seq<T>)
  {
    |a| <= |b| && a == b[|b| - |a|..]
  }

  lemma SuffixTrans<T>(a: seq<T>, b: seq<T>, c: seq<T>)
    requires IsSuffix(a, b) && IsSuffix(b, c)
    ensures IsSuffix(a, c)
  {
    assert a == c[|c| - |b|..][|b| - |a|..];
  }

  // ---- audio queue ----

  /** The queue once `enqueueAudio` has made room and pushed `clip`. */
  function Enqueued(queue: seq<string>, clip: string): seq<string>
  {
    (if |queue| >= QueueCap then queue[1..] else queue) + [clip]
  }

  /** The queue keeps the newest entries in arrival order: it grows by one until it is
      full, after which the oldest entry makes room, and the new clip is always last. */
  lemma EnqueuedKeepsNewest(queue: seq<string>, clip: string)
    ensures |Enqueued(queue, clip)| == if |queue| < QueueCap then |queue| + 1 else |queue|
    ensures |queue| <= QueueCap ==> |Enqueued(queue, clip)| <= QueueCap
    ensures IsSuffix(Enqueued(queue, clip), queue + [clip])
    ensures Enqueued(queue, clip)[|Enqueued(queue, clip)| - 1] == clip
  {
    if |queue| >= QueueCap {
      assert (queue + [clip])[1..] == queue[1..] + [clip];
    }
  }

  /** `playNextInQueue` on `queue`: clips that fail to decode are skipped; the first one
      that decodes is taken off the queue and played. Returns the remaining queue and the
      clip now playing, if any. */
  function NextClip(queue: seq<string>, decodes: string -> bool): (seq<string>, Option<string>)
    decreases |queue|
  {
    if queue == [] then ([], None)
    else if decodes(queue[0]) then (queue[1..], Some(queue[0]))
    else NextClip(queue[1..], decodes)
  }

  /** The clip played is the first in the queue that decodes, and only the clips before it
      are thrown away; when none decodes, nothing plays and the queue is left empty. */
  lemma {:induction false} NextClipFacts(queue: seq<string>, decodes: string -> bool)
    ensures IsSuffix(NextClip(queue, decodes).0, queue)
    ensures NextClip(queue, decodes).1.None? <==> forall k :: 0 <= k < |queue| ==> !decodes(queue[k])
    ensures NextClip(queue, decodes).1.None? ==> NextClip(queue, decodes).0 == []
    ensures NextClip(queue, decodes).1.Some? ==>
              var rest := NextClip(queue, decodes).0;
              |rest| < |queue| && NextClip(queue, decodes).1.value == queue[|queue| - |rest| - 1]
              && decodes(queue[|queue| - |rest| - 1])
              && forall k :: 0 <= k < |queue| - |rest| - 1 ==> !decodes(queue[k])
    decreases |queue|
  {
    if queue != [] && !decodes(queue[0]) {
      NextClipFacts(queue[1..], decodes);
      var rest := NextClip(queue, decodes).0;
      assert queue[1..][|queue| - 1 - |rest|..] == queue[|queue| - |rest|..];
      forall k | 1 <= k < |queue|
        ensures queue[k] == queue[1..][k - 1]
      {
      }
    }
  }

  /** `enqueueAudio` with `current` the clip playing, if any: a playing queue only grows;
      an idle one starts playing straight away. */
  function Enqueue(queue: seq<string>, current: Option<string>, clip: string, decodes: string -> bool)
    : (r: (seq<string>, Option<string>))
    ensures current.Some? ==> r.1 == current && |r.0| > 0 && r.0[|r.0| - 1] == clip
    ensures |queue| <= QueueCap ==> |r.0| <= QueueCap
    ensures current.None? && queue == [] ==> r == ([], if decodes(clip) then Some(clip) else None)
  {
    var q := Enqueued(queue, clip);
    EnqueuedKeepsNewest(queue, clip);
    NextClipFacts(q, decodes);
    if current.Some? then (q, current) else NextClip(q, decodes)
  }

  // ---- commentary list ----

  /** One rendered item of the commentary list. */
  datatype CommentaryItem = CommentaryItem(id: nat, text: string, emotion: string,
                                           timestamp: int, annotatedFrame: Option<string>)

  /** A `COMMENTARY` message from the service worker; absent fields are `None`. */
  datatype CommentaryMessage = CommentaryMessage(text: string, emotion: Option<string>,
                                                 annotatedFrame: Option<string>, audio: Option<string>)

  /** JavaScript truthiness of an optional string. */
  predicate Truthy(s: Option<string>)
  {
    s.Some? && s.value != ""
  }

  /** `message.emotion || 'neutral'`. */
  function EmotionOrNeutral(emotion: Option<string>): (e: string)
    ensures e != ""
    ensures Truthy(emotion) ==> e == emotion.value
    ensures !Truthy(emotion) ==> e == "neutral"
  {
    if Truthy(emotion) then emotion.value else "neutral"
  }

  /** `[...prev.slice(-19), item]`. */
  function KeepLatest(list: seq<CommentaryItem>, item: CommentaryItem): seq<CommentaryItem>
  {
    var start := if |list| > KeptItems then |list| - KeptItems else 0;
    list[start..] + [item]
  }

  /** At most twenty items remain, they are the newest ones in order, and the new item is
      last. */
  lemma KeepLatestFacts(list: seq<CommentaryItem>, item: CommentaryItem)
    ensures |KeepLatest(list, item)| == (if |list| > KeptItems then KeptItems else |list|) + 1
    ensures |KeepLatest(list, item)| <= KeptItems + 1
    ensures IsSuffix(KeepLatest(list, item), list + [item])
    ensures KeepLatest(list, item)[|KeepLatest(list, item)| - 1] == item
  {
    var start := if |list| > KeptItems then |list| - KeptItems else 0;
    assert (list + [item])[start..] == list[start..] + [item];
  }

  /** Item ids strictly increase along the list. */
  predicate IdsIncreasing(list: seq<CommentaryItem>)
  {
    forall i, j :: 0 <= i < j < |list| ==> list[i].id < list[j].id
  }

  /** Every id in the list is below `n`. */
  predicate IdsBelow(list: seq<CommentaryItem>, n: nat)
  {
    forall i :: 0 <= i < |list| ==> list[i].id < n
  }

  /** Adding an item whose id is above every listed id keeps the ids increasing. */
  lemma KeepLatestIncreasing(list: seq<CommentaryItem>, item: CommentaryItem)
    requires IdsIncreasing(list) && IdsBelow(list, item.id)
    ensures IdsIncreasing(KeepLatest(list, item)) && IdsBelow(KeepLatest(list, item), item.id + 1)
  {
    var start := if |list| > KeptItems then |list| - KeptItems else 0;
    var r := KeepLatest(list, item);
    forall i | 0 <= i < |r| - 1
      ensures r[i] == list[start + i]
    {
    }
  }

  /** The panel's audio and commentary state. */
  class SidePanel {
    /** `audioQueueRef.current`. */
    var queue: seq<string>
    /** `isPlayingRef.current`. */
    var isPlaying: bool
    /** The clip held by `currentAudioRef.current`, if any. */
    var current: Option<string>
    /** Every clip handed to the audio element, in order. */
    var played: seq<string>
    /** Every clip ever enqueued, in order. */
    ghost var enqueued: seq<string>
    var commentary: seq<CommentaryItem>
    /** `nextIdRef.current`. */
    var nextId: nat
    var latestFrame: Option<string>
    /** Message types sent to the service worker. */
    var sent: seq<string>

    /** The queue holds at most five clips, the newest ones enqueued in their order, and
        a clip is current exactly while playing. The list holds at most twenty items with
        increasing ids below `nextId`. */
    ghost predicate Consistent()
      reads this
    {
      |queue| <= QueueCap && IsSuffix(queue, enqueued) && (isPlaying <==> current.Some?)
      && |commentary| <= KeptItems + 1 && IdsIncreasing(commentary) && IdsBelow(commentary, nextId)
    }

    /** Between events, moreover, an idle panel has an empty queue. */
    ghost predicate Valid()
      reads this
    {
      Consistent() && (!isPlaying ==> queue == [])
    }

    constructor()
      ensures Valid()
      ensures queue == [] && !isPlaying && current.None? && played == [] && enqueued == []
      ensures commentary == [] && nextId == 0 && latestFrame.None? && sent == []
    {
      queue := [];
      isPlaying := false;
      current := None;
      played := [];
      enqueued := [];
      commentary := [];
      nextId := 0;
      latestFrame := None;
      sent := [];
    }

    /** `stopAllAudio`: the queue is emptied and playback stops. */
    method StopAllAudio()
      requires Valid()
      modifies this
      ensures Valid()
      ensures queue == [] && !isPlaying && current.None?
      ensures played == old(played) && enqueued == old(enqueued)
      ensures commentary == old(commentary) && nextId == old(nextId)
      ensures latestFrame == old(latestFrame) && sent == old(sent)
    {
      queue := [];
      isPlaying := false;
      if current.Some? {
        current := None;
      }
    }

    /** `playNextInQueue`, also run when a clip ends, fails or is refused by the player:
        undecodable clips are skipped, the first decodable one is played, and an empty
        queue stops playback. */
    method PlayNextInQueue(decodes: string -> bool)
      requires Consistent()
      modifies this
      ensures Valid()
      ensures (queue, current) == NextClip(old(queue), decodes)
      ensures isPlaying == current.Some?
      ensures played == old(played) + (if current.Some? then [current.value] else [])
      ensures enqueued == old(enqueued)
      ensures commentary == old(commentary) && nextId == old(nextId)
      ensures latestFrame == old(latestFrame) && sent == old(sent)
    {
      NextClipFacts(queue, decodes);
      while queue != [] && !decodes(queue[0])
        invariant NextClip(queue, decodes) == NextClip(old(queue), decodes)
        invariant played == old(played) && enqueued == old(enqueued)
        invariant commentary == old(commentary) && nextId == old(nextId)
        invariant latestFrame == old(latestFrame) && sent == old(sent)
        decreases |queue|
      {
        isPlaying := true;
        queue := queue[1..];
      }
      if queue == [] {
        isPlaying := false;
        current := None;
      } else {
        isPlaying := true;
        current := Some(queue[0]);
        played := played + [queue[0]];
        queue := queue[1..];
      }
      SuffixTrans(queue, old(queue), enqueued);
    }

    /** The first half of `enqueueAudio`: room is made and `clip` is pushed. */
    method PushClip(clip: string)
      requires Valid()
      modifies this
      ensures Consistent()
      ensures queue == Enqueued(old(queue), clip) && enqueued == old(enqueued) + [clip]
      ensures isPlaying == old(isPlaying) && current == old(current) && played == old(played)
      ensures commentary == old(commentary) && nextId == old(nextId)
      ensures latestFrame == old(latestFrame) && sent == old(sent)
    {
      if |queue| >= QueueCap {
        queue := queue[1..];
      }
      queue := queue + [clip];
      enqueued := enqueued + [clip];
    }

    /** `enqueueAudio`. */
    method EnqueueAudio(clip: string, decodes: string -> bool)
      requires Valid()
      modifies this
      ensures Valid()
      ensures (queue, current) == Enqueue(old(queue), old(current), clip, decodes)
      ensures isPlaying == current.Some?
      ensures played == old(played) + (if old(current).None? && current.Some? then [current.value] else [])
      ensures enqueued == old(enqueued) + [clip]
      ensures commentary == old(commentary) && nextId == old(nextId)
      ensures latestFrame == old(latestFrame) && sent == old(sent)
    {
      PushClip(clip);
      if !isPlaying {
        PlayNextInQueue(decodes);
      }
    }

    /** The `COMMENTARY` branch of the message listener, received at time `now`. */
    method OnCommentary(msg: CommentaryMessage, now: int, decodes: string -> bool)
      requires Valid()
      modifies this
      ensures Valid()
      ensures commentary == KeepLatest(old(commentary),
                CommentaryItem(old(nextId), msg.text, EmotionOrNeutral(msg.emotion), now, msg.annotatedFrame))
      ensures nextId == old(nextId) + 1
      ensures latestFrame == if Truthy(msg.annotatedFrame) then msg.annotatedFrame else old(latestFrame)
      ensures (queue, current) == if Truthy(msg.audio) then Enqueue(old(queue), old(current), msg.audio.value, decodes)
                                  else (old(queue), old(current))
      ensures enqueued == old(enqueued) + (if Truthy(msg.audio) then [msg.audio.value] else [])
      ensures sent == old(sent)
    {
      var item := CommentaryItem(nextId, msg.text, EmotionOrNeutral(msg.emotion), now, msg.annotatedFrame);
      KeepLatestFacts(commentary, item);
      KeepLatestIncreasing(commentary, item);
      nextId := nextId + 1;
      commentary := KeepLatest(commentary, item);
      if Truthy(msg.annotatedFrame) {
        latestFrame := msg.annotatedFrame;
      }
      if Truthy(msg.audio) {
        EnqueueAudio(msg.audio.value, decodes);
      }
    }

    /** `handleToggle` while the commentator is `active` or not: stopping also clears the
        list, the frame and the audio; starting only sends the request. */
    method HandleToggle(active: bool)
      requires Valid()
      modifies this
      ensures Valid()
      ensures sent == old(sent) + [if active then "STOP_CAPTURE" else "START_CAPTURE"]
      ensures active ==> commentary == [] && latestFrame.None? && queue == [] && !isPlaying && current.None?
      ensures !active ==> commentary == old(commentary) && latestFrame == old(latestFrame)
                          && queue == old(queue) && isPlaying == old(isPlaying) && current == old(current)
      ensures nextId == old(nextId) && played == old(played) && enqueued == old(enqueued)
    {
      if active {
        sent := sent + ["STOP_CAPTURE"];
        commentary := [];
        latestFrame := None;
        StopAllAudio();
      } else {
        sent := sent + ["START_CAPTURE"];
      }
    }
  }
}
