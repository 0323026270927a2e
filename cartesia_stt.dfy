/** agent/cartesia_stt.py: the speech-to-text plugin. The API-key check at construction,
    the bookkeeping of `_audio_start_time`, `_current_participant` and `_in_turn`, the
    per-message dispatch of the listener and the turn machine of `_handle_transcript`,
    which emits turn-started, partial, final and turn-ended events. The websocket, the
    audio resampling and the event bus are not modelled: audio sent is counted, and
    emitted events are appended to a log. */
module CartesiaStt {
  import opened Util

  // ---------------------------------------------------------------------------
  // The API key

  /** The outcome of the constructor's key check: the key it stores, or the
      `ValueError` it raises. */
  datatype KeyCheck = Stored(key: Option<string>) | MissingKey

  /** `api_key`, falling back to the `CARTESIA_API_KEY` environment value when it is
      falsy, and the error when neither gives a key and no client was passed. */
  function CheckKey(apiKey: Option<string>, env: Option<string>, hasClient: bool): (r: KeyCheck)
    ensures r.MissingKey? <==> !Truthy(apiKey) && !Truthy(env) && !hasClient
    ensures Truthy(apiKey) ==> r == Stored(apiKey)
  {
    var key := if Truthy(apiKey) then apiKey else env;
    if !Truthy(key) && !hasClient then MissingKey else Stored(key)
  }

  /** Python truthiness of an optional string. */
  predicate Truthy(s: Option<string>)
  {
    s.Some? && s.value != ""
  }

  // ---------------------------------------------------------------------------
  // Events and messages

  /** A participant, by identity. */
  type Participant = string

  /** The events the plugin emits. */
  datatype SttEvent =
    | TurnStarted(participant: Participant)
    | Partial(text: string, participant: Participant)
    | Final(text: string, participant: Participant)
    | TurnEnded(participant: Participant)
    | Failure(message: string, who: Option<Participant>)

  /** A message received from the websocket; `None` is a missing key. */
  datatype Message = Message(
    kind: Option<string>,
    text: Option<string>,
    isFinal: Option<bool>,
    errorMessage: Option<string>)

  /** The state `_handle_transcript` reads and writes. */
  datatype TurnState = TurnState(
    inTurn: bool,
    audioStartTime: Option<real>,
    participant: Option<Participant>)

  /** `_handle_transcript`: the new state and the events, in emission order. */
  function TranscriptStep(s: TurnState, m: Message): (TurnState, seq<SttEvent>)
  {
    TurnStep(s, PyStrip(GetOr(m.text, "")), GetOr(m.isFinal, false))
  }

  /** `_handle_transcript` once the text is stripped and `is_final` read. */
  function TurnStep(s: TurnState, text: string, isFinal: bool): (TurnState, seq<SttEvent>)
  {
    if text == "" || s.participant.None? then (s, [])
    else
      var p := s.participant.value;
      if isFinal then
        (s.(audioStartTime := None, inTurn := false), [Final(text, p), TurnEnded(p)])
      else if !s.inTurn then
        (s.(inTurn := true), [TurnStarted(p), Partial(text, p)])
      else (s, [Partial(text, p)])
  }

  /** What a transcript does to the state and the log, as the source lays it out:
      empty text or no participant does nothing; a final transcript emits the text
      then turn-ended and leaves the turn with the start time cleared; the first
      partial of a turn emits turn-started before the partial and enters the turn;
      later partials emit only the partial. */
  lemma TranscriptCases(s: TurnState, m: Message)
    ensures var (s', ev) := TranscriptStep(s, m);
            var text := PyStrip(GetOr(m.text, ""));
            && (text == "" || s.participant.None? ==> s' == s && ev == [])
            && (text != "" && s.participant.Some? && GetOr(m.isFinal, false) ==>
                  !s'.inTurn && s'.audioStartTime.None? && s'.participant == s.participant
                  && ev == [Final(text, s.participant.value), TurnEnded(s.participant.value)])
            && (text != "" && s.participant.Some? && !GetOr(m.isFinal, false) ==>
                  s'.inTurn && s'.audioStartTime == s.audioStartTime && s'.participant == s.participant
                  && ev == (if s.inTurn then [] else [TurnStarted(s.participant.value)])
                           + [Partial(text, s.participant.value)])
  {
    var text := PyStrip(GetOr(m.text, ""));
    var r := TranscriptStep(s, m);
    if text == "" || s.participant.None? {
      assert r == (s, []);
    } else if GetOr(m.isFinal, false) {
      var p := s.participant.value;
      assert r == (s.(audioStartTime := None, inTurn := false), [Final(text, p), TurnEnded(p)]);
    } else if s.inTurn {
      assert r == (s, [Partial(text, s.participant.value)]);
    } else {
      var p := s.participant.value;
      assert r == (s.(inTurn := true), [TurnStarted(p), Partial(text, p)]);
      assert [TurnStarted(p)] + [Partial(text, p)] == [TurnStarted(p), Partial(text, p)];
    }
  }

  /** The listener's handling of one message: `None` when it is "done" and the loop
      stops. */
  function Dispatch(s: TurnState, m: Message): Option<(TurnState, seq<SttEvent>)>
  {
    var kind := GetOr(m.kind, "");
    if kind == "transcript" then Some(TranscriptStep(s, m))
    else if kind == "error" then
      Some((s, [Failure(GetOr(m.errorMessage, "Unknown Cartesia STT error"), s.participant)]))
    else if kind == "done" then None
    else Some((s, []))
  }

  /** `_listen_for_transcripts` over the messages received: the final state and the
      events emitted, stopping at the first "done". */
  function Listen(s: TurnState, ms: seq<Message>): (TurnState, seq<SttEvent>)
    decreases |ms|
  {
    if ms == [] then (s, [])
    else
      match Dispatch(s, ms[0])
      case None => (s, [])
      case Some((s1, ev)) =>
        var (s2, rest) := Listen(s1, ms[1..]);
        (s2, ev + rest)
  }

  /** `Listen` on the messages from `i` on, by its first message. */
  lemma ListenFirst(s: TurnState, ms: seq<Message>, i: nat)
    requires i < |ms|
    ensures Dispatch(s, ms[i]).None? ==> Listen(s, ms[i..]) == (s, [])
    ensures Dispatch(s, ms[i]).Some? ==>
              var (s1, ev) := Dispatch(s, ms[i]).value;
              Listen(s, ms[i..]) == (Listen(s1, ms[i + 1..]).0, ev + Listen(s1, ms[i + 1..]).1)
  {
    assert ms[i..][0] == ms[i] && ms[i..][1..] == ms[i + 1..];
  }

  /** Listening from state `s` at message `i` on, after `acc` has been emitted, ends
      where listening from the start does. */
  ghost predicate Resumes(target: (TurnState, seq<SttEvent>), acc: seq<SttEvent>, s: TurnState,
                          ms: seq<Message>, i: nat)
    requires i <= |ms|
  {
    target == (Listen(s, ms[i..]).0, acc + Listen(s, ms[i..]).1)
  }

  lemma ListenFrom(s: TurnState, ms: seq<Message>)
    ensures Resumes(Listen(s, ms), [], s, ms, 0)
  {
    assert ms[0..] == ms;
    assert [] + Listen(s, ms).1 == Listen(s, ms).1;
  }

  /** Handling message `i` moves the listener on to message `i + 1`, or ends it at "done". */
  lemma ListenAdvance(target: (TurnState, seq<SttEvent>), acc: seq<SttEvent>, s: TurnState,
                      ms: seq<Message>, i: nat)
    requires i < |ms| && Resumes(target, acc, s, ms, i)
    ensures Dispatch(s, ms[i]).None? ==> target == (s, acc)
    ensures Dispatch(s, ms[i]).Some? ==>
              var (s1, ev) := Dispatch(s, ms[i]).value;
              Resumes(target, acc + ev, s1, ms, i + 1)
  {
    ListenFirst(s, ms, i);
    if Dispatch(s, ms[i]).None? {
      assert acc + [] == acc;
    } else {
      var (s1, ev) := Dispatch(s, ms[i]).value;
      AppendAssoc(acc, ev, Listen(s1, ms[i + 1..]).1);
    }
  }

  /** Once the messages run out, what was emitted is everything. */
  lemma ListenDone(target: (TurnState, seq<SttEvent>), acc: seq<SttEvent>, s: TurnState,
                   ms: seq<Message>, i: nat)
    requires i <= |ms| && Resumes(target, acc, s, ms, i)
    requires i == |ms| || (i < |ms| && Dispatch(s, ms[i]).None?)
    ensures target == (s, acc)
  {
    if i == |ms| {
      assert ms[i..] == [];
      assert acc + [] == acc;
    } else {
      ListenAdvance(target, acc, s, ms, i);
    }
  }

  /** Nothing after a "done" message is handled. */
  lemma {:induction false} ListenStopsAtDone(s: TurnState, ms: seq<Message>, done: Message, rest: seq<Message>)
    requires GetOr(done.kind, "") == "done"
    ensures Listen(s, ms + [done] + rest) == Listen(s, ms + [done])
    decreases |ms|
  {
    if ms == [] {
      assert ([done] + rest)[0] == done && [done][0] == done;
    } else {
      assert (ms + [done] + rest)[0] == ms[0] && (ms + [done])[0] == ms[0];
      assert (ms + [done] + rest)[1..] == ms[1..] + [done] + rest;
      assert (ms + [done])[1..] == ms[1..] + [done];
      match Dispatch(s, ms[0])
      case None =>
      case Some((s1, ev)) => ListenStopsAtDone(s1, ms[1..], done, rest);
    }
  }

  /** A message of a type the listener does not know, or "flush_done", changes nothing. */
  lemma IgnoredMessages(s: TurnState, m: Message, ms: seq<Message>)
    requires GetOr(m.kind, "") !in {"transcript", "error", "done"}
    ensures Listen(s, [m] + ms) == Listen(s, ms)
  {
    assert ([m] + ms)[0] == m && ([m] + ms)[1..] == ms;
    var (s2, rest) := Listen(s, ms);
    assert [] + rest == rest;
  }

  // ---------------------------------------------------------------------------
  // The order of turn events

  /** A turn is open in the log: its last turn-started comes after its last turn-ended. */
  function OpenTurn(log: seq<SttEvent>): bool
    decreases |log|
  {
    if log == [] then false
    else
      var e := log[|log| - 1];
      if e.TurnStarted? then true
      else if e.TurnEnded? then false
      else OpenTurn(log[..|log| - 1])
  }

  /** The log is well ordered: a turn-started only while no turn is open, and every
      partial inside an open turn. */
  predicate Ordered(log: seq<SttEvent>)
    decreases |log|
  {
    log == [] ||
    (var init := log[..|log| - 1];
     var e := log[|log| - 1];
     Ordered(init) && (e.TurnStarted? ==> !OpenTurn(init)) && (e.Partial? ==> OpenTurn(init)))
  }

  lemma LogSnoc(log: seq<SttEvent>, e: SttEvent)
    ensures (log + [e])[..|log|] == log && (log + [e])[|log|] == e
  {
  }

  /** One transcript keeps the log ordered and `_in_turn` equal to whether a turn is
      open in it. */
  lemma TranscriptKeepsOrder(s: TurnState, log: seq<SttEvent>, m: Message)
    requires Ordered(log) && s.inTurn == OpenTurn(log)
    ensures var (s', ev) := TranscriptStep(s, m);
            Ordered(log + ev) && s'.inTurn == OpenTurn(log + ev)
  {
    TurnKeepsOrder(s, log, PyStrip(GetOr(m.text, "")), GetOr(m.isFinal, false));
  }

  /** The same, once the text is stripped. */
  lemma TurnKeepsOrder(s: TurnState, log: seq<SttEvent>, text: string, isFinal: bool)
    requires Ordered(log) && s.inTurn == OpenTurn(log)
    ensures var (s', ev) := TurnStep(s, text, isFinal);
            Ordered(log + ev) && s'.inTurn == OpenTurn(log + ev)
  {
    if text == "" || s.participant.None? {
      assert log + [] == log;
    } else if isFinal {
      FinalKeepsOrder(log, text, s.participant.value);
    } else if s.inTurn {
      PartialKeepsOrder(log, text, s.participant.value);
    } else {
      StartKeepsOrder(log, text, s.participant.value);
    }
  }

  /** A final transcript closes the turn. */
  lemma FinalKeepsOrder(log: seq<SttEvent>, text: string, p: Participant)
    requires Ordered(log)
    ensures Ordered(log + [Final(text, p), TurnEnded(p)])
    ensures !OpenTurn(log + [Final(text, p), TurnEnded(p)])
  {
    var log1 := log + [Final(text, p)];
    LogSnoc(log, Final(text, p));
    LogSnoc(log1, TurnEnded(p));
    assert log1 + [TurnEnded(p)] == log + [Final(text, p), TurnEnded(p)];
  }

  /** A partial inside an open turn keeps it open. */
  lemma PartialKeepsOrder(log: seq<SttEvent>, text: string, p: Participant)
    requires Ordered(log) && OpenTurn(log)
    ensures Ordered(log + [Partial(text, p)]) && OpenTurn(log + [Partial(text, p)])
  {
    LogSnoc(log, Partial(text, p));
  }

  /** The first partial of a turn opens it. */
  lemma StartKeepsOrder(log: seq<SttEvent>, text: string, p: Participant)
    requires Ordered(log) && !OpenTurn(log)
    ensures Ordered(log + [TurnStarted(p), Partial(text, p)])
    ensures OpenTurn(log + [TurnStarted(p), Partial(text, p)])
  {
    var log1 := log + [TurnStarted(p)];
    LogSnoc(log, TurnStarted(p));
    assert Ordered(log1) && OpenTurn(log1);
    LogSnoc(log1, Partial(text, p));
    assert log1 + [Partial(text, p)] == log + [TurnStarted(p), Partial(text, p)];
  }

  /** An error event neither opens nor closes a turn. */
  lemma FailureKeepsOrder(log: seq<SttEvent>, e: SttEvent)
    requires Ordered(log) && e.Failure?
    ensures Ordered(log + [e]) && OpenTurn(log + [e]) == OpenTurn(log)
  {
    LogSnoc(log, e);
  }

  /** So does every message the listener handles. */
  lemma DispatchKeepsOrder(s: TurnState, log: seq<SttEvent>, m: Message)
    requires Ordered(log) && s.inTurn == OpenTurn(log)
    ensures Dispatch(s, m).Some? ==>
              var (s1, ev) := Dispatch(s, m).value;
              Ordered(log + ev) && s1.inTurn == OpenTurn(log + ev)
  {
    var kind := GetOr(m.kind, "");
    if kind == "transcript" {
      TranscriptKeepsOrder(s, log, m);
    } else if kind == "error" {
      FailureKeepsOrder(log, Failure(GetOr(m.errorMessage, "Unknown Cartesia STT error"), s.participant));
    } else if kind != "done" {
      assert log + [] == log;
    }
  }

  /** The listener keeps the log ordered and `_in_turn` in step with it, whatever the
      messages. */
  lemma {:induction false} ListenKeepsOrder(s: TurnState, log: seq<SttEvent>, ms: seq<Message>)
    requires Ordered(log) && s.inTurn == OpenTurn(log)
    ensures var (s', ev) := Listen(s, ms);
            Ordered(log + ev) && s'.inTurn == OpenTurn(log + ev)
    decreases |ms|
  {
    if ms == [] || Dispatch(s, ms[0]).None? {
      assert log + [] == log;
    } else {
      var (s1, ev) := Dispatch(s, ms[0]).value;
      DispatchKeepsOrder(s, log, ms[0]);
      ListenKeepsOrder(s1, log + ev, ms[1..]);
      var (s2, rest) := Listen(s1, ms[1..]);
      assert Listen(s, ms) == (s2, ev + rest);
      AppendAssoc(log, ev, rest);
    }
  }

  // ---------------------------------------------------------------------------
  // The plugin object

  /** `CartesiaSTT`, with the websocket reduced to whether it is open and the number of
      audio chunks sent, and the event bus to the log of emitted events. */
  class CartesiaStt {
    var key: Option<string>
    var closed: bool
    var connectionReady: bool
    var socketOpen: bool
    var chunksSent: nat
    var currentParticipant: Option<Participant>
    var audioStartTime: Option<real>
    var inTurn: bool
    var events: seq<SttEvent>

    function State(): TurnState
      reads this
    {
      TurnState(inTurn, audioStartTime, currentParticipant)
    }

    /** The log is ordered and `_in_turn` says whether a turn is open in it. */
    predicate Valid()
      reads this
    {
      Ordered(events) && inTurn == OpenTurn(events)
    }

    /** `__init__` once its key check passed. */
    constructor(key: Option<string>)
      ensures Valid() && this.key == key
      ensures !closed && !connectionReady && !socketOpen && chunksSent == 0
      ensures State() == TurnState(false, None, None) && events == []
    {
      this.key := key;
      closed := false;
      connectionReady := false;
      socketOpen := false;
      chunksSent := 0;
      currentParticipant := None;
      audioStartTime := None;
      inTurn := false;
      events := [];
    }

    /** `__init__` as a whole: no object when it raises `ValueError`. */
    static method Create(apiKey: Option<string>, env: Option<string>, hasClient: bool)
      returns (stt: CartesiaStt?)
      ensures stt == null <==> CheckKey(apiKey, env, hasClient).MissingKey?
      ensures stt != null ==> fresh(stt) && stt.Valid() && stt.key == CheckKey(apiKey, env, hasClient).key
      ensures stt != null ==> stt.State() == TurnState(false, None, None) && stt.events == [] && !stt.closed
    {
      var checked := CheckKey(apiKey, env, hasClient);
      if checked.MissingKey? {
        return null;
      }
      stt := new CartesiaStt(checked.key);
    }

    /** `start`: the websocket is opened and the connection marked ready. */
    method Start()
      modifies this
      ensures socketOpen && connectionReady
      ensures closed == old(closed) && State() == old(State()) && events == old(events)
      ensures chunksSent == old(chunksSent) && key == old(key)
    {
      socketOpen := true;
      connectionReady := true;
    }

    /** `process_audio` at clock reading `now`, once the wait for the connection has
      returned: a closed plugin ignores the chunk before waiting; otherwise `start` has
      marked the connection ready, and the call records the participant, starts the
      utterance clock only if it is not running, and sends the chunk. */
    method ProcessAudio(participant: Option<Participant>, now: real)
      requires closed || connectionReady
      modifies this
      ensures closed == old(closed) && connectionReady == old(connectionReady)
      ensures socketOpen == old(socketOpen) && inTurn == old(inTurn) && events == old(events)
      ensures key == old(key)
      ensures old(closed) ==>
                currentParticipant == old(currentParticipant) && audioStartTime == old(audioStartTime)
                && chunksSent == old(chunksSent)
      ensures !old(closed) ==>
                currentParticipant == participant
                && audioStartTime == (if old(audioStartTime).None? then Some(now) else old(audioStartTime))
                && chunksSent == old(chunksSent) + (if socketOpen then 1 else 0)
    {
      if closed {
        return;
      }
      currentParticipant := participant;
      if audioStartTime.None? {
        audioStartTime := Some(now);
      }
      if socketOpen {
        chunksSent := chunksSent + 1;
      }
    }

    /** `_handle_transcript`. */
    method HandleTranscript(m: Message)
      requires Valid()
      modifies this
      ensures Valid()
      ensures var (s, ev) := TranscriptStep(old(State()), m);
              State() == s && events == old(events) + ev
      ensures closed == old(closed) && connectionReady == old(connectionReady)
      ensures socketOpen == old(socketOpen) && chunksSent == old(chunksSent) && key == old(key)
    {
      ghost var s0, log0 := State(), events;
      var text := PyStrip(GetOr(m.text, ""));
      var isFinal := GetOr(m.isFinal, false);
      ghost var step := TurnStep(s0, text, isFinal);
      assert TranscriptStep(s0, m) == step;
      TurnKeepsOrder(s0, log0, text, isFinal);
      if text == "" || currentParticipant.None? {
        assert step == (s0, []);
        assert log0 + [] == log0;
        return;
      }
      var p := currentParticipant.value;
      if isFinal {
        assert step.1 == [Final(text, p), TurnEnded(p)];
        events := events + [Final(text, p), TurnEnded(p)];
        audioStartTime := None;
        inTurn := false;
      } else if !inTurn {
        assert step.1 == [TurnStarted(p), Partial(text, p)];
        inTurn := true;
        events := events + [TurnStarted(p)];
        events := events + [Partial(text, p)];
        assert events == log0 + [TurnStarted(p), Partial(text, p)];
      } else {
        assert step.1 == [Partial(text, p)];
        events := events + [Partial(text, p)];
      }
      assert State() == step.0 && events == log0 + step.1;
    }

    /** The body of the listener's loop for one message: `stop` on "done". */
    method OnMessage(m: Message) returns (stop: bool)
      requires Valid()
      modifies this
      ensures Valid()
      ensures stop <==> Dispatch(old(State()), m).None?
      ensures stop ==> State() == old(State()) && events == old(events)
      ensures !stop ==> State() == Dispatch(old(State()), m).value.0
                        && events == old(events) + Dispatch(old(State()), m).value.1
      ensures closed == old(closed) && connectionReady == old(connectionReady)
      ensures socketOpen == old(socketOpen) && chunksSent == old(chunksSent) && key == old(key)
    {
      var kind := GetOr(m.kind, "");
      ghost var s0, log0 := State(), events;
      if kind == "transcript" {
        HandleTranscript(m);
        return false;
      } else if kind == "error" {
        var e := Failure(GetOr(m.errorMessage, "Unknown Cartesia STT error"), currentParticipant);
        events := events + [e];
        FailureKeepsOrder(log0, e);
        return false;
      } else if kind == "done" {
        return true;
      }
      assert events == old(events) + [];
      return false;
    }

    /** `_listen_for_transcripts` over the messages the websocket delivers: nothing
      when there is no websocket; otherwise each message in turn until "done". */
    method ListenForTranscripts(messages: seq<Message>)
      requires Valid()
      modifies this
      ensures Valid()
      ensures !old(socketOpen) ==> State() == old(State()) && events == old(events)
      ensures old(socketOpen) ==>
                var (s, ev) := Listen(old(State()), messages);
                State() == s && events == old(events) + ev
      ensures closed == old(closed) && connectionReady == old(connectionReady)
      ensures socketOpen == old(socketOpen) && chunksSent == old(chunksSent) && key == old(key)
    {
      if !socketOpen {
        return;
      }
      var i := 0;
      ghost var acc: seq<SttEvent> := [];
      ghost var target := Listen(State(), messages);
      ListenFrom(State(), messages);
      while i < |messages|
        invariant 0 <= i <= |messages|
        invariant Valid()
        invariant closed == old(closed) && connectionReady == old(connectionReady)
        invariant socketOpen == old(socketOpen) && chunksSent == old(chunksSent) && key == old(key)
        invariant events == old(events) + acc
        invariant Resumes(target, acc, State(), messages, i)
      {
        ghost var s0 := State();
        var stop := OnMessage(messages[i]);
        ListenAdvance(target, acc, s0, messages, i);
        if stop {
          break;
        }
        ghost var ev := Dispatch(s0, messages[i]).value.1;
        AppendAssoc(old(events), acc, ev);
        acc := acc + ev;
        i := i + 1;
      }
      ListenDone(target, acc, State(), messages, i);
    }

    /** `close`: marked closed, the connection no longer ready, the websocket gone. */
    method Close()
      modifies this
      ensures closed && !connectionReady && !socketOpen
      ensures State() == old(State()) && events == old(events)
      ensures chunksSent == old(chunksSent) && key == old(key)
    {
      closed := true;
      connectionReady := false;
      socketOpen := false;
    }
  }
}
