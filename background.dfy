/** extension/.output/chrome-mv3-dev/background.js (the extension's own prefix of the built
    service worker): YouTube video-id extraction and the three capture globals updated by
    the start, stop and status messages. The active tab, the outcome of requesting the
    capture stream and the status text are inputs; writes to session storage and the
    messages sent to the tab and to the runtime are recorded. */
module Background {
  import opened Util

  /** The markers the id may follow, in the pattern's order. */
  const Markers: seq<string> := ["v=", "/embed/", "youtu.be/"]
  /** The length of a video id. */
  const IdLength: nat := 11

  /** `[a-zA-Z0-9_-]`. */
  predicate IdChar(c: char)
  {
    ('a' <= c <= 'z') || ('A' <= c <= 'Z') || ('0' <= c <= '9') || c == '_' || c == '-'
  }

  /** Eleven characters from the id alphabet. */
  predicate IsVideoId(s: string)
  {
    |s| == IdLength && forall k :: 0 <= k < |s| ==> IdChar(s[k])
  }

  /** The length of the marker starting at `i`, if one does (the markers begin with
      different characters, so at most one can). */
  function MarkerAt(url: string, i: nat): (r: Option<nat>)
    requires i <= |url|
    ensures r.Some? ==> r.value in {2, 7, 9} && i + r.value <= |url|
  {
    if StartsWith(url[i..], "v=") then Some(2)
    else if StartsWith(url[i..], "/embed/") then Some(7)
    else if StartsWith(url[i..], "youtu.be/") then Some(9)
    else None
  }

  /** The pattern matches at `i`: a marker, then eleven id characters. */
  predicate MatchesAt(url: string, i: nat)
  {
    i <= |url| && MarkerAt(url, i).Some? && i + MarkerAt(url, i).value + IdLength <= |url|
    && IsVideoId(url[i + MarkerAt(url, i).value .. i + MarkerAt(url, i).value + IdLength])
  }

  /** The capture group of a match at `i`. */
  function IdAt(url: string, i: nat): string
    requires MatchesAt(url, i)
  {
    url[i + MarkerAt(url, i).value .. i + MarkerAt(url, i).value + IdLength]
  }

  /** `url.match(...)` from position `from`: the leftmost position where the pattern
      matches. */
  function FirstMatch(url: string, from: nat): (r: Option<nat>)
    ensures r.Some? ==> from <= r.value && MatchesAt(url, r.value)
    ensures r.Some? ==> forall j :: from <= j < r.value ==> !MatchesAt(url, j)
    ensures r.None? ==> forall j :: from <= j ==> !MatchesAt(url, j)
    decreases |url| - from
  {
    if from >= |url| then None
    else if MatchesAt(url, from) then Some(from)
    else FirstMatch(url, from + 1)
  }

  /** `extractVideoId`; an absent URL is `None`. */
  function ExtractVideoId(url: Option<string>): Option<string>
  {
    if url.None? || url.value == "" then None
    else
      var m := FirstMatch(url.value, 0);
      if m.Some? then Some(IdAt(url.value, m.value)) else None
  }

  /** No URL or an empty one gives no id; otherwise the id is the one at the leftmost match
      of the pattern, there is none exactly when the pattern matches nowhere, and an id is
      always eleven characters from the id alphabet. */
  lemma ExtractVideoIdFacts(url: Option<string>)
    ensures url.None? || url == Some("") ==> ExtractVideoId(url).None?
    ensures url.Some? && url.value != "" ==>
              (ExtractVideoId(url).None? <==> forall i :: !MatchesAt(url.value, i))
    ensures ExtractVideoId(url).Some? ==>
              var i := FirstMatch(url.value, 0).value;
              MatchesAt(url.value, i) && ExtractVideoId(url).value == IdAt(url.value, i)
              && forall j :: 0 <= j < i ==> !MatchesAt(url.value, j)
    ensures ExtractVideoId(url).Some? ==> IsVideoId(ExtractVideoId(url).value)
  {
  }

  /** An id placed right after a marker is found again, as long as the pattern matches
      nowhere earlier in the URL. */
  lemma VideoIdRoundTrip(before: string, k: nat, id: string, rest: string)
    requires k < |Markers| && IsVideoId(id)
    requires forall i :: 0 <= i < |before| ==> !MatchesAt(before + Markers[k] + id + rest, i)
    ensures ExtractVideoId(Some(before + Markers[k] + id + rest)) == Some(id)
  {
    var url := before + Markers[k] + id + rest;
    var i := |before|;
    var m := |Markers[k]|;
    assert url[i..] == Markers[k] + id + rest;
    assert url[i..][..m] == Markers[k];
    assert url[i] == Markers[k][0];
    if k == 0 {
      assert StartsWith(url[i..], "v=");
    } else if k == 1 {
      assert StartsWith(url[i..], "/embed/");
    } else {
      assert StartsWith(url[i..], "youtu.be/");
    }
    assert MarkerAt(url, i) == Some(m);
    assert url[i + m .. i + m + IdLength] == id;
    assert MatchesAt(url, i);
  }

  // ---- capture state ----

  /** The `commentatorState` written to session storage. */
  datatype CommentatorState = CommentatorState(active: bool, status: string,
                                               tabId: Option<int>, videoId: Option<string>)

  /** The active tab found by `chrome.tabs.query`, if any. */
  datatype Tab = Tab(id: Option<int>, url: Option<string>)

  /** What requesting the stream and the offscreen document came to: a stream id, or an
      error (`None` when what was thrown is not an `Error`). */
  datatype CaptureOutcome = Granted(streamId: string) | Failed(message: Option<string>)

  /** Messages sent to the extension's other pages. */
  datatype RuntimeMessage = CaptureStarted(streamId: string, tabId: int) | StopCapture

  /** JavaScript truthiness of an optional tab id. */
  predicate TruthyId(id: Option<int>)
  {
    id.Some? && id.value != 0
  }

  /** The status stored after a failed start. */
  function FailureStatus(message: Option<string>): string
  {
    "Capture failed: " + GetOr(message, "Unknown error")
  }

  /** The service worker's module-level state. */
  class Background {
    var activeTabId: Option<int>
    var isCapturing: bool
    var activeVideoId: Option<string>
    /** Every `commentatorState` written, in order. */
    var stored: seq<CommentatorState>
    /** `(tab id, message type)` for every message sent to a tab. */
    var tabMessages: seq<(int, string)>
    var runtimeMessages: seq<RuntimeMessage>

    /** Capturing implies a tab, and a video id is only kept for a tab and is always
        well-formed. */
    ghost predicate Valid()
      reads this
    {
      (isCapturing ==> activeTabId.Some?)
      && (activeVideoId.Some? ==> activeTabId.Some? && IsVideoId(activeVideoId.value))
    }

    constructor()
      ensures Valid()
      ensures activeTabId.None? && !isCapturing && activeVideoId.None?
      ensures stored == [] && tabMessages == [] && runtimeMessages == []
    {
      activeTabId := None;
      isCapturing := false;
      activeVideoId := None;
      stored := [];
      tabMessages := [];
      runtimeMessages := [];
    }

    /** `handleStartCapture` with the active tab `tab` and the capture request's
        `outcome`. */
    method HandleStartCapture(tab: Option<Tab>, outcome: CaptureOutcome)
      requires Valid()
      modifies this
      ensures Valid()
      ensures tab.None? || !TruthyId(tab.value.id) ==>
                activeTabId == old(activeTabId) && isCapturing == old(isCapturing)
                && activeVideoId == old(activeVideoId)
                && stored == old(stored) + [CommentatorState(false, "No active tab found", None, None)]
                && tabMessages == old(tabMessages) && runtimeMessages == old(runtimeMessages)
      ensures tab.Some? && TruthyId(tab.value.id) && outcome.Failed? ==>
                activeTabId.None? && !isCapturing && activeVideoId.None?
                && stored == old(stored) + [CommentatorState(false, FailureStatus(outcome.message), None, None)]
                && tabMessages == old(tabMessages) && runtimeMessages == old(runtimeMessages)
      ensures tab.Some? && TruthyId(tab.value.id) && outcome.Granted? ==>
                var id := tab.value.id.value;
                var video := ExtractVideoId(tab.value.url);
                activeTabId == Some(id) && isCapturing && activeVideoId == video
                && stored == old(stored) + [CommentatorState(true, "Starting capture...", Some(id), video)]
                && tabMessages == old(tabMessages) + (if video.Some? then [(id, "MUTE_TAB_VIDEO")] else [])
                && runtimeMessages == old(runtimeMessages) + [CaptureStarted(outcome.streamId, id)]
    {
      if tab.None? || !TruthyId(tab.value.id) {
        stored := stored + [CommentatorState(false, "No active tab found", None, None)];
        return;
      }
      var id := tab.value.id.value;
      activeTabId := Some(id);
      activeVideoId := ExtractVideoId(tab.value.url);
      ExtractVideoIdFacts(tab.value.url);
      match outcome {
        case Granted(streamId) =>
          isCapturing := true;
          stored := stored + [CommentatorState(true, "Starting capture...", Some(id), activeVideoId)];
          if activeVideoId.Some? {
            tabMessages := tabMessages + [(id, "MUTE_TAB_VIDEO")];
          }
          runtimeMessages := runtimeMessages + [CaptureStarted(streamId, id)];
        case Failed(message) =>
          stored := stored + [CommentatorState(false, FailureStatus(message), None, None)];
          isCapturing := false;
          activeTabId := None;
          activeVideoId := None;
      }
    }

    /** `handleStopCapture`: the tab is asked to unmute only when both a tab and a video
        id are known; the globals are reset and "Stopped" is stored. */
    method HandleStopCapture()
      requires Valid()
      modifies this
      ensures Valid()
      ensures activeTabId.None? && !isCapturing && activeVideoId.None?
      ensures tabMessages == old(tabMessages)
                + (if TruthyId(old(activeTabId)) && old(activeVideoId).Some?
                   then [(old(activeTabId).value, "UNMUTE_TAB_VIDEO")] else [])
      ensures runtimeMessages == old(runtimeMessages) + [StopCapture]
      ensures stored == old(stored) + [CommentatorState(false, "Stopped", None, None)]
    {
      if TruthyId(activeTabId) && activeVideoId.Some? && activeVideoId.value != "" {
        tabMessages := tabMessages + [(activeTabId.value, "UNMUTE_TAB_VIDEO")];
      }
      isCapturing := false;
      activeTabId := None;
      activeVideoId := None;
      runtimeMessages := runtimeMessages + [StopCapture];
      stored := stored + [CommentatorState(false, "Stopped", None, None)];
    }

    /** A `STATUS` message carrying `status`: the globals are stored unchanged with it. */
    method HandleStatus(status: string)
      requires Valid()
      modifies this
      ensures Valid()
      ensures stored == old(stored) + [CommentatorState(isCapturing, status, activeTabId, activeVideoId)]
      ensures activeTabId == old(activeTabId) && isCapturing == old(isCapturing)
      ensures activeVideoId == old(activeVideoId)
      ensures tabMessages == old(tabMessages) && runtimeMessages == old(runtimeMessages)
    {
      stored := stored + [CommentatorState(isCapturing, status, activeTabId, activeVideoId)];
    }
  }
}
