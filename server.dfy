/** agent/server.py: the viewer-onboarding endpoints. The slider tables, the
    `[PROFILE_COMPLETE]` block that ends the profile chat, the profile record built from
    the JSON the model wrote, the message filter that builds the LLM conversation and
    the call transcript. The LLM's reply and `json.loads` are inputs: a reply is any
    string, and `parse` maps a JSON text to the object's fields or to `None` when it
    raises `JSONDecodeError`. */
module Server {
  import opened Util

  // ---------------------------------------------------------------------------
  // Slider tables

  /** `_EXPERIENCE_TO_EXPERTISE`. */
  const ExperienceToExpertise: map<string, int> :=
    map["beginner" := 15, "casual" := 40, "knowledgeable" := 65, "expert" := 90]

  /** `_STYLE_TO_HOT_TAKE`. */
  const StyleToHotTake: map<string, int> :=
    map["balanced" := 25, "moderate" := 50, "homer" := 80]

  /** `_EXPERIENCE_TO_EXPERTISE.get(experience.lower(), 40)`. */
  function ExpertiseFor(experience: string): int
  {
    var key := Lower(experience);
    if key in ExperienceToExpertise then ExperienceToExpertise[key] else 40
  }

  /** `_STYLE_TO_HOT_TAKE.get(style.lower(), 25)`. */
  function HotTakeFor(style: string): int
  {
    var key := Lower(style);
    if key in StyleToHotTake then StyleToHotTake[key] else 25
  }

  /** The four experience levels land on 15/40/65/90, anything else on the "casual" 40,
      and the lookup ignores letter case. */
  lemma ExpertiseTable(experience: string)
    ensures ExpertiseFor("beginner") == 15 && ExpertiseFor("casual") == 40
    ensures ExpertiseFor("knowledgeable") == 65 && ExpertiseFor("expert") == 90
    ensures ExpertiseFor(experience) in {15, 40, 65, 90}
    ensures Lower(experience) !in {"beginner", "casual", "knowledgeable", "expert"}
            ==> ExpertiseFor(experience) == 40
    ensures ExpertiseFor(Lower(experience)) == ExpertiseFor(experience)
  {
    LowerIdempotent(experience);
    assert Lower("beginner") == "beginner";
    assert Lower("casual") == "casual";
    assert Lower("knowledgeable") == "knowledgeable";
    assert Lower("expert") == "expert";
  }

  /** The three styles land on 25/50/80, anything else on the "balanced" 25, and the
      lookup ignores letter case. */
  lemma HotTakeTable(style: string)
    ensures HotTakeFor("balanced") == 25 && HotTakeFor("moderate") == 50 && HotTakeFor("homer") == 80
    ensures HotTakeFor(style) in {25, 50, 80}
    ensures Lower(style) !in {"balanced", "moderate", "homer"} ==> HotTakeFor(style) == 25
    ensures HotTakeFor(Lower(style)) == HotTakeFor(style)
  {
    LowerIdempotent(style);
    assert Lower("balanced") == "balanced";
    assert Lower("moderate") == "moderate";
    assert Lower("homer") == "homer";
  }

  // ---------------------------------------------------------------------------
  // The profile record

  /** The fields of the JSON object the model wrote; `None` is a missing key. */
  datatype Extracted = Extracted(
    name: Option<string>,
    favoriteTeam: Option<string>,
    experience: Option<string>,
    style: Option<string>,
    favoritePlayers: Option<seq<string>>)

  /** `{}`: what a `JSONDecodeError` or a reply without JSON falls back to. */
  const EmptyObject := Extracted(None, None, None, None, None)

  /** The `profile_dict` the endpoints return. `experience` and `style` are keys only
      `/api/call-transcript` adds (`None` = key absent). */
  datatype ProfileDict = ProfileDict(
    name: string,
    favoriteTeam: Option<string>,
    experience: Option<string>,
    style: Option<string>,
    expertiseSlider: int,
    hotTakeSlider: int,
    favoritePlayers: seq<string>,
    voiceKey: string)

  /** The profile built from the extracted fields; `withKeys` adds the lower-cased
      experience and style keys as `/api/call-transcript` does. */
  function BuildProfile(e: Extracted, withKeys: bool): ProfileDict
  {
    var experienceKey := Lower(GetOr(e.experience, "casual"));
    var styleKey := Lower(GetOr(e.style, "balanced"));
    ProfileDict(
      GetOr(e.name, "Fan"),
      e.favoriteTeam,
      if withKeys then Some(experienceKey) else None,
      if withKeys then Some(styleKey) else None,
      ExpertiseFor(experienceKey),
      HotTakeFor(styleKey),
      GetOr(e.favoritePlayers, []),
      "danny")
  }

  /** The profile `/api/call-transcript` returns when the agent has no calls. */
  const NoCallsProfile := ProfileDict("Fan", None, None, None, 40, 25, [], "danny")

  /** Every built profile has the "danny" voice and sliders from the tables, the two
      endpoints' records differ only in the extra keys, and an empty object gives the
      defaults: "Fan", no team, casual 40, balanced 25, no players, which is exactly
      the hard-coded no-calls profile. */
  lemma BuildProfileFacts(e: Extracted)
    ensures BuildProfile(e, false).voiceKey == "danny"
    ensures BuildProfile(e, false).expertiseSlider in {15, 40, 65, 90}
    ensures BuildProfile(e, false).hotTakeSlider in {25, 50, 80}
    ensures BuildProfile(e, true)
            == BuildProfile(e, false).(experience := Some(Lower(GetOr(e.experience, "casual"))),
                                       style := Some(Lower(GetOr(e.style, "balanced"))))
    ensures BuildProfile(EmptyObject, false) == NoCallsProfile
    ensures BuildProfile(EmptyObject, true).experience == Some("casual")
    ensures BuildProfile(EmptyObject, true).style == Some("balanced")
  {
    ExpertiseTable(Lower(GetOr(e.experience, "casual")));
    HotTakeTable(Lower(GetOr(e.style, "balanced")));
    ExpertiseTable("casual");
    HotTakeTable("balanced");
    assert Lower("casual") == "casual";
    assert Lower("balanced") == "balanced";
  }

  // ---------------------------------------------------------------------------
  // The [PROFILE_COMPLETE] block:
  //   \[PROFILE_COMPLETE\]\s*(\{.*?\})\s*\[/PROFILE_COMPLETE\]   (DOTALL)
  // Both `\s*` are followed by a non-space character, so they always take every
  // space; the lazy `.*?` stops at the first `}` that the closing tag follows.

  const OpenTag := "[PROFILE_COMPLETE]"
  const CloseTag := "[/PROFILE_COMPLETE]"

  /** The end of the run of whitespace starting at `i`. */
  function SkipSpaces(s: string, i: nat): (j: nat)
    requires i <= |s|
    ensures i <= j <= |s|
    decreases |s| - i
  {
    if i < |s| && PySpace(s[i]) then SkipSpaces(s, i + 1) else i
  }

  /** The run skipped is all whitespace and ends at the first other character. */
  lemma {:induction false} SkipSpacesFacts(s: string, i: nat)
    requires i <= |s|
    ensures forall k :: i <= k < SkipSpaces(s, i) ==> PySpace(s[k])
    ensures SkipSpaces(s, i) < |s| ==> !PySpace(s[SkipSpaces(s, i)])
    decreases |s| - i
  {
    if i < |s| && PySpace(s[i]) {
      SkipSpacesFacts(s, i + 1);
    }
  }

  /** A `}` at `k` after which optional whitespace and the closing tag follow. */
  predicate ClosesAt(s: string, k: nat)
  {
    k < |s| && s[k] == '}' && StartsWith(s[SkipSpaces(s, k + 1)..], CloseTag)
  }

  /** The first position at or after `k` where the JSON group can end. */
  function FirstClose(s: string, k: nat): (r: Option<nat>)
    requires k <= |s|
    ensures r.Some? ==> k <= r.value < |s|
    decreases |s| - k
  {
    if k == |s| then None
    else if ClosesAt(s, k) then Some(k)
    else FirstClose(s, k + 1)
  }

  /** There is no end for the group exactly when it can end nowhere. */
  lemma {:induction false} FirstCloseNone(s: string, k: nat)
    requires k <= |s|
    ensures FirstClose(s, k).None? <==> forall m :: k <= m < |s| ==> !ClosesAt(s, m)
    decreases |s| - k
  {
    if k < |s| && !ClosesAt(s, k) {
      FirstCloseNone(s, k + 1);
    }
  }

  /** The group ends at the first position where it can. */
  lemma {:induction false} FirstCloseFound(s: string, k: nat)
    requires k <= |s| && FirstClose(s, k).Some?
    ensures ClosesAt(s, FirstClose(s, k).value)
    ensures forall m :: k <= m < FirstClose(s, k).value ==> !ClosesAt(s, m)
    decreases |s| - k
  {
    if !ClosesAt(s, k) {
      FirstCloseFound(s, k + 1);
    }
  }

  /** The first closing position is the one with none before it. */
  lemma FirstCloseIs(s: string, from: nat, k: nat)
    requires from <= k && ClosesAt(s, k)
    requires forall m :: from <= m < k ==> !ClosesAt(s, m)
    ensures FirstClose(s, from) == Some(k)
  {
    FirstCloseNone(s, from);
    FirstCloseFound(s, from);
  }

  /** A match of the block: where it ends and its `{...}` group. */
  datatype BlockMatch = BlockMatch(group: string, end: nat)

  /** The match of the block that starts at `i`, if one does. */
  function MatchAt(s: string, i: nat): (r: Option<BlockMatch>)
    requires i <= |s|
    ensures r.Some? ==> i < r.value.end <= |s|
    ensures r.Some? ==> StartsWith(s[i..], OpenTag)
  {
    if !StartsWith(s[i..], OpenTag) then None
    else
      var j := SkipSpaces(s, i + |OpenTag|);
      if j < |s| && s[j] == '{' then
        match FirstClose(s, j + 1)
        case None => None
        case Some(k) =>
          FirstCloseFound(s, j + 1);
          Some(BlockMatch(s[j..k + 1], SkipSpaces(s, k + 1) + |CloseTag|))
      else None
  }

  /** `_PROFILE_COMPLETE_RE.search(s)` from position `i`: the leftmost match. */
  function Search(s: string, i: nat): (r: Option<BlockMatch>)
    requires i <= |s|
    ensures r.Some? ==> r.value.end <= |s|
    decreases |s| - i
  {
    if MatchAt(s, i).Some? then MatchAt(s, i)
    else if i == |s| then None
    else Search(s, i + 1)
  }

  /** The search finds nothing exactly when the block matches nowhere. */
  lemma {:induction false} SearchNone(s: string, i: nat)
    requires i <= |s|
    ensures Search(s, i).None? <==> forall p :: i <= p <= |s| ==> MatchAt(s, p).None?
    decreases |s| - i
  {
    if MatchAt(s, i).None? && i < |s| {
      SearchNone(s, i + 1);
    }
  }

  /** What the search finds is the match at the leftmost position where the block
      matches. */
  lemma {:induction false} SearchLeftmost(s: string, i: nat)
    requires i <= |s| && Search(s, i).Some?
    ensures exists p :: i <= p <= |s| && MatchAt(s, p) == Search(s, i)
                        && forall q :: i <= q < p ==> MatchAt(s, q).None?
    decreases |s| - i
  {
    if MatchAt(s, i).Some? {
      assert i <= i <= |s| && MatchAt(s, i) == Search(s, i);
    } else {
      SearchLeftmost(s, i + 1);
      var p :| i + 1 <= p <= |s| && MatchAt(s, p) == Search(s, i + 1)
               && forall q :: i + 1 <= q < p ==> MatchAt(s, q).None?;
      assert forall q :: i <= q < p ==> MatchAt(s, q).None?;
    }
  }

  /** `_PROFILE_COMPLETE_RE.sub("", s)` from position `i`: every match, left to right,
      is deleted and scanning resumes after it. */
  function RemoveBlocks(s: string, i: nat): string
    requires i <= |s|
    decreases |s| - i
  {
    if i == |s| then ""
    else match MatchAt(s, i)
      case Some(m) => RemoveBlocks(s, m.end)
      case None => [s[i]] + RemoveBlocks(s, i + 1)
  }

  /** The reply of `/api/profile-chat`. */
  datatype ChatReply = ChatReply(text: string, done: bool, profile: Option<ProfileDict>)

  /** `/api/profile-chat` after the model answered `raw`. */
  function ProfileChat(raw: string, parse: string -> Option<Extracted>): (r: ChatReply)
    ensures r.done <==> exists p :: 0 <= p <= |raw| && MatchAt(raw, p).Some?
    ensures r.profile.Some? <==> r.done
    ensures r.profile.Some? ==> r.profile.value.voiceKey == "danny"
    ensures r.text == PyStrip(RemoveBlocks(raw, 0))
  {
    SearchNone(raw, 0);
    var found := Search(raw, 0);
    var profile :=
      match found
      case None => None
      case Some(m) => Some(BuildProfile(GetOr(parse(m.group), EmptyObject), false));
    ChatReply(PyStrip(RemoveBlocks(raw, 0)), found.Some?, profile)
  }

  /** A finished chat whose JSON does not parse still yields the default profile. */
  lemma MalformedJsonFallsBack(raw: string, parse: string -> Option<Extracted>)
    requires Search(raw, 0).Some? && parse(Search(raw, 0).value.group).None?
    ensures ProfileChat(raw, parse).done
    ensures ProfileChat(raw, parse).profile == Some(NoCallsProfile)
  {
    BuildProfileFacts(EmptyObject);
  }

  /** No block starts at a character other than `[`: the scans move past it. */
  lemma NoMatchWithoutBracket(s: string, i: nat)
    requires i < |s| && s[i] != '['
    ensures MatchAt(s, i).None?
    ensures RemoveBlocks(s, i) == [s[i]] + RemoveBlocks(s, i + 1)
    ensures Search(s, i) == Search(s, i + 1)
  {
    assert OpenTag[0] == '[';
    assert |OpenTag| <= |s[i..]| ==> s[i..][..|OpenTag|][0] == s[i];
  }

  /** Text without `[` passes through the removal unchanged. */
  lemma {:induction false} RemoveBlocksPlain(s: string, i: nat, n: nat)
    requires i <= n <= |s|
    requires forall k :: i <= k < n ==> s[k] != '['
    ensures RemoveBlocks(s, i) == s[i..n] + RemoveBlocks(s, n)
    decreases n - i
  {
    if i < n {
      NoMatchWithoutBracket(s, i);
      RemoveBlocksPlain(s, i + 1, n);
      SliceCons(s, i, n);
      AppendAssoc([s[i]], s[i + 1..n], RemoveBlocks(s, n));
    }
  }

  /** The block the model is asked to append, around `{body}`. */
  function Block(body: string): string
  {
    OpenTag + "{" + body + "}" + CloseTag
  }

  /** Where the parts of a block sit inside it. */
  lemma BlockChars(body: string)
    ensures var b := Block(body);
            var j := |OpenTag|;
            && |b| == |OpenTag| + |body| + 2 + |CloseTag|
            && b[..|OpenTag|] == OpenTag
            && b[j] == '{'
            && (forall m :: 0 <= m < |body| ==> b[j + 1 + m] == body[m])
            && b[j + 1 + |body|] == '}'
            && b[j + 2 + |body|..] == CloseTag
            && b[j..j + 2 + |body|] == "{" + body + "}"
  {
    var b := Block(body);
    assert b == OpenTag + ("{" + body + "}") + CloseTag;
  }

  /** `s` holds a block around `body` at position `i`. */
  predicate BlockAt(s: string, i: nat, body: string)
  {
    i + |Block(body)| <= |s| && s[i..i + |Block(body)|] == Block(body)
  }

  lemma BlockAtChars(s: string, i: nat, body: string)
    requires BlockAt(s, i, body)
    ensures forall t :: 0 <= t < |Block(body)| ==> s[i + t] == Block(body)[t]
  {
    forall t | 0 <= t < |Block(body)|
      ensures s[i + t] == Block(body)[t]
    {
      assert s[i..i + |Block(body)|][t] == s[i + t];
    }
  }

  /** The opening tag of a block is matched, and the `{` follows it directly. */
  lemma BlockOpensAt(s: string, i: nat, body: string)
    requires BlockAt(s, i, body)
    ensures StartsWith(s[i..], OpenTag)
    ensures SkipSpaces(s, i + |OpenTag|) == i + |OpenTag| && s[i + |OpenTag|] == '{'
  {
    BlockChars(body);
    BlockAtChars(s, i, body);
    var b := Block(body);
    assert s[i..][..|OpenTag|] == b[..|OpenTag|];
  }

  /** No character of the body can end the group. */
  lemma BodyDoesNotClose(s: string, i: nat, body: string)
    requires BlockAt(s, i, body) && '}' !in body
    ensures forall m :: i + |OpenTag| + 1 <= m < i + |OpenTag| + 1 + |body| ==> !ClosesAt(s, m)
  {
    BlockChars(body);
    BlockAtChars(s, i, body);
    forall m | i + |OpenTag| + 1 <= m < i + |OpenTag| + 1 + |body|
      ensures s[m] != '}'
    {
      var t := m - i;
      assert s[i + t] == Block(body)[|OpenTag| + 1 + (m - (i + |OpenTag| + 1))];
    }
  }

  /** The `}` after the body ends the group: the closing tag follows it. */
  lemma BraceClosesAt(s: string, i: nat, body: string)
    requires BlockAt(s, i, body)
    ensures var k := i + |OpenTag| + 1 + |body|;
            ClosesAt(s, k) && SkipSpaces(s, k + 1) == k + 1
  {
    BlockChars(body);
    BlockAtChars(s, i, body);
    var b := Block(body);
    var k := i + |OpenTag| + 1 + |body|;
    var c := |OpenTag| + 2 + |body|;
    assert s[k + 1] == b[c] == CloseTag[0];
    assert s[k + 1..][..|CloseTag|] == b[c..] by {
      forall t | 0 <= t < |CloseTag|
        ensures s[k + 1..][..|CloseTag|][t] == b[c..][t]
      {
        assert s[k + 1 + t] == s[i + (c + t)];
      }
    }
  }

  /** The group a block's match captures is `{body}`. */
  lemma GroupOfBlock(s: string, i: nat, body: string)
    requires BlockAt(s, i, body)
    ensures s[i + |OpenTag|..i + |OpenTag| + 2 + |body|] == "{" + body + "}"
  {
    var b := Block(body);
    var j := |OpenTag|;
    var g := "{" + body + "}";
    assert b == OpenTag + g + CloseTag;
    assert b[j..j + |g|] == g;
    SliceOfSlice(s, i, |b|, j, j + |g|);
  }

  /** A slice of a slice is a slice. */
  lemma SliceOfSlice(s: string, i: nat, n: nat, j: nat, m: nat)
    requires i + n <= |s| && j <= m <= n
    ensures s[i..i + n][j..m] == s[i + j..i + m]
  {
    var a := s[i..i + n][j..m];
    var b := s[i + j..i + m];
    forall t | 0 <= t < |a|
      ensures a[t] == b[t]
    {
      assert a[t] == s[i + j + t];
    }
  }

  /** The parts of `before + Block(body) + after`, by position. */
  lemma BlockLayout(before: string, body: string, after: string)
    ensures var s := before + Block(body) + after;
            && s[..|before|] == before
            && BlockAt(s, |before|, body)
            && s[|before| + |Block(body)|..] == after
  {
    var s := before + Block(body) + after;
    assert s[|before|..|before| + |Block(body)|] == Block(body);
  }

  /** A block at `i` matches there, with group `{body}` and the match covering the block. */
  lemma BlockMatches(s: string, i: nat, body: string)
    requires BlockAt(s, i, body) && '}' !in body
    ensures MatchAt(s, i).Some?
    ensures MatchAt(s, i).value.group == "{" + body + "}"
    ensures MatchAt(s, i).value.end == i + |Block(body)|
  {
    var j := i + |OpenTag|;
    var k := j + 1 + |body|;
    assert |Block(body)| == |OpenTag| + |body| + 2 + |CloseTag|;
    BlockOpensAt(s, i, body);
    BodyDoesNotClose(s, i, body);
    BraceClosesAt(s, i, body);
    FirstCloseIs(s, j + 1, k);
    GroupOfBlock(s, i, body);
    assert MatchAt(s, i) == Some(BlockMatch(s[j..k + 1], k + 1 + |CloseTag|));
  }

  /** `Search` skips a prefix without `[`. */
  lemma {:induction false} SearchSkipsPlain(s: string, i: nat, n: nat)
    requires i <= n <= |s|
    requires forall k :: i <= k < n ==> s[k] != '['
    ensures Search(s, i) == Search(s, n)
    decreases n - i
  {
    if i < n {
      NoMatchWithoutBracket(s, i);
      SearchSkipsPlain(s, i + 1, n);
    }
  }

  /** The round trip of the onboarding chat: when the model's reply is text, then the
      block with a JSON object, then more text, the chat is done, the profile comes
      from that object, and the viewer sees the text around the block, stripped. */
  lemma BlockRoundTrip(before: string, body: string, after: string, parse: string -> Option<Extracted>)
    requires '[' !in before && '[' !in after && '}' !in body
    ensures var r := ProfileChat(before + Block(body) + after, parse);
            && r.done
            && r.profile == Some(BuildProfile(GetOr(parse("{" + body + "}"), EmptyObject), false))
            && r.text == PyStrip(before + after)
  {
    var s := before + Block(body) + after;
    BlockSearch(before, body, after);
    BlockRemoved(before, body, after);
    var r := ProfileChat(s, parse);
    assert r.profile == Some(BuildProfile(GetOr(parse(Search(s, 0).value.group), EmptyObject), false));
  }

  /** The search finds the block after a prefix without `[`. */
  lemma BlockSearch(before: string, body: string, after: string)
    requires '[' !in before && '}' !in body
    ensures var s := before + Block(body) + after;
            Search(s, 0).Some? && Search(s, 0).value.group == "{" + body + "}"
  {
    var s := before + Block(body) + after;
    BlockLayout(before, body, after);
    BlockMatches(s, |before|, body);
    SearchSkipsPlain(s, 0, |before|);
  }

  /** Removing the block leaves the text around it. */
  lemma BlockRemoved(before: string, body: string, after: string)
    requires '[' !in before && '[' !in after && '}' !in body
    ensures RemoveBlocks(before + Block(body) + after, 0) == before + after
  {
    var s := before + Block(body) + after;
    var n := |before| + |Block(body)|;
    BlockLayout(before, body, after);
    BlockMatches(s, |before|, body);
    RemoveBlocksPlain(s, 0, |before|);
    RemoveBlocksPlain(s, n, |s|);
    assert RemoveBlocks(s, |before|) == RemoveBlocks(s, n);
    SliceBounds(s, |before|);
    SliceBounds(s, n);
    assert RemoveBlocks(s, |s|) == "";
    assert after + "" == after;
  }

  /** A reply without any `[` is not a finished profile and is shown as it is, stripped. */
  lemma PlainReply(raw: string, parse: string -> Option<Extracted>)
    requires '[' !in raw
    ensures !ProfileChat(raw, parse).done && ProfileChat(raw, parse).profile.None?
    ensures ProfileChat(raw, parse).text == PyStrip(raw)
  {
    SearchSkipsPlain(raw, 0, |raw|);
    RemoveBlocksPlain(raw, 0, |raw|);
    assert raw[0..|raw|] == raw;
    assert raw + "" == raw;
  }

  // ---------------------------------------------------------------------------
  // /api/extract-profile and the JSON fallback `\{.*\}` (DOTALL)

  /** The first `c` at or after `i`. */
  function FirstIndex(s: string, c: char, i: nat): (r: Option<nat>)
    requires i <= |s|
    ensures r.None? <==> forall k :: i <= k < |s| ==> s[k] != c
    ensures r.Some? ==> i <= r.value < |s| && s[r.value] == c
                        && forall k :: i <= k < r.value ==> s[k] != c
    decreases |s| - i
  {
    if i == |s| then None else if s[i] == c then Some(i) else FirstIndex(s, c, i + 1)
  }

  /** The last `c` in `s`. */
  function LastIndex(s: string, c: char): (r: Option<nat>)
    ensures r.None? <==> forall k :: 0 <= k < |s| ==> s[k] != c
    ensures r.Some? ==> r.value < |s| && s[r.value] == c
                        && forall k :: r.value < k < |s| ==> s[k] != c
    decreases |s|
  {
    if |s| == 0 then None
    else if s[|s| - 1] == c then Some(|s| - 1)
    else LastIndex(s[..|s| - 1], c)
  }

  /** `re.search(r"\{.*\}", s, re.DOTALL)`, as the span of the match: it starts at the
      first `{` and, `.*` being greedy, ends at the last `}`. */
  function GreedySpan(s: string): (r: Option<(nat, nat)>)
    ensures r.Some? ==> var (i, j) := r.value;
                        && i < j < |s| && s[i] == '{' && s[j] == '}'
                        && (forall k :: 0 <= k < i ==> s[k] != '{')
                        && (forall k :: j < k < |s| ==> s[k] != '}')
  {
    match FirstIndex(s, '{', 0)
    case None => None
    case Some(i) =>
      match LastIndex(s, '}')
      case None => None
      case Some(j) => if i < j then Some((i, j)) else None
  }

  /** The text of that match. */
  function GreedyObject(s: string): Option<string>
  {
    match GreedySpan(s)
    case None => None
    case Some((i, j)) => Some(s[i..j + 1])
  }

  /** The fallback finds something exactly when some `{` comes before some `}`. */
  lemma GreedySpanFound(s: string)
    ensures GreedySpan(s).Some?
            <==> exists p, q :: 0 <= p < q < |s| && s[p] == '{' && s[q] == '}'
  {
  }

  /** The extracted object of `/api/extract-profile` and `/api/call-transcript` for the
      model's stripped reply `raw`; `None` where `json.loads` of the fallback span
      raises, which the endpoint does not catch. */
  function ExtractObject(raw: string, parse: string -> Option<Extracted>): Option<Extracted>
  {
    match parse(raw)
    case Some(e) => Some(e)
    case None =>
      match GreedyObject(raw)
      case None => Some(EmptyObject)
      case Some(span) => parse(span)
  }

  /** `/api/extract-profile` for the model's reply `reply`; `None` is the failing request. */
  function ExtractProfile(reply: string, parse: string -> Option<Extracted>): (r: Option<ProfileDict>)
    ensures r.Some? ==> r.value.voiceKey == "danny" && r.value.experience.None?
  {
    match ExtractObject(PyStrip(reply), parse)
    case None => None
    case Some(e) => Some(BuildProfile(e, false))
  }

  /** A reply that is valid JSON is used as is; a reply with no `{...}` in it gives the
      default profile; otherwise the span from the first `{` to the last `}` is parsed and,
      when it is JSON, gives the profile; the request fails only when that span is not
      JSON either. */
  lemma ExtractProfileCases(reply: string, parse: string -> Option<Extracted>)
    ensures var raw := PyStrip(reply);
            && (parse(raw).Some? ==> ExtractProfile(reply, parse) == Some(BuildProfile(parse(raw).value, false)))
            && (parse(raw).None? && GreedyObject(raw).None? ==> ExtractProfile(reply, parse) == Some(NoCallsProfile))
            && (parse(raw).None? && GreedyObject(raw).Some? && parse(GreedyObject(raw).value).Some? ==>
                  ExtractProfile(reply, parse) == Some(BuildProfile(parse(GreedyObject(raw).value).value, false)))
            && (ExtractProfile(reply, parse).None? <==>
                  parse(raw).None? && GreedyObject(raw).Some? && parse(GreedyObject(raw).value).None?)
  {
    BuildProfileFacts(EmptyObject);
  }

  // ---------------------------------------------------------------------------
  // The chat history sent to the model

  /** One message of `req.messages`; `None` is a missing key. */
  datatype ChatMessage = ChatMessage(role: Option<string>, text: Option<string>)

  /** One message of the Anthropic conversation. */
  datatype LlmMessage = LlmMessage(role: string, content: string)

  /** A message is kept when its role (default "user") is user or assistant and its
      text (default "") is not empty. */
  predicate Kept(m: ChatMessage)
  {
    var role := GetOr(m.role, "user");
    (role == "user" || role == "assistant") && GetOr(m.text, "") != ""
  }

  function ToLlm(m: ChatMessage): LlmMessage
  {
    LlmMessage(GetOr(m.role, "user"), GetOr(m.text, ""))
  }

  /** The seed used when nothing is kept. */
  const Greeting := LlmMessage("user", "Hey! I just tuned in.")

  /** The kept messages, converted, in order. */
  function KeptMessages(history: seq<ChatMessage>): seq<LlmMessage>
  {
    var kept := Filter(history, Kept);
    seq(|kept|, k requires 0 <= k < |kept| => ToLlm(kept[k]))
  }

  /** The conversation `/api/profile-chat` sends. */
  function Conversation(history: seq<ChatMessage>): seq<LlmMessage>
  {
    if KeptMessages(history) == [] then [Greeting] else KeptMessages(history)
  }

  /** The loop of `/api/profile-chat` that builds `anthropic_messages`. */
  method BuildConversation(history: seq<ChatMessage>) returns (messages: seq<LlmMessage>)
    ensures messages == Conversation(history)
  {
    messages := [];
    var i := 0;
    while i < |history|
      invariant 0 <= i <= |history|
      invariant messages == KeptMessages(history[..i])
    {
      var msg := history[i];
      var role := GetOr(msg.role, "user");
      var text := GetOr(msg.text, "");
      assert history[..i + 1] == history[..i] + [msg];
      assert history[..i + 1][..i] == history[..i];
      if (role == "user" || role == "assistant") && text != "" {
        messages := messages + [LlmMessage(role, text)];
      }
      i := i + 1;
    }
    assert history[..|history|] == history;
    if messages == [] {
      messages := [Greeting];
    }
  }

  /** Every message sent is a user or assistant message with text, and the
      conversation is never empty. */
  lemma ConversationWellFormed(history: seq<ChatMessage>)
    ensures |Conversation(history)| >= 1
    ensures forall k :: 0 <= k < |Conversation(history)| ==>
              Conversation(history)[k].role in {"user", "assistant"} && Conversation(history)[k].content != ""
  {
    var kept := Filter(history, Kept);
    var msgs := KeptMessages(history);
    forall k | 0 <= k < |msgs|
      ensures msgs[k].role in {"user", "assistant"} && msgs[k].content != ""
    {
      assert kept[k] in history && Kept(kept[k]);
    }
  }

  /** Nothing is kept exactly when no message has a user or assistant role and text;
      only then is the greeting sent in place of the history. */
  lemma GreetingOnlyWhenNothingKept(history: seq<ChatMessage>)
    ensures KeptMessages(history) == [] <==> forall k :: 0 <= k < |history| ==> !Kept(history[k])
    ensures KeptMessages(history) == [] ==> Conversation(history) == [Greeting]
    ensures KeptMessages(history) != [] ==> Conversation(history) == KeptMessages(history)
  {
    var kept := Filter(history, Kept);
    if KeptMessages(history) != [] {
      assert kept[0] in history && Kept(kept[0]);
    }
  }

  /** Every message the filter keeps is sent. */
  lemma KeptMessagesSent(history: seq<ChatMessage>, k: nat)
    requires k < |history| && Kept(history[k])
    ensures ToLlm(history[k]) in Conversation(history)
  {
    var kept := Filter(history, Kept);
    var j :| 0 <= j < |kept| && kept[j] == history[k];
    assert KeptMessages(history)[j] == ToLlm(history[k]);
  }

  /** The filter keeps order: the messages kept from a history are those kept from its
      first part followed by those kept from the rest. */
  lemma {:induction false} KeptMessagesAppend(a: seq<ChatMessage>, b: seq<ChatMessage>)
    ensures KeptMessages(a + b) == KeptMessages(a) + KeptMessages(b)
  {
    FilterAppend(a, b, Kept);
    var ka, kb := Filter(a, Kept), Filter(b, Kept);
    var all := KeptMessages(a + b);
    assert |all| == |ka| + |kb|;
    forall t | 0 <= t < |all|
      ensures all[t] == (KeptMessages(a) + KeptMessages(b))[t]
    {
      assert Filter(a + b, Kept)[t] == (ka + kb)[t];
    }
  }

  // ---------------------------------------------------------------------------
  // /api/call-transcript

  /** One turn of a call's transcript; `None` is a missing key. */
  datatype Turn = Turn(role: Option<string>, text: Option<string>)

  function Speaker(t: Turn): string
  {
    if GetOr(t.role, "unknown") == "assistant" then "Danny" else "Viewer"
  }

  function TurnLine(t: Turn): string
  {
    Speaker(t) + ": " + GetOr(t.text, "")
  }

  function TranscriptLines(turns: seq<Turn>): seq<string>
  {
    seq(|turns|, k requires 0 <= k < |turns| => TurnLine(turns[k]))
  }

  /** The loop of `/api/call-transcript` that builds the transcript text. */
  method FormatTranscript(turns: seq<Turn>) returns (text: string)
    ensures text == Join(TranscriptLines(turns), "\n")
  {
    var parts: seq<string> := [];
    var i := 0;
    while i < |turns|
      invariant 0 <= i <= |turns|
      invariant parts == TranscriptLines(turns[..i])
    {
      var role := GetOr(turns[i].role, "unknown");
      var t := GetOr(turns[i].text, "");
      var speaker := if role == "assistant" then "Danny" else "Viewer";
      parts := parts + [speaker + ": " + t];
      i := i + 1;
    }
    assert turns[..|turns|] == turns;
    text := Join(parts, "\n");
  }

  /** The transcript has one line per turn, in order: splitting it at newlines gives
      back "Danny: text" for assistant turns and "Viewer: text" for every other or
      missing role, provided no text holds a newline of its own. */
  lemma TranscriptRoundTrip(turns: seq<Turn>)
    requires |turns| > 0
    requires forall k :: 0 <= k < |turns| ==> '\n' !in GetOr(turns[k].text, "")
    ensures var lines := Split(Join(TranscriptLines(turns), "\n"), '\n');
            && |lines| == |turns|
            && forall k :: 0 <= k < |turns| ==>
                 lines[k] == (if turns[k].role == Some("assistant") then "Danny: " else "Viewer: ")
                             + GetOr(turns[k].text, "")
  {
    var lines := TranscriptLines(turns);
    forall k | 0 <= k < |lines|
      ensures '\n' !in lines[k]
    {
      TurnLineFacts(turns[k]);
    }
    SplitJoin(lines, '\n');
    forall k | 0 <= k < |turns|
      ensures lines[k] == (if turns[k].role == Some("assistant") then "Danny: " else "Viewer: ")
                          + GetOr(turns[k].text, "")
    {
      TurnLineFacts(turns[k]);
    }
  }

  /** A turn's line is the speaker's label and the text, with no newline the text does
      not have. */
  lemma TurnLineFacts(t: Turn)
    ensures TurnLine(t) == (if t.role == Some("assistant") then "Danny: " else "Viewer: ") + GetOr(t.text, "")
    ensures '\n' !in GetOr(t.text, "") ==> '\n' !in TurnLine(t)
  {
    var prefix := if t.role == Some("assistant") then "Danny: " else "Viewer: ";
    assert Speaker(t) + ": " == prefix;
  }

  /** The result of `/api/call-transcript`. */
  datatype CallTranscript = CallTranscript(transcript: string, profile: ProfileDict)

  /** `/api/call-transcript` given the listed calls (most recent first, each its turns)
      and the model's reply to the transcript; `None` is the failing request. */
  function CallTranscriptFor(calls: seq<seq<Turn>>, reply: string, parse: string -> Option<Extracted>)
    : (r: Option<CallTranscript>)
    ensures calls == [] ==> r == Some(CallTranscript("", NoCallsProfile))
    ensures calls != [] && r.Some? ==>
              r.value.transcript == Join(TranscriptLines(calls[0]), "\n")
              && r.value.profile.experience.Some? && r.value.profile.style.Some?
  {
    if calls == [] then Some(CallTranscript("", NoCallsProfile))
    else
      match ExtractObject(PyStrip(reply), parse)
      case None => None
      case Some(e) => Some(CallTranscript(Join(TranscriptLines(calls[0]), "\n"), BuildProfile(e, true)))
  }

  /** The call-transcript profile is the extract-profile one plus the two keys. */
  lemma CallTranscriptMatchesExtract(calls: seq<seq<Turn>>, reply: string, parse: string -> Option<Extracted>)
    requires calls != []
    ensures CallTranscriptFor(calls, reply, parse).Some? <==> ExtractProfile(reply, parse).Some?
    ensures CallTranscriptFor(calls, reply, parse).Some? ==>
              CallTranscriptFor(calls, reply, parse).value.profile.(experience := None, style := None)
              == ExtractProfile(reply, parse).value
  {
  }
}
