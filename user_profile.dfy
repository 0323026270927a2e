/** agent/user_profile.py: the viewer profile that personalises commentary. Two sliders
    are bucketed into descriptions, personal connections are summarised, and the whole
    profile is rendered as a Markdown block appended to the system prompt. */
module Profiles {
  import opened Util

  /** An entry of `players_from_alma_mater`: a dict that may or may not hold "name". */
  datatype AlmaPlayer = AlmaPlayer(name: Option<string>)

  datatype UserProfile = UserProfile(
    name: string,
    favoriteTeam: Option<string>,
    rivalTeam: Option<string>,
    expertiseSlider: int,
    hotTakeSlider: int,
    almaMater: Option<string>,
    hometown: Option<string>,
    favoritePlayers: seq<string>,
    interests: seq<string>,
    playersFromAlmaMater: seq<AlmaPlayer>,
    hometownConnections: seq<string>,
    funFacts: seq<string>)

  /** `UserProfile()` with every default. */
  const DefaultProfile: UserProfile := UserProfile("Fan", None, None, 50, 50, None, None, [], [], [], [], [])

  /** Python truthiness of an optional string: neither None nor "". */
  predicate Truthy(o: Option<string>)
  {
    o.Some? && o.value != ""
  }

  /** An optional string inside an f-string: None renders as "None". */
  function PyStr(o: Option<string>): string
  {
    if o.Some? then o.value else "None"
  }

  // ---------------------------------------------------------------------------
  // Slider descriptions
  // ---------------------------------------------------------------------------

  /** How many of the ascending `bounds` the slider has reached. */
  function Band(bounds: seq<int>, slider: int): (b: nat)
    ensures b <= |bounds|
    decreases |bounds|
  {
    if bounds == [] then 0
    else (if slider >= bounds[0] then 1 else 0) + Band(bounds[1..], slider)
  }

  /** A higher slider never lands in a lower band. */
  lemma {:induction false} BandMonotone(bounds: seq<int>, a: int, b: int)
    requires a <= b
    ensures Band(bounds, a) <= Band(bounds, b)
    decreases |bounds|
  {
    if bounds != [] {
      BandMonotone(bounds[1..], a, b);
    }
  }

  const ExpertiseBounds: seq<int> := [20, 50, 80]

  const ExpertiseTexts: seq<string> := [
    "Complete beginner \U{2014} explain everything simply, define terms like offside, free kick, etc.",
    "Casual fan \U{2014} knows the basics, explain complex plays and tactics",
    "Knowledgeable \U{2014} appreciates tactical analysis, use real football language",
    "Film room nerd \U{2014} loves formations, pressing triggers, expected goals, deep tactical breakdowns"
  ]

  const StyleBounds: seq<int> := [30, 60]

  const StyleTexts: seq<string> := [
    "balanced and objective \U{2014} call it fair for both sides",
    "engaged with some team bias \U{2014} show extra energy for the viewer's team",
    "full homer mode \U{2014} celebrate your team, show empathy on bad plays, light trash talk for rivals"
  ]

  /** `get_expertise_description`: the text of the band the slider falls in (< 20, < 50,
      < 80, otherwise). */
  function ExpertiseDescription(slider: int): (r: string)
    ensures r == ExpertiseTexts[Band(ExpertiseBounds, slider)]
  {
    if slider < 20 then ExpertiseTexts[0]
    else if slider < 50 then ExpertiseTexts[1]
    else if slider < 80 then ExpertiseTexts[2]
    else ExpertiseTexts[3]
  }

  /** `get_style_instruction`: the text of the band the slider falls in (< 30, < 60,
      otherwise). */
  function StyleInstruction(slider: int): (r: string)
    ensures r == StyleTexts[Band(StyleBounds, slider)]
  {
    if slider < 30 then StyleTexts[0]
    else if slider < 60 then StyleTexts[1]
    else StyleTexts[2]
  }

  // ---------------------------------------------------------------------------
  // get_connections_summary
  // ---------------------------------------------------------------------------

  function Take<T>(s: seq<T>, n: nat): (r: seq<T>)
    ensures |r| <= n && |r| <= |s| && r == s[..|r|]
    ensures |s| >= n ==> |r| == n
    ensures |s| < n ==> r == s
  {
    if |s| <= n then s else s[..n]
  }

  /** `[p.get("name", "Unknown") for p in players_from_alma_mater[:3]]`. */
  function AlmaNames(ps: seq<AlmaPlayer>): (r: seq<string>)
    ensures |r| == |Take(ps, 3)|
    ensures forall k :: 0 <= k < |r| ==> r[k] == GetOr(ps[k].name, "Unknown")
  {
    var first := Take(ps, 3);
    seq(|first|, k requires 0 <= k < |first| => GetOr(first[k].name, "Unknown"))
  }

  const FavoritePrefix: string := "Favorite players: "
  const HometownPrefix: string := "Hometown connections: "

  function AlmaPart(p: UserProfile): string
  {
    "Players from " + PyStr(p.almaMater) + ": " + Join(AlmaNames(p.playersFromAlmaMater), ", ")
  }

  /** The `connections` list, in the order it is built. */
  function ConnectionParts(p: UserProfile): seq<string>
  {
    (if p.favoritePlayers != [] then [FavoritePrefix + Join(p.favoritePlayers, ", ")] else [])
    + (if p.playersFromAlmaMater != [] then [AlmaPart(p)] else [])
    + (if p.hometownConnections != [] then [HometownPrefix + Join(Take(p.hometownConnections, 2), ", ")] else [])
  }

  /** `get_connections_summary`. */
  function ConnectionsSummary(p: UserProfile): string
  {
    Join(ConnectionParts(p), "; ")
  }

  lemma JoinEmptyIff(xs: seq<string>, sep: string)
    requires forall k :: 0 <= k < |xs| ==> xs[k] != ""
    ensures Join(xs, sep) == "" <==> xs == []
  {
    if |xs| > 1 {
      assert |Join(xs, sep)| >= |xs[0]|;
    }
  }

  /** The summary lists favourite players, then the first three alma-mater players, then the
      first two hometown connections, each part present exactly when its list is non-empty,
      and it is empty exactly when all three lists are. */
  lemma ConnectionsOrder(p: UserProfile)
    ensures var parts := ConnectionParts(p);
            var nf := if p.favoritePlayers != [] then 1 else 0;
            var na := if p.playersFromAlmaMater != [] then 1 else 0;
            var nh := if p.hometownConnections != [] then 1 else 0;
            && |parts| == nf + na + nh
            && (nf == 1 ==> parts[0] == FavoritePrefix + Join(p.favoritePlayers, ", "))
            && (na == 1 ==> parts[nf] == AlmaPart(p) && |AlmaNames(p.playersFromAlmaMater)| <= 3)
            && (nh == 1 ==> parts[nf + na] == HometownPrefix + Join(Take(p.hometownConnections, 2), ", ")
                            && |Take(p.hometownConnections, 2)| <= 2)
    ensures ConnectionsSummary(p) == "" <==>
              p.favoritePlayers == [] && p.playersFromAlmaMater == [] && p.hometownConnections == []
  {
    var parts := ConnectionParts(p);
    assert forall k :: 0 <= k < |parts| ==> parts[k] != "" by {
      forall k | 0 <= k < |parts| ensures parts[k] != "" {
        assert |parts[k]| >= 12;
      }
    }
    JoinEmptyIff(parts, "; ");
  }

  // ---------------------------------------------------------------------------
  // build_prompt_block
  // ---------------------------------------------------------------------------

  const Header: string := "\n## Viewer Profile\n"
  const NamePrefix: string := "- **Name:** "
  const FavoriteTeamPrefix: string := "- **Favorite team:** "
  const RivalPrefix: string := "- **Rival team:** "
  const ExpertisePrefix: string := "- **Expertise:** "
  const StylePrefix: string := "- **Commentary style:** "
  const ConnectionsPrefix: string := "- **Personal connections:** "
  const InterestsPrefix: string := "- **Interests:** "

  /** The team lines: the favourite team when set, and under it the rival when also set. */
  function TeamLines(p: UserProfile): seq<string>
  {
    if Truthy(p.favoriteTeam) then
      [FavoriteTeamPrefix + p.favoriteTeam.value]
      + (if Truthy(p.rivalTeam) then [RivalPrefix + p.rivalTeam.value] else [])
    else []
  }

  /** The connections line, when the summary is not empty. */
  function ConnectionsLines(p: UserProfile): seq<string>
  {
    if ConnectionsSummary(p) != "" then [ConnectionsPrefix + ConnectionsSummary(p)] else []
  }

  function InterestsLines(p: UserProfile): seq<string>
  {
    if p.interests != [] then [InterestsPrefix + Join(p.interests, ", ")] else []
  }

  /** The `lines` list of `build_prompt_block`. */
  function PromptLines(p: UserProfile): seq<string>
  {
    [Header, NamePrefix + p.name]
    + TeamLines(p)
    + [ExpertisePrefix + ExpertiseDescription(p.expertiseSlider), StylePrefix + StyleInstruction(p.hotTakeSlider)]
    + ConnectionsLines(p)
    + InterestsLines(p)
  }

  /** `build_prompt_block`. */
  function BuildPromptBlock(p: UserProfile): string
  {
    Join(PromptLines(p), "\n")
  }

  /** The lines that always appear, in order: header, name, expertise, style; the rival
      line appears only when both teams are set (and then right after the favourite team);
      the connections and interests lines appear only when they have content. */
  lemma PromptLayout(p: UserProfile)
    ensures var lines := PromptLines(p);
            var t := |TeamLines(p)|;
            var nc := if ConnectionsSummary(p) != "" then 1 else 0;
            var ni := if p.interests != [] then 1 else 0;
            && |lines| == 4 + t + nc + ni
            && lines[0] == Header && lines[1] == NamePrefix + p.name
            && lines[2 + t] == ExpertisePrefix + ExpertiseDescription(p.expertiseSlider)
            && lines[3 + t] == StylePrefix + StyleInstruction(p.hotTakeSlider)
            && (t == 2 <==> Truthy(p.favoriteTeam) && Truthy(p.rivalTeam))
            && (t == 2 ==> lines[3] == RivalPrefix + p.rivalTeam.value)
            && (nc == 1 ==> lines[4 + t] == ConnectionsPrefix + ConnectionsSummary(p))
            && (ni == 1 ==> lines[|lines| - 1] == InterestsPrefix + Join(p.interests, ", "))
  {
    var head := [Header, NamePrefix + p.name];
    var mid := [ExpertisePrefix + ExpertiseDescription(p.expertiseSlider), StylePrefix + StyleInstruction(p.hotTakeSlider)];
    assert PromptLines(p) == head + TeamLines(p) + mid + ConnectionsLines(p) + InterestsLines(p);
    SegmentIndices(head, TeamLines(p), mid, ConnectionsLines(p), InterestsLines(p));
  }

  /** Where each segment's lines sit once the five segments are concatenated. */
  lemma SegmentIndices(head: seq<string>, team: seq<string>, mid: seq<string>, conn: seq<string>, ints: seq<string>)
    requires |head| == 2 && |mid| == 2 && |conn| <= 1 && |ints| <= 1
    ensures var lines := head + team + mid + conn + ints;
            var t := |team|;
            && |lines| == 4 + t + |conn| + |ints|
            && lines[0] == head[0] && lines[1] == head[1]
            && lines[2 + t] == mid[0] && lines[3 + t] == mid[1]
            && (t == 2 ==> lines[3] == team[1])
            && (|conn| == 1 ==> lines[4 + t] == conn[0])
            && (|ints| == 1 ==> lines[|lines| - 1] == ints[0])
  {
  }

  lemma LineChars(prefix: string, rest: string)
    requires |prefix| > 4
    ensures (prefix + rest)[0] == prefix[0] && (prefix + rest)[4] == prefix[4]
  {
  }

  lemma RivalLineChars(line: string)
    requires StartsWith(line, RivalPrefix)
    ensures line[0] == '-' && line[4] == 'R'
  {
    assert line[..|RivalPrefix|] == RivalPrefix;
    assert line[4] == RivalPrefix[4];
  }

  /** Lines told apart by their first and fifth characters: only the second team line
      can look like the rival line. */
  lemma SegmentsApart(head: seq<string>, team: seq<string>, mid: seq<string>, conn: seq<string>, ints: seq<string>)
    requires |head| == 2 && |team| <= 2 && |mid| == 2
    requires forall i :: 0 <= i < |head| ==> |head[i]| > 4 && (head[i][0] == '\n' || head[i][4] == 'N')
    requires forall i :: 0 <= i < |team| ==> |team[i]| > 4 && (team[i][4] == 'F' || i == 1)
    requires forall i :: 0 <= i < |mid| ==> |mid[i]| > 4 && (mid[i][4] == 'E' || mid[i][4] == 'C')
    requires forall i :: 0 <= i < |conn| ==> |conn[i]| > 4 && conn[i][4] == 'P'
    requires forall i :: 0 <= i < |ints| ==> |ints[i]| > 4 && ints[i][4] == 'I'
    ensures var lines := head + team + mid + conn + ints;
            forall i :: 0 <= i < |lines| && StartsWith(lines[i], RivalPrefix) ==> i == 3 && |team| == 2
  {
    var lines := head + team + mid + conn + ints;
    var t, nc := |team|, |conn|;
    assert forall i :: 0 <= i < 2 ==> lines[i] == head[i];
    assert forall i :: 2 <= i < 2 + t ==> lines[i] == team[i - 2];
    assert forall i :: 2 + t <= i < 4 + t ==> lines[i] == mid[i - 2 - t];
    assert forall i :: 4 + t <= i < 4 + t + nc ==> lines[i] == conn[i - 4 - t];
    assert forall i :: 4 + t + nc <= i < |lines| ==> lines[i] == ints[i - 4 - t - nc];
    forall i | 0 <= i < |lines| && StartsWith(lines[i], RivalPrefix)
      ensures i == 3 && |team| == 2
    {
      RivalLineChars(lines[i]);
    }
  }

  /** The team lines start with the favourite-team prefix, except a second one, which is
      there exactly when both teams are set. */
  lemma TeamLineChars(p: UserProfile)
    ensures |TeamLines(p)| <= 2
    ensures |TeamLines(p)| == 2 <==> Truthy(p.favoriteTeam) && Truthy(p.rivalTeam)
    ensures forall i :: 0 <= i < |TeamLines(p)| ==>
              |TeamLines(p)[i]| > 4 && (TeamLines(p)[i][4] == 'F' || i == 1)
  {
    if Truthy(p.favoriteTeam) {
      LineChars(FavoriteTeamPrefix, p.favoriteTeam.value);
    }
  }

  /** The optional lines start with their own prefixes. */
  lemma OptionalLineChars(p: UserProfile)
    ensures forall i :: 0 <= i < |ConnectionsLines(p)| ==>
              |ConnectionsLines(p)[i]| > 4 && ConnectionsLines(p)[i][4] == 'P'
    ensures forall i :: 0 <= i < |InterestsLines(p)| ==>
              |InterestsLines(p)[i]| > 4 && InterestsLines(p)[i][4] == 'I'
  {
    if ConnectionsSummary(p) != "" {
      LineChars(ConnectionsPrefix, ConnectionsSummary(p));
    }
    if p.interests != [] {
      LineChars(InterestsPrefix, Join(p.interests, ", "));
    }
  }

  /** No line other than the rival line starts like it: the rival team is mentioned only
      when both the favourite and the rival team are set. */
  lemma RivalOnlyWithFavorite(p: UserProfile)
    ensures forall i :: 0 <= i < |PromptLines(p)| && StartsWith(PromptLines(p)[i], RivalPrefix) ==>
              i == 3 && Truthy(p.favoriteTeam) && Truthy(p.rivalTeam)
  {
    var head := [Header, NamePrefix + p.name];
    var mid := [ExpertisePrefix + ExpertiseDescription(p.expertiseSlider), StylePrefix + StyleInstruction(p.hotTakeSlider)];
    assert PromptLines(p) == head + TeamLines(p) + mid + ConnectionsLines(p) + InterestsLines(p);
    LineChars(NamePrefix, p.name);
    LineChars(ExpertisePrefix, ExpertiseDescription(p.expertiseSlider));
    LineChars(StylePrefix, StyleInstruction(p.hotTakeSlider));
    TeamLineChars(p);
    OptionalLineChars(p);
    SegmentsApart(head, TeamLines(p), mid, ConnectionsLines(p), InterestsLines(p));
  }

  // ---------------------------------------------------------------------------
  // from_dict and the personas
  // ---------------------------------------------------------------------------

  /** The keys `from_dict` reads; `None` is a missing key (or, for the optional
      strings, a JSON null). */
  datatype ProfileData = ProfileData(
    name: Option<string>,
    favoriteTeam: Option<string>,
    rivalTeam: Option<string>,
    expertiseSlider: Option<int>,
    hotTakeSlider: Option<int>,
    almaMater: Option<string>,
    hometown: Option<string>,
    favoritePlayers: Option<seq<string>>,
    interests: Option<seq<string>>)

  /** `UserProfile.from_dict`. */
  function FromDict(data: ProfileData): (r: UserProfile)
    ensures r.playersFromAlmaMater == [] && r.hometownConnections == [] && r.funFacts == []
  {
    UserProfile(
      GetOr(data.name, "Fan"), data.favoriteTeam, data.rivalTeam,
      GetOr(data.expertiseSlider, 50), GetOr(data.hotTakeSlider, 50),
      data.almaMater, data.hometown,
      GetOr(data.favoritePlayers, []), GetOr(data.interests, []),
      [], [], [])
  }

  /** The dict of a profile, every key present. */
  function ToDict(p: UserProfile): ProfileData
  {
    ProfileData(Some(p.name), p.favoriteTeam, p.rivalTeam, Some(p.expertiseSlider), Some(p.hotTakeSlider),
                p.almaMater, p.hometown, Some(p.favoritePlayers), Some(p.interests))
  }

  /** `from_dict` of an empty dict is the default profile, and it loses nothing of a
      profile that has no research enrichment. */
  lemma FromDictDefaultsAndRoundTrip(p: UserProfile)
    ensures FromDict(ProfileData(None, None, None, None, None, None, None, None, None)) == DefaultProfile
    ensures p.playersFromAlmaMater == [] && p.hometownConnections == [] && p.funFacts == [] ==>
              FromDict(ToDict(p)) == p
  {
  }

  /** `PERSONAS`. */
  const Personas: map<string, UserProfile> := map[
    "casual_fan" := UserProfile("Alex", Some("Barcelona"), None, 35, 45, None, None,
                                ["Lamine Yamal", "Pedri"], [], [], [], []),
    "new_to_soccer" := UserProfile("Jordan", None, None, 10, 20, None, None,
                                   [], ["learning the rules", "understanding positions"], [], [], []),
    "tactical_nerd" := UserProfile("Sam", Some("Manchester City"), Some("Arsenal"), 95, 30, None, None,
                                   ["Kevin De Bruyne", "Rodri", "Erling Haaland"],
                                   ["pressing systems", "expected goals", "set piece design"], [], [], []),
    "passionate_homer" := UserProfile("Danny", Some("Liverpool"), Some("Manchester United"), 60, 90, None, None,
                                      ["Mohamed Salah", "Virgil van Dijk"], [], [], [], [])
  ]

  /** Every persona's sliders are on the 0-100 scale, and each lands in the band its name
      promises: the newcomer is a complete beginner, the tactical nerd is in the film room,
      the homer gets full homer mode. */
  lemma PersonasWellFormed()
    ensures forall k :: k in Personas ==>
              0 <= Personas[k].expertiseSlider <= 100 && 0 <= Personas[k].hotTakeSlider <= 100
    ensures ExpertiseDescription(Personas["new_to_soccer"].expertiseSlider) == ExpertiseTexts[0]
    ensures ExpertiseDescription(Personas["casual_fan"].expertiseSlider) == ExpertiseTexts[1]
    ensures ExpertiseDescription(Personas["tactical_nerd"].expertiseSlider) == ExpertiseTexts[3]
    ensures StyleInstruction(Personas["passionate_homer"].hotTakeSlider) == StyleTexts[2]
  {
  }
}
