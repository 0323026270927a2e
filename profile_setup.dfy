/** extension/entrypoints/sidepanel/ProfileSetup.tsx: the profile form's `submitProfile`,
    which turns the five form fields into the `UserProfileData` record handed to the
    panel. Microphone capture, audio conversion and the onboarding call are not modelled. */
module ProfileSetup {
  import opened Util
  import Server

  /** `EXPERIENCE_MAP`. */
  const ExperienceMap: map<string, int> :=
    map["beginner" := 15, "casual" := 40, "knowledgeable" := 65, "expert" := 90]

  /** `STYLE_MAP`. */
  const StyleMap: map<string, int> :=
    map["balanced" := 25, "moderate" := 50, "homer" := 80]

  /** `m[key] ?? default`: the lookup is case-sensitive. */
  function Lookup(m: map<string, int>, key: string, default: int): int
  {
    if key in m then m[key] else default
  }

  /** The form's fields as typed or selected. */
  datatype Form = Form(name: string, team: string, experience: string, style: string, players: string)

  /** `UserProfileData`; `null` is `None`. */
  datatype UserProfileData = UserProfileData(
    name: string,
    favoriteTeam: Option<string>,
    rivalTeam: Option<string>,
    expertiseSlider: int,
    hotTakeSlider: int,
    voiceKey: string,
    favoritePlayers: seq<string>,
    interests: seq<string>)

  /** Each string trimmed, in order. */
  function TrimEach(xs: seq<string>): (r: seq<string>)
  {
    seq(|xs|, k requires 0 <= k < |xs| => JsTrim(xs[k]))
  }

  /** `formPlayers.trim() ? formPlayers.split(',').map((s) => s.trim()) : []`. */
  function PlayersFrom(field: string): seq<string>
  {
    if JsTrim(field) != "" then TrimEach(Split(field, ',')) else []
  }

  /** `submitProfile`. */
  function SubmitProfile(f: Form): UserProfileData
  {
    var name := JsTrim(f.name);
    var team := JsTrim(f.team);
    UserProfileData(
      if name != "" then name else "Fan",
      if team != "" then Some(team) else None,
      None,
      Lookup(ExperienceMap, f.experience, 40),
      Lookup(StyleMap, f.style, 25),
      "danny",
      PlayersFrom(f.players),
      [])
  }

  /** A string is trimmed when trimming leaves it as it is. */
  predicate Trimmed(s: string)
  {
    JsTrim(s) == s
  }

  /** The name is the trimmed input or "Fan", the team the trimmed input or none when
      blank; the rival is always none, the voice "danny", there are no interests, and the
      sliders come from the two tables with defaults 40 and 25. */
  lemma SubmitProfileFields(f: Form)
    ensures SubmitProfile(f).name == "Fan" <==> JsTrim(f.name) == "" || JsTrim(f.name) == "Fan"
    ensures JsTrim(f.name) != "" ==> SubmitProfile(f).name == JsTrim(f.name)
    ensures SubmitProfile(f).name != ""
    ensures SubmitProfile(f).favoriteTeam.None? <==> AllSatisfy(f.team, JsSpace)
    ensures SubmitProfile(f).favoriteTeam.Some? ==> SubmitProfile(f).favoriteTeam.value == JsTrim(f.team)
    ensures SubmitProfile(f).rivalTeam.None? && SubmitProfile(f).voiceKey == "danny"
    ensures SubmitProfile(f).interests == []
    ensures SubmitProfile(f).expertiseSlider in {15, 40, 65, 90}
    ensures SubmitProfile(f).hotTakeSlider in {25, 50, 80}
    ensures f.experience !in ExperienceMap ==> SubmitProfile(f).expertiseSlider == 40
    ensures f.style !in StyleMap ==> SubmitProfile(f).hotTakeSlider == 25
  {
    var p := SubmitProfile(f);
    assert p.name == (if JsTrim(f.name) != "" then JsTrim(f.name) else "Fan");
    assert p.favoriteTeam == (if JsTrim(f.team) != "" then Some(JsTrim(f.team)) else None);
    TrimEmptyIff(f.team, JsSpace);
    LookupTables(f.experience, f.style);
  }

  /** Each table lookup lands on one of its values or its default. */
  lemma LookupTables(experience: string, style: string)
    ensures Lookup(ExperienceMap, experience, 40) in {15, 40, 65, 90}
    ensures Lookup(StyleMap, style, 25) in {25, 50, 80}
  {
  }

  /** A blank players field gives no players; otherwise there is one trimmed piece per
      comma-separated part, empty pieces included. */
  lemma PlayersFromFacts(field: string)
    ensures AllSatisfy(field, JsSpace) ==> PlayersFrom(field) == []
    ensures !AllSatisfy(field, JsSpace) ==>
              |PlayersFrom(field)| == Count(field, ',') + 1
              && forall k :: 0 <= k < |PlayersFrom(field)| ==> PlayersFrom(field)[k] == JsTrim(Split(field, ',')[k])
  {
    TrimEmptyIff(field, JsSpace);
  }

  /** Each player after the first, with the space `join(', ')` puts before it. */
  function Spaced(xs: seq<string>): (r: seq<string>)
    ensures |r| == |xs|
  {
    seq(|xs|, k requires 0 <= k < |xs| => " " + xs[k])
  }

  /** `p + xs.join(', ')` cut at the commas. */
  lemma {:induction false} JoinCommaSpace(xs: seq<string>, p: string)
    requires |xs| > 0
    ensures p + Join(xs, ", ") == Join([p + xs[0]] + Spaced(xs[1..]), ",")
    decreases |xs|
  {
    if |xs| > 1 {
      var tail := xs[1..];
      JoinCommaSpace(tail, " ");
      assert Spaced(tail) == [" " + tail[0]] + Spaced(tail[1..]);
      assert tail[1..] == xs[2..];
      var ys := [p + xs[0]] + Spaced(tail);
      assert ys[1..] == Spaced(tail);
      assert Join(ys, ",") == (p + xs[0]) + "," + Join(Spaced(tail), ",");
      assert Join(xs, ", ") == xs[0] + ", " + Join(tail, ", ");
      AppendAssoc(p + xs[0], ",", " " + Join(tail, ", "));
    } else {
      assert [p + xs[0]] + Spaced(xs[1..]) == [p + xs[0]];
    }
  }

  /** A joined list starts with its first element. */
  lemma JoinStarts(xs: seq<string>, sep: string)
    requires |xs| > 0 && |xs[0]| > 0
    ensures |Join(xs, sep)| > 0 && Join(xs, sep)[0] == xs[0][0]
  {
    if |xs| > 1 {
      assert Join(xs, sep) == xs[0] + sep + Join(xs[1..], sep);
    }
  }

  /** Cutting `names.join(', ')` at the commas gives the names, each after the first with
      a leading space. */
  lemma SplitJoined(names: seq<string>)
    requires |names| > 0 && forall k :: 0 <= k < |names| ==> ',' !in names[k]
    ensures Split(Join(names, ", "), ',') == [names[0]] + Spaced(names[1..])
  {
    var ys := [names[0]] + Spaced(names[1..]);
    JoinCommaSpace(names, "");
    assert "" + names[0] == names[0];
    assert "" + Join(names, ", ") == Join(names, ", ");
    SpacedCommaFree(names);
    SplitJoin(ys, ',');
  }

  /** Adding the spaces puts no comma into a comma-free list. */
  lemma SpacedCommaFree(names: seq<string>)
    requires |names| > 0 && forall k :: 0 <= k < |names| ==> ',' !in names[k]
    ensures var ys := [names[0]] + Spaced(names[1..]);
            forall k :: 0 <= k < |ys| ==> ',' !in ys[k]
  {
    var ys := [names[0]] + Spaced(names[1..]);
    forall k | 0 <= k < |ys|
      ensures ',' !in ys[k]
    {
      if k > 0 {
        assert ys[k] == " " + names[k];
      }
    }
  }

  /** A trimmed non-empty string does not start with whitespace. */
  lemma TrimmedStart(s: string)
    requires s != "" && Trimmed(s)
    ensures !JsSpace(s[0])
  {
    var a := TrimStart(s, JsSpace);
    assert |TrimEnd(a, JsSpace)| <= |a|;
  }

  /** A list of trimmed non-empty names joins to a non-blank field. */
  lemma JoinedNotBlank(names: seq<string>)
    requires |names| > 0 && names[0] != "" && Trimmed(names[0])
    ensures JsTrim(Join(names, ", ")) != ""
  {
    JoinStarts(names, ", ");
    TrimmedStart(names[0]);
    TrimEmptyIff(Join(names, ", "), JsSpace);
  }

  /** Trimming the pieces removes the spaces `join(', ')` added. */
  lemma TrimSpaced(names: seq<string>)
    requires |names| > 0 && forall k :: 0 <= k < |names| ==> Trimmed(names[k])
    ensures TrimEach([names[0]] + Spaced(names[1..])) == names
  {
    var ys := [names[0]] + Spaced(names[1..]);
    var r := TrimEach(ys);
    forall k | 0 <= k < |names|
      ensures r[k] == names[k]
    {
      TrimSpacedAt(names, k);
    }
  }

  /** One piece of `TrimSpaced`. */
  lemma TrimSpacedAt(names: seq<string>, k: nat)
    requires k < |names| && Trimmed(names[k])
    ensures JsTrim(([names[0]] + Spaced(names[1..]))[k]) == names[k]
  {
    var ys := [names[0]] + Spaced(names[1..]);
    if k > 0 {
      assert ys[k] == " " + names[k];
      TrimSpaceBefore(names[k]);
    } else {
      assert ys[0] == names[0];
    }
  }

  /** The space `join(', ')` puts before a trimmed name is trimmed away again. */
  lemma TrimSpaceBefore(name: string)
    requires Trimmed(name)
    ensures JsTrim(" " + name) == name
  {
    assert AllSatisfy(" ", JsSpace);
    TrimSkipsSpace(" ", name, JsSpace);
  }

  /** Filling the form from a profile (`favorite_players.join(', ')`) and submitting it
      gives back the same players, when each name is non-empty, trimmed and comma-free. */
  lemma PlayersRoundTrip(names: seq<string>)
    requires forall k :: 0 <= k < |names| ==> names[k] != "" && Trimmed(names[k]) && ',' !in names[k]
    ensures PlayersFrom(Join(names, ", ")) == names
  {
    if |names| == 0 {
      assert AllSatisfy("", JsSpace);
      TrimEmptyIff("", JsSpace);
    } else {
      SplitJoined(names);
      JoinedNotBlank(names);
      TrimSpaced(names);
    }
  }

  /** The panel's tables are the agent's tables entry for entry, so for the lower-case
      values the form's selects offer both give the same sliders. */
  lemma TablesMatchAgent(experience: string, style: string)
    ensures ExperienceMap == Server.ExperienceToExpertise && StyleMap == Server.StyleToHotTake
    ensures Lower(experience) == experience ==>
              Lookup(ExperienceMap, experience, 40) == Server.ExpertiseFor(experience)
    ensures Lower(style) == style ==> Lookup(StyleMap, style, 25) == Server.HotTakeFor(style)
  {
  }

  /** The panel's lookup is case-sensitive where the agent's is not: "Expert" gives 40 in
      the panel's table and 90 on the agent. No such value reaches the form, since the
      select offers only lower-case options and the agent lower-cases the keys it
      returns (`CallProfileFillsForm`). */
  lemma CaseSensitiveLookup()
    ensures Lookup(ExperienceMap, "Expert", 40) == 40
    ensures Server.ExpertiseFor("Expert") == 90
  {
    assert Lower("Expert") == "expert";
  }

  /** The form the `/api/call-transcript` profile `p` leaves behind (`extractProfile`):
      name and team are replaced, an empty one by "", while experience, style and players
      are replaced only when `p` has a non-empty value for them. */
  function FillForm(f: Form, p: Server.ProfileDict): Form
  {
    Form(
      p.name,
      GetOr(p.favoriteTeam, ""),
      if p.experience.Some? && p.experience.value != "" then p.experience.value else f.experience,
      if p.style.Some? && p.style.value != "" then p.style.value else f.style,
      if p.favoritePlayers != [] then Join(p.favoritePlayers, ", ") else f.players)
  }

  /** Filling the form from a call's extracted profile and submitting it gives the
      agent's sliders whenever the extracted keys are non-empty, whatever the form held
      before, and gives back the agent's players when they are non-empty, trimmed and
      comma-free. */
  lemma CallProfileFillsForm(calls: seq<seq<Server.Turn>>, reply: string,
                             parse: string -> Option<Server.Extracted>, f: Form)
    requires calls != [] && Server.CallTranscriptFor(calls, reply, parse).Some?
    ensures var p := Server.CallTranscriptFor(calls, reply, parse).value.profile;
            var g := SubmitProfile(FillForm(f, p));
            && (p.experience != Some("") ==> g.expertiseSlider == p.expertiseSlider)
            && (p.style != Some("") ==> g.hotTakeSlider == p.hotTakeSlider)
            && (p.favoritePlayers != []
                && (forall k :: 0 <= k < |p.favoritePlayers| ==>
                      p.favoritePlayers[k] != "" && Trimmed(p.favoritePlayers[k])
                      && ',' !in p.favoritePlayers[k])
                ==> g.favoritePlayers == p.favoritePlayers)
  {
    var e := Server.ExtractObject(PyStrip(reply), parse).value;
    var p := Server.CallTranscriptFor(calls, reply, parse).value.profile;
    assert p == Server.BuildProfile(e, true);
    var x := Lower(GetOr(e.experience, "casual"));
    var y := Lower(GetOr(e.style, "balanced"));
    LowerIdempotent(GetOr(e.experience, "casual"));
    LowerIdempotent(GetOr(e.style, "balanced"));
    TablesMatchAgent(x, y);
    if p.favoritePlayers != []
       && (forall k :: 0 <= k < |p.favoritePlayers| ==>
             p.favoritePlayers[k] != "" && Trimmed(p.favoritePlayers[k]) && ',' !in p.favoritePlayers[k])
    {
      PlayersRoundTrip(p.favoritePlayers);
    }
  }
}
