/**
 * The domain records of the adventure generator (OdysseyMaker_app.py:14-118):
 * the closed enumerations, the stage inputs and outputs, and the field
 * constraints that validating an `OutlineRequest` or a `Scene` enforces.
 * Every enumeration has the literal it stands for in the JSON documents and
 * a parser that accepts exactly the listed literals.
 */
module Schema {
  import opened Wrappers

  // ---------------------------------------------------------------------
  // Closed enumerations
  // ---------------------------------------------------------------------

  datatype Tone = Grimdark | Heroic | Whimsical | Horror | Mystery | Epic

  const ToneLiterals: seq<string> := ["grimdark", "heroic", "whimsical", "horror", "mystery", "epic"]

  function ToneLiteral(t: Tone): string
  {
    match t
    case Grimdark => "grimdark"
    case Heroic => "heroic"
    case Whimsical => "whimsical"
    case Horror => "horror"
    case Mystery => "mystery"
    case Epic => "epic"
  }

  /** Accepts exactly the listed tone literals. */
  function ParseTone(s: string): (r: Option<Tone>)
    ensures r.Some? ==> ToneLiteral(r.value) == s
    ensures r.None? ==> s !in ToneLiterals
  {
    if s == "grimdark" then Some(Grimdark)
    else if s == "heroic" then Some(Heroic)
    else if s == "whimsical" then Some(Whimsical)
    else if s == "horror" then Some(Horror)
    else if s == "mystery" then Some(Mystery)
    else if s == "epic" then Some(Epic)
    else None
  }

  datatype Theme = Fey | Undead | Dragons | Political | Heist | Cosmic | Wilderness | Dungeon | Urban

  const ThemeLiterals: seq<string> :=
    ["fey", "undead", "dragons", "political", "heist", "cosmic", "wilderness", "dungeon", "urban"]

  function ThemeLiteral(t: Theme): string
  {
    match t
    case Fey => "fey"
    case Undead => "undead"
    case Dragons => "dragons"
    case Political => "political"
    case Heist => "heist"
    case Cosmic => "cosmic"
    case Wilderness => "wilderness"
    case Dungeon => "dungeon"
    case Urban => "urban"
  }

  /** Accepts exactly the listed theme literals. */
  function ParseTheme(s: string): (r: Option<Theme>)
    ensures r.Some? ==> ThemeLiteral(r.value) == s
    ensures r.None? ==> s !in ThemeLiterals
  {
    if s == "fey" then Some(Fey)
    else if s == "undead" then Some(Undead)
    else if s == "dragons" then Some(Dragons)
    else if s == "political" then Some(Political)
    else if s == "heist" then Some(Heist)
    else if s == "cosmic" then Some(Cosmic)
    else if s == "wilderness" then Some(Wilderness)
    else if s == "dungeon" then Some(Dungeon)
    else if s == "urban" then Some(Urban)
    else None
  }

  datatype EncounterType = Combat | Social | Exploration | Puzzle | SkillChallenge

  const EncounterTypeLiterals: seq<string> := ["combat", "social", "exploration", "puzzle", "skill_challenge"]

  function EncounterTypeLiteral(t: EncounterType): string
  {
    match t
    case Combat => "combat"
    case Social => "social"
    case Exploration => "exploration"
    case Puzzle => "puzzle"
    case SkillChallenge => "skill_challenge"
  }

  /** Accepts exactly the listed encounter-type literals. */
  function ParseEncounterType(s: string): (r: Option<EncounterType>)
    ensures r.Some? ==> EncounterTypeLiteral(r.value) == s
    ensures r.None? ==> s !in EncounterTypeLiterals
  {
    if s == "combat" then Some(Combat)
    else if s == "social" then Some(Social)
    else if s == "exploration" then Some(Exploration)
    else if s == "puzzle" then Some(Puzzle)
    else if s == "skill_challenge" then Some(SkillChallenge)
    else None
  }

  datatype Difficulty = Easy | Medium | Hard | Deadly

  const DifficultyLiterals: seq<string> := ["easy", "medium", "hard", "deadly"]

  function DifficultyLiteral(d: Difficulty): string
  {
    match d
    case Easy => "easy"
    case Medium => "medium"
    case Hard => "hard"
    case Deadly => "deadly"
  }

  /** Accepts exactly the listed difficulty literals. */
  function ParseDifficulty(s: string): (r: Option<Difficulty>)
    ensures r.Some? ==> DifficultyLiteral(r.value) == s
    ensures r.None? ==> s !in DifficultyLiterals
  {
    if s == "easy" then Some(Easy)
    else if s == "medium" then Some(Medium)
    else if s == "hard" then Some(Hard)
    else if s == "deadly" then Some(Deadly)
    else None
  }

  datatype LevelingMode = Milestone | Xp

  const LevelingModeLiterals: seq<string> := ["milestone", "xp"]

  function LevelingModeLiteral(m: LevelingMode): string
  {
    match m
    case Milestone => "milestone"
    case Xp => "xp"
  }

  /** Accepts exactly the listed leveling-mode literals. */
  function ParseLevelingMode(s: string): (r: Option<LevelingMode>)
    ensures r.Some? ==> LevelingModeLiteral(r.value) == s
    ensures r.None? ==> s !in LevelingModeLiterals
  {
    if s == "milestone" then Some(Milestone)
    else if s == "xp" then Some(Xp)
    else None
  }

  datatype Ruleset = FifthEdition | SystemAgnostic

  const RulesetLiterals: seq<string> := ["5e", "system_agnostic"]

  function RulesetLiteral(r: Ruleset): string
  {
    match r
    case FifthEdition => "5e"
    case SystemAgnostic => "system_agnostic"
  }

  /** Accepts exactly the listed ruleset literals. */
  function ParseRuleset(s: string): (r: Option<Ruleset>)
    ensures r.Some? ==> RulesetLiteral(r.value) == s
    ensures r.None? ==> s !in RulesetLiterals
  {
    if s == "5e" then Some(FifthEdition)
    else if s == "system_agnostic" then Some(SystemAgnostic)
    else None
  }

  /** Every enumeration value is written as one of its literals, and that
      literal parses back to the same value. */
  lemma LiteralsRoundTrip(t: Tone, th: Theme, e: EncounterType, d: Difficulty, m: LevelingMode, rs: Ruleset)
    ensures ToneLiteral(t) in ToneLiterals && ParseTone(ToneLiteral(t)) == Some(t)
    ensures ThemeLiteral(th) in ThemeLiterals && ParseTheme(ThemeLiteral(th)) == Some(th)
    ensures EncounterTypeLiteral(e) in EncounterTypeLiterals && ParseEncounterType(EncounterTypeLiteral(e)) == Some(e)
    ensures DifficultyLiteral(d) in DifficultyLiterals && ParseDifficulty(DifficultyLiteral(d)) == Some(d)
    ensures LevelingModeLiteral(m) in LevelingModeLiterals && ParseLevelingMode(LevelingModeLiteral(m)) == Some(m)
    ensures RulesetLiteral(rs) in RulesetLiterals && ParseRuleset(RulesetLiteral(rs)) == Some(rs)
  {
  }

  // ---------------------------------------------------------------------
  // OutlineRequest and its field constraints
  // ---------------------------------------------------------------------

  const MinConceptLength := 10
  const MinLevel := 1
  const MaxLevel := 20
  const MinSessions := 1
  const MaxSessions := 20

  /** The user's request; string-valued enumeration fields are typed here. */
  datatype OutlineRequest = OutlineRequest(
    concept: string,
    partyLevelStart: int,
    partyLevelEnd: int,
    ruleset: Ruleset,
    levelingMode: LevelingMode,
    tone: Tone,
    theme: Theme,
    sessionCountTarget: int,
    constraints: seq<string>,
    includeTravel: bool)

  /** The numeric and length bounds an `OutlineRequest` must meet. The end
      level is deliberately not required to be at least the start level. */
  predicate ValidOutlineRequest(r: OutlineRequest)
  {
    && |r.concept| >= MinConceptLength
    && MinLevel <= r.partyLevelStart <= MaxLevel
    && MinLevel <= r.partyLevelEnd <= MaxLevel
    && MinSessions <= r.sessionCountTarget <= MaxSessions
  }

  /** The request's fields, as a validation error names them. */
  datatype RequestField =
    | ConceptField | PartyLevelStartField | PartyLevelEndField | RulesetField | LevelingModeField
    | ToneField | ThemeField | SessionCountTargetField | ConstraintsField | IncludeTravelField

  /** The fields in declaration order. */
  const AllRequestFields: seq<RequestField> := [
    ConceptField, PartyLevelStartField, PartyLevelEndField, RulesetField, LevelingModeField,
    ToneField, ThemeField, SessionCountTargetField, ConstraintsField, IncludeTravelField]

  function FieldName(f: RequestField): string
  {
    match f
    case ConceptField => "concept"
    case PartyLevelStartField => "party_level_start"
    case PartyLevelEndField => "party_level_end"
    case RulesetField => "ruleset"
    case LevelingModeField => "leveling_mode"
    case ToneField => "tone"
    case ThemeField => "theme"
    case SessionCountTargetField => "session_count_target"
    case ConstraintsField => "constraints"
    case IncludeTravelField => "include_travel"
  }

  /** The raw keyword arguments a request is constructed from; the
      enumeration fields are still plain strings here. */
  datatype RequestArgs = RequestArgs(
    concept: string,
    partyLevelStart: int,
    partyLevelEnd: int,
    ruleset: string,
    levelingMode: string,
    tone: string,
    theme: string,
    sessionCountTarget: int,
    constraints: seq<string>,
    includeTravel: bool)

  /** Whether the value given for field `f` violates that field's constraint. */
  predicate Rejects(a: RequestArgs, f: RequestField)
  {
    match f
    case ConceptField => |a.concept| < MinConceptLength
    case PartyLevelStartField => a.partyLevelStart < MinLevel || a.partyLevelStart > MaxLevel
    case PartyLevelEndField => a.partyLevelEnd < MinLevel || a.partyLevelEnd > MaxLevel
    case RulesetField => ParseRuleset(a.ruleset).None?
    case LevelingModeField => ParseLevelingMode(a.levelingMode).None?
    case ToneField => ParseTone(a.tone).None?
    case ThemeField => ParseTheme(a.theme).None?
    case SessionCountTargetField => a.sessionCountTarget < MinSessions || a.sessionCountTarget > MaxSessions
    case ConstraintsField => false
    case IncludeTravelField => false
  }

  /** The fields among `fields` whose values `a` violates, in the order of `fields`. */
  function RejectedFields(a: RequestArgs, fields: seq<RequestField>): (r: seq<RequestField>)
    ensures forall f :: f in r <==> f in fields && Rejects(a, f)
  {
    if fields == [] then []
    else (if Rejects(a, fields[0]) then [fields[0]] else []) + RejectedFields(a, fields[1..])
  }

  /**
   * Constructing an `OutlineRequest` from its keyword arguments: it succeeds
   * exactly when every bound holds and every enumeration field is one of its
   * literals, and then carries the values over; otherwise it fails naming
   * every offending field and only those.
   */
  function NewOutlineRequest(a: RequestArgs): (r: Result<OutlineRequest, seq<RequestField>>)
    ensures r.Success? <==>
      && |a.concept| >= 10
      && 1 <= a.partyLevelStart <= 20 && 1 <= a.partyLevelEnd <= 20
      && 1 <= a.sessionCountTarget <= 20
      && ParseRuleset(a.ruleset).Some? && ParseLevelingMode(a.levelingMode).Some?
      && ParseTone(a.tone).Some? && ParseTheme(a.theme).Some?
    ensures r.Success? ==>
      && ValidOutlineRequest(r.value)
      && r.value.concept == a.concept
      && r.value.partyLevelStart == a.partyLevelStart && r.value.partyLevelEnd == a.partyLevelEnd
      && RulesetLiteral(r.value.ruleset) == a.ruleset && LevelingModeLiteral(r.value.levelingMode) == a.levelingMode
      && ToneLiteral(r.value.tone) == a.tone && ThemeLiteral(r.value.theme) == a.theme
      && r.value.sessionCountTarget == a.sessionCountTarget
      && r.value.constraints == a.constraints && r.value.includeTravel == a.includeTravel
    ensures r.Failure? ==> r.error != [] && forall f :: f in r.error <==> Rejects(a, f)
  {
    var ruleset, levelingMode := ParseRuleset(a.ruleset), ParseLevelingMode(a.levelingMode);
    var tone, theme := ParseTone(a.tone), ParseTheme(a.theme);
    if && |a.concept| >= MinConceptLength
       && MinLevel <= a.partyLevelStart <= MaxLevel && MinLevel <= a.partyLevelEnd <= MaxLevel
       && MinSessions <= a.sessionCountTarget <= MaxSessions
       && ruleset.Some? && levelingMode.Some? && tone.Some? && theme.Some?
    then
      Success(OutlineRequest(
        a.concept, a.partyLevelStart, a.partyLevelEnd, ruleset.value, levelingMode.value,
        tone.value, theme.value, a.sessionCountTarget, a.constraints, a.includeTravel))
    else
      SomeFieldRejected(a);
      Failure(RejectedFields(a, AllRequestFields))
  }

  /** A request that fails some constraint has a field to report. */
  lemma SomeFieldRejected(a: RequestArgs)
    requires !(
      && |a.concept| >= MinConceptLength
      && MinLevel <= a.partyLevelStart <= MaxLevel && MinLevel <= a.partyLevelEnd <= MaxLevel
      && MinSessions <= a.sessionCountTarget <= MaxSessions
      && ParseRuleset(a.ruleset).Some? && ParseLevelingMode(a.levelingMode).Some?
      && ParseTone(a.tone).Some? && ParseTheme(a.theme).Some?)
    ensures RejectedFields(a, AllRequestFields) != []
  {
    var r := RejectedFields(a, AllRequestFields);
    var f :=
      if |a.concept| < MinConceptLength then ConceptField
      else if a.partyLevelStart < MinLevel || a.partyLevelStart > MaxLevel then PartyLevelStartField
      else if a.partyLevelEnd < MinLevel || a.partyLevelEnd > MaxLevel then PartyLevelEndField
      else if a.sessionCountTarget < MinSessions || a.sessionCountTarget > MaxSessions then SessionCountTargetField
      else if ParseRuleset(a.ruleset).None? then RulesetField
      else if ParseLevelingMode(a.levelingMode).None? then LevelingModeField
      else if ParseTone(a.tone).None? then ToneField
      else ThemeField;
    assert Rejects(a, f);
    assert f in AllRequestFields;
    assert f in r;
  }

  /** The keyword arguments that rebuild `r`, enumerations as their literals. */
  function ArgsOf(r: OutlineRequest): RequestArgs
  {
    RequestArgs(
      r.concept, r.partyLevelStart, r.partyLevelEnd, RulesetLiteral(r.ruleset),
      LevelingModeLiteral(r.levelingMode), ToneLiteral(r.tone), ThemeLiteral(r.theme),
      r.sessionCountTarget, r.constraints, r.includeTravel)
  }

  /** The field constraints accept exactly the valid requests: rebuilding a
      request from its own values succeeds iff it is valid, and then gives
      that request back. */
  lemma ValidRequestAccepted(r: OutlineRequest)
    ensures NewOutlineRequest(ArgsOf(r)).Success? <==> ValidOutlineRequest(r)
    ensures ValidOutlineRequest(r) ==> NewOutlineRequest(ArgsOf(r)) == Success(r)
  {
    LiteralsRoundTrip(r.tone, r.theme, Combat, Easy, r.levelingMode, r.ruleset);
  }

  /** No constraint relates the two levels: any request whose end level lies
      below its start level, and whose fields are otherwise acceptable, is
      accepted with its levels in that order. */
  lemma EndBelowStartAccepted(a: RequestArgs)
    requires forall f :: !Rejects(a, f)
    requires a.partyLevelEnd < a.partyLevelStart
    ensures var r := NewOutlineRequest(a);
      && r.Success? && ValidOutlineRequest(r.value)
      && r.value.partyLevelEnd < r.value.partyLevelStart
  {
    assert !Rejects(a, ConceptField) && !Rejects(a, PartyLevelStartField) && !Rejects(a, PartyLevelEndField);
    assert !Rejects(a, RulesetField) && !Rejects(a, LevelingModeField);
    assert !Rejects(a, ToneField) && !Rejects(a, ThemeField) && !Rejects(a, SessionCountTargetField);
  }

  // ---------------------------------------------------------------------
  // Stage-1 outline
  // ---------------------------------------------------------------------

  datatype KeyNpc = KeyNpc(name: string, role: string, publicFace: string, secret: string, leverage: string)

  /** `approach` is the field the source calls `method`. */
  datatype Faction = Faction(name: string, goal: string, approach: string, complication: string)

  datatype StoryBeat = StoryBeat(beatId: string, title: string, purpose: string, stakes: string, twistOrReveal: string)

  datatype AdventureOutline = AdventureOutline(
    title: string,
    logline: string,
    centralConflict: string,
    villainOrAntagonist: string,
    themes: seq<string>,
    hooks: seq<string>,
    keyNpcs: seq<KeyNpc>,
    factions: seq<Faction>,
    beats: seq<StoryBeat>,
    continuityPromises: seq<string>)

  // ---------------------------------------------------------------------
  // Stage-2 detailed outline
  // ---------------------------------------------------------------------

  /** `kind` is the field the source calls `type`. */
  datatype Encounter = Encounter(
    encounterId: string,
    kind: EncounterType,
    difficulty: Difficulty,
    summary: string,
    winCondition: string,
    failForward: string,
    setup: seq<string>,
    scalingNotes: seq<string>)

  const MinSceneMinutes := 5
  const MaxSceneMinutes := 240

  datatype Scene = Scene(
    sceneId: string,
    title: string,
    location: string,
    goal: string,
    boxedText: string,
    obstacles: seq<string>,
    encounters: seq<Encounter>,
    cluesAndInfo: seq<string>,
    rewards: seq<string>,
    consequences: seq<string>,
    linksToBeats: seq<string>,
    estimatedMinutes: int)

  /** The one bound a scene carries: its duration lies in 5..240 minutes. */
  predicate ValidScene(s: Scene)
  {
    MinSceneMinutes <= s.estimatedMinutes <= MaxSceneMinutes
  }

  datatype LevelProgressionStep = LevelProgressionStep(
    stepId: string,
    afterSceneId: string,
    level: int,
    rationale: string,
    optionalSideObjectives: seq<string>)

  datatype DetailedAdventureOutline = DetailedAdventureOutline(
    outlineTitle: string,
    structureNotes: seq<string>,
    scenes: seq<Scene>,
    levelProgression: seq<LevelProgressionStep>,
    optionalSideQuests: seq<string>,
    recapQuestions: seq<string>)

  predicate ValidDetailedOutline(d: DetailedAdventureOutline)
  {
    forall i :: 0 <= i < |d.scenes| ==> ValidScene(d.scenes[i])
  }

  /** The positions of the scenes whose duration is out of bounds, in
      increasing order. */
  function InvalidScenes(scenes: seq<Scene>): (r: seq<nat>)
    ensures forall k :: 0 <= k < |r| ==> r[k] < |scenes| && !ValidScene(scenes[r[k]])
    ensures forall i :: 0 <= i < |scenes| && !ValidScene(scenes[i]) ==> i in r
    ensures forall k, l :: 0 <= k < l < |r| ==> r[k] < r[l]
  {
    if scenes == [] then []
    else
      var n := |scenes| - 1;
      var front := InvalidScenes(scenes[..n]);
      assert forall i :: 0 <= i < n ==> scenes[i] == scenes[..n][i];
      if ValidScene(scenes[n]) then front else front + [n]
  }

  /** A detailed outline is valid exactly when no scene is reported invalid. */
  lemma ValidIffNoInvalidScenes(d: DetailedAdventureOutline)
    ensures ValidDetailedOutline(d) <==> InvalidScenes(d.scenes) == []
  {
    var r := InvalidScenes(d.scenes);
    if !ValidDetailedOutline(d) {
      var i :| 0 <= i < |d.scenes| && !ValidScene(d.scenes[i]);
      assert i in r;
    }
    if r != [] {
      assert !ValidScene(d.scenes[r[0]]);
    }
  }

  datatype OutlineResponse = OutlineResponse(outline: AdventureOutline, detailed: DetailedAdventureOutline)
}
