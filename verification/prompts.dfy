/**
 * The stage payloads (OdysseyMaker_app.py:172-206) and the `model_dump`
 * encodings they embed. Each encoding has a decoder beside it that reads
 * the record back the way `model_validate` does on a dict (unknown keys
 * ignored, the request's constraints checked again); the round-trip
 * lemmas say that a payload carries its records without loss.
 */
module Prompts {
  import opened Wrappers
  import opened Schema
  import opened Payload

  // ---------------------------------------------------------------------
  // The request
  // ---------------------------------------------------------------------

  const RequestKeys: set<string> := {
    "concept", "party_level_start", "party_level_end", "ruleset", "leveling_mode",
    "tone", "theme", "session_count_target", "constraints", "include_travel"}

  /** `req.model_dump()`: one entry per field, enumerations as their literals. */
  function RequestToJson(r: OutlineRequest): (j: Json)
    ensures j.JObject? && j.fields.Keys == RequestKeys
  {
    JObject(map[
      "concept" := JString(r.concept),
      "party_level_start" := JInt(r.partyLevelStart),
      "party_level_end" := JInt(r.partyLevelEnd),
      "ruleset" := JString(RulesetLiteral(r.ruleset)),
      "leveling_mode" := JString(LevelingModeLiteral(r.levelingMode)),
      "tone" := JString(ToneLiteral(r.tone)),
      "theme" := JString(ThemeLiteral(r.theme)),
      "session_count_target" := JInt(r.sessionCountTarget),
      "constraints" := StringArray(r.constraints),
      "include_travel" := JBool(r.includeTravel)])
  }

  /** `OutlineRequest.model_validate(j)`: reads every field and applies the
      request's constraints; keys it does not know are ignored. What it
      returns is a valid request whose fields `j` holds (`DecodeHeldRequest`
      is the converse). */
  function RequestFromJson(j: Json): (r: Option<OutlineRequest>)
    ensures r.Some? ==> ValidOutlineRequest(r.value) && HoldsRequestFields(j, r.value)
  {
    var concept :- GetString(j, "concept");
    var start :- GetInt(j, "party_level_start");
    var end :- GetInt(j, "party_level_end");
    var ruleset :- GetString(j, "ruleset");
    var levelingMode :- GetString(j, "leveling_mode");
    var tone :- GetString(j, "tone");
    var theme :- GetString(j, "theme");
    var sessions :- GetInt(j, "session_count_target");
    var constraints :- GetStrings(j, "constraints");
    var travel :- GetBool(j, "include_travel");
    match NewOutlineRequest(RequestArgs(concept, start, end, ruleset, levelingMode, tone, theme, sessions, constraints, travel))
    case Success(r) => Some(r)
    case Failure(_) => None
  }

  /** `j` holds each field of `r` under its key, enumerations as literals. */
  predicate HoldsRequestFields(j: Json, r: OutlineRequest)
  {
    && GetString(j, "concept") == Some(r.concept)
    && GetInt(j, "party_level_start") == Some(r.partyLevelStart)
    && GetInt(j, "party_level_end") == Some(r.partyLevelEnd)
    && GetString(j, "ruleset") == Some(RulesetLiteral(r.ruleset))
    && GetString(j, "leveling_mode") == Some(LevelingModeLiteral(r.levelingMode))
    && GetString(j, "tone") == Some(ToneLiteral(r.tone))
    && GetString(j, "theme") == Some(ThemeLiteral(r.theme))
    && GetInt(j, "session_count_target") == Some(r.sessionCountTarget)
    && GetStrings(j, "constraints") == Some(r.constraints)
    && GetBool(j, "include_travel") == Some(r.includeTravel)
  }

  /** Any dict holding the fields of a valid request validates to that request. */
  lemma DecodeHeldRequest(j: Json, r: OutlineRequest)
    requires ValidOutlineRequest(r) && HoldsRequestFields(j, r)
    ensures RequestFromJson(j) == Some(r)
  {
    ValidRequestAccepted(r);
  }

  /** A valid request survives `model_dump` followed by `model_validate`. */
  lemma RequestRoundTrip(r: OutlineRequest)
    requires ValidOutlineRequest(r)
    ensures RequestFromJson(RequestToJson(r)) == Some(r)
  {
    RequestDumpHoldsFields(r);
    DecodeHeldRequest(RequestToJson(r), r);
  }

  lemma RequestDumpHoldsFields(r: OutlineRequest)
    ensures HoldsRequestFields(RequestToJson(r), r)
  {
    StringArrayRoundTrip(r.constraints);
  }

  /** An entry under a key that is not a request field leaves the request's fields intact. */
  lemma HoldsRequestFieldsExtended(j: Json, r: OutlineRequest, key: string, v: Json)
    requires j.JObject? && HoldsRequestFields(j, r) && key !in RequestKeys
    ensures HoldsRequestFields(JObject(j.fields[key := v]), r)
  {
  }

  // ---------------------------------------------------------------------
  // Stage 1: the outline payload
  // ---------------------------------------------------------------------

  const OutlineRequirements: seq<string> := [
    "Beats should be 5\U{2013}9 items depending on session_count_target.",
    "Include at least 2 hooks.",
    "Include at least 3 key NPCs and at least 1 faction (2 preferred).",
    "continuity_promises: 5\U{2013}12 bullet-style facts that must remain true later."]

  /** `build_outline_prompt`: the ten request fields and the four stage-1 requirements. */
  function BuildOutlinePrompt(req: OutlineRequest): (p: Json)
    ensures p.JObject? && p.fields.Keys == RequestKeys + {"requirements"}
    ensures p.fields - {"requirements"} == RequestToJson(req).fields
    ensures p.fields["requirements"] == StringArray(OutlineRequirements)
  {
    // the ten request entries are exactly those of the request's dump
    JObject(RequestToJson(req).fields["requirements" := StringArray(OutlineRequirements)])
  }

  /** The stage-1 payload carries the whole request, and exactly the four
      stage-1 requirements in order. */
  lemma OutlinePromptCarriesRequest(req: OutlineRequest)
    requires ValidOutlineRequest(req)
    ensures RequestFromJson(BuildOutlinePrompt(req)) == Some(req)
    ensures DecodeArray(BuildOutlinePrompt(req).fields["requirements"], JsonString) == Some(OutlineRequirements)
    ensures |OutlineRequirements| == 4
  {
    OutlinePromptHoldsRequest(req);
    DecodeHeldRequest(BuildOutlinePrompt(req), req);
    StringArrayRoundTrip(OutlineRequirements);
  }

  lemma OutlinePromptHoldsRequest(req: OutlineRequest)
    ensures HoldsRequestFields(BuildOutlinePrompt(req), req)
  {
    RequestDumpHoldsFields(req);
    HoldsRequestFieldsExtended(RequestToJson(req), req, "requirements", StringArray(OutlineRequirements));
  }

  // ---------------------------------------------------------------------
  // The stage-1 outline
  // ---------------------------------------------------------------------

  const NpcKeys: set<string> := {"name", "role", "public_face", "secret", "leverage"}

  /** `npc.model_dump()`: one entry per field. */
  function NpcToJson(n: KeyNpc): (j: Json)
    ensures j.JObject? && j.fields.Keys == NpcKeys
  {
    JObject(map[
      "name" := JString(n.name), "role" := JString(n.role), "public_face" := JString(n.publicFace),
      "secret" := JString(n.secret), "leverage" := JString(n.leverage)])
  }

  function NpcFromJson(j: Json): Option<KeyNpc>
  {
    var name :- GetString(j, "name");
    var role :- GetString(j, "role");
    var publicFace :- GetString(j, "public_face");
    var secret :- GetString(j, "secret");
    var leverage :- GetString(j, "leverage");
    Some(KeyNpc(name, role, publicFace, secret, leverage))
  }

  const FactionKeys: set<string> := {"name", "goal", "method", "complication"}

  /** `faction.model_dump()`: one entry per field, `approach` under `method`. */
  function FactionToJson(f: Faction): (j: Json)
    ensures j.JObject? && j.fields.Keys == FactionKeys
  {
    JObject(map[
      "name" := JString(f.name), "goal" := JString(f.goal), "method" := JString(f.approach),
      "complication" := JString(f.complication)])
  }

  function FactionFromJson(j: Json): Option<Faction>
  {
    var name :- GetString(j, "name");
    var goal :- GetString(j, "goal");
    var approach :- GetString(j, "method");
    var complication :- GetString(j, "complication");
    Some(Faction(name, goal, approach, complication))
  }

  const BeatKeys: set<string> := {"beat_id", "title", "purpose", "stakes", "twist_or_reveal"}

  /** `beat.model_dump()`: one entry per field. */
  function BeatToJson(b: StoryBeat): (j: Json)
    ensures j.JObject? && j.fields.Keys == BeatKeys
  {
    JObject(map[
      "beat_id" := JString(b.beatId), "title" := JString(b.title), "purpose" := JString(b.purpose),
      "stakes" := JString(b.stakes), "twist_or_reveal" := JString(b.twistOrReveal)])
  }

  function BeatFromJson(j: Json): Option<StoryBeat>
  {
    var beatId :- GetString(j, "beat_id");
    var title :- GetString(j, "title");
    var purpose :- GetString(j, "purpose");
    var stakes :- GetString(j, "stakes");
    var twist :- GetString(j, "twist_or_reveal");
    Some(StoryBeat(beatId, title, purpose, stakes, twist))
  }

  const OutlineKeys: set<string> := {
    "title", "logline", "central_conflict", "villain_or_antagonist", "themes",
    "hooks", "key_npcs", "factions", "beats", "continuity_promises"}

  /** `outline.model_dump()`: one entry per field, nested records dumped in turn. */
  function OutlineToJson(o: AdventureOutline): (j: Json)
    ensures j.JObject? && j.fields.Keys == OutlineKeys
  {
    JObject(map[
      "title" := JString(o.title),
      "logline" := JString(o.logline),
      "central_conflict" := JString(o.centralConflict),
      "villain_or_antagonist" := JString(o.villainOrAntagonist),
      "themes" := StringArray(o.themes),
      "hooks" := StringArray(o.hooks),
      "key_npcs" := ArrayOf(o.keyNpcs, NpcToJson),
      "factions" := ArrayOf(o.factions, FactionToJson),
      "beats" := ArrayOf(o.beats, BeatToJson),
      "continuity_promises" := StringArray(o.continuityPromises)])
  }

  /** `AdventureOutline.model_validate(j)`: succeeds only on an object that
      has every outline field; keys it does not know are ignored. */
  function OutlineFromJson(j: Json): (r: Option<AdventureOutline>)
    ensures r.Some? ==> j.JObject? && OutlineKeys <= j.fields.Keys
  {
    var title :- GetString(j, "title");
    var logline :- GetString(j, "logline");
    var conflict :- GetString(j, "central_conflict");
    var villain :- GetString(j, "villain_or_antagonist");
    var themes :- GetStrings(j, "themes");
    var hooks :- GetStrings(j, "hooks");
    var npcs :- GetArray(j, "key_npcs", NpcFromJson);
    var factions :- GetArray(j, "factions", FactionFromJson);
    var beats :- GetArray(j, "beats", BeatFromJson);
    var promises :- GetStrings(j, "continuity_promises");
    Some(AdventureOutline(title, logline, conflict, villain, themes, hooks, npcs, factions, beats, promises))
  }

  /** Every outline survives `model_dump` followed by `model_validate`. */
  lemma OutlineRoundTrip(o: AdventureOutline)
    ensures OutlineFromJson(OutlineToJson(o)) == Some(o)
  {
    var j := OutlineToJson(o);
    OutlineTextFieldsRoundTrip(o);
    OutlineStringListsRoundTrip(o);
    OutlineListFieldsRoundTrip(o);
  }

  lemma OutlineTextFieldsRoundTrip(o: AdventureOutline)
    ensures var j := OutlineToJson(o);
      && GetString(j, "title") == Some(o.title)
      && GetString(j, "logline") == Some(o.logline)
      && GetString(j, "central_conflict") == Some(o.centralConflict)
      && GetString(j, "villain_or_antagonist") == Some(o.villainOrAntagonist)
  {
  }

  lemma OutlineStringListsRoundTrip(o: AdventureOutline)
    ensures var j := OutlineToJson(o);
      && GetStrings(j, "themes") == Some(o.themes)
      && GetStrings(j, "hooks") == Some(o.hooks)
      && GetStrings(j, "continuity_promises") == Some(o.continuityPromises)
  {
    StringArrayRoundTrip(o.themes);
    StringArrayRoundTrip(o.hooks);
    StringArrayRoundTrip(o.continuityPromises);
  }

  lemma OutlineListFieldsRoundTrip(o: AdventureOutline)
    ensures var j := OutlineToJson(o);
      && GetArray(j, "key_npcs", NpcFromJson) == Some(o.keyNpcs)
      && GetArray(j, "factions", FactionFromJson) == Some(o.factions)
      && GetArray(j, "beats", BeatFromJson) == Some(o.beats)
  {
    NpcsRoundTrip(o.keyNpcs);
    FactionsRoundTrip(o.factions);
    BeatsRoundTrip(o.beats);
  }

  lemma NpcsRoundTrip(xs: seq<KeyNpc>)
    ensures DecodeArray(ArrayOf(xs, NpcToJson), NpcFromJson) == Some(xs)
  {
    forall i | 0 <= i < |xs| ensures NpcFromJson(NpcToJson(xs[i])) == Some(xs[i]) {
      NpcRoundTrip(xs[i]);
    }
    ArrayRoundTrip(xs, NpcToJson, NpcFromJson);
  }

  lemma FactionsRoundTrip(xs: seq<Faction>)
    ensures DecodeArray(ArrayOf(xs, FactionToJson), FactionFromJson) == Some(xs)
  {
    forall i | 0 <= i < |xs| ensures FactionFromJson(FactionToJson(xs[i])) == Some(xs[i]) {
      FactionRoundTrip(xs[i]);
    }
    ArrayRoundTrip(xs, FactionToJson, FactionFromJson);
  }

  lemma BeatsRoundTrip(xs: seq<StoryBeat>)
    ensures DecodeArray(ArrayOf(xs, BeatToJson), BeatFromJson) == Some(xs)
  {
    forall i | 0 <= i < |xs| ensures BeatFromJson(BeatToJson(xs[i])) == Some(xs[i]) {
      BeatRoundTrip(xs[i]);
    }
    ArrayRoundTrip(xs, BeatToJson, BeatFromJson);
  }

  lemma NpcRoundTrip(n: KeyNpc)
    ensures NpcFromJson(NpcToJson(n)) == Some(n)
  {
    var j := NpcToJson(n);
    assert GetString(j, "name") == Some(n.name);
    assert GetString(j, "role") == Some(n.role);
    assert GetString(j, "public_face") == Some(n.publicFace);
    assert GetString(j, "secret") == Some(n.secret);
    assert GetString(j, "leverage") == Some(n.leverage);
  }

  lemma FactionRoundTrip(f: Faction)
    ensures FactionFromJson(FactionToJson(f)) == Some(f)
  {
    var j := FactionToJson(f);
    assert GetString(j, "name") == Some(f.name);
    assert GetString(j, "goal") == Some(f.goal);
    assert GetString(j, "method") == Some(f.approach);
    assert GetString(j, "complication") == Some(f.complication);
  }

  lemma BeatRoundTrip(b: StoryBeat)
    ensures BeatFromJson(BeatToJson(b)) == Some(b)
  {
    var j := BeatToJson(b);
    assert GetString(j, "beat_id") == Some(b.beatId);
    assert GetString(j, "title") == Some(b.title);
    assert GetString(j, "purpose") == Some(b.purpose);
    assert GetString(j, "stakes") == Some(b.stakes);
    assert GetString(j, "twist_or_reveal") == Some(b.twistOrReveal);
  }

  // ---------------------------------------------------------------------
  // Stage 2: the detailed-outline payload
  // ---------------------------------------------------------------------

  const DetailedRequirements: seq<string> := [
    "Create 5\U{2013}9 scenes (S1..S#). Each scene must link_to_beats.",
    "Across the whole adventure: include at least 1 combat encounter and at least 1 non-combat encounter.",
    "Encounters must include win_condition and fail_forward (never dead-end the adventure).",
    "Level progression must be structured and sensible from party_level_start to party_level_end.",
    "If leveling_mode is milestone, place level-ups after key scenes. If xp, describe XP targets in rationale text (no big tables).",
    "Estimated_minutes should roughly match session_count_target (scenes usually 30\U{2013}75 minutes).",
    "Honor continuity_promises exactly unless a constraint forces a change (then explain in structure_notes)."]

  /** `build_detailed_prompt`: the dumped request, the dumped stage-1
      outline and the seven stage-2 requirements. */
  function BuildDetailedPrompt(req: OutlineRequest, outline: AdventureOutline): (p: Json)
    ensures p.JObject? && p.fields.Keys == {"request", "outline", "requirements"}
  {
    JObject(map[
      "request" := RequestToJson(req),
      "outline" := OutlineToJson(outline),
      "requirements" := StringArray(DetailedRequirements)])
  }

  /** The stage-2 payload carries the whole request and the whole stage-1
      outline, and exactly the seven stage-2 requirements in order. */
  lemma DetailedPromptCarriesStageOne(req: OutlineRequest, outline: AdventureOutline)
    requires ValidOutlineRequest(req)
    ensures var p := BuildDetailedPrompt(req, outline);
      && RequestFromJson(p.fields["request"]) == Some(req)
      && OutlineFromJson(p.fields["outline"]) == Some(outline)
      && DecodeArray(p.fields["requirements"], JsonString) == Some(DetailedRequirements)
    ensures |DetailedRequirements| == 7
  {
    RequestRoundTrip(req);
    OutlineRoundTrip(outline);
    StringArrayRoundTrip(DetailedRequirements);
  }

  /** Different stage-1 outlines give different stage-2 payloads. */
  lemma DetailedPromptDistinguishesOutlines(req: OutlineRequest, o1: AdventureOutline, o2: AdventureOutline)
    requires o1 != o2
    ensures BuildDetailedPrompt(req, o1) != BuildDetailedPrompt(req, o2)
  {
    OutlineRoundTrip(o1);
    OutlineRoundTrip(o2);
    assert BuildDetailedPrompt(req, o1).fields["outline"] == OutlineToJson(o1);
  }
}
