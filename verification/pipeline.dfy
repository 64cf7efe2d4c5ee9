/**
 * The two-stage generation pipeline (`generate_outline_pair`,
 * OdysseyMaker_app.py:209-234). The model service is not part of this
 * model: each stage is a function parameter from the call that would be
 * sent (schema name, instructions, payload) to the record the service
 * answers with, or to the message of the exception it raises.
 */
module Pipeline {
  import opened Wrappers
  import opened Text
  import opened Schema
  import opened Payload
  import opened Prompts

  /** One structured-output request: schema name, extra instructions and user payload. */
  datatype StageCall = StageCall(schemaName: string, instructions: string, payload: Json)

  const OutlineSchemaName := "adventure_outline"
  const OutlineInstructions := "Create the HIGH-LEVEL AdventureOutline JSON now."
  const DetailedSchemaName := "detailed_adventure_outline"
  const DetailedInstructions :=
    "Now expand into a DETAILED Adventure outline with scenes, encounters, and level progression."

  /** The first-stage call: the outline schema and the request payload. */
  function OutlineCall(req: OutlineRequest): (c: StageCall)
    requires ValidOutlineRequest(req)
    ensures c.schemaName == OutlineSchemaName && c.instructions == OutlineInstructions
    ensures RequestFromJson(c.payload) == Some(req)
  {
    OutlinePromptCarriesRequest(req);
    StageCall(OutlineSchemaName, OutlineInstructions, BuildOutlinePrompt(req))
  }

  /** The second-stage call: the detailed schema and a payload holding the
      request together with the outline the first stage produced. */
  function DetailedCall(req: OutlineRequest, outline: AdventureOutline): (c: StageCall)
    requires ValidOutlineRequest(req)
    ensures c.schemaName == DetailedSchemaName && c.instructions == DetailedInstructions
    ensures c.payload.JObject? && "outline" in c.payload.fields
    ensures OutlineFromJson(c.payload.fields["outline"]) == Some(outline)
  {
    DetailedPromptCarriesStageOne(req, outline);
    StageCall(DetailedSchemaName, DetailedInstructions, BuildDetailedPrompt(req, outline))
  }

  /** Why a pipeline run ends without a response: an exception raised by a
      stage, or scenes whose `estimated_minutes` fail validation. */
  datatype PipelineError =
    | Raised(message: string)
    | SceneMinutesOutOfRange(scenes: seq<nat>)

  /** `not s.strip()`: the text is whitespace only. */
  predicate IsBlank(s: string): (b: bool)
    ensures b <==> AllSpace(s)
  {
    Strip(s) == ""
  }

  /** The detailed outline with its title taken from the outline when its own is blank. */
  function BackfillTitle(detailed: DetailedAdventureOutline, outline: AdventureOutline): (d: DetailedAdventureOutline)
    ensures d.scenes == detailed.scenes && d.levelProgression == detailed.levelProgression
    ensures d.structureNotes == detailed.structureNotes
    ensures d.optionalSideQuests == detailed.optionalSideQuests && d.recapQuestions == detailed.recapQuestions
    ensures AllSpace(detailed.outlineTitle) ==> d.outlineTitle == outline.title
    ensures !AllSpace(detailed.outlineTitle) ==> d == detailed
  {
    if IsBlank(detailed.outlineTitle) then detailed.(outlineTitle := outline.title) else detailed
  }

  /** After the backfill the title is blank only if both titles were. */
  lemma BackfilledTitleBlankOnlyIfBoth(detailed: DetailedAdventureOutline, outline: AdventureOutline)
    ensures IsBlank(BackfillTitle(detailed, outline).outlineTitle)
            <==> IsBlank(detailed.outlineTitle) && IsBlank(outline.title)
  {
  }

  /** Backfilling a second time changes nothing. */
  lemma BackfillIdempotent(detailed: DetailedAdventureOutline, outline: AdventureOutline)
    ensures BackfillTitle(BackfillTitle(detailed, outline), outline) == BackfillTitle(detailed, outline)
  {
  }

  /** Runs the outline stage, then the detailed stage on the request and the
      outline, validates the scenes, fills in a blank title from the outline
      and pairs the two records. */
  method GenerateOutlinePair(
    req: OutlineRequest,
    stage1: StageCall -> Result<AdventureOutline, string>,
    stage2: StageCall -> Result<DetailedAdventureOutline, string>
  ) returns (r: Result<OutlineResponse, PipelineError>)
    requires ValidOutlineRequest(req)
    ensures stage1(OutlineCall(req)).Failure? ==> r == Failure(Raised(stage1(OutlineCall(req)).error))
    ensures stage1(OutlineCall(req)).Success? ==>
      var outline := stage1(OutlineCall(req)).value;
      var d := stage2(DetailedCall(req, outline));
      && (d.Failure? ==> r == Failure(Raised(d.error)))
      && (d.Success? && !ValidDetailedOutline(d.value) ==>
            r == Failure(SceneMinutesOutOfRange(InvalidScenes(d.value.scenes))))
      && (d.Success? && ValidDetailedOutline(d.value) ==>
            r == Success(OutlineResponse(outline, BackfillTitle(d.value, outline))))
    ensures r.Success? ==> ValidDetailedOutline(r.value.detailed)
    ensures r.Failure? && r.error.SceneMinutesOutOfRange? ==> r.error.scenes != []
  {
    var outlineData := stage1(OutlineCall(req));
    if outlineData.Failure? {
      return Failure(Raised(outlineData.error));
    }
    var outline := outlineData.value;

    var detailedData := stage2(DetailedCall(req, outline));
    if detailedData.Failure? {
      return Failure(Raised(detailedData.error));
    }
    var detailed := detailedData.value;
    var invalid := InvalidScenes(detailed.scenes);
    ValidIffNoInvalidScenes(detailed);
    if invalid != [] {
      return Failure(SceneMinutesOutOfRange(invalid));
    }

    // Ensure a title is present.
    if IsBlank(detailed.outlineTitle) {
      detailed := detailed.(outlineTitle := outline.title);
    }
    return Success(OutlineResponse(outline, detailed));
  }
}
