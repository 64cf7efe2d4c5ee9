# OdysseyMaker adventure-outline core in Dafny

OdysseyMaker is a Streamlit app that turns a tabletop RPG pitch into two
linked records. The first is a high-level `AdventureOutline`. The second is
a `DetailedAdventureOutline` with scenes, encounters and level progression.
The generation service writes both. This project models the logic around
that service, all of it in `OdysseyMaker_app.py`:

- the closed vocabularies (tone, theme, encounter type, difficulty,
  leveling mode, ruleset), and the bounds checked when an `OutlineRequest`
  is built and when a `Scene` is validated (`schema.dfy`);
- the two prompt payloads: the outline prompt, and the detailed prompt that
  embeds the request and the stage-1 outline. Each payload carries its fixed
  requirement strings (`payload.dfy`, `prompts.dfy`);
- `_extract_output_text`, the nested loop that picks the text of the
  model's answer out of a response (`extraction.dfy`);
- `generate_outline_pair`, which chains the two stages, validates the
  scenes and fills in a blank detailed title from the outline
  (`pipeline.dfy`);
- the parse of the constraints text area into a list of constraints
  (`constraints.dfy`), using Python's own `str.strip` whitespace set and
  `str.splitlines` boundary set (`text.dfy`).

Every record is a Dafny datatype. Every `Literal` is a datatype, paired with
its literal strings. The generation service is a function parameter, so the
pipeline can be proved for every answer the service might give.

## Model

| member | source | states |
|---|---|---|
| Schema.ParseTone | OdysseyMaker_app.py:14 | parses exactly the six tone literals; a parsed value's literal is the input; any other string is rejected |
| Schema.ParseTheme | OdysseyMaker_app.py:15 | parses exactly the nine theme literals and rejects every other string |
| Schema.ParseEncounterType | OdysseyMaker_app.py:17 | parses exactly the five encounter-type literals and rejects every other string |
| Schema.ParseDifficulty | OdysseyMaker_app.py:18 | parses exactly the four difficulty literals and rejects every other string |
| Schema.ParseLevelingMode | OdysseyMaker_app.py:20 | parses exactly `milestone` and `xp` and rejects every other string |
| Schema.ParseRuleset | OdysseyMaker_app.py:21 | parses exactly `5e` and `system_agnostic` and rejects every other string |
| Schema.LiteralsRoundTrip | OdysseyMaker_app.py:14-21 | every enumeration value's literal is in its list and parses back to that value |
| Schema.NewOutlineRequest | OdysseyMaker_app.py:24-34 | building a request succeeds iff the concept has at least 10 characters, both levels and the session target are in 1..20, and every enum string is one of its literals; on success the fields are copied unchanged and the request is valid; on failure the reported fields are non-empty and are exactly the fields that violate their constraint |
| Schema.ValidOutlineRequest | OdysseyMaker_app.py:24-34 | the bounds of a built request: a concept of at least 10 characters, both levels and the session target in 1..20 |
| Schema.ValidRequestAccepted | OdysseyMaker_app.py:24-34 | rebuilding a request from its own values succeeds iff the request is valid, and then gives back that same request |
| Schema.RejectedFields | OdysseyMaker_app.py:24-34 | the reported fields are exactly the given fields whose value violates its constraint |
| Schema.SomeFieldRejected | OdysseyMaker_app.py:24-34 | arguments that fail validation have at least one offending field to report |
| Schema.EndBelowStartAccepted | OdysseyMaker_app.py:26-27 | every set of arguments whose end level is below its start level, and whose other fields are acceptable, is accepted as a valid request that keeps the two levels in that order: no ordering between the levels is enforced |
| Schema.ValidScene | OdysseyMaker_app.py:96 | a scene is valid iff its `estimated_minutes` lies in 5..240 |
| Schema.ValidDetailedOutline | OdysseyMaker_app.py:84-96 | a detailed outline is valid iff every one of its scenes is |
| Schema.InvalidScenes | OdysseyMaker_app.py:96 | lists, in increasing order, exactly the indices of scenes whose `estimated_minutes` is outside 5..240 |
| Schema.ValidIffNoInvalidScenes | OdysseyMaker_app.py:84-96 | a detailed outline passes scene validation iff no scene is reported invalid |
| Payload.ArrayRoundTrip | OdysseyMaker_app.py:195-196 | a list dumped element by element decodes back to the same list when each element does |
| Payload.StringArrayRoundTrip | OdysseyMaker_app.py:182-189 | a list of strings dumped as a JSON array decodes back to itself |
| Prompts.RequestToJson | OdysseyMaker_app.py:195 | the dump of a request is an object with exactly the ten request keys |
| Prompts.RequestFromJson | OdysseyMaker_app.py:24-34 | `model_validate` of a dict returns only a valid request, whose ten fields the dict holds under their keys (unknown keys ignored); with `DecodeHeldRequest` this is an if-and-only-if |
| Prompts.RequestRoundTrip | OdysseyMaker_app.py:195 | decoding the dump of a valid request gives the same request |
| Prompts.RequestDumpHoldsFields | OdysseyMaker_app.py:195 | the dump of a request holds each of its ten fields under its key, enumerations as their literals |
| Prompts.HoldsRequestFieldsExtended | OdysseyMaker_app.py:172-190 | adding an entry under a key that is not a request field keeps every request field readable unchanged |
| Prompts.OutlinePromptHoldsRequest | OdysseyMaker_app.py:172-183 | the outline prompt holds each of the request's ten fields under its key |
| Prompts.DecodeHeldRequest | OdysseyMaker_app.py:195 | any object holding a valid request's ten field values decodes to that request |
| Prompts.BuildOutlinePrompt | OdysseyMaker_app.py:172-190 | the outline prompt has exactly the ten request keys plus `requirements`; it agrees with the request dump on every request key; `requirements` holds the four fixed strings |
| Prompts.OutlinePromptCarriesRequest | OdysseyMaker_app.py:172-190 | the outline prompt decodes back to the request, and its requirements decode to the four fixed strings in order |
| Prompts.OutlineToJson | OdysseyMaker_app.py:196 | the dump of an outline is an object with exactly its ten field names as keys |
| Prompts.NpcToJson | OdysseyMaker_app.py:196 | the dump of a key NPC is an object with exactly its five field names as keys |
| Prompts.FactionToJson | OdysseyMaker_app.py:196 | the dump of a faction is an object with exactly the keys `name`, `goal`, `method` and `complication` |
| Prompts.BeatToJson | OdysseyMaker_app.py:196 | the dump of a story beat is an object with exactly its five field names as keys |
| Prompts.OutlineFromJson | OdysseyMaker_app.py:60-70 | `model_validate` of a dict succeeds only on an object holding all ten outline fields; keys it does not know are ignored |
| Prompts.OutlineRoundTrip | OdysseyMaker_app.py:196 | decoding the dump of an outline gives the same outline |
| Prompts.OutlineTextFieldsRoundTrip | OdysseyMaker_app.py:60-64 | the title, logline, central conflict and antagonist of a dumped outline decode unchanged |
| Prompts.OutlineStringListsRoundTrip | OdysseyMaker_app.py:65-70 | the themes, hooks and continuity promises of a dumped outline decode unchanged |
| Prompts.OutlineListFieldsRoundTrip | OdysseyMaker_app.py:67-69 | the NPC, faction and beat lists of a dumped outline decode unchanged |
| Prompts.NpcsRoundTrip | OdysseyMaker_app.py:67 | a dumped list of key NPCs decodes back to itself |
| Prompts.FactionsRoundTrip | OdysseyMaker_app.py:68 | a dumped list of factions decodes back to itself |
| Prompts.BeatsRoundTrip | OdysseyMaker_app.py:69 | a dumped list of story beats decodes back to itself |
| Prompts.NpcRoundTrip | OdysseyMaker_app.py:37-42 | a dumped key NPC decodes back to itself |
| Prompts.FactionRoundTrip | OdysseyMaker_app.py:45-49 | a dumped faction decodes back to itself |
| Prompts.BeatRoundTrip | OdysseyMaker_app.py:52-57 | a dumped story beat decodes back to itself |
| Prompts.BuildDetailedPrompt | OdysseyMaker_app.py:193-206 | the detailed prompt has exactly the keys `request`, `outline` and `requirements` |
| Prompts.DetailedPromptCarriesStageOne | OdysseyMaker_app.py:193-206 | the detailed prompt's request and outline decode back to the given request and outline, and its requirements decode to the seven fixed strings in order |
| Prompts.DetailedPromptDistinguishesOutlines | OdysseyMaker_app.py:193-206 | two different outlines give two different detailed prompts for the same request |
| Extraction.FirstOutputText | OdysseyMaker_app.py:143-146 | a message's content yields no text iff none of its blocks is an `output_text` block |
| Extraction.FirstOutputTextIsFirst | OdysseyMaker_app.py:143-146 | within one message, the text of the first `output_text` block is the one taken |
| Extraction.ExtractOutputText | OdysseyMaker_app.py:135-149 | the nested loop succeeds iff some message contributes a text and the selected text is non-empty; it then returns the text selected across messages; otherwise it fails with the fixed "No output_text found" message |
| Extraction.NothingSelectedIffNoContributor | OdysseyMaker_app.py:140-147 | nothing is selected iff no item is a message with an `output_text` block |
| Extraction.LastContributorWins | OdysseyMaker_app.py:141-146 | the text selected is the one from the last message that contains an `output_text` block |
| Extraction.NonMessagesIgnored | OdysseyMaker_app.py:142 | adding items that are not messages, before or after, does not change the selection |
| Extraction.LastMessageOverridesFirst | OdysseyMaker_app.py:141-146 | for a response with two messages, the loop selects the second message's text, although the first `output_text` block overall is in the first message |
| Extraction.FirstOutputTextAppend | OdysseyMaker_app.py:136-138 | the first `output_text` block of joined contents is found in the first part if the first part has one, otherwise in the second part |
| Extraction.FirstSelectedIsFirstBlock | OdysseyMaker_app.py:136-138 | the message-by-message search that stops at its first find selects the first `output_text` block across all messages |
| Extraction.ExtractFirstOutputText | OdysseyMaker_app.py:136-149 | the corrected loop returns the text of the first `output_text` block across all messages when that text is non-empty; when there is no such block or its text is empty, it fails with the same "No output_text found" message |
| Pipeline.OutlineCall | OdysseyMaker_app.py:210-217 | stage 1 is asked for `adventure_outline` with its fixed instruction, and its payload decodes back to the request |
| Pipeline.DetailedCall | OdysseyMaker_app.py:220-227 | stage 2 is asked for `detailed_adventure_outline` with its fixed instruction, and its payload's `outline` decodes back to the stage-1 outline |
| Pipeline.IsBlank | OdysseyMaker_app.py:231 | `not s.strip()` holds iff the text is whitespace only (the empty text included) |
| Pipeline.BackfillTitle | OdysseyMaker_app.py:231-232 | a blank (all-whitespace) detailed title becomes the outline's title; a non-blank detailed outline is unchanged; scenes, progression, notes, side quests and recap questions never change |
| Pipeline.BackfilledTitleBlankOnlyIfBoth | OdysseyMaker_app.py:231-232 | after the backfill the title is blank iff both the detailed title and the outline title were blank |
| Pipeline.BackfillIdempotent | OdysseyMaker_app.py:231-232 | backfilling a second time changes nothing |
| Pipeline.GenerateOutlinePair | OdysseyMaker_app.py:209-234 | a stage-1 error propagates; stage 2 is called on the request and the stage-1 outline, and its error propagates; out-of-range scene minutes fail with the offending scene indices; otherwise the result pairs the stage-1 outline with the backfilled stage-2 outline, which has valid scenes |
| Text.IsSpace | OdysseyMaker_app.py:299 | holds exactly for the characters Python's `str.isspace()` accepts: U+0009..U+000D, U+001C..U+0020, U+0085, U+00A0, U+1680, U+2000..U+200A, U+2028, U+2029, U+202F, U+205F and U+3000 |
| Text.StripLeading | OdysseyMaker_app.py:299 | removes a whitespace-only prefix; the rest is a suffix of the input that does not start with whitespace |
| Text.StripTrailing | OdysseyMaker_app.py:299 | removes a whitespace-only suffix; the rest is a prefix of the input that does not end with whitespace |
| Text.Strip | OdysseyMaker_app.py:299 | the result has no whitespace at either end, and is empty iff the input is all whitespace |
| Text.StripRemovesOnlySpace | OdysseyMaker_app.py:299 | the stripped text is the input with only a whitespace prefix and a whitespace suffix removed |
| Text.StripEmptyIffBlank | OdysseyMaker_app.py:231 | stripping leaves nothing iff the text is whitespace only |
| Text.StripStripped | OdysseyMaker_app.py:299 | stripping text without surrounding whitespace leaves it unchanged |
| Constraints.IsLineBoundary | OdysseyMaker_app.py:299 | holds exactly for the characters `str.splitlines()` breaks at: `\n`, `\r`, U+000B, U+000C, U+001C..U+001E, U+0085, U+2028 and U+2029 |
| Constraints.LineBoundaryIsSpace | OdysseyMaker_app.py:299 | every line-boundary character is whitespace to `str.strip()` |
| Constraints.SplitLines | OdysseyMaker_app.py:299 | no line contains a line-boundary character |
| Constraints.LineBreaks | OdysseyMaker_app.py:299 | gives one break per line of `SplitLines` |
| Constraints.LinesOf | OdysseyMaker_app.py:299 | what a split means, independently of `SplitLines`: the text is the lines in order, each followed by its break; a break is `\r\n` or a single boundary character, and a lone `\r` is never followed by `\n`; no line holds a boundary; only the last line may lack a break, and then it is not empty |
| Constraints.SplitLinesSplits | OdysseyMaker_app.py:299 | `SplitLines` and its breaks satisfy `LinesOf`: the lines with their breaks rebuild the text |
| Constraints.SplitLinesUnique | OdysseyMaker_app.py:299 | any lines and breaks that satisfy `LinesOf` for a text are exactly `SplitLines` and its breaks; with `SplitLinesSplits`, `SplitLines` is the one split `LinesOf` describes |
| Constraints.StripAll | OdysseyMaker_app.py:299 | one stripped line per input line, each without surrounding whitespace |
| Constraints.NonBlank | OdysseyMaker_app.py:299 | a string is kept iff it is in the input and is not empty |
| Constraints.NonBlankAppend | OdysseyMaker_app.py:299 | dropping blanks keeps order: the strings kept from two lists are those kept from the first followed by those kept from the second |
| Constraints.StripNonBlank | OdysseyMaker_app.py:299 | each constraint is non-empty and has no surrounding whitespace, and there are at most as many constraints as lines |
| Constraints.ParseConstraints | OdysseyMaker_app.py:299 | each constraint is non-empty, has no surrounding whitespace and lies within one line |
| Constraints.StripNonBlankNoBoundary | OdysseyMaker_app.py:299 | stripping and dropping lines introduces no line-boundary character |
| Constraints.StripNonBlankAppend | OdysseyMaker_app.py:299 | order is kept: the constraints from two blocks of lines are those of the first block followed by those of the second |
| Constraints.StripNonBlankMember | OdysseyMaker_app.py:299 | a string is a constraint iff it is non-empty and is some line, stripped |
| Constraints.SplitJoin | OdysseyMaker_app.py:299 | lines without boundaries whose last line is not empty, joined with newlines, split back into the same lines, empty lines included |
| Constraints.ParseJoin | OdysseyMaker_app.py:299 | clean constraints written one per line parse back to the same list |
| Constraints.ParseIdempotent | OdysseyMaker_app.py:299 | writing the parsed constraints one per line and parsing again gives the same list |

## Left out

- The call to the generation service in `generate_json_schema`, and `json.dumps`/`json.loads` of the payload and the reply, are not modelled. This is network I/O through a foreign client (OdysseyMaker_app.py:152-169). Each stage is a function parameter from the call to the record it validates to, or to an error message.
- `model_json_schema` is not modelled. The schema sent with each stage call is not part of `StageCall`.
- `model_validate` of the service's reply is modelled only by its scene-minutes bound. The stage parameters return records that are already typed, and an out-of-range scene is reported as its own error kind instead of pydantic's `ValidationError` text.
- `model_dump` is modelled as an encoding into a JSON value whose objects are maps, so key order is not modelled. The inverse decoders in `prompts.dfy` serve only to state that nothing is lost.
- Only the request and outline dumps have round-trip proofs. No JSON encoding of a `DetailedAdventureOutline` is modelled, so the session-state round trip at OdysseyMaker_app.py:322 and 334 is not modelled either.
- Pydantic's lax coercion (for example `"3"` accepted as `3`) and the fields' defaults are not modelled. `Schema.NewOutlineRequest` takes every argument explicitly and with its final type.
- Pipeline.GenerateOutlinePair: the title backfill models the in-place assignment to `detailed.outline_title` as a field update of a local record. No other reference to that object exists in the source, so aliasing is not modelled.
- Extraction.ExtractOutputText: a missing `type` attribute is modelled as `None`, but a missing `output` or `content` attribute is not modelled separately from an empty list. A block's `text` is always a string, never `None`.
- The Streamlit UI, session state, API-key lookup and download buttons are not modelled (OdysseyMaker_app.py:241-455, apart from line 299). They are presentation and environment plumbing.
- The strict-schema adapter, the quota-error fallback and demo generator, and the scene-guide stage are not part of this model: they are not in `OdysseyMaker_app.py`.

## Findings

| source | as written | input that shows it | evidently intended | confidence | as-written member | corrected member |
|---|---|---|---|---|---|---|
| OdysseyMaker_app.py:135-149 | `break` leaves only the inner loop, so each later message with an `output_text` block overwrites `out_text`: the text from the last such message is returned | a response with two `message` items, whose first blocks are `output_text` "first" and `output_text` "second": "second" is returned | the docstring promises "the first output_text block", i.e. "first" | low (replies usually hold one message), not executed | Extraction.LastMessageOverridesFirst | Extraction.ExtractFirstOutputText |

`Extraction.ExtractOutputText` models the loop as written, and
`Extraction.LastMessageOverridesFirst` exhibits the input above.
`Extraction.ExtractFirstOutputText` stops at the first find. With
`Extraction.FirstSelectedIsFirstBlock`, it is proved to return the first
`output_text` block across all messages.
