/**
 * The meta-prompt assembler: the instruction sent to the generative backend
 * asking it to author a prompt. Parts are joined by "\n" and every part after
 * the header carries its own leading "\n", so each labelled section sits
 * after a blank line.
 *
 * Two versions exist. The first assembles every section. The second nests the
 * output-format, extraction, classification and closing steps, and the
 * `return`, under the TONE test, so with the default tone it returns nothing.
 * The second studio also rewrites the goal when an existing prompt is given
 * to improve.
 */
module MetaPrompt {
  import opened Wrappers
  import opened Text
  import opened Settings

  const Header := "Create a professional, effective prompt based on these requirements:"
  const Closing := "Create a clear, specific, and effective prompt that will reliably achieve the stated goal. Include all necessary instructions and constraints."

  const GoalLabel := "GOAL: "
  const ContextLabel := "CONTEXT TO INCLUDE: "
  const PersonaLabel := "PERSONA: The AI should act as "
  const ToneLabel := "TONE: Use a "
  const ToneTail := " tone"
  const FormatLabel := "OUTPUT FORMAT: Response must be in "
  const FormatTail := " format"
  const ExtractionLabel := "DATA EXTRACTION: Must extract these fields: "
  const ClassificationLabel := "CLASSIFICATION: Must classify into these categories: "

  function PersonaSection(s: Settings): string { PersonaLabel + Lower(s.persona) }
  function ToneSection(s: Settings): string { ToneLabel + Lower(s.tone) + ToneTail }
  function FormatSection(s: Settings): string { FormatLabel + s.outputFormat + FormatTail }

  predicate HasExtraction(s: Settings) { s.dataExtraction && s.extractionFields != "" }
  predicate HasClassification(s: Settings) { s.classification && s.categories != "" }

  /** Header, goal, context and persona: the steps both versions take unconditionally. */
  function LeadingParts(goal: string, context: string, s: Settings): (parts: seq<string>)
    ensures parts != []
  {
    var parts := [Header, "\n" + (GoalLabel + goal)];
    var withContext := AppendIf(parts, context != "", "\n" + (ContextLabel + context));
    AppendIf(withContext, s.persona != DefaultPersona, "\n" + PersonaSection(s))
  }

  /** Output format, extraction, classification and the closing instruction. */
  function TrailingParts(parts: seq<string>, s: Settings): seq<string>
  {
    var withFormat := AppendIf(parts, s.outputFormat != DefaultFormat, "\n" + FormatSection(s));
    var withExtraction := AppendIf(withFormat, HasExtraction(s), "\n" + (ExtractionLabel + s.extractionFields));
    var withClassification := AppendIf(withExtraction, HasClassification(s), "\n" + (ClassificationLabel + s.categories));
    withClassification + ["\n" + Closing]
  }

  /** The first version's `_create_meta_prompt`. */
  function CreateMetaPrompt(goal: string, context: string, s: Settings): (r: string)
    ensures r == ExpectedMeta(goal, context, s)
  {
    CreateMetaPromptIsExpected(goal, context, s);
    Join("\n", MetaParts(goal, context, s))
  }

  /** Every part the first version appends, in order. */
  function MetaParts(goal: string, context: string, s: Settings): seq<string> {
    TrailingParts(AppendIf(LeadingParts(goal, context, s), s.tone != DefaultTone, "\n" + ToneSection(s)), s)
  }

  /** The second version's `_create_meta_prompt`, whose later steps sit inside the TONE branch. */
  function CreateMetaPromptV2(goal: string, context: string, s: Settings): (r: Option<string>)
    ensures r.Some? <==> s.tone != DefaultTone
    ensures r.Some? ==> r.value == ExpectedMeta(goal, context, s)
  {
    var lead := LeadingParts(goal, context, s);
    if s.tone != DefaultTone then
      var withTone := lead + ["\n" + ToneSection(s)];
      CreateMetaPromptIsExpected(goal, context, s);
      Some(Join("\n", TrailingParts(withTone, s)))
    else
      None
  }

  /** A labelled section preceded by a blank line, or nothing. */
  function Section(present: bool, body: string): string {
    When(present, "\n\n" + body)
  }

  /**
   * The meta-prompt written out as one text: header, blank line, GOAL, then
   * CONTEXT, PERSONA, TONE, OUTPUT FORMAT, DATA EXTRACTION and CLASSIFICATION
   * each after a blank line and only under its condition, and the closing
   * instruction after a final blank line.
   */
  function ExpectedMeta(goal: string, context: string, s: Settings): string
  {
    Header + Section(true, GoalLabel + goal)
    + Section(context != "", ContextLabel + context)
    + Section(s.persona != DefaultPersona, PersonaSection(s))
    + Section(s.tone != DefaultTone, ToneSection(s))
    + Section(s.outputFormat != DefaultFormat, FormatSection(s))
    + Section(HasExtraction(s), ExtractionLabel + s.extractionFields)
    + Section(HasClassification(s), ClassificationLabel + s.categories)
    + Section(true, Closing)
  }

  /** Joining a part that starts with "\n" after a "\n" separator opens a blank line. */
  lemma BlankLine(sep: string, part: string, body: string)
    requires sep == "\n" && part == "\n" + body
    ensures sep + part == "\n\n" + body
  {
  }

  /** Joining a conditionally appended part yields its section. */
  lemma JoinSection(parts: seq<string>, cond: bool, body: string)
    requires parts != []
    ensures AppendIf(parts, cond, "\n" + body) != []
    ensures Join("\n", AppendIf(parts, cond, "\n" + body)) == Join("\n", parts) + Section(cond, body)
  {
    JoinAppendIf("\n", parts, cond, "\n" + body);
    BlankLine("\n", "\n" + body, body);
  }

  lemma LeadingPartsJoined(goal: string, context: string, s: Settings)
    ensures Join("\n", LeadingParts(goal, context, s))
         == Header + Section(true, GoalLabel + goal)
            + Section(context != "", ContextLabel + context)
            + Section(s.persona != DefaultPersona, PersonaSection(s))
  {
    var p0 := [Header];
    var p1 := AppendIf(p0, true, "\n" + (GoalLabel + goal));
    JoinSection(p0, true, GoalLabel + goal);
    assert p1 == [Header, "\n" + (GoalLabel + goal)];
    var p2 := AppendIf(p1, context != "", "\n" + (ContextLabel + context));
    JoinSection(p1, context != "", ContextLabel + context);
    JoinSection(p2, s.persona != DefaultPersona, PersonaSection(s));
  }

  lemma TrailingPartsJoined(parts: seq<string>, s: Settings)
    requires parts != []
    ensures Join("\n", TrailingParts(parts, s))
         == Join("\n", parts)
            + Section(s.outputFormat != DefaultFormat, FormatSection(s))
            + Section(HasExtraction(s), ExtractionLabel + s.extractionFields)
            + Section(HasClassification(s), ClassificationLabel + s.categories)
            + Section(true, Closing)
  {
    var p5 := AppendIf(parts, s.outputFormat != DefaultFormat, "\n" + FormatSection(s));
    JoinSection(parts, s.outputFormat != DefaultFormat, FormatSection(s));
    var p6 := AppendIf(p5, HasExtraction(s), "\n" + (ExtractionLabel + s.extractionFields));
    JoinSection(p5, HasExtraction(s), ExtractionLabel + s.extractionFields);
    var p7 := AppendIf(p6, HasClassification(s), "\n" + (ClassificationLabel + s.categories));
    JoinSection(p6, HasClassification(s), ClassificationLabel + s.categories);
    JoinSection(p7, true, Closing);
    assert TrailingParts(parts, s) == AppendIf(p7, true, "\n" + Closing);
  }

  /** The first version's parts, joined by "\n", give the closed form. */
  lemma CreateMetaPromptIsExpected(goal: string, context: string, s: Settings)
    ensures Join("\n", MetaParts(goal, context, s)) == ExpectedMeta(goal, context, s)
  {
    var lead := LeadingParts(goal, context, s);
    LeadingPartsJoined(goal, context, s);
    JoinSection(lead, s.tone != DefaultTone, ToneSection(s));
    TrailingPartsJoined(AppendIf(lead, s.tone != DefaultTone, "\n" + ToneSection(s)), s);
  }

  /** Every later step only appends, so the first two parts stay in front and the closing follows them. */
  lemma StartsWithHeaderAndGoal(goal: string, context: string, s: Settings)
    ensures var parts := MetaParts(goal, context, s);
            |parts| >= 3 && parts[..2] == [Header, "\n" + (GoalLabel + goal)]
  {
  }

  /** The joined parts start with the header, a blank line and the goal. */
  lemma MetaPartsStartWithGoal(goal: string, context: string, s: Settings)
    ensures var m := Join("\n", MetaParts(goal, context, s));
            var lead := Header + "\n\n" + GoalLabel + goal;
            |m| >= |lead| && m[..|lead|] == lead
  {
    var parts := MetaParts(goal, context, s);
    StartsWithHeaderAndGoal(goal, context, s);
    var front := [Header, "\n" + (GoalLabel + goal)];
    assert parts == front + parts[2..];
    var lead := Header + "\n\n" + GoalLabel + goal;
    assert Join("\n", front) == Header + "\n" + ("\n" + (GoalLabel + goal)) == lead;
    JoinConcat("\n", front, parts[2..]);
    assert Join("\n", parts) == lead + "\n" + Join("\n", parts[2..]);
  }

  /** The meta-prompt starts with the header, a blank line and the goal. */
  lemma MetaPromptStartsWithGoal(goal: string, context: string, s: Settings)
    ensures var m := CreateMetaPrompt(goal, context, s);
            var lead := Header + "\n\n" + GoalLabel + goal;
            |m| >= |lead| && m[..|lead|] == lead
  {
    MetaPartsStartWithGoal(goal, context, s);
  }

  /** The meta-prompt ends with a blank line and the closing instruction. */
  lemma MetaPromptEndsWithClosing(goal: string, context: string, s: Settings)
    ensures var m := CreateMetaPrompt(goal, context, s);
            var tail := "\n\n" + Closing;
            |m| >= |tail| && m[|m| - |tail|..] == tail
  {
    CreateMetaPromptIsExpected(goal, context, s);
    var tail := "\n\n" + Closing;
    var front := Header + Section(true, GoalLabel + goal)
      + Section(context != "", ContextLabel + context)
      + Section(s.persona != DefaultPersona, PersonaSection(s))
      + Section(s.tone != DefaultTone, ToneSection(s))
      + Section(s.outputFormat != DefaultFormat, FormatSection(s))
      + Section(HasExtraction(s), ExtractionLabel + s.extractionFields)
      + Section(HasClassification(s), ClassificationLabel + s.categories);
    assert CreateMetaPrompt(goal, context, s) == front + tail;
    assert (front + tail)[|front + tail| - |tail|..] == tail;
  }

  /** With the default tone the second version returns nothing, whatever the other inputs. */
  lemma ProfessionalToneGivesNothing(goal: string, context: string, s: Settings)
    requires s.tone == DefaultTone
    ensures CreateMetaPromptV2(goal, context, s) == None
  {
  }

  /** With any other tone the second version returns exactly what the first one builds. */
  lemma V2AgreesWithV1(goal: string, context: string, s: Settings)
    requires s.tone != DefaultTone
    ensures CreateMetaPromptV2(goal, context, s) == Some(CreateMetaPrompt(goal, context, s))
  {
  }

  /** Stale extraction fields or categories never reach the meta-prompt while their flag is off. */
  lemma DisabledModulesIgnored(goal: string, context: string, s: Settings, fields: string, categories: string)
    requires !s.dataExtraction && !s.classification
    ensures CreateMetaPrompt(goal, context, s)
         == CreateMetaPrompt(goal, context, s.(extractionFields := fields, categories := categories))
  {
  }

  // ---------------------------------------------------------------------------
  // Improving an existing prompt (second studio)
  // ---------------------------------------------------------------------------

  const ImproveRequest := "I already have a prompt, please improve it for me, my Current prompt is: \n"

  /** `_render_old_user_prompt`: the text area's value while the checkbox is on, otherwise `None`. */
  function OldUserPrompt(checked: bool, text: string): (r: Option<string>)
    ensures r.Some? <==> checked
    ensures checked ==> r.value == text
  {
    if checked then Some(text) else None
  }

  predicate HasOldPrompt(existing: Option<string>) {
    existing.Some? && existing.value != ""
  }

  /** The goal handed on to generation: rewritten only when a non-empty old prompt is supplied. */
  function EffectiveGoal(goal: string, existing: Option<string>): (g: string)
    ensures !HasOldPrompt(existing) ==> g == goal
    ensures HasOldPrompt(existing) ==>
              && |g| == |goal| + |ImproveRequest| + |existing.value|
              && g[..|goal|] == goal
              && g[|goal|..|goal| + |ImproveRequest|] == ImproveRequest
              && g[|goal| + |ImproveRequest|..] == existing.value
  {
    if HasOldPrompt(existing) then goal + ImproveRequest + existing.value else goal
  }

  /**
   * Generation is offered while the goal handed on is non-empty, so an old
   * prompt alone is enough, and without one the user's own goal decides.
   */
  lemma GenerationOfferedIff(goal: string, existing: Option<string>)
    ensures EffectiveGoal(goal, existing) != "" <==> goal != "" || HasOldPrompt(existing)
  {
    if HasOldPrompt(existing) {
      assert |EffectiveGoal(goal, existing)| > 0;
    }
  }
}
