/**
 * The deterministic composer of the first studio: an ordered list of optional
 * clauses joined by a blank line ("\n\n"). Four of the clauses carry a
 * leading "\n" of their own, so in the joined text they are preceded by three
 * newlines while the tone clause is preceded by two.
 */
module Composer {
  import opened Wrappers
  import opened Text
  import opened Settings

  /**
   * The studio's control values. A module's text field only exists (is
   * assigned) while its checkbox is on, so each module is an optional text.
   */
  datatype Controls = Controls(
    persona: string,
    tone: string,
    outputFormat: string,
    extraction: Option<string>,
    classification: Option<string>)

  /** The widgets as the studio reads them, the persona after the "Custom..." substitution. */
  function StudioControls(
    personaChoice: string, customText: string, tone: string, outputFormat: string,
    extractionOn: bool, fieldsInput: string, classificationOn: bool, categoriesInput: string): (c: Controls)
    requires personaChoice in PersonaOptions && tone in ToneOptions && outputFormat in FormatOptions
    ensures c.persona == EffectivePersona(personaChoice, customText)
    ensures c.tone == tone && c.outputFormat == outputFormat
    ensures c.extraction.Some? == extractionOn && c.classification.Some? == classificationOn
    ensures extractionOn ==> c.extraction.value == fieldsInput
    ensures classificationOn ==> c.classification.value == categoriesInput
  {
    Controls(
      EffectivePersona(personaChoice, customText), tone, outputFormat,
      if extractionOn then Some(fieldsInput) else None,
      if classificationOn then Some(categoriesInput) else None)
  }

  predicate HasPersonaClause(c: Controls) {
    c.persona != "" && c.persona != DefaultPersona
  }

  // The fixed wording of the clauses.
  const PersonaLead := "You are "
  const TaskLead := "Your task: "
  const ContextLead := "Use this context:\n"
  const FormatLead := "Provide your response in "
  const ClauseFormatTail := " format."
  const ToneLead := "Use a "
  const ClauseToneTail := " tone."
  const ExtractionLead := "Extract these specific fields: "
  const ClassificationLead := "Classify into one of these categories: "

  /** One for a clause that is present, zero otherwise. */
  function Count(present: bool): nat {
    if present then 1 else 0
  }

  /** The `prompt_parts` list, built clause by clause in the source's order. */
  function Parts(goal: string, context: string, c: Controls): (parts: seq<string>)
    ensures |parts| == 1 + Count(HasPersonaClause(c)) + Count(context != "") + Count(c.outputFormat != DefaultFormat)
                       + Count(c.tone != DefaultTone) + Count(c.extraction.Some?) + Count(c.classification.Some?)
    ensures HasPersonaClause(c) ==> parts[0] == PersonaLead + Lower(c.persona) + "."
    ensures parts[Count(HasPersonaClause(c))] == TaskLead + goal
  {
    var withPersona := AppendIf([], HasPersonaClause(c), PersonaLead + Lower(c.persona) + ".");
    var withTask := withPersona + [TaskLead + goal];
    var withContext := AppendIf(withTask, context != "", "\n" + (ContextLead + context));
    var withFormat := AppendIf(withContext, c.outputFormat != DefaultFormat,
                               "\n" + (FormatLead + c.outputFormat + ClauseFormatTail));
    var withTone := AppendIf(withFormat, c.tone != DefaultTone, ToneLead + Lower(c.tone) + ClauseToneTail);
    var withExtraction := match c.extraction
      case Some(fields) => withTone + ["\n" + (ExtractionLead + fields)]
      case None => withTone;
    match c.classification
    case Some(categories) => withExtraction + ["\n" + (ClassificationLead + categories)]
    case None => withExtraction
  }

  /** `"\n\n".join(prompt_parts)`. */
  function Compose(goal: string, context: string, c: Controls): (r: string)
    ensures r == Expected(goal, context, c)
  {
    ComposeIsExpected(goal, context, c);
    Join("\n\n", Parts(goal, context, c))
  }

  /** The live preview: a prompt is composed only while the goal is non-empty. */
  function Preview(goal: string, context: string, c: Controls): (r: Option<string>)
    ensures r.Some? <==> goal != ""
    ensures r.Some? ==> r.value == Compose(goal, context, c)
  {
    if goal != "" then Some(Compose(goal, context, c)) else None
  }

  /**
   * The composed prompt written out as one text: clause order persona, task,
   * context, format, tone, extraction, classification; three newlines before
   * context, format, extraction and classification, two before tone; the
   * module clauses follow their checkbox alone, even with an empty text.
   */
  function Expected(goal: string, context: string, c: Controls): string
  {
    When(HasPersonaClause(c), PersonaLead + Lower(c.persona) + ".\n\n")
    + TaskLead + goal
    + When(context != "", "\n\n\n" + (ContextLead + context))
    + When(c.outputFormat != DefaultFormat, "\n\n\n" + (FormatLead + c.outputFormat + ClauseFormatTail))
    + When(c.tone != DefaultTone, "\n\n" + (ToneLead + Lower(c.tone) + ClauseToneTail))
    + When(c.extraction.Some?, "\n\n\n" + (ExtractionLead + c.extraction.GetOr("")))
    + When(c.classification.Some?, "\n\n\n" + (ClassificationLead + c.classification.GetOr("")))
  }

  /** A part with a leading newline, joined after a blank line, is preceded by three newlines. */
  lemma ThreeNewlines(sep: string, part: string, text: string)
    requires sep == "\n\n" && part == "\n" + text
    ensures sep + part == "\n\n\n" + text
  {
  }

  /** The parts joined by a blank line give the closed form. */
  lemma ComposeIsExpected(goal: string, context: string, c: Controls)
    ensures Join("\n\n", Parts(goal, context, c)) == Expected(goal, context, c)
  {
    var sep := "\n\n";
    var task := TaskLead + goal;
    var personaPart := PersonaLead + Lower(c.persona) + ".";
    var withPersona := AppendIf([], HasPersonaClause(c), personaPart);
    var withTask := withPersona + [task];
    var head := When(HasPersonaClause(c), PersonaLead + Lower(c.persona) + ".\n\n") + TaskLead + goal;
    if HasPersonaClause(c) {
      assert withTask == [personaPart, task];
      assert Join(sep, withTask) == personaPart + sep + task;
    } else {
      assert withTask == [task];
    }
    assert Join(sep, withTask) == head;

    var contextText := ContextLead + context;
    var withContext := AppendIf(withTask, context != "", "\n" + contextText);
    JoinAppendIf(sep, withTask, context != "", "\n" + contextText);
    ThreeNewlines(sep, "\n" + contextText, contextText);
    var j1 := head + When(context != "", "\n\n\n" + contextText);
    assert Join(sep, withContext) == j1;

    var formatText := FormatLead + c.outputFormat + ClauseFormatTail;
    var withFormat := AppendIf(withContext, c.outputFormat != DefaultFormat, "\n" + formatText);
    JoinAppendIf(sep, withContext, c.outputFormat != DefaultFormat, "\n" + formatText);
    ThreeNewlines(sep, "\n" + formatText, formatText);
    var j2 := j1 + When(c.outputFormat != DefaultFormat, "\n\n\n" + formatText);
    assert Join(sep, withFormat) == j2;

    var toneText := ToneLead + Lower(c.tone) + ClauseToneTail;
    var withTone := AppendIf(withFormat, c.tone != DefaultTone, toneText);
    JoinAppendIf(sep, withFormat, c.tone != DefaultTone, toneText);
    var j3 := j2 + When(c.tone != DefaultTone, "\n\n" + toneText);
    assert Join(sep, withTone) == j3;

    var extractionText := ExtractionLead + c.extraction.GetOr("");
    var withExtraction := AppendIf(withTone, c.extraction.Some?, "\n" + extractionText);
    JoinAppendIf(sep, withTone, c.extraction.Some?, "\n" + extractionText);
    ThreeNewlines(sep, "\n" + extractionText, extractionText);
    var j4 := j3 + When(c.extraction.Some?, "\n\n\n" + extractionText);
    assert Join(sep, withExtraction) == j4;

    var classificationText := ClassificationLead + c.classification.GetOr("");
    var withClassification := AppendIf(withExtraction, c.classification.Some?, "\n" + classificationText);
    JoinAppendIf(sep, withExtraction, c.classification.Some?, "\n" + classificationText);
    ThreeNewlines(sep, "\n" + classificationText, classificationText);
    var j5 := j4 + When(c.classification.Some?, "\n\n\n" + classificationText);
    assert Join(sep, withClassification) == j5;

    assert Parts(goal, context, c) == withClassification;
    assert Expected(goal, context, c) == j5;
  }

  /** With every control at its default and no context, the prompt is the task clause alone. */
  lemma DefaultsGiveTaskOnly(goal: string)
    ensures Compose(goal, "", Controls(DefaultPersona, DefaultTone, DefaultFormat, None, None))
         == "Your task: " + goal
  {
    var c := Controls(DefaultPersona, DefaultTone, DefaultFormat, None, None);
    ComposeIsExpected(goal, "", c);
    assert Expected(goal, "", c) == "" + TaskLead + goal + "" + "" + "" + "" + "";
  }

  /**
   * The worked example: with the JSON format the prompt is
   * "Your task: Answer FAQ from docs\n\n\nProvide your response in JSON format.".
   */
  lemma JsonFormatExample()
    ensures Compose("Answer FAQ from docs", "", Controls(DefaultPersona, DefaultTone, "JSON", None, None))
         == TaskLead + "Answer FAQ from docs" + "\n\n\n" + FormatLead + "JSON" + ClauseFormatTail
  {
    var c := Controls(DefaultPersona, DefaultTone, "JSON", None, None);
    var task := TaskLead + "Answer FAQ from docs";
    var format := "\n" + (FormatLead + "JSON" + ClauseFormatTail);
    assert Parts("Answer FAQ from docs", "", c) == [task, format];
    assert [task, format][1..] == [format];
    assert Compose("Answer FAQ from docs", "", c) == task + "\n\n" + format;
    ThreeNewlines("\n\n", format, FormatLead + "JSON" + ClauseFormatTail);
  }

  /** A checked Data Extraction module adds its clause even when its field text is empty. */
  lemma EmptyExtractionFieldsStillEmitClause(goal: string, context: string, c: Controls)
    requires c.extraction == Some("") && c.classification == None
    ensures var p := Compose(goal, context, c);
            var tail := "\n\n\n" + ExtractionLead;
            |p| >= |tail| && p[|p| - |tail|..] == tail
  {
    ComposeIsExpected(goal, context, c);
    var tail := "\n\n\n" + ExtractionLead;
    assert "\n\n\n" + (ExtractionLead + c.extraction.GetOr("")) == tail;
    var front := When(HasPersonaClause(c), PersonaLead + Lower(c.persona) + ".\n\n")
      + TaskLead + goal
      + When(context != "", "\n\n\n" + (ContextLead + context))
      + When(c.outputFormat != DefaultFormat, "\n\n\n" + (FormatLead + c.outputFormat + ClauseFormatTail))
      + When(c.tone != DefaultTone, "\n\n" + (ToneLead + Lower(c.tone) + ClauseToneTail));
    assert Compose(goal, context, c) == front + tail + "";
  }

  /** A custom persona left empty produces no persona clause; the prompt then starts with the task. */
  lemma EmptyPersonaStartsWithTask(goal: string, context: string, c: Controls)
    requires c.persona == ""
    ensures var p := Compose(goal, context, c);
            var lead := TaskLead + goal;
            |p| >= |lead| && p[..|lead|] == lead
  {
    ComposeIsExpected(goal, context, c);
  }

  /** A persona clause comes first and is followed by a blank line and the task. */
  lemma PersonaClauseLeads(goal: string, context: string, c: Controls)
    requires HasPersonaClause(c)
    ensures var lead := PersonaLead + Lower(c.persona) + ".\n\n" + TaskLead + goal;
            var p := Compose(goal, context, c);
            |p| >= |lead| && p[..|lead|] == lead
  {
    ComposeIsExpected(goal, context, c);
  }
}
