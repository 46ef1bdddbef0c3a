/**
 * The settings aggregator: a defaults record overlaid first by the refinement
 * controls (persona, tone, output format) and then by the task modules (data
 * extraction, classification), as `settings.update(...)` does twice.
 */
module Settings {

  const CustomPersona := "Custom..."
  const DefaultPersona := "Helpful assistant"
  const DefaultTone := "Professional"
  const DefaultFormat := "Plain Text"

  /** The entries of each select box, in the order they are offered. */
  const PersonaOptions: seq<string> :=
    [DefaultPersona, "Senior software engineer", "Customer support agent",
     "Technical writer", "Data analyst", CustomPersona]
  const ToneOptions: seq<string> := [DefaultTone, "Friendly", "Technical", "Casual", "Formal"]
  const FormatOptions: seq<string> := [DefaultFormat, "JSON", "Markdown", "Code Block", "XML", "CSV"]

  /** The `settings` dictionary handed to the prompt builders. */
  datatype Settings = Settings(
    persona: string,
    tone: string,
    outputFormat: string,
    dataExtraction: bool,
    classification: bool,
    extractionFields: string,
    categories: string)

  function DefaultSettings(): Settings {
    Settings(DefaultPersona, DefaultTone, DefaultFormat, false, false, "", "")
  }

  /** What the refinement controls return. */
  datatype Refinement = Refinement(persona: string, tone: string, outputFormat: string)

  /** What the task modules return. */
  datatype TaskModules = TaskModules(
    dataExtraction: bool, classification: bool, extractionFields: string, categories: string)

  /** The persona select box, with "Custom..." replaced by the free-text field. */
  function EffectivePersona(choice: string, customText: string): (p: string)
    requires choice in PersonaOptions
    ensures choice == CustomPersona ==> p == customText
    ensures choice != CustomPersona ==> p == choice && p != CustomPersona
  {
    if choice == CustomPersona then customText else choice
  }

  function RefinementControls(personaChoice: string, customText: string, tone: string, outputFormat: string): (r: Refinement)
    requires personaChoice in PersonaOptions && tone in ToneOptions && outputFormat in FormatOptions
    ensures r.persona == EffectivePersona(personaChoice, customText)
    ensures r.tone == tone && r.outputFormat == outputFormat
    ensures r.tone in ToneOptions && r.outputFormat in FormatOptions
  {
    Refinement(EffectivePersona(personaChoice, customText), tone, outputFormat)
  }

  /** A text field inside a module is read only when its checkbox is on; otherwise it stays "". */
  function TaskModuleControls(extractionOn: bool, fieldsInput: string, classificationOn: bool, categoriesInput: string): (t: TaskModules)
    ensures t.dataExtraction == extractionOn && t.classification == classificationOn
    ensures t.extractionFields == (if extractionOn then fieldsInput else "")
    ensures t.categories == (if classificationOn then categoriesInput else "")
  {
    TaskModules(
      extractionOn, classificationOn,
      if extractionOn then fieldsInput else "",
      if classificationOn then categoriesInput else "")
  }

  /** `settings.update(refinement)`. */
  function WithRefinement(s: Settings, r: Refinement): Settings {
    s.(persona := r.persona, tone := r.tone, outputFormat := r.outputFormat)
  }

  /** `settings.update(task_modules)`. */
  function WithTaskModules(s: Settings, t: TaskModules): Settings {
    s.(dataExtraction := t.dataExtraction, classification := t.classification,
       extractionFields := t.extractionFields, categories := t.categories)
  }

  /** The defaults overlaid by both control groups. */
  function MoreSettings(r: Refinement, t: TaskModules): (s: Settings)
    ensures s == Settings(r.persona, r.tone, r.outputFormat,
                          t.dataExtraction, t.classification, t.extractionFields, t.categories)
  {
    WithTaskModules(WithRefinement(DefaultSettings(), r), t)
  }

  /**
   * The aggregated settings carry exactly the control values: the persona is
   * the custom text precisely when "Custom..." was chosen, and the module
   * texts are "" whenever their checkbox is off. Because both overlays write
   * every key, no default value survives.
   */
  lemma AggregatedSettings(
    personaChoice: string, customText: string, tone: string, outputFormat: string,
    extractionOn: bool, fieldsInput: string, classificationOn: bool, categoriesInput: string)
    requires personaChoice in PersonaOptions && tone in ToneOptions && outputFormat in FormatOptions
    ensures var s := MoreSettings(
              RefinementControls(personaChoice, customText, tone, outputFormat),
              TaskModuleControls(extractionOn, fieldsInput, classificationOn, categoriesInput));
            && (s.persona == customText <== personaChoice == CustomPersona)
            && (personaChoice != CustomPersona ==> s.persona == personaChoice && s.persona in PersonaOptions)
            && s.tone == tone && s.outputFormat == outputFormat
            && s.dataExtraction == extractionOn && s.classification == classificationOn
            && (!extractionOn ==> s.extractionFields == "")
            && (!classificationOn ==> s.categories == "")
            && (extractionOn ==> s.extractionFields == fieldsInput)
            && (classificationOn ==> s.categories == categoriesInput)
  {
  }

  /** The starting record is irrelevant: both overlays overwrite every key. */
  lemma OverlaysOverwriteEverything(base: Settings, r: Refinement, t: TaskModules)
    ensures WithTaskModules(WithRefinement(base, r), t) == MoreSettings(r, t)
  {
  }
}
