/**
 * Asking the generative backend for a prompt. The backend is an oracle that
 * either replies with a text or fails; the first studio always has one, the
 * second may have none configured. Only the outcome and the text sent to the
 * backend are modelled.
 */
module Generation {
  import opened Wrappers
  import opened Text
  import opened Settings
  import opened MetaPrompt

  const SystemInstruction :=
    "You are an expert prompt engineer. Your job is to create high-quality, effective prompts based on user requirements. Always return ONLY the final prompt without any explanations or metadata."

  /** What a call to the backend produces: a reply, or the exception it raised. */
  datatype Outcome = Reply(text: string) | Failure(cause: string)

  /** The first studio's chat messages: a system message and a user message. */
  datatype ChatRequest = ChatRequest(system: string, user: string)

  /** What a press of "Generate Prompt with AI" ends in. */
  datatype Status = NotConfigured | Generated(prompt: string) | Failed(cause: string)

  /** Python's f-string rendering of an optional text: a missing value renders as "None". */
  function Formatted(o: Option<string>): (r: string)
    ensures o.Some? ==> r == o.value
    ensures o.None? ==> r == "None"
  {
    match o
    case Some(text) => text
    case None => "None"
  }

  /** The first studio's request: the fixed system instruction and the meta-prompt as the user message. */
  function RequestV1(goal: string, context: string, s: Settings): (r: ChatRequest)
    ensures r.system == SystemInstruction
    ensures r.user == ExpectedMeta(goal, context, s)
    ensures var lead := Header + "\n\n" + GoalLabel + goal;
            |r.user| >= |lead| && r.user[..|lead|] == lead
  {
    CreateMetaPromptIsExpected(goal, context, s);
    MetaPromptStartsWithGoal(goal, context, s);
    ChatRequest(SystemInstruction, CreateMetaPrompt(goal, context, s))
  }

  /** `f"{system_instruction}\n\n{meta_prompt}"` with the second studio's meta-prompt. */
  function FullPromptV2(goal: string, context: string, s: Settings): (r: string)
    ensures |r| >= |SystemInstruction| + 2
    ensures r[..|SystemInstruction| + 2] == SystemInstruction + "\n\n"
    ensures r[|SystemInstruction| + 2..] == Formatted(CreateMetaPromptV2(goal, context, s))
  {
    SystemInstruction + "\n\n" + Formatted(CreateMetaPromptV2(goal, context, s))
  }

  /** The first studio's `_generate_prompt_with_ai`: the reply is stripped, an exception reported. */
  function GenerateV1(backend: ChatRequest -> Outcome, goal: string, context: string, s: Settings): (st: Status)
    ensures st != NotConfigured
    ensures st.Generated? <==> backend(RequestV1(goal, context, s)).Reply?
    ensures st.Generated? ==> st.prompt == Strip(backend(RequestV1(goal, context, s)).text)
  {
    match backend(RequestV1(goal, context, s))
    case Reply(text) => Generated(Strip(text))
    case Failure(cause) => Failed(cause)
  }

  /**
   * The second studio's `_generate_prompt_with_ai`: without a client it stops
   * before building anything; otherwise it sends the full prompt text.
   */
  function GenerateV2(client: Option<string -> Outcome>, goal: string, context: string, s: Settings): (st: Status)
    ensures st == NotConfigured <==> client.None?
    ensures client.Some? ==> (st.Generated? <==> client.value(FullPromptV2(goal, context, s)).Reply?)
    ensures st.Generated? ==> client.Some? && st.prompt == Strip(client.value(FullPromptV2(goal, context, s)).text)
  {
    match client
    case None => NotConfigured
    case Some(backend) =>
      match backend(FullPromptV2(goal, context, s))
      case Reply(text) => Generated(Strip(text))
      case Failure(cause) => Failed(cause)
  }

  /** The update rule for `generated_prompt`: only a generated prompt replaces the stored one. */
  function StoredPrompt(current: string, st: Status): (r: string)
    ensures st.Generated? ==> r == st.prompt
    ensures !st.Generated? ==> r == current
  {
    if st.Generated? then st.prompt else current
  }

  /** A generated prompt never starts or ends with whitespace, and stripping it again changes nothing. */
  lemma GeneratedPromptIsStripped(backend: ChatRequest -> Outcome, goal: string, context: string, s: Settings)
    ensures var st := GenerateV1(backend, goal, context, s);
            st.Generated? ==> Strip(st.prompt) == st.prompt
                              && (st.prompt == [] || (!IsSpace(st.prompt[0]) && !IsSpace(st.prompt[|st.prompt| - 1])))
  {
    var st := GenerateV1(backend, goal, context, s);
    if st.Generated? {
      StripIdempotent(backend(RequestV1(goal, context, s)).text);
    }
  }

  /** With any tone but the default, the second studio sends the system instruction and the full meta-prompt. */
  lemma FullPromptCarriesMetaPrompt(goal: string, context: string, s: Settings)
    requires s.tone != DefaultTone
    ensures FullPromptV2(goal, context, s) == SystemInstruction + "\n\n" + CreateMetaPrompt(goal, context, s)
  {
    V2AgreesWithV1(goal, context, s);
  }

  /**
   * With the default tone the second studio sends the system instruction
   * followed by the word "None": goal, context and every setting are lost.
   */
  lemma ProfessionalToneSendsNone(goal: string, context: string, s: Settings, goal2: string, context2: string)
    requires s.tone == DefaultTone
    ensures FullPromptV2(goal, context, s) == SystemInstruction + "\n\nNone"
    ensures FullPromptV2(goal, context, s) == FullPromptV2(goal2, context2, s)
  {
    ProfessionalToneGivesNothing(goal, context, s);
    ProfessionalToneGivesNothing(goal2, context2, s);
  }

  /** The intended second-studio request: the full meta-prompt whatever the tone. */
  function IntendedFullPromptV2(goal: string, context: string, s: Settings): (r: string)
    ensures r == SystemInstruction + "\n\n" + ExpectedMeta(goal, context, s)
    ensures var pre := SystemInstruction + "\n\n";
            var lead := Header + "\n\n" + GoalLabel + goal;
            && |r| >= |pre| + |lead|
            && r[..|pre|] == pre
            && r[|pre|..|pre| + |lead|] == lead
  {
    var meta := CreateMetaPrompt(goal, context, s);
    CreateMetaPromptIsExpected(goal, context, s);
    MetaPromptStartsWithGoal(goal, context, s);
    PrefixesOfConcat(SystemInstruction + "\n\n", meta, Header + "\n\n" + GoalLabel + goal);
    SystemInstruction + "\n\n" + meta
  }

  /** A text put in front of another keeps both its own place and the other's prefix. */
  lemma PrefixesOfConcat(pre: string, text: string, lead: string)
    requires |lead| <= |text| && text[..|lead|] == lead
    ensures |pre + text| >= |pre| + |lead|
    ensures (pre + text)[..|pre|] == pre
    ensures (pre + text)[|pre|..|pre| + |lead|] == lead
  {
    assert (pre + text)[|pre|..|pre| + |lead|] == text[..|lead|];
  }

  /** The as-written and the intended request agree exactly when the tone is not the default one. */
  lemma FullPromptAgreesIff(goal: string, context: string, s: Settings)
    ensures FullPromptV2(goal, context, s) == IntendedFullPromptV2(goal, context, s) <==> s.tone != DefaultTone
  {
    if s.tone == DefaultTone {
      ProfessionalToneSendsNone(goal, context, s, goal, context);
      var n := |SystemInstruction| + 2;
      assert FullPromptV2(goal, context, s)[n..] == "None";
      assert IntendedFullPromptV2(goal, context, s)[n] == Header[0];
    } else {
      FullPromptCarriesMetaPrompt(goal, context, s);
    }
  }
}
