# Prompt Engineer studio: a verified model of its logic

Prompt Engineer is a Streamlit web app that helps people write prompts for chat bots. It has three versions:

- `st1.py`: the first studio, which composes the prompt itself.
- `automatic_prompt_engineerV1.py`: asks a local model to write the prompt.
- `automatic_prompt_engineer_v2.py`: asks Gemini, and adds deep links, a feedback form and an "improve my existing prompt" option.

This project models the logic under the rendering calls, in Dafny, and proves properties of it.

| module | file | what it models |
|---|---|---|
| `Wrappers` | `wrappers.dfy` | `Option`: Python's `None` and locals that are never assigned |
| `Text` | `text.dfy` | `str.lower()` (ASCII letters only), `sep.join`, `str.strip()` (Python's whitespace set) and "first n characters plus `...`" |
| `Settings` | `settings.dfy` | the settings dictionary: defaults overlaid by the refinement controls and then by the task modules |
| `Composer` | `composer.dfy` | the first studio's live preview prompt: clauses joined by a blank line, with uneven separators |
| `MetaPrompt` | `meta_prompt.dfy` | the meta-prompt sent to the model, in both versions, and the second studio's goal rewrite |
| `Generation` | `generation.dfy` | the request sent to the backend (an oracle that replies or fails), the result status and the update rule for `generated_prompt` |
| `Workspace` | `workspace.dfy` | saved-prompt records, display names, previews and the delete filter |
| `Navigation` | `navigation.dfy` | pages, each studio's router, sidebar lists, page buttons, blog ids and the `?page=` whitelist |
| `Feedback` | `feedback.dfy` | the feedback form's validation order |
| `Session` | `session.dfy` | `st.session_state` as a map, with initialisation that fills missing keys and every transition |

In `Session`, each transition is a function from the old map to the new one. The class `Session.SessionState` performs the same transitions in place. Each of its methods is proved to produce exactly the function's result.

Behaviours of the code the model keeps:

- Delete removes every record with the given id, not at most one. `Workspace.UniqueIdsRemoveAtMostOne` recovers "at most one" when ids are unique.
- The deep-link whitelist leaves out `blog_post`.
- `feedback` is a public page in the second studio.
- An empty custom persona is not replaced by the default:
  - the meta-prompt still gets a PERSONA line with an empty name;
  - the first studio's composer drops the persona clause.

## Model

| member | source | states |
|---|---|---|
| Text.Lower | st1.py:277 | `lower()` keeps the length and lowercases each ASCII capital and nothing else |
| Text.LowerIdempotent | st1.py:277 | lowercasing twice equals lowercasing once |
| Text.JoinSnoc | st1.py:301 | appending one part to a non-empty list adds exactly one separator and the part to the joined text |
| Text.JoinConcat | automatic_prompt_engineerV1.py:464 | joining two non-empty lists puts one separator between their joined texts |
| Text.JoinAppendIf | automatic_prompt_engineerV1.py:444-464 | a conditional `append` adds `sep + part` to the joined text when its condition holds, else nothing |
| Text.TrimStart | automatic_prompt_engineerV1.py:429 | the result is a suffix of the input, everything cut is whitespace, and it does not start with whitespace |
| Text.TrimEnd | automatic_prompt_engineerV1.py:429 | the result is a prefix of the input, everything cut is whitespace, and it does not end with whitespace |
| Text.Strip | automatic_prompt_engineerV1.py:429 | `strip()` returns a contiguous slice with only whitespace around it and no whitespace at either end |
| Text.StripIdempotent | automatic_prompt_engineer_v2.py:502 | stripping a stripped text changes nothing |
| Text.Truncated | st1.py:312 | a text up to the limit is kept; a longer one becomes its first `limit` characters plus `...` |
| Text.TruncatedUnchangedIff | st1.py:312 | truncation leaves a text unchanged exactly when it fits, or already is its own prefix plus `...` |
| Settings.EffectivePersona | automatic_prompt_engineerV1.py:327-334 | "Custom..." is replaced by the free text; any other choice is kept and is never the sentinel |
| Settings.RefinementControls | automatic_prompt_engineerV1.py:322-353 | the returned persona is the effective persona; tone and format are the chosen values, so they stay within their option lists |
| Settings.TaskModuleControls | automatic_prompt_engineerV1.py:355-377 | the flags are the checkboxes; each text is the field's input when its checkbox is on and `""` otherwise |
| Settings.AggregatedSettings | automatic_prompt_engineerV1.py:298-320 | the merged settings carry exactly the control values, and module texts are `""` whenever their checkbox is off |
| Settings.MoreSettings | automatic_prompt_engineerV1.py:298-320 | the aggregated settings take every field from the two control groups; no default survives |
| Settings.OverlaysOverwriteEverything | automatic_prompt_engineerV1.py:300-318 | the two `update` calls overwrite every key, so the starting record never matters |
| Composer.StudioControls | st1.py:232-266 | the persona is the effective persona; tone and format are the select boxes' values; a module's text exists exactly when its checkbox is on |
| Composer.Preview | st1.py:272-303 | a prompt is composed exactly when the goal is non-empty |
| Composer.Parts | st1.py:273-299 | one part per clause present, plus the task; the persona clause, when present, comes first and the task right after it |
| Composer.Compose | st1.py:272-301 | the composed prompt is the closed form `Expected` (see `Composer.ComposeIsExpected`) |
| Composer.ComposeIsExpected | st1.py:273-301 | the parts joined by a blank line equal the closed form: persona, task, context, format, tone, extraction, classification; three newlines before context, format, extraction and classification, two before tone |
| Composer.DefaultsGiveTaskOnly | st1.py:280-301 | with default controls and no context, the prompt is exactly `Your task: {goal}` |
| Composer.JsonFormatExample | st1.py:287-301 | goal "Answer FAQ from docs" with JSON gives the task, three newlines and "Provide your response in JSON format." |
| Composer.EmptyExtractionFieldsStillEmitClause | st1.py:295-301 | a checked extraction module with empty fields still ends the prompt with three newlines and the extraction lead |
| Composer.EmptyPersonaStartsWithTask | st1.py:276-280 | an empty custom persona adds no clause, so the prompt starts with the task |
| Composer.PersonaClauseLeads | st1.py:276-280 | a persona clause comes first, then a blank line and the task |
| MetaPrompt.CreateMetaPrompt | automatic_prompt_engineerV1.py:437-464 | the meta-prompt is the closed form `ExpectedMeta` (see `MetaPrompt.CreateMetaPromptIsExpected`) |
| MetaPrompt.CreateMetaPromptV2 | automatic_prompt_engineer_v2.py:510-537 | returns a text exactly when the tone is not "Professional", and that text is the first version's closed form |
| MetaPrompt.CreateMetaPromptIsExpected | automatic_prompt_engineerV1.py:437-464 | the joined parts are the header, then GOAL, CONTEXT, PERSONA, TONE, OUTPUT FORMAT, DATA EXTRACTION, CLASSIFICATION each after a blank line under its own condition, then the closing |
| MetaPrompt.MetaPromptStartsWithGoal | automatic_prompt_engineerV1.py:441-442 | the meta-prompt starts with the header, a blank line and `GOAL: {goal}` |
| MetaPrompt.MetaPromptEndsWithClosing | automatic_prompt_engineerV1.py:462-464 | the meta-prompt ends with a blank line and the closing instruction |
| MetaPrompt.DisabledModulesIgnored | automatic_prompt_engineerV1.py:456-460 | with both flags off, stale extraction fields and categories do not change the meta-prompt |
| MetaPrompt.ProfessionalToneGivesNothing | automatic_prompt_engineer_v2.py:523-537 | with tone "Professional" the second version returns `None`, whatever the other inputs |
| MetaPrompt.V2AgreesWithV1 | automatic_prompt_engineer_v2.py:510-537 | with any other tone the second version returns the first version's text |
| MetaPrompt.OldUserPrompt | automatic_prompt_engineer_v2.py:335-343 | the old prompt exists exactly when the checkbox is on, and is then the text area's value |
| MetaPrompt.EffectiveGoal | automatic_prompt_engineer_v2.py:320-324 | a non-empty old prompt gives goal, request sentence and old prompt back to back; otherwise the plain goal |
| MetaPrompt.GenerationOfferedIff | automatic_prompt_engineer_v2.py:316-324 | the goal passed on is non-empty exactly when the goal is non-empty or an old prompt is given |
| Generation.Formatted | automatic_prompt_engineer_v2.py:497 | an f-string shows a present text as itself and a missing one as `None` |
| Generation.RequestV1 | automatic_prompt_engineerV1.py:416-427 | the system message is the fixed instruction; the user message is the whole meta-prompt in its closed form, so it starts with the header and the goal |
| Generation.FullPromptV2 | automatic_prompt_engineer_v2.py:493-497 | the text sent is the instruction, a blank line and the rendered meta-prompt |
| Generation.GenerateV1 | automatic_prompt_engineerV1.py:413-435 | the result is generated exactly when the backend replies, and is then the stripped reply |
| Generation.GenerateV2 | automatic_prompt_engineer_v2.py:487-508 | no client gives NotConfigured before anything is built; otherwise generated exactly when the client replies to the full prompt, stripped |
| Generation.StoredPrompt | automatic_prompt_engineerV1.py:429-435 | only a generated prompt replaces the stored one; a failure keeps it |
| Generation.GeneratedPromptIsStripped | automatic_prompt_engineerV1.py:429-430 | a generated prompt has no whitespace at either end and is its own strip |
| Generation.FullPromptCarriesMetaPrompt | automatic_prompt_engineer_v2.py:493-537 | with a non-default tone the second studio sends the instruction and the full meta-prompt |
| Generation.ProfessionalToneSendsNone | automatic_prompt_engineer_v2.py:497-537 | with tone "Professional" the text sent is the instruction followed by `None`, the same for every goal and context |
| Generation.IntendedFullPromptV2 | automatic_prompt_engineer_v2.py:493-497 | the intended request is the instruction, a blank line and the full closed-form meta-prompt, whatever the tone; so it starts with the header and the goal |
| Generation.FullPromptAgreesIff | automatic_prompt_engineer_v2.py:493-537 | the as-written and the intended request agree exactly when the tone is not "Professional" |
| Workspace.DisplayName | st1.py:312 | the name is the goal when it has at most 50 characters, else its first 50 characters plus `...` |
| Workspace.NewRecord | st1.py:310-319 | the record copies id, time, prompt, goal, persona, tone and format, and carries the truncated name |
| Workspace.PreviewText | automatic_prompt_engineerV1.py:517 | the preview is the prompt when it has at most 200 characters, else its first 200 plus `...` |
| Workspace.RemoveById | st1.py:373 | no kept record has the id, and a record is kept exactly when it was present with a different id |
| Workspace.RemoveByIdAppend | automatic_prompt_engineerV1.py:513 | the filter distributes over concatenation, so the kept records keep their order |
| Workspace.RemoveAbsentIsIdentity | st1.py:373 | deleting an id that no record has leaves the list unchanged |
| Workspace.RemoveShrinksIff | automatic_prompt_engineer_v2.py:660 | the list shrinks exactly when some record has the id |
| Workspace.RemoveAllKept | automatic_prompt_engineer_v2.py:660 | a filter that keeps as many records as it was given has kept the list unchanged |
| Workspace.DeleteUndoesSave | st1.py:320 | appending a record with a fresh id and deleting that id gives back the old list |
| Workspace.UniqueIdsRemoveAtMostOne | st1.py:311 | with unique ids, a delete removes at most one record |
| Workspace.RemoveKeepsUniqueIds | st1.py:372-374 | the delete filter keeps unique ids unique |
| Navigation.Render | automatic_prompt_engineerV1.py:860-875 | a page is rendered exactly when routed; otherwise the later studios report it unknown and the first shows nothing |
| Navigation.Routes | automatic_prompt_engineer_v2.py:801-814 | every studio routes home, login, studio, workspace and templates; blog, blog_post and privacy exactly in the later studios; terms and feedback only in the second (st1.py:465-474, automatic_prompt_engineerV1.py:860-870) |
| Navigation.PublicNav | automatic_prompt_engineer_v2.py:126-139 | the signed-out sidebar offers home, login and blog and never a private page; in the later studios every entry is routed (st1.py:423-436, automatic_prompt_engineerV1.py:111-123) |
| Navigation.PrivateNav | automatic_prompt_engineer_v2.py:141-156 | the signed-in sidebar offers studio, workspace and templates and neither home nor login; in the later studios every entry is routed (st1.py:438-449, automatic_prompt_engineerV1.py:125-139) |
| Navigation.NavTargetsRouted | automatic_prompt_engineer_v2.py:126-161 | every sidebar entry of the later studios leads to a routed page |
| Navigation.St1BlogButtonShowsNothing | st1.py:432-474 | the first studio's Blog entry leads to a page its router does not handle, so nothing is shown |
| Navigation.St1OtherTargetsRouted | st1.py:423-474 | every other page button of the first studio leads to a routed page |
| Navigation.DeepLinkTarget | automatic_prompt_engineer_v2.py:784-790 | a page is selected exactly when the query has a whitelisted `page`, and it is that page |
| Navigation.DeepLinkPagesAreRoutesButBlogPost | automatic_prompt_engineer_v2.py:789-814 | the whitelist is exactly the routed pages except `blog_post` |
| Feedback.SubmitFeedback | automatic_prompt_engineer_v2.py:601-613 | any empty field is an error; else no `@` is an error; else the sender's answer decides between sent and failed (all four as iff) |
| Feedback.RejectionIgnoresSender | automatic_prompt_engineer_v2.py:601-608 | a rejected form gives the same answer whatever the sender would do |
| Feedback.MissingFieldsReportedFirst | automatic_prompt_engineer_v2.py:602-605 | an empty email is reported as missing fields, not as an invalid address |
| Session.FillMissing | automatic_prompt_engineerV1.py:71-82 | the keys afterwards are the old keys plus the default keys, and every existing value is kept |
| Session.FillMissingUsesDefault | automatic_prompt_engineerV1.py:80-82 | a missing key receives its default value |
| Session.FillMissingComplete | automatic_prompt_engineerV1.py:80-82 | when all default keys are present, nothing changes |
| Session.FillMissingIdempotent | automatic_prompt_engineerV1.py:71-82 | initialising twice equals initialising once |
| Session.DefaultsShape | automatic_prompt_engineer_v2.py:88-93 | the defaults name `logged_in`, `saved_prompts`, `current_page` and, in the later studios, `generated_prompt`, each once |
| Session.InitFillsDefaults | st1.py:26-31 | init keeps present values and gives missing keys `False`, `[]`, `home` and `""` |
| Session.InitMakesReady | automatic_prompt_engineer_v2.py:86-97 | after init every key the handlers read is present with the right kind of value |
| Session.SignIn | st1.py:188-196 | both fields non-empty: signed in, on the studio; otherwise no change; no other key is touched |
| Session.SignOut | st1.py:451-454 | signed out and on home; every other key, saved prompts included, is unchanged |
| Session.Press | automatic_prompt_engineerV1.py:120-123 | a page button sets the page to its target and changes nothing else |
| Session.ReadMore | automatic_prompt_engineerV1.py:753-756 | "Read More" records the post id, opens `blog_post`, and changes nothing else |
| Session.BlogPostView | automatic_prompt_engineerV1.py:761-773 | no selection redirects; a listed id shows that post; any other value is "not found" |
| Session.OpenBlogPost | automatic_prompt_engineerV1.py:763-766 | with no selection the page falls back to `blog`; otherwise the state is unchanged |
| Session.Save | st1.py:309-320 | the saved list gains the record at its end; nothing else changes |
| Session.Delete | st1.py:372-374 | the saved list is filtered by id; nothing else changes |
| Session.AfterGeneration | automatic_prompt_engineer_v2.py:500-508 | only a generated prompt is stored in `generated_prompt`; otherwise the state is unchanged |
| Session.FollowDeepLink | automatic_prompt_engineer_v2.py:784-790 | a whitelisted `page` becomes the current page; anything else changes nothing |
| Session.DeleteUndoesSaveInSession | st1.py:309-374 | saving a record with a fresh id and then deleting it restores the whole session |
| Session.DeleteAbsentChangesNothing | automatic_prompt_engineerV1.py:512-513 | deleting an id no saved record has leaves the session unchanged |
| Session.SignOutKeepsWork | automatic_prompt_engineer_v2.py:158-161 | sign-out keeps the saved prompts and the generated prompt and leaves the user signed out |
| Session.FailedSignInKeepsPage | automatic_prompt_engineer_v2.py:288-296 | an empty email or password leaves the session unchanged |
| Session.ReadMoreThenOpen | automatic_prompt_engineerV1.py:753-773 | after "Read More" on a listed post, the post page shows it and changes nothing |
| Session.UnknownPostIsReported | automatic_prompt_engineerV1.py:768-773 | an unlisted id is reported as not found and the page stays |
| Session.PressKeepsGated | automatic_prompt_engineerV1.py:111-144 | a page button that is on screen never shows a signed-out visitor the studio, workspace or templates |
| Session.OtherTransitionsKeepGated | automatic_prompt_engineerV1.py:141-144 | sign-in, sign-out, "Read More" and the blog fallback keep that gate closed |
| Session.DeepLinkBypassesGate | automatic_prompt_engineer_v2.py:784-790 | `?page=studio` opens the studio to a signed-out visitor |
| Session.InitStartsGated | automatic_prompt_engineer_v2.py:86-97 | a session with no page yet is ready and gated after init, since it starts on `home` |
| Session.StickyDeepLinkOverridesPress | automatic_prompt_engineer_v2.py:137-139 | with a whitelisted `page` in the query, the next run undoes any page button: the result is as if the button was never pressed |
| Session.StickyDeepLinkOverridesSignIn | automatic_prompt_engineer_v2.py:290-294 | with a whitelisted `page` other than `studio` in the query, the next run after signing in shows that page, not the studio |
| Session.ConsumeDeepLink | automatic_prompt_engineer_v2.py:784-790 | follows the deep link as the code does and returns the query without `page`, every other parameter kept |
| Session.ConsumedDeepLinkLetsPressWork | automatic_prompt_engineer_v2.py:137-139 | once the query is consumed, the next run keeps the page a button chose |
| Session.ConsumedDeepLinkLetsSignInWork | automatic_prompt_engineer_v2.py:290-294 | once the query is consumed, the next run after signing in shows the studio |
| Session.SaveFreshKeepsUniqueIds | st1.py:309-320 | saving a record with a fresh id keeps the saved ids unique |
| Session.DeleteKeepsUniqueIds | automatic_prompt_engineer_v2.py:659-661 | deleting keeps the saved ids unique |
| Session.AfterGenerationFollowsStoredPrompt | automatic_prompt_engineer_v2.py:500-508 | with a stored prompt present, the session's new `generated_prompt` is the update rule's result |
| Session.SessionState.InitSessionState | automatic_prompt_engineerV1.py:71-82 | the loop over the defaults leaves exactly `FillMissing(old state, defaults)` |
| Session.SessionState.SubmitLogin | automatic_prompt_engineerV1.py:256-264 | the session becomes `SignIn(old state, email, password)` |
| Session.SessionState.PressSignOut | automatic_prompt_engineerV1.py:141-144 | the session becomes `SignOut(old state)` |
| Session.SessionState.PressButton | automatic_prompt_engineerV1.py:120-123 | the session becomes `Press(old state, button)` |
| Session.SessionState.PressReadMore | automatic_prompt_engineer_v2.py:732-735 | the session becomes `ReadMore(old state, id)` |
| Session.SessionState.RenderBlogPost | automatic_prompt_engineer_v2.py:740-752 | returns `BlogPostView(old state)`; the session becomes `OpenBlogPost(old state)` |
| Session.SessionState.SavePrompt | st1.py:309-320 | the session becomes `Save(old state, record)` |
| Session.SessionState.DeletePrompt | automatic_prompt_engineer_v2.py:659-661 | the session becomes `Delete(old state, id)` |
| Session.SessionState.RecordGeneration | automatic_prompt_engineerV1.py:429-435 | the session becomes `AfterGeneration(old state, status)` |
| Session.SessionState.HandleQueryParams | automatic_prompt_engineer_v2.py:784-790 | the session becomes `FollowDeepLink(old state, query)` |

## Left out

- All Streamlit rendering is left out: markdown and HTML, columns, expanders, spinners, `st.rerun`, `time.sleep` and CSS loading. The model keeps only the state changes and the values they depend on.
- The model clients are left out: the OpenAI-compatible Ollama client and the Gemini configuration. The backend is a function argument that returns a reply or a failure. The temperature and the model name are not modelled.
- Delivering feedback mail over SMTP is left out. The sender is a function argument that returns success or failure.
- `uuid.uuid4()` and `datetime.now()` are left out. The id and the creation time are parameters of `Workspace.NewRecord`.
- The template catalogue, the blog post bodies and `blog_data.py` are left out. Only the blog post ids are kept, for the lookup. "Use Template" only switches to the studio and fills nothing in.
- The second studio's Domain and LLM select boxes are left out, because their values are discarded. So is the "Improve prompt?" button, which only writes a line of text.
- `_save_prompt` is left out. The later studios call it but never define it. The store uses the first studio's record construction (`Workspace.NewRecord`, `Session.Save`).
- The first studio's "Test Prompt" button is left out. It only displays a canned sample response.
- Which page-local buttons are on screen is modelled (`Session.OnScreen`). Button labels, keys and layout are not.
- Text.Lower: lowercases only the ASCII capitals. Python's `str.lower()` also handles the rest of Unicode.
- Session.SessionState.InitSessionState: the first studio initialises its three keys with three separate `if` statements rather than a loop over a dictionary. The model uses the same loop with the first studio's three defaults, which gives the same result.
- Session.SessionState.SavePrompt: requires the session to be ready (initialised). Every script run initialises the session before any handler runs.
- Session.SessionState.DeletePrompt: requires the session to be ready (initialised), for the same reason.
- Composer.JsonFormatExample: the expected text is written with the clause constants ("Your task: ", "Provide your response in ", " format.") rather than as one string literal.
- The concurrency of the real app is left out: two generation requests in flight at once. The model treats each handler as one atomic step.
- A script run is not modelled as a whole. The order of one run (query handling, then the sidebar, then the page) is captured only where it matters: the `Session.StickyDeepLink…` lemmas compose a handler with the query handling of the run after it.
- Session.SessionState.HandleQueryParams: models the code as written, which never removes `page` from the query; the URL query itself is a parameter, not part of the session.

## Findings

| source | as written | input that shows it | evidently intended | confidence | as-written member | corrected member |
|---|---|---|---|---|---|---|
| automatic_prompt_engineer_v2.py:523-537 | the output-format, extraction, classification and closing steps, and the `return`, are indented under `if settings['tone'] != "Professional":`, so with the default tone `_create_meta_prompt` returns `None` and the backend receives the system instruction followed by the word `None` | tone "Professional" (the default), any goal: the request is the instruction + "\n\nNone" | the same meta-prompt as the first version's, whatever the tone | high (not executed) | Generation.FullPromptV2 | Generation.IntendedFullPromptV2 |
| automatic_prompt_engineer_v2.py:784-790 | `_handle_query_params` runs at the start of every run and never removes `page` from `st.query_params`, while the sidebar buttons and the sign-in form call `st.rerun()` right after setting `current_page` (lines 137-139, 290-294) | open `?page=login` and sign in: the run after it shows the login form again instead of the studio; with `?page=home`, every sidebar button and "Start Building" lead back to `home` | follow the link once, then drop `page` from the query so later buttons take effect | medium (not executed) | Session.StickyDeepLinkOverridesPress | Session.ConsumeDeepLink |
