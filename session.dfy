/**
 * `st.session_state`: a dictionary from key names to values that survives
 * reruns. Every transition of the studios is a function from the old
 * dictionary to the new one; the `SessionState` class performs them in place.
 * Every script run starts with the initialisation, so the handlers may rely
 * on the keys it guarantees.
 */
module Session {
  import opened Workspace
  import opened Navigation
  import opened Generation

  /** The kinds of value the studios keep in the session. */
  datatype Value = Flag(flag: bool) | Str(text: string) | Records(records: seq<SavedPrompt>)

  const LoggedIn := "logged_in"
  const SavedPrompts := "saved_prompts"
  const CurrentPage := "current_page"
  const GeneratedPrompt := "generated_prompt"
  const CurrentBlogPost := "current_blog_post"

  type State = map<string, Value>

  // ---------------------------------------------------------------------------
  // Initialisation: fill in only the keys that are missing
  // ---------------------------------------------------------------------------

  /** Each studio's defaults, in the order they are assigned. */
  function Defaults(app: App): seq<(string, Value)> {
    var common := [(LoggedIn, Flag(false)), (SavedPrompts, Records([])), (CurrentPage, Str(Home))];
    if app == St1 then common else common + [(GeneratedPrompt, Str(""))]
  }

  function KeysOf<K, V>(defaults: seq<(K, V)>): set<K> {
    set i | 0 <= i < |defaults| :: defaults[i].0
  }

  /** `for key, value in defaults: if key not in state: state[key] = value`. */
  function FillMissing<K, V>(m: map<K, V>, defaults: seq<(K, V)>): (r: map<K, V>)
    ensures r.Keys == m.Keys + KeysOf(defaults)
    ensures forall k :: k in m ==> r[k] == m[k]
  {
    if defaults == [] then m
    else
      var front := defaults[..|defaults| - 1];
      var (key, value) := defaults[|defaults| - 1];
      var filled := FillMissing(m, front);
      assert KeysOf(defaults) == KeysOf(front) + {key} by {
        assert defaults == front + [(key, value)];
        forall k | k in KeysOf(defaults) ensures k in KeysOf(front) + {key} {
          var i :| 0 <= i < |defaults| && defaults[i].0 == k;
          if i < |defaults| - 1 { assert front[i] == defaults[i]; }
        }
      }
      if key in filled then filled else filled[key := value]
  }

  /** A missing key receives its default value (the defaults name each key once). */
  lemma {:induction false} FillMissingUsesDefault<K, V>(m: map<K, V>, defaults: seq<(K, V)>, i: nat)
    requires forall a, b :: 0 <= a < b < |defaults| ==> defaults[a].0 != defaults[b].0
    requires i < |defaults| && defaults[i].0 !in m
    ensures FillMissing(m, defaults)[defaults[i].0] == defaults[i].1
  {
    var front := defaults[..|defaults| - 1];
    if i < |defaults| - 1 {
      assert front[i] == defaults[i];
      FillMissingUsesDefault(m, front, i);
    } else {
      forall j | 0 <= j < |front|
        ensures front[j].0 != defaults[i].0
      {
        assert front[j] == defaults[j];
      }
    }
  }

  /** When every default key is present already, nothing changes. */
  lemma {:induction false} FillMissingComplete<K, V>(m: map<K, V>, defaults: seq<(K, V)>)
    requires KeysOf(defaults) <= m.Keys
    ensures FillMissing(m, defaults) == m
  {
    var r := FillMissing(m, defaults);
    assert r.Keys == m.Keys;
    assert forall k :: k in r ==> r[k] == m[k];
  }

  /** Initialising twice is the same as initialising once. */
  lemma FillMissingIdempotent<K, V>(m: map<K, V>, defaults: seq<(K, V)>)
    ensures FillMissing(FillMissing(m, defaults), defaults) == FillMissing(m, defaults)
  {
    FillMissingComplete(FillMissing(m, defaults), defaults);
  }

  // ---------------------------------------------------------------------------
  // The keys every handler relies on
  // ---------------------------------------------------------------------------

  /** Every key the studios use holds the kind of value they put there. */
  predicate Typed(m: State) {
    && (LoggedIn in m ==> m[LoggedIn].Flag?)
    && (SavedPrompts in m ==> m[SavedPrompts].Records?)
    && (CurrentPage in m ==> m[CurrentPage].Str?)
    && (GeneratedPrompt in m ==> m[GeneratedPrompt].Str?)
    && (CurrentBlogPost in m ==> m[CurrentBlogPost].Str?)
  }

  /** The state after initialisation: the three shared keys are present and typed. */
  predicate Ready(m: State) {
    Typed(m) && LoggedIn in m && SavedPrompts in m && CurrentPage in m
  }

  /** As `Ready`, plus `generated_prompt` for the studios that initialise it. */
  predicate ReadyFor(app: App, m: State) {
    Ready(m) && (app != St1 ==> GeneratedPrompt in m)
  }

  function IsLoggedIn(m: State): bool requires Ready(m) { m[LoggedIn].flag }
  function Page(m: State): string requires Ready(m) { m[CurrentPage].text }
  function Saved(m: State): seq<SavedPrompt> requires Ready(m) { m[SavedPrompts].records }

  /** `m` and `r` agree on every key other than those in `changed`. */
  ghost predicate AgreeExcept(m: State, r: State, changed: set<string>) {
    forall k :: k !in changed ==> (k in m <==> k in r) && (k in m ==> m[k] == r[k])
  }

  /** The defaults name each key once: the three shared keys, then `generated_prompt` in the later studios. */
  lemma DefaultsShape(app: App)
    ensures var d := Defaults(app);
            && |d| == (if app == St1 then 3 else 4)
            && d[0] == (LoggedIn, Flag(false))
            && d[1] == (SavedPrompts, Records([]))
            && d[2] == (CurrentPage, Str(Home))
            && (app != St1 ==> d[3] == (GeneratedPrompt, Str("")))
            && (forall a, b :: 0 <= a < b < |d| ==> d[a].0 != d[b].0)
            && KeysOf(d) == {LoggedIn, SavedPrompts, CurrentPage} + (if app == St1 then {} else {GeneratedPrompt})
  {
    var d := Defaults(app);
    assert d[0].0 == LoggedIn && d[1].0 == SavedPrompts && d[2].0 == CurrentPage;
    assert LoggedIn != SavedPrompts && LoggedIn != CurrentPage && SavedPrompts != CurrentPage;
    assert GeneratedPrompt != LoggedIn && GeneratedPrompt != SavedPrompts && GeneratedPrompt != CurrentPage;
    if app == St1 {
      assert KeysOf(d) == {d[0].0, d[1].0, d[2].0};
    } else {
      assert KeysOf(d) == {d[0].0, d[1].0, d[2].0, d[3].0};
    }
  }

  /**
   * Initialisation keeps every value already present and gives each missing
   * key its default.
   */
  lemma InitFillsDefaults(app: App, m: State)
    ensures var r := FillMissing(m, Defaults(app));
            && (forall k :: k in m ==> r[k] == m[k])
            && (LoggedIn !in m ==> LoggedIn in r && r[LoggedIn] == Flag(false))
            && (SavedPrompts !in m ==> SavedPrompts in r && r[SavedPrompts] == Records([]))
            && (CurrentPage !in m ==> CurrentPage in r && r[CurrentPage] == Str(Home))
            && (app != St1 && GeneratedPrompt !in m ==> GeneratedPrompt in r && r[GeneratedPrompt] == Str(""))
  {
    var d := Defaults(app);
    DefaultsShape(app);
    if LoggedIn !in m { FillMissingUsesDefault(m, d, 0); }
    if SavedPrompts !in m { FillMissingUsesDefault(m, d, 1); }
    if CurrentPage !in m { FillMissingUsesDefault(m, d, 2); }
    if app != St1 && GeneratedPrompt !in m { FillMissingUsesDefault(m, d, 3); }
  }

  /** Initialising a typed session leaves it ready for the studio. */
  lemma InitMakesReady(app: App, m: State)
    requires Typed(m)
    ensures ReadyFor(app, FillMissing(m, Defaults(app)))
  {
    var r := FillMissing(m, Defaults(app));
    DefaultsShape(app);
    InitFillsDefaults(app, m);
    assert CurrentBlogPost !in KeysOf(Defaults(app));
  }

  // ---------------------------------------------------------------------------
  // Transitions
  // ---------------------------------------------------------------------------

  /** The login form: both fields non-empty signs in and opens the studio; otherwise nothing changes. */
  function SignIn(m: State, email: string, password: string): (r: State)
    ensures email != "" && password != "" ==>
              LoggedIn in r && r[LoggedIn] == Flag(true) && CurrentPage in r && r[CurrentPage] == Str(Studio)
    ensures email == "" || password == "" ==> r == m
    ensures AgreeExcept(m, r, {LoggedIn, CurrentPage})
  {
    if email != "" && password != "" then m[LoggedIn := Flag(true)][CurrentPage := Str(Studio)] else m
  }

  /** "Sign Out": signed out and back home; saved prompts and everything else stay. */
  function SignOut(m: State): (r: State)
    ensures LoggedIn in r && r[LoggedIn] == Flag(false) && CurrentPage in r && r[CurrentPage] == Str(Home)
    ensures AgreeExcept(m, r, {LoggedIn, CurrentPage})
  {
    m[LoggedIn := Flag(false)][CurrentPage := Str(Home)]
  }

  /** A button that only switches the page. */
  function Press(m: State, b: PageButton): (r: State)
    ensures CurrentPage in r && r[CurrentPage] == Str(Target(b))
    ensures AgreeExcept(m, r, {CurrentPage})
  {
    m[CurrentPage := Str(Target(b))]
  }

  /** Whether a page button is on screen: the sidebar for the sign-in state, the rest on their page. */
  predicate OnScreen(app: App, m: State, b: PageButton)
    requires Ready(m)
  {
    match b
    case NavTo(p) => p in (if IsLoggedIn(m) then PrivateNav(app) else PublicNav(app))
    case StartBuilding => Page(m) == Home
    case CreateFirstPrompt => Page(m) == WorkspacePage && Saved(m) == []
    case UseTemplate => Page(m) == Templates
    case BackToBlog => app != St1 && Page(m) == BlogPost && BlogPostView(m).ShowPost?
  }

  /** "Read More" on a blog card: remember the post and open the post page. */
  function ReadMore(m: State, postId: string): (r: State)
    ensures CurrentBlogPost in r && r[CurrentBlogPost] == Str(postId)
    ensures CurrentPage in r && r[CurrentPage] == Str(BlogPost)
    ensures AgreeExcept(m, r, {CurrentBlogPost, CurrentPage})
  {
    m[CurrentBlogPost := Str(postId)][CurrentPage := Str(BlogPost)]
  }

  /** What the blog post page shows. */
  datatype PostView = Redirected | NotFound | ShowPost(id: string)

  function BlogPostView(m: State): (v: PostView)
    ensures v == Redirected <==> CurrentBlogPost !in m
    ensures v.ShowPost? <==> CurrentBlogPost in m && m[CurrentBlogPost].Str? && m[CurrentBlogPost].text in BlogIds
    ensures v.ShowPost? ==> m[CurrentBlogPost] == Str(v.id)
  {
    if CurrentBlogPost !in m then Redirected
    else match m[CurrentBlogPost]
      case Str(id) => if id in BlogIds then ShowPost(id) else NotFound
      case _ => NotFound
  }

  /** The blog post page's effect on the state: with no post selected it falls back to the blog list. */
  function OpenBlogPost(m: State): (r: State)
    ensures CurrentBlogPost !in m ==> CurrentPage in r && r[CurrentPage] == Str(Blog)
    ensures CurrentBlogPost in m ==> r == m
    ensures AgreeExcept(m, r, {CurrentPage})
  {
    if CurrentBlogPost !in m then m[CurrentPage := Str(Blog)] else m
  }

  /** "Save Prompt": the record goes at the end of the list; nothing else changes. */
  function Save(m: State, record: SavedPrompt): (r: State)
    requires Ready(m)
    ensures Ready(r)
    ensures Saved(r) == Saved(m) + [record]
    ensures AgreeExcept(m, r, {SavedPrompts})
  {
    m[SavedPrompts := Records(Saved(m) + [record])]
  }

  /** "Delete": the list is reassigned to the records whose id differs; nothing else changes. */
  function Delete(m: State, id: string): (r: State)
    requires Ready(m)
    ensures Ready(r)
    ensures Saved(r) == RemoveById(Saved(m), id)
    ensures forall p :: p in Saved(r) <==> p in Saved(m) && p.id != id
    ensures AgreeExcept(m, r, {SavedPrompts})
  {
    m[SavedPrompts := Records(RemoveById(Saved(m), id))]
  }

  /** After "Generate Prompt with AI": only a generated prompt is stored. */
  function AfterGeneration(m: State, st: Status): (r: State)
    ensures st.Generated? ==> GeneratedPrompt in r && r[GeneratedPrompt] == Str(st.prompt)
    ensures !st.Generated? ==> r == m
    ensures AgreeExcept(m, r, {GeneratedPrompt})
  {
    if st.Generated? then m[GeneratedPrompt := Str(st.prompt)] else m
  }

  /** The second studio's `?page=` handling, run before every render. */
  function FollowDeepLink(m: State, query: map<string, string>): (r: State)
    ensures DeepLinkTarget(query).Some? ==> CurrentPage in r && r[CurrentPage] == Str(query["page"])
    ensures DeepLinkTarget(query).None? ==> r == m
    ensures AgreeExcept(m, r, {CurrentPage})
  {
    match DeepLinkTarget(query)
    case Some(page) => m[CurrentPage := Str(page)]
    case None => m
  }

  // ---------------------------------------------------------------------------
  // Properties of the transitions
  // ---------------------------------------------------------------------------

  /** Saving a record with a fresh id and then deleting it restores the session exactly. */
  lemma DeleteUndoesSaveInSession(m: State, record: SavedPrompt)
    requires Ready(m) && !HasId(Saved(m), record.id)
    ensures Delete(Save(m, record), record.id) == m
  {
    DeleteUndoesSave(Saved(m), record);
    assert Records(Saved(m)) == m[SavedPrompts];
  }

  /** Deleting an id that no saved record carries leaves the session as it was. */
  lemma DeleteAbsentChangesNothing(m: State, id: string)
    requires Ready(m) && !HasId(Saved(m), id)
    ensures Delete(m, id) == m
  {
    RemoveAbsentIsIdentity(Saved(m), id);
    assert Records(Saved(m)) == m[SavedPrompts];
  }

  /** Signing out keeps the saved prompts and the generated prompt. */
  lemma SignOutKeepsWork(m: State)
    requires Ready(m)
    ensures Ready(SignOut(m)) && Saved(SignOut(m)) == Saved(m) && !IsLoggedIn(SignOut(m))
    ensures GeneratedPrompt in m ==> SignOut(m)[GeneratedPrompt] == m[GeneratedPrompt]
  {
    assert SavedPrompts !in {LoggedIn, CurrentPage};
    assert GeneratedPrompt !in {LoggedIn, CurrentPage};
  }

  /** A rejected sign-in leaves the visitor signed out on the same page. */
  lemma FailedSignInKeepsPage(m: State, email: string, password: string)
    requires Ready(m) && (email == "" || password == "")
    ensures SignIn(m, email, password) == m
  {
  }

  /**
   * The blog post page falls back to the blog list when no post was chosen;
   * after "Read More" on a listed post it shows that post.
   */
  lemma ReadMoreThenOpen(m: State, postId: string)
    requires postId in BlogIds
    ensures BlogPostView(ReadMore(m, postId)) == ShowPost(postId)
    ensures OpenBlogPost(ReadMore(m, postId)) == ReadMore(m, postId)
  {
  }

  lemma UnknownPostIsReported(m: State, postId: string)
    requires postId !in BlogIds
    ensures BlogPostView(ReadMore(m, postId)) == NotFound
    ensures OpenBlogPost(ReadMore(m, postId)) == ReadMore(m, postId)
  {
  }

  // ---------------------------------------------------------------------------
  // Sign-in gating
  // ---------------------------------------------------------------------------

  /** A signed-out visitor is never on a page only the signed-in sidebar leads to. */
  predicate Gated(m: State)
    requires Ready(m)
  {
    !IsLoggedIn(m) ==> Page(m) !in PrivatePages
  }

  /** Every page button on screen keeps the gate closed. */
  lemma PressKeepsGated(app: App, m: State, b: PageButton)
    requires Ready(m) && Gated(m) && OnScreen(app, m, b)
    ensures Ready(Press(m, b)) && Gated(Press(m, b))
  {
    var r := Press(m, b);
    assert LoggedIn !in {CurrentPage};
    assert r[LoggedIn] == m[LoggedIn];
    if !IsLoggedIn(m) && b.NavTo? {
      assert b.target in PublicNav(app);
    }
  }

  /** Sign-in, sign-out, "Read More" and the blog fallback keep the gate closed too. */
  lemma OtherTransitionsKeepGated(m: State, email: string, password: string, postId: string)
    requires Ready(m) && Gated(m)
    ensures Ready(SignIn(m, email, password)) && Gated(SignIn(m, email, password))
    ensures Ready(SignOut(m)) && Gated(SignOut(m))
    ensures Ready(ReadMore(m, postId)) && Gated(ReadMore(m, postId))
    ensures Ready(OpenBlogPost(m)) && Gated(OpenBlogPost(m))
  {
    assert LoggedIn !in {CurrentBlogPost, CurrentPage};
    assert SavedPrompts !in {CurrentBlogPost, CurrentPage};
  }

  /** The deep link opens the studio to a signed-out visitor: it bypasses the gate. */
  lemma DeepLinkBypassesGate()
    ensures var m := map[LoggedIn := Flag(false), SavedPrompts := Records([]), CurrentPage := Str(Home)];
            var r := FollowDeepLink(m, map["page" := Studio]);
            Ready(m) && Gated(m) && Ready(r) && !Gated(r)
  {
    var m := map[LoggedIn := Flag(false), SavedPrompts := Records([]), CurrentPage := Str(Home)];
    assert Studio in DeepLinkPages;
    var r := FollowDeepLink(m, map["page" := Studio]);
    assert r == m[CurrentPage := Str(Studio)];
    assert PrivatePages[0] == Studio;
  }

  /** A session that has no page yet starts on the home page, so initialisation closes the gate. */
  lemma InitStartsGated(app: App, m: State)
    requires Typed(m) && CurrentPage !in m
    ensures ReadyFor(app, FillMissing(m, Defaults(app)))
    ensures Gated(FillMissing(m, Defaults(app)))
  {
    InitMakesReady(app, m);
    InitFillsDefaults(app, m);
  }

  // ---------------------------------------------------------------------------
  // The sticky `?page=` query
  // ---------------------------------------------------------------------------

  /**
   * Nothing removes `page` from the query, and every run handles the query
   * before it renders: once the URL names a whitelisted page, the run after a
   * page button lands on that page again, whatever the button chose.
   */
  lemma {:induction false} StickyDeepLinkOverridesPress(m: State, b: PageButton, query: map<string, string>)
    requires DeepLinkTarget(query).Some?
    ensures FollowDeepLink(Press(m, b), query) == FollowDeepLink(m, query)
  {
    var page := DeepLinkTarget(query).value;
    assert Press(m, b)[CurrentPage := Str(page)] == m[CurrentPage := Str(page)];
  }

  /** The same for signing in: the run after a successful sign-in shows the query's page, not the studio. */
  lemma {:induction false} StickyDeepLinkOverridesSignIn(m: State, email: string, password: string, query: map<string, string>)
    requires DeepLinkTarget(query).Some? && query["page"] != Studio
    requires email != "" && password != ""
    ensures var r := FollowDeepLink(SignIn(m, email, password), query);
            CurrentPage in r && r[CurrentPage] == Str(query["page"]) && r[CurrentPage] != Str(Studio)
  {
  }

  /** The deep link followed once: the page is taken and `page` is removed from the query. */
  function ConsumeDeepLink(m: State, query: map<string, string>): (r: (State, map<string, string>))
    ensures r.0 == FollowDeepLink(m, query)
    ensures "page" !in r.1 && forall k :: k in query && k != "page" ==> k in r.1 && r.1[k] == query[k]
  {
    (FollowDeepLink(m, query), query - {"page"})
  }

  /** With the query consumed, the run after a page button shows the button's target. */
  lemma {:induction false} ConsumedDeepLinkLetsPressWork(m: State, query: map<string, string>, b: PageButton)
    ensures var (r, rest) := ConsumeDeepLink(m, query);
            FollowDeepLink(Press(r, b), rest) == Press(r, b)
  {
    var (r, rest) := ConsumeDeepLink(m, query);
    assert DeepLinkTarget(rest).None?;
  }

  /** With the query consumed, the run after a successful sign-in shows the studio. */
  lemma {:induction false} ConsumedDeepLinkLetsSignInWork(m: State, query: map<string, string>, email: string, password: string)
    requires email != "" && password != ""
    ensures var (r, rest) := ConsumeDeepLink(m, query);
            var after := FollowDeepLink(SignIn(r, email, password), rest);
            CurrentPage in after && after[CurrentPage] == Str(Studio)
  {
    var (r, rest) := ConsumeDeepLink(m, query);
    assert DeepLinkTarget(rest).None?;
  }

  // ---------------------------------------------------------------------------
  // Saved ids and the generated prompt
  // ---------------------------------------------------------------------------

  /** Saving a record whose id is fresh keeps the saved ids unique. */
  lemma SaveFreshKeepsUniqueIds(m: State, record: SavedPrompt)
    requires Ready(m) && UniqueIds(Saved(m)) && !HasId(Saved(m), record.id)
    ensures UniqueIds(Saved(Save(m, record)))
  {
    var rs := Saved(Save(m, record));
    forall i, j | 0 <= i < j < |rs|
      ensures rs[i].id != rs[j].id
    {
      if j == |rs| - 1 {
        assert rs[i] == Saved(m)[i];
      }
    }
  }

  /** Deleting keeps the saved ids unique. */
  lemma DeleteKeepsUniqueIds(m: State, id: string)
    requires Ready(m) && UniqueIds(Saved(m))
    ensures UniqueIds(Saved(Delete(m, id)))
  {
    RemoveKeepsUniqueIds(Saved(m), id);
  }

  /** In a session holding a stored prompt, the state update follows the update rule for `generated_prompt`. */
  lemma AfterGenerationFollowsStoredPrompt(m: State, st: Status)
    requires GeneratedPrompt in m && m[GeneratedPrompt].Str?
    ensures var r := AfterGeneration(m, st);
            GeneratedPrompt in r && r[GeneratedPrompt] == Str(StoredPrompt(m[GeneratedPrompt].text, st))
  {
  }

  // ---------------------------------------------------------------------------
  // The session object
  // ---------------------------------------------------------------------------

  /** `st.session_state`, updated in place by the handlers. */
  class SessionState {
    var entries: State

    constructor (initial: State)
      ensures entries == initial
    {
      entries := initial;
    }

    /** `_init_session_state`: a loop over the defaults assigning only missing keys. */
    method InitSessionState(app: App)
      modifies this
      ensures entries == FillMissing(old(entries), Defaults(app))
    {
      var defaults := Defaults(app);
      var i := 0;
      while i < |defaults|
        invariant 0 <= i <= |defaults|
        invariant entries == FillMissing(old(entries), defaults[..i])
      {
        var (key, value) := defaults[i];
        assert defaults[..i + 1][..i] == defaults[..i];
        if key !in entries {
          entries := entries[key := value];
        }
        i := i + 1;
      }
      assert defaults[..|defaults|] == defaults;
    }

    method SubmitLogin(email: string, password: string)
      modifies this
      ensures entries == SignIn(old(entries), email, password)
    {
      if email != "" && password != "" {
        entries := entries[LoggedIn := Flag(true)];
        entries := entries[CurrentPage := Str(Studio)];
      }
    }

    method PressSignOut()
      modifies this
      ensures entries == SignOut(old(entries))
    {
      entries := entries[LoggedIn := Flag(false)];
      entries := entries[CurrentPage := Str(Home)];
    }

    method PressButton(b: PageButton)
      modifies this
      ensures entries == Press(old(entries), b)
    {
      entries := entries[CurrentPage := Str(Target(b))];
    }

    method PressReadMore(postId: string)
      modifies this
      ensures entries == ReadMore(old(entries), postId)
    {
      entries := entries[CurrentBlogPost := Str(postId)];
      entries := entries[CurrentPage := Str(BlogPost)];
    }

    /** `render_blog_post`: falls back to the blog list, reports an unknown post, or shows it. */
    method RenderBlogPost() returns (v: PostView)
      modifies this
      ensures v == BlogPostView(old(entries))
      ensures entries == OpenBlogPost(old(entries))
    {
      if CurrentBlogPost !in entries {
        entries := entries[CurrentPage := Str(Blog)];
        return Redirected;
      }
      v := BlogPostView(entries);
    }

    method SavePrompt(record: SavedPrompt)
      requires Ready(entries)
      modifies this
      ensures entries == Save(old(entries), record)
    {
      var records := entries[SavedPrompts].records;
      entries := entries[SavedPrompts := Records(records + [record])];
    }

    method DeletePrompt(id: string)
      requires Ready(entries)
      modifies this
      ensures entries == Delete(old(entries), id)
    {
      var records := entries[SavedPrompts].records;
      entries := entries[SavedPrompts := Records(RemoveById(records, id))];
    }

    /** The state update of `_generate_prompt_with_ai`, given the outcome it reached. */
    method RecordGeneration(st: Status)
      modifies this
      ensures entries == AfterGeneration(old(entries), st)
    {
      if st.Generated? {
        entries := entries[GeneratedPrompt := Str(st.prompt)];
      }
    }

    method HandleQueryParams(query: map<string, string>)
      modifies this
      ensures entries == FollowDeepLink(old(entries), query)
    {
      if "page" in query {
        var page := query["page"];
        if page in DeepLinkPages {
          entries := entries[CurrentPage := Str(page)];
        }
      }
    }
  }
}
