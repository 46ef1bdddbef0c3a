/**
 * Pages, the router of each studio, the sidebar navigation lists, the page
 * buttons, the blog post ids and the second studio's `?page=` deep link.
 */
module Navigation {
  import opened Wrappers

  /** The three versions of the studio. */
  datatype App = St1 | V1 | V2

  const Home := "home"
  const Login := "login"
  const Studio := "studio"
  const WorkspacePage := "workspace"
  const Templates := "templates"
  const Blog := "blog"
  const BlogPost := "blog_post"
  const Privacy := "privacy"
  const Terms := "terms"
  const FeedbackPage := "feedback"

  /** The pages only the signed-in sidebar leads to. */
  const PrivatePages: seq<string> := [Studio, WorkspacePage, Templates]

  /** The ids of the three blog posts, in the order the blog lists them. */
  const BlogIds: seq<string> :=
    ["prompt-engineering-best-practices", "json-output-reliability", "chatbot-personality-design"]

  /** The keys of each studio's `page_routes` table (the first studio's if/elif chain). */
  function Routes(app: App): (pages: seq<string>)
    ensures Home in pages && Login in pages
    ensures forall p :: p in PrivatePages ==> p in pages
    ensures Blog in pages <==> app != St1
    ensures BlogPost in pages <==> app != St1
    ensures Privacy in pages <==> app != St1
    ensures Terms in pages <==> app == V2
    ensures FeedbackPage in pages <==> app == V2
  {
    match app
    case St1 => [Home, Login, Studio, WorkspacePage, Templates]
    case V1 => [Home, Login, Studio, WorkspacePage, Templates, Blog, BlogPost, Privacy]
    case V2 => [Home, Login, Studio, WorkspacePage, Templates, Blog, BlogPost, Privacy, Terms, FeedbackPage]
  }

  /** What the main area shows for the current page. */
  datatype View = Rendered(page: string) | UnknownPage(page: string) | Blank

  /**
   * The router: a routed page is rendered; an unrouted one is reported as
   * unknown by the later studios and silently skipped by the first.
   */
  function Render(app: App, page: string): (v: View)
    ensures v.Rendered? <==> page in Routes(app)
    ensures v.Rendered? ==> v.page == page
    ensures v.UnknownPage? <==> app != St1 && page !in Routes(app)
    ensures v.UnknownPage? ==> v.page == page
  {
    if page in Routes(app) then Rendered(page)
    else if app == St1 then Blank
    else UnknownPage(page)
  }

  /** The signed-out sidebar, in order. */
  function PublicNav(app: App): (pages: seq<string>)
    ensures Home in pages && Login in pages && Blog in pages
    ensures forall p :: p in pages ==> p !in PrivatePages
    ensures app != St1 ==> forall p :: p in pages ==> p in Routes(app)
  {
    match app
    case St1 => [Home, Login, Blog]
    case V1 => [Home, Login, Blog, Privacy]
    case V2 => [Home, Login, Blog, FeedbackPage]
  }

  /** The signed-in sidebar, in order; "Sign Out" follows it and is handled by the session. */
  function PrivateNav(app: App): (pages: seq<string>)
    ensures forall p :: p in PrivatePages ==> p in pages
    ensures Home !in pages && Login !in pages
    ensures app != St1 ==> forall p :: p in pages ==> p in Routes(app)
  {
    match app
    case St1 => [Studio, WorkspacePage, Templates]
    case V1 => [Studio, WorkspacePage, Templates, Blog]
    case V2 => [Studio, WorkspacePage, Templates, Blog, FeedbackPage]
  }

  /** The buttons whose only effect is to set `current_page`. */
  datatype PageButton =
    | NavTo(target: string)   // a sidebar entry
    | StartBuilding           // the home page's call to action
    | CreateFirstPrompt       // the empty workspace
    | UseTemplate             // any template card; nothing is pre-filled
    | BackToBlog              // an open blog post

  function Target(b: PageButton): string {
    match b
    case NavTo(p) => p
    case StartBuilding => Login
    case CreateFirstPrompt => Studio
    case UseTemplate => Studio
    case BackToBlog => Blog
  }

  /** Every sidebar entry of the later studios leads to a page their router renders. */
  lemma NavTargetsRouted(app: App, signedIn: bool, page: string)
    requires app != St1
    requires page in (if signedIn then PrivateNav(app) else PublicNav(app))
    ensures Render(app, page) == Rendered(page)
  {
  }

  /** The first studio's "Blog" entry leads to a page its router does not know: nothing is shown. */
  lemma St1BlogButtonShowsNothing()
    ensures Blog in PublicNav(St1)
    ensures Render(St1, Target(NavTo(Blog))) == Blank
  {
    assert PublicNav(St1)[2] == Blog;
  }

  /** Every page-button target of the first studio other than the blog is routed. */
  lemma St1OtherTargetsRouted(b: PageButton)
    requires b.NavTo? ==> b.target in PublicNav(St1) + PrivateNav(St1) && b.target != Blog
    requires b != BackToBlog
    ensures Render(St1, Target(b)).Rendered?
  {
  }

  /** The pages a `?page=` query may select. */
  const DeepLinkPages: seq<string> :=
    [Home, Login, Studio, WorkspacePage, Templates, Blog, Privacy, FeedbackPage, Terms]

  /** `_handle_query_params`: the page named by the query, if it is on the whitelist. */
  function DeepLinkTarget(query: map<string, string>): (r: Option<string>)
    ensures r.Some? <==> "page" in query && query["page"] in DeepLinkPages
    ensures r.Some? ==> r.value == query["page"]
  {
    if "page" in query && query["page"] in DeepLinkPages then Some(query["page"]) else None
  }

  /** The whitelist is exactly the second studio's routed pages except the blog post page. */
  lemma DeepLinkPagesAreRoutesButBlogPost(page: string)
    ensures page in DeepLinkPages <==> page in Routes(V2) && page != BlogPost
  {
  }
}
