/** The router: which page each path shows and which guard wraps it. The
    protected guard lets only authenticated sessions through and sends the
    rest to `/login`; the public guard does the opposite and sends
    authenticated sessions to `/`. */
module Routes {
  import Session
  import Demo

  datatype Page = LoginPage | RegisterPage | IndexPage | MoodLoggerPage | AnalyticsPage | ChatbotPage | NotFoundPage

  datatype Guard = Public | Protected | Unguarded

  datatype Route = Route(guard: Guard, page: Page)

  /** ASCII letters folded to lower case; react-router matches route paths
      case-insensitively, and a case-insensitive JavaScript regular
      expression without the `u` flag folds no non-ASCII character onto an
      ASCII one. */
  function Lower(s: string): (r: string)
    ensures |r| == |s|
    ensures forall i :: 0 <= i < |s| ==> r[i] == if 'A' <= s[i] <= 'Z' then (s[i] as int + 32) as char else s[i]
  {
    if |s| == 0 then "" else [if 'A' <= s[0] <= 'Z' then (s[0] as int + 32) as char else s[0]] + Lower(s[1..])
  }

  /** The path without its trailing slashes. */
  function StripSlashes(s: string): (r: string)
    ensures r <= s
    ensures |r| > 0 ==> r[|r| - 1] != '/'
    ensures forall i :: |r| <= i < |s| ==> s[i] == '/'
  {
    if |s| > 0 && s[|s| - 1] == '/' then StripSlashes(s[..|s| - 1]) else s
  }

  /** The form in which react-router compares a location with a route path:
      letters folded to lower case and trailing slashes ignored, so every
      all-slash path is the root. */
  function Canonical(path: string): string
  {
    var t := StripSlashes(Lower(path));
    if t == "" then "/" else t
  }

  /** The route table on canonical paths; any other path falls through to
      the 404 page. */
  function Table(p: string): Route
  {
    if p == "/login" then Route(Public, LoginPage)
    else if p == "/register" then Route(Public, RegisterPage)
    else if p == "/" then Route(Protected, IndexPage)
    else if p == "/mood-logger" then Route(Protected, MoodLoggerPage)
    else if p == "/analytics" then Route(Protected, AnalyticsPage)
    else if p == "/chatbot" then Route(Protected, ChatbotPage)
    else Route(Unguarded, NotFoundPage)
  }

  /** The route a location path selects. */
  function RouteFor(path: string): (r: Route)
    ensures r.guard == Unguarded <==> r.page == NotFoundPage
  {
    Table(Canonical(path))
  }

  /** Text without capitals is left as it is. */
  lemma LowerUnchanged(s: string)
    requires forall i :: 0 <= i < |s| ==> !('A' <= s[i] <= 'Z')
    ensures Lower(s) == s
  {
  }

  /** Folding is idempotent. */
  lemma LowerIdempotent(s: string)
    ensures Lower(Lower(s)) == Lower(s)
  {
    LowerUnchanged(Lower(s));
  }

  /** Folding works character by character, so it commutes with appending. */
  lemma LowerAppendSlash(s: string)
    ensures Lower(s + "/") == Lower(s) + "/"
  {
    var l := Lower(s + "/");
    assert forall i :: 0 <= i < |s| ==> (s + "/")[i] == s[i];
    assert l[|s|] == '/';
  }

  /** A trailing slash and a change of letter case leave the canonical form
      unchanged. */
  lemma CanonicalIgnoresCaseAndSlash(path: string)
    ensures Canonical(path + "/") == Canonical(path)
    ensures Canonical(Lower(path)) == Canonical(path)
  {
    LowerAppendSlash(path);
    var l := Lower(path) + "/";
    assert l[..|l| - 1] == Lower(path);
    assert StripSlashes(l) == StripSlashes(Lower(path));
    LowerIdempotent(path);
  }

  /** Extra trailing slashes and a change of letter case never change the
      page a path leads to. */
  lemma RouteIgnoresCaseAndSlash(path: string)
    ensures RouteFor(path + "/") == RouteFor(path)
    ensures RouteFor(Lower(path)) == RouteFor(path)
  {
    CanonicalIgnoresCaseAndSlash(path);
  }

  /** A trailing slash still reaches the guarded page. */
  lemma TrailingSlashExample()
    ensures RouteFor("/chatbot/") == Route(Protected, ChatbotPage)
  {
    LowerUnchanged("/chatbot");
    assert StripSlashes("/chatbot") == "/chatbot";
    assert "/chatbot" + "/" == "/chatbot/";
    RouteIgnoresCaseAndSlash("/chatbot");
  }

  /** Capitals still reach the guarded page. */
  lemma CapitalsExample()
    ensures RouteFor("/Login") == Route(Public, LoginPage)
  {
    LowerUnchanged("/login");
    assert StripSlashes("/login") == "/login";
    assert Lower("/Login") == "/login";
    RouteIgnoresCaseAndSlash("/Login");
  }

  /** A path of slashes alone is the root. */
  lemma SlashesExample()
    ensures RouteFor("//") == Route(Protected, IndexPage)
  {
    LowerUnchanged("/");
    assert StripSlashes("/") == StripSlashes("");
    RouteIgnoresCaseAndSlash("/");
  }

  datatype Outcome = Render(page: Page) | Redirect(to: string)

  /** What a guard does with its child given the session's authentication. */
  function ApplyGuard(guard: Guard, page: Page, authenticated: bool): (o: Outcome)
    ensures guard == Protected ==> (o == Render(page) <==> authenticated)
    ensures guard == Protected && !authenticated ==> o == Redirect("/login")
    ensures guard == Public ==> (o == Render(page) <==> !authenticated)
    ensures guard == Public && authenticated ==> o == Redirect("/")
    ensures guard == Unguarded ==> o == Render(page)
  {
    match guard
    case Protected => if authenticated then Render(page) else Redirect("/login")
    case Public => if !authenticated then Render(page) else Redirect("/")
    case Unguarded => Render(page)
  }

  /** Navigating to `path` with the given session. */
  function Resolve(path: string, st: Session.Storage, demo: bool): (o: Outcome)
    ensures RouteFor(path).guard == Protected ==>
      o == if Session.IsAuthenticated(st, demo) then Render(RouteFor(path).page) else Redirect("/login")
    ensures RouteFor(path).guard == Public ==>
      o == if Session.IsAuthenticated(st, demo) then Redirect("/") else Render(RouteFor(path).page)
    ensures RouteFor(path).guard == Unguarded ==> o == Render(NotFoundPage)
  {
    var r := RouteFor(path);
    ApplyGuard(r.guard, r.page, Session.IsAuthenticated(st, demo))
  }

  /** The two public paths and the four protected ones, compared in
      canonical form; everything else is the unguarded 404 page. */
  lemma RouteTable(path: string)
    ensures RouteFor(path).guard == Public <==> Canonical(path) in {"/login", "/register"}
    ensures RouteFor(path).guard == Protected <==> Canonical(path) in {"/", "/mood-logger", "/analytics", "/chatbot"}
    ensures RouteFor(path).page == NotFoundPage <==>
      Canonical(path) !in {"/login", "/register", "/", "/mood-logger", "/analytics", "/chatbot"}
    ensures Canonical(path) == "/login" ==> RouteFor(path) == Route(Public, LoginPage)
    ensures Canonical(path) == "/register" ==> RouteFor(path) == Route(Public, RegisterPage)
    ensures Canonical(path) == "/" ==> RouteFor(path) == Route(Protected, IndexPage)
    ensures Canonical(path) == "/mood-logger" ==> RouteFor(path) == Route(Protected, MoodLoggerPage)
    ensures Canonical(path) == "/analytics" ==> RouteFor(path) == Route(Protected, AnalyticsPage)
    ensures Canonical(path) == "/chatbot" ==> RouteFor(path) == Route(Protected, ChatbotPage)
  {
    assert RouteFor(path) == Table(Canonical(path));
  }

  /** Whatever the session, exactly one of `/login` and `/` shows its page,
      and the other redirects to it. */
  lemma LoginXorHome(st: Session.Storage, demo: bool)
    ensures Resolve("/login", st, demo).Render? != Resolve("/", st, demo).Render?
    ensures Resolve("/login", st, demo).Redirect? ==> Resolve("/login", st, demo).to == "/"
    ensures Resolve("/", st, demo).Redirect? ==> Resolve("/", st, demo).to == "/login"
  {
  }

  /** Redirects never chain: the target of a redirect renders its page. */
  lemma RedirectTargetRenders(path: string, st: Session.Storage, demo: bool)
    requires Resolve(path, st, demo).Redirect?
    ensures Resolve(Resolve(path, st, demo).to, st, demo).Render?
  {
  }

  /** In demo mode the session is always authenticated: the login and
      register pages are unreachable and every protected page renders. */
  lemma DemoRoutes(path: string, st: Session.Storage)
    ensures RouteFor(path).guard == Public ==> Resolve(path, st, true) == Redirect("/")
    ensures RouteFor(path).guard != Public ==> Resolve(path, st, true) == Render(RouteFor(path).page)
  {
  }

  /** After logout, outside demo mode, every protected path redirects to login. */
  lemma LoggedOutRoutes(path: string, st: Session.Storage)
    requires RouteFor(path).guard == Protected
    ensures Resolve(path, Session.RemoveAuthToken(st), false) == Redirect("/login")
  {
    Session.LogoutClearsSession(st);
  }

  /** The shipped build has demo mode on, so the login page is never shown:
      it always forwards to the dashboard. */
  lemma ShippedBuildSkipsLogin(st: Session.Storage)
    ensures Resolve("/login", st, Demo.IsDemoMode) == Redirect("/")
    ensures Resolve("/", st, Demo.IsDemoMode) == Render(IndexPage)
  {
  }
}
