/** The shared Web instance, the credential check, the login, logout and
    login-page handlers, and the Renderer the instance holds. Web and
    Renderer refer to each other, so they share this module. */
module HydraWeb {
  import opened Wrappers
  import opened Types
  import opened Strings
  import opened Http
  import opened Registry

  const SessionCookieName := "admin_session"
  const BearerPrefix := "Bearer "
  const StatusSeeOther := 303
  const StatusUnauthorized := 401
  /** Thirty days, in seconds. */
  const SessionMaxAge := 86400 * 30

  /** The cookie a successful login sets: the secret itself. */
  function SessionCookie(secret: string): (c: Cookie) {
    Cookie(SessionCookieName, secret, "/", true, true, SameSiteLax, SessionMaxAge)
  }

  /** The cookie logout sets: empty, already expired, no SameSite attribute. */
  const ClearedCookie := Cookie(SessionCookieName, "", "/", true, true, SameSiteUnset, -1)

  /** The header test: a non-empty Authorization value, with at most one
      leading "Bearer " removed, equals the secret. Said without TrimPrefix:
      either the header is "Bearer " + secret, or it does not start with
      "Bearer " and is the secret verbatim. */
  function HeaderMatches(authorization: string, secret: string): (ok: bool)
    ensures ok <==> authorization != "" &&
                    (authorization == BearerPrefix + secret ||
                     (!(BearerPrefix <= authorization) && authorization == secret))
  {
    authorization != "" && TrimPrefix(authorization, BearerPrefix) == secret
  }

  class Web {
    const adminToken: string
    const brand: Brand
    const navLinks: seq<NavLink>
    var renderer: Renderer?

    /** New: copies the token, the brand parts and the navigation links;
        the project name is not kept and no renderer is attached yet. */
    constructor (cfg: Config)
      ensures adminToken == cfg.adminToken
      ensures brand == Brand(cfg.brandPrefix, cfg.brandSuffix)
      ensures navLinks == cfg.navLinks
      ensures renderer == null
      ensures Valid()
    {
      adminToken := cfg.adminToken;
      brand := Brand(cfg.brandPrefix, cfg.brandSuffix);
      navLinks := cfg.navLinks;
      renderer := null;
    }

    /** The attached renderer, if any, renders for this instance. */
    ghost predicate Valid()
      reads this
    {
      renderer != null ==> renderer.web == this
    }

    /** The header is tried first; failing that, the admin_session cookie. */
    function IsAuthenticated(r: Request): (ok: bool) {
      if HeaderMatches(r.authorization, adminToken) then true
      else match r.sessionCookie
        case Some(v) => v == adminToken
        case None => false
    }

    /** What `w.renderer.Render(...)` appends: a nil renderer panics. */
    function RenderActions(name: string, data: Payload, loggedIn: bool, errMsg: string): (acts: seq<Action>)
      reads this, renderer
    {
      if renderer == null then [Panic("nil renderer")]
      else RenderOutcome(renderer.templates, renderer.web.brand, renderer.web.navLinks, name, data, loggedIn, errMsg)
    }

    method CallRender(wr: ResponseWriter, name: string, data: Payload, loggedIn: bool, errMsg: string)
      modifies wr
      ensures wr.actions == old(wr.actions) + RenderActions(name, data, loggedIn, errMsg)
    {
      if renderer == null {
        wr.Panic("nil renderer");
      } else {
        renderer.Render(wr, name, data, loggedIn, errMsg);
      }
    }

    /** HandleLoginPage's effects. */
    function LoginPageActions(r: Request): (acts: seq<Action>)
      reads this, renderer
    {
      if IsAuthenticated(r) then [Action.Redirect("/admin", StatusSeeOther)]
      else RenderActions(LoginPage, Nil, false, "")
    }

    method HandleLoginPage(wr: ResponseWriter, r: Request)
      modifies wr
      ensures wr.actions == old(wr.actions) + LoginPageActions(r)
    {
      if IsAuthenticated(r) {
        wr.Redirect("/admin", StatusSeeOther);
        return;
      }
      CallRender(wr, LoginPage, Nil, false, "");
    }

    /** HandleLogin's effects. */
    function LoginActions(r: Request): (acts: seq<Action>)
      reads this, renderer
    {
      if r.formToken != adminToken then
        [Action.WriteHeader(StatusUnauthorized)] + RenderActions(LoginPage, Nil, false, "Invalid token")
      else
        [Action.SetCookie(SessionCookie(adminToken)), Action.Redirect("/admin", StatusSeeOther)]
    }

    method HandleLogin(wr: ResponseWriter, r: Request)
      modifies wr
      ensures wr.actions == old(wr.actions) + LoginActions(r)
    {
      var token := r.formToken;
      if token != adminToken {
        wr.WriteHeader(StatusUnauthorized);
        CallRender(wr, LoginPage, Nil, false, "Invalid token");
        return;
      }
      wr.SetCookie(SessionCookie(adminToken));
      wr.Redirect("/admin", StatusSeeOther);
    }

    method HandleLogout(wr: ResponseWriter, r: Request)
      modifies wr
      ensures wr.actions == old(wr.actions) + LogoutActions
    {
      wr.SetCookie(ClearedCookie);
      wr.Redirect("/login", StatusSeeOther);
    }

    /** NewRenderer: builds the registry from the embedded `shared` file
        system and the project's pages, attaches it to this instance and
        returns it; a missing file aborts startup and changes nothing. */
    method NewRenderer(shared: map<string, string>, projectFS: map<string, string>,
                       dir: string, pages: seq<string>) returns (res: Result<Renderer, Fatal>)
      modifies this
      ensures Templates(shared, projectFS, dir, pages).Failure? ==>
                && res == Failure(Templates(shared, projectFS, dir, pages).error)
                && renderer == old(renderer)
                && (old(Valid()) ==> Valid())
      ensures Templates(shared, projectFS, dir, pages).Success? ==>
                && res.Success? && fresh(res.value)
                && res.value.templates == Templates(shared, projectFS, dir, pages).value
                && res.value.web == this
                && renderer == res.value && Valid()
    {
      if LayoutPath !in shared {
        return Failure(MissingLayout);
      }
      var layout := shared[LayoutPath];
      if LoginPath !in shared {
        return Failure(MissingLogin);
      }
      var login := shared[LoginPath];

      var r := new Renderer(this);
      r.templates := r.templates[LoginPage := Combine(layout, login)];

      for i := 0 to |pages|
        invariant renderer == old(renderer)
        invariant AddPages(r.templates, layout, projectFS, dir, pages[i..]) == Templates(shared, projectFS, dir, pages)
      {
        var page := pages[i];
        assert pages[i..][0] == page && pages[i..][1..] == pages[i + 1..];
        if PagePath(dir, page) !in projectFS {
          return Failure(MissingPage(dir, page));
        }
        r.templates := r.templates[page := Combine(layout, projectFS[PagePath(dir, page)])];
      }
      assert pages[|pages|..] == [];

      renderer := r;
      return Success(r);
    }
  }

  /** HandleLogout's effects. */
  const LogoutActions := [Action.SetCookie(ClearedCookie), Action.Redirect("/login", StatusSeeOther)]

  class Renderer {
    var templates: map<string, string>
    const web: Web

    constructor (w: Web)
      ensures templates == map[] && web == w
    {
      templates := map[];
      web := w;
    }

    /** Render: exact-key lookup; a miss is a 500 naming the template,
        a hit executes that entry once with the envelope built from `web`. */
    method Render(wr: ResponseWriter, name: string, data: Payload, loggedIn: bool, errMsg: string)
      modifies wr
      ensures wr.actions == old(wr.actions) + RenderOutcome(templates, web.brand, web.navLinks, name, data, loggedIn, errMsg)
    {
      if name !in templates {
        wr.Error("template not found: " + name, 500);
        return;
      }
      var t := templates[name];
      var pd := PageData(web.brand.prefix + web.brand.suffix, errMsg, loggedIn, web.brand, web.navLinks, data);
      wr.Execute(t, LayoutEntry, pd);
    }
  }

  // ----- The credential check

  /** The whole test: the header matches, or the session cookie carries
      the secret. */
  lemma IsAuthenticatedIff(w: Web, r: Request)
    ensures w.IsAuthenticated(r) <==> HeaderMatches(r.authorization, w.adminToken) || r.sessionCookie == Some(w.adminToken)
  {
  }

  /** "Bearer " + secret in the header authenticates, whatever the cookie. */
  lemma BearerHeaderAuthenticates(w: Web, r: Request)
    requires r.authorization == BearerPrefix + w.adminToken
    ensures w.IsAuthenticated(r)
  {
  }

  /** The prefix is optional: the bare secret in the header authenticates,
      unless the secret itself starts with "Bearer ", in which case the
      stripped header can never equal it. */
  lemma RawHeaderAuthenticates(w: Web, r: Request)
    requires r.authorization == w.adminToken
    requires r.sessionCookie.None?
    ensures w.IsAuthenticated(r) <==> w.adminToken != "" && !(BearerPrefix <= w.adminToken)
  {
  }

  /** "Bearer " is stripped at most once: "Bearer Bearer " + secret is
      compared as "Bearer " + secret and is refused. */
  lemma BearerStrippedOnce(w: Web, r: Request)
    requires r.authorization == BearerPrefix + BearerPrefix + w.adminToken
    requires r.sessionCookie.None?
    ensures !w.IsAuthenticated(r)
  {
  }

  /** The cookie is consulted only when the header does not match, and
      then decides alone. */
  lemma CookieFallback(w: Web, r: Request)
    requires !HeaderMatches(r.authorization, w.adminToken)
    ensures w.IsAuthenticated(r) <==> r.sessionCookie == Some(w.adminToken)
  {
  }

  /** An empty Authorization header is skipped even when the secret is empty. */
  lemma EmptyHeaderIgnored(w: Web, r: Request)
    requires r.authorization == ""
    ensures w.IsAuthenticated(r) <==> r.sessionCookie == Some(w.adminToken)
  {
  }

  // ----- Login and logout

  /** A wrong form token: status 401 first, the login page re-rendered with
      "Invalid token", no cookie. The status stays 401 whatever Render does;
      with no renderer attached the handler panics, and net/http then sends
      no response at all. */
  lemma LoginRejected(w: Web, r: Request)
    requires r.formToken != w.adminToken
    ensures var acts := w.LoginActions(r);
      && |acts| == 2 && acts[0] == Action.WriteHeader(StatusUnauthorized)
      && (forall i :: 0 <= i < |acts| ==> !acts[i].SetCookie?)
      && Sent(acts).status == Some(StatusUnauthorized)
      && Sent(acts).cookies == []
      && (Sent(acts).aborted <==> w.renderer == null)
    ensures w.Valid() && w.renderer != null && LoginPage in w.renderer.templates ==>
      w.LoginActions(r)[1] == Execute(w.renderer.templates[LoginPage], LayoutEntry,
                                      PageData(w.brand.prefix + w.brand.suffix, "Invalid token", false,
                                               w.brand, w.navLinks, Nil))
  {
    var acts := w.LoginActions(r);
    assert Replay(Fresh, acts) == Replay(Step(Fresh, acts[0]), acts[1..]);
    CommittedIsFinal(Step(Fresh, acts[0]), acts[1..]);
  }

  /** The right form token: the session cookie carrying the secret (path /,
      HttpOnly, Secure, SameSite Lax, thirty days), then a 303 to /admin. */
  lemma LoginAccepted(w: Web, r: Request)
    requires r.formToken == w.adminToken
    ensures w.LoginActions(r) == [Action.SetCookie(Cookie("admin_session", w.adminToken, "/", true, true, SameSiteLax, 2592000)),
                                  Action.Redirect("/admin", 303)]
    ensures Sent(w.LoginActions(r)) == Response(Some(303), [], map["Location" := "/admin"], [SessionCookie(w.adminToken)], [], false)
  {
    SentPair(w.LoginActions(r));
  }

  /** Round trip: a later request carrying only the cookie HandleLogin set
      is authenticated. */
  lemma SessionRoundTrip(w: Web, r: Request)
    requires r.formToken == w.adminToken
    ensures exists c :: Action.SetCookie(c) in w.LoginActions(r) && w.IsAuthenticated(Request("", Returned(c), ""))
  {
    var c := SessionCookie(w.adminToken);
    assert Action.SetCookie(c) == w.LoginActions(r)[0];
    assert w.IsAuthenticated(Request("", Returned(c), ""));
  }

  /** Logout sets an empty, expired admin_session cookie without SameSite
      and redirects 303 to /login; a client that drops it is no longer
      authenticated, and its value authenticates only an empty secret. */
  lemma LogoutClears(w: Web)
    ensures LogoutActions == [Action.SetCookie(Cookie("admin_session", "", "/", true, true, SameSiteUnset, -1)),
                              Action.Redirect("/login", 303)]
    ensures Sent(LogoutActions) == Response(Some(303), [], map["Location" := "/login"], [ClearedCookie], [], false)
    ensures !w.IsAuthenticated(Request("", Returned(ClearedCookie), ""))
    ensures w.IsAuthenticated(Request("", Some(ClearedCookie.value), "")) <==> w.adminToken == ""
  {
    SentPair(LogoutActions);
  }

  /** The login page: an authenticated request is sent to /admin; any
      other renders login.html logged out and without an error, and with
      no renderer attached the handler panics before anything is sent. */
  lemma LoginPageDecision(w: Web, r: Request)
    ensures w.IsAuthenticated(r) ==> w.LoginPageActions(r) == [Action.Redirect("/admin", 303)]
    ensures !w.IsAuthenticated(r) && w.Valid() && w.renderer != null && LoginPage in w.renderer.templates ==>
      w.LoginPageActions(r) == [Execute(w.renderer.templates[LoginPage], LayoutEntry,
                                        PageData(w.brand.prefix + w.brand.suffix, "", false, w.brand, w.navLinks, Nil))]
    ensures !w.IsAuthenticated(r) && w.renderer == null ==>
      && w.LoginPageActions(r) == [Panic("nil renderer")]
      && Sent(w.LoginPageActions(r)).aborted
      && Sent(w.LoginPageActions(r)).status.None?
      && Sent(w.LoginPageActions(r)).body == []
  {
    var acts := w.LoginPageActions(r);
    assert Replay(Fresh, acts) == Replay(Step(Fresh, acts[0]), acts[1..]);
    assert acts[1..] == [];
  }
}
