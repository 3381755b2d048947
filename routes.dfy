/** The HTTP request handler: which URL is served, redirected or refused, and how the
    login and logout routes change the session table. */
module Routes {
  import opened Json
  import opened Auth

  /** The two templates the server renders. The home page is rendered for the user the
      session belongs to. */
  datatype View = HomeView(user: string) | LoginView

  /** The routing decision for one request. */
  datatype Decision =
    | Render(view: View)
    | Redirect(location: string)
    | Asset(file: string)
    | HandleLogin
    | HandleLogout
    | NotFound

  /** What goes back to the client. */
  datatype Response =
    | Page(view: View)                             // 200, text/html
    | Static(file: string)                         // 200, the asset's bytes
    | SessionReply(sessionId: Option<string>)      // 200, {"sessionId": ...}; sets the cookie when present
    | Found(location: string, clearCookie: bool)   // 302
    | PageNotFound                                 // 404, "Page not found (404)"

  datatype Credentials = Credentials(username: string, password: string)

  /** A request as the handler sees it: URL, method, the `sessionId` cookie if any, and
      the decoded body of a login form. */
  datatype Request = Request(url: string, verb: string, token: Option<string>, body: Credentials)

  const StaticAssets: set<string> := {"/styles.css", "/imgs/about.png", "/imgs/submit.png"}

  /** Every URL the handler answers with something other than 404 (for some method). */
  const KnownUrls: set<string> := {"/", "/home", "/login", "/logout"} + StaticAssets

  function Status(r: Response): (code: int)
  {
    match r
    case Page(_) => 200
    case Static(_) => 200
    case SessionReply(_) => 200
    case Found(_, _) => 302
    case PageNotFound => 404
  }

  /** The branch chain of the request handler, in its order. */
  function Route(url: string, verb: string, token: Option<string>, sessions: map<string, string>)
    : (d: Decision)
    ensures (url == "/" || url == "/home") ==>
              (d == Redirect("/login") <==> !Authenticated(sessions, token))
    ensures (url == "/" || url == "/home") && Authenticated(sessions, token) ==>
              d == Render(HomeView(sessions[token.value]))
    ensures url == "/login" && verb == "GET" ==>
              (d == Redirect("/") <==> Authenticated(sessions, token))
    ensures url == "/login" && verb == "GET" && !Authenticated(sessions, token) ==>
              d == Render(LoginView)
    ensures url == "/login" && verb == "POST" <==> d == HandleLogin
    ensures url == "/logout" <==> d == HandleLogout
    ensures url in StaticAssets <==> d == Asset(url)
    ensures url == "/login" && verb != "GET" && verb != "POST" ==> d == NotFound
    ensures url !in KnownUrls ==> d == NotFound
    ensures d.Render? && d.view.HomeView? ==> Authenticated(sessions, token)
    ensures d.Redirect? ==> d.location == "/" || d.location == "/login"
  {
    if url == "/" || url == "/home" then
      if !Authenticated(sessions, token) then Redirect("/login")
      else Render(HomeView(sessions[token.value]))
    else if url == "/styles.css" || url == "/imgs/about.png" || url == "/imgs/submit.png" then
      Asset(url)
    else if url == "/login" && verb == "GET" then
      if Authenticated(sessions, token) then Redirect("/") else Render(LoginView)
    else if url == "/login" && verb == "POST" then
      HandleLogin
    else if url == "/logout" then
      HandleLogout
    else
      NotFound
  }

  /** The whole request handler over the session table. `freshToken` is the session id
      the server would generate for a successful login. */
  method Handle(table: SessionTable, req: Request, accounts: map<string, Account>,
                md5: string -> string, freshToken: string)
    returns (resp: Response)
    modifies table
    ensures match Route(req.url, req.verb, req.token, old(table.sessions))
      case Render(v) => resp == Page(v) && table.sessions == old(table.sessions)
      case Redirect(l) => resp == Found(l, false) && table.sessions == old(table.sessions)
      case Asset(f) => resp == Static(f) && table.sessions == old(table.sessions)
      case NotFound => resp == PageNotFound && table.sessions == old(table.sessions)
      case HandleLogout =>
        && resp == Found("/", true)
        && !Authenticated(table.sessions, req.token)
        && table.sessions == (if req.token.Some? && req.token.value != "" then old(table.sessions) - {req.token.value}
                              else old(table.sessions))
      case HandleLogin =>
        var accepted := CheckCredentials(accounts, req.body.username, req.body.password, md5).Some?;
        && resp.SessionReply?
        && (accepted ==> resp.sessionId == Some(freshToken)
                         && table.sessions == old(table.sessions)[freshToken := req.body.username])
        && (!accepted ==> resp.sessionId == None && table.sessions == old(table.sessions))
    ensures Status(resp) == 302 ==> resp.location == "/" || resp.location == "/login"
  {
    var d := Route(req.url, req.verb, req.token, table.sessions);
    match d
    case Render(v) => resp := Page(v);
    case Redirect(l) => resp := Found(l, false);
    case Asset(f) => resp := Static(f);
    case NotFound => resp := PageNotFound;
    case HandleLogout =>
      table.Logout(req.token);
      resp := Found("/", true);
    case HandleLogin =>
      var sessionId, _ := table.Login(accounts, req.body.username, req.body.password, md5, freshToken);
      resp := SessionReply(sessionId);
  }

  /** A session that login stored for a non-empty token and a non-empty user name opens
      the home page and turns the login page away. */
  lemma LoginGrantsAccess(sessions: map<string, string>, token: string, user: string, verb: string)
    requires token != "" && user != ""
    ensures Route("/", verb, Some(token), sessions[token := user]) == Render(HomeView(user))
    ensures Route("/home", verb, Some(token), sessions[token := user]) == Render(HomeView(user))
    ensures Route("/login", "GET", Some(token), sessions[token := user]) == Redirect("/")
  {
    assert Authenticated(sessions[token := user], Some(token));
  }

  /** An account whose user name is empty can log in and receives a token, but the session
      stored for it maps to a falsy name, so the token never opens the home page. */
  lemma EmptyUserNameNeverAuthenticates(sessions: map<string, string>, token: string, verb: string)
    ensures Route("/", verb, Some(token), sessions[token := ""]) == Redirect("/login")
    ensures Route("/home", verb, Some(token), sessions[token := ""]) == Redirect("/login")
    ensures Route("/login", "GET", Some(token), sessions[token := ""]) == Render(LoginView)
  {
    assert !Authenticated(sessions[token := ""], Some(token));
  }

  /** A client of the session table: log in, visit the home and login pages with the new
      token, log out, and visit the home page again. */
  method LoginVisitLogout(table: SessionTable, accounts: map<string, Account>, user: string,
                          password: string, md5: string -> string, token: string)
    returns (home: Decision, login: Decision, afterLogout: Decision)
    requires token != "" && user != ""
    modifies table
    ensures CheckCredentials(accounts, user, password, md5).Some? ==>
              home == Render(HomeView(user)) && login == Redirect("/")
    ensures CheckCredentials(accounts, user, password, md5).None? && !Authenticated(old(table.sessions), Some(token)) ==>
              home == Redirect("/login") && login == Render(LoginView)
    ensures afterLogout == Redirect("/login")
    ensures table.sessions == old(table.sessions) - {token}
  {
    var sessionId, _ := table.Login(accounts, user, password, md5, token);
    if sessionId.Some? {
      LoginGrantsAccess(old(table.sessions), token, user, "GET");
    }
    home := Route("/", "GET", Some(token), table.sessions);
    login := Route("/login", "GET", Some(token), table.sessions);
    table.Logout(Some(token));
    afterLogout := Route("/", "GET", Some(token), table.sessions);
  }

  // The handler's session check as written looks the cookie up in a plain JavaScript
  // object, so every property inherited from Object.prototype is "present" and truthy.

  /** `cookies.sessionId && sessions[cookies.sessionId]` with JavaScript's property lookup:
      an own entry must be a non-empty user name, an inherited property is always truthy. */
  predicate AuthenticatedAsWritten(sessions: map<string, string>, token: Option<string>)
  {
    && token.Some? && token.value != ""
    && ((token.value in sessions && sessions[token.value] != "")
        || (token.value !in sessions && token.value in ObjectPrototypeKeys))
  }

  /** A forged cookie `sessionId=toString` passes the session check as written on an
      empty table, although no one has logged in; the own-entry check refuses it. */
  lemma ForgedPrototypeCookie()
    ensures AuthenticatedAsWritten(map[], Some("toString"))
    ensures !Authenticated(map[], Some("toString"))
    ensures Route("/", "GET", Some("toString"), map[]) == Redirect("/login")
  {
    assert "toString" in ObjectPrototypeKeys;
  }

  /** The two checks agree on every token that is not an inherited property name, and the
      own-entry check only ever lets in a token that some login put in the table. */
  lemma AuthenticatedRefinesAsWritten(sessions: map<string, string>, token: Option<string>)
    ensures Authenticated(sessions, token) ==> AuthenticatedAsWritten(sessions, token)
    ensures token.Some? && token.value !in ObjectPrototypeKeys ==>
              (Authenticated(sessions, token) <==> AuthenticatedAsWritten(sessions, token))
    ensures Authenticated(sessions, token) ==> token.Some? && token.value in sessions
  {
  }
}
