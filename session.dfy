/** The browser side of the administrator session: the token kept in sessionStorage
    under 'adminToken', the login page that stores it, the `RequireAuth` gate in
    front of the dashboard and the `SecurityGuard` that drops the token when the
    user leaves the administrator pages. */
module Session {
  import opened Optional
  import opened Text
  import opened Js
  import opened Http
  import opened AdminAuth

  const AdminPath := "/admin"
  const LoginPath := "/login"

  /** `isAdminRoute` of `SecurityGuard`: the equality test adds nothing to the prefix
      test. */
  predicate IsAdminRoute(path: string): (r: bool)
    ensures r <==> StartsWith(path, AdminPath)
  {
    StartsWith(path, AdminPath) || path == AdminPath
  }

  /** Any path that merely begins with the letters of "/admin" counts as an
      administrator page. */
  lemma AdminRouteIsPrefix()
    ensures IsAdminRoute("/administrator") && IsAdminRoute("/admin/x") && !IsAdminRoute("/adm")
  {
  }

  /** `sessionStorage.getItem('adminToken')` as a condition: null and "" are falsy, and
      any other stored text, "undefined" and "null" included, is a token. */
  predicate HasToken(token: Option<string>): (r: bool)
    ensures r <==> Truthy(OfOption(token))
    ensures token == Some("undefined") || token == Some("null") ==> r
  {
    token.Some? && token.value != ""
  }

  /** The stored token after `SecurityGuard` has run for `path`. */
  function GuardedToken(token: Option<string>, path: string): (t: Option<string>)
    ensures IsAdminRoute(path) ==> t == token
    ensures !IsAdminRoute(path) ==> !HasToken(t)
    ensures !HasToken(token) ==> t == token
    ensures HasToken(token) && !IsAdminRoute(path) ==> t.None?
  {
    if !IsAdminRoute(path) && HasToken(token) then None else token
  }

  /** Running the guard again on the same path changes nothing. */
  lemma GuardIdempotent(token: Option<string>, path: string)
    ensures GuardedToken(GuardedToken(token, path), path) == GuardedToken(token, path)
  {
  }

  /** Leaving the administrator pages locks the dashboard: whatever happens on the
      other pages, `RequireAuth` redirects on the way back until a new login. */
  lemma GuardLocksDashboard(token: Option<string>, away: string, from: string)
    requires !IsAdminRoute(away)
    ensures RequireAuth(GuardedToken(token, away), from).Redirect?
  {
  }

  /** What `RequireAuth` renders. */
  datatype View =
    | Redirect(to: string, replace: bool, from: string)   // <Navigate to state={{ from }} replace />
    | Render                                               // its children

  /** `RequireAuth`: any stored non-empty token lets the children render; its value is
      never checked. Without one the user is sent to the login page, replacing the
      history entry and remembering where they came from. */
  function RequireAuth(token: Option<string>, location: string): (v: View)
    ensures v == Render <==> HasToken(token)
    ensures v.Redirect? ==> v == Redirect(LoginPath, true, location)
  {
    if HasToken(token) then Render else Redirect(LoginPath, true, location)
  }

  /** How the login request ended, as `handleSubmit` sees it: the parsed JSON body,
      or an exception from `fetch` or `res.json()`. */
  datatype LoginReply = Answered(data: Value) | Threw

  const InvalidCredentials := "Invalid credentials"
  const LoginFailed := "Login failed"

  /** The token `handleSubmit` leaves stored: `setItem` stores `String(data.token)`
      when `data.success` is truthy. */
  function TokenAfterLogin(token: Option<string>, reply: LoginReply): (t: Option<string>)
    ensures reply.Answered? && Truthy(Prop(reply.data, "success")) ==> t == Some(JsString(Prop(reply.data, "token")))
    ensures !(reply.Answered? && Truthy(Prop(reply.data, "success"))) ==> t == token
  {
    if reply.Answered? && Truthy(Prop(reply.data, "success")) then Some(JsString(Prop(reply.data, "token")))
    else token
  }

  /** The error message `handleSubmit` leaves shown. A null body makes `data.success`
      throw, and the catch shows the same message as a failed request. */
  function LoginError(reply: LoginReply): (e: string)
    ensures e == "" <==> reply.Answered? && Truthy(Prop(reply.data, "success"))
    ensures e == LoginFailed <==> reply.Threw? || NoProperties(reply.data)
    ensures e == InvalidCredentials <==>
              reply.Answered? && !NoProperties(reply.data) && !Truthy(Prop(reply.data, "success"))
  {
    match reply
    case Threw => LoginFailed
    case Answered(data) =>
      if NoProperties(data) then LoginFailed
      else if Truthy(Prop(data, "success")) then "" else InvalidCredentials
  }

  /** The browser state the session logic reads and writes. */
  class Browser {
    var adminToken: Option<string>   // sessionStorage 'adminToken'; None when absent
    var path: string                 // location.pathname
    var loginError: string           // the login page's `error`

    constructor (start: string)
      ensures adminToken.None? && path == start && loginError == ""
    {
      adminToken, path, loginError := None, start, "";
    }

    /** A location change: the router moves to `to`, then `SecurityGuard`'s effect runs. */
    method Navigate(to: string)
      modifies this`path, this`adminToken
      ensures path == to
      ensures adminToken == GuardedToken(old(adminToken), to)
    {
      path := to;
      if !IsAdminRoute(path) {
        if HasToken(adminToken) {
          adminToken := None;
        }
      }
    }

    /** `handleSubmit` of the login page. */
    method SubmitLogin(reply: LoginReply)
      modifies this
      ensures adminToken == TokenAfterLogin(old(adminToken), reply)
      ensures loginError == LoginError(reply)
      ensures path == (if loginError == "" then AdminPath else old(path))
    {
      loginError := "";
      if reply.Threw? || NoProperties(reply.data) {
        loginError := LoginFailed;
        return;
      }
      var data := reply.data;
      if Truthy(Prop(data, "success")) {
        adminToken := Some(JsString(Prop(data, "token")));
        Navigate(AdminPath);
      } else {
        loginError := InvalidCredentials;
      }
    }
  }

  /** A successful Express login opens the dashboard: the stored token is the
      password, so `RequireAuth` renders. */
  lemma ServerLoginOpensDashboard(body: Row, cfg: ServerConfig, old_token: Option<string>, location: string)
    requires ServerLogin(body, cfg).status == 200
    ensures TokenAfterLogin(old_token, Answered(ServerLogin(body, cfg).body.value)) == Some(cfg.adminPassword)
    ensures RequireAuth(Some(cfg.adminPassword), location) == Render <==> cfg.adminPassword != ""
  {
  }

  /** With `ADMIN_PASSWORD` unset on the serverless side, an empty login form gets in:
      the reply carries no token, and `setItem` stores the text "undefined", which
      `RequireAuth` accepts. */
  lemma UnsetSecretOpensDashboard(body: Row, old_token: Option<string>, location: string)
    requires "password" !in body
    ensures Login("POST", body, None).status == 200
    ensures TokenAfterLogin(old_token, Answered(Login("POST", body, None).body.value)) == Some("undefined")
    ensures RequireAuth(Some("undefined"), location) == Render
  {
  }
}
