/** The administrator credential checks: `checkAdmin` of the serverless functions,
    `requireAdmin` and the start-up guard of the Express server, the two login
    handlers, and the weaker "starts with `Bearer `" test of the recruiters and
    leads endpoints. All of them compare one shared secret; none looks at the
    scheme word of section 2.1 of RFC 6750. */
module AdminAuth {
  import opened Optional
  import opened Text
  import opened Js
  import opened Http

  /** Request headers by name; a name absent from the map reads as `undefined`. */
  type Headers = map<string, string>

  function Header(h: Headers, name: string): Option<string> {
    if name in h then Some(h[name]) else None
  }

  lemma {:induction false} OccurrencesPositive(s: string, c: char)
    ensures Occurrences(s, c) > 0 <==> c in s
    decreases |s|
  {
    if s != [] {
      OccurrencesPositive(s[1..], c);
      assert s == [s[0]] + s[1..];
    }
  }

  /** `header.split(' ')[1]`: the text between the first space and the next space
      (or the end); `undefined` (None) when the header holds no space. */
  function TokenOf(header: string): (t: Option<string>)
    ensures t.None? <==> ' ' !in header
    ensures t.Some? ==> ' ' !in t.value
  {
    SplitCount(header, ' ');
    OccurrencesPositive(header, ' ');
    SplitPiecesAvoidSeparator(header, ' ');
    var parts := Split(header, ' ');
    if |parts| > 1 then Some(parts[1]) else None
  }

  /** Whatever word comes first, the token is the word after the first space. */
  lemma TokenOfWords(scheme: string, token: string, rest: string)
    requires ' ' !in scheme && ' ' !in token
    requires rest == "" || rest[0] == ' '
    ensures TokenOf(scheme + " " + token + rest) == Some(token)
  {
    assert scheme + " " + token + rest == scheme + [' '] + (token + rest);
    SplitAtFirstSeparator(scheme, ' ', token + rest);
    if rest == "" {
      assert token + rest == token;
      SplitWithoutSeparator(token, ' ');
    } else {
      assert token + rest == token + [' '] + rest[1..];
      SplitAtFirstSeparator(token, ' ', rest[1..]);
    }
  }

  /** `token` is the second space-separated word of `header`, starting after the
      space at index `i`, which is the first space of the header. */
  predicate SecondWordAt(header: string, token: string, i: int) {
    && 0 <= i && i + 1 + |token| <= |header|
    && ' ' !in header[..i] && header[i] == ' '
    && header[i + 1..i + 1 + |token|] == token
    && (i + 1 + |token| == |header| || header[i + 1 + |token|] == ' ')
  }

  /** The converse: a token found in a header sits right after the header's first
      space and is followed by the end or by another space. */
  lemma TokenOfShape(header: string, token: string)
    requires TokenOf(header) == Some(token)
    ensures exists i :: SecondWordAt(header, token, i)
  {
    var parts := Split(header, ' ');
    SplitPiecesAvoidSeparator(header, ' ');
    JoinSplit(header, ' ');
    var i := |parts[0]|;
    var tail := Join(parts[1..], ' ');
    assert header == parts[0] + [' '] + tail;
    assert parts[1..][0] == token;
    if |parts| == 2 {
      assert tail == token;
    } else {
      assert tail == token + [' '] + Join(parts[2..], ' ');
    }
    assert header[..i] == parts[0];
    assert header[i + 1..i + 1 + |token|] == token;
    assert SecondWordAt(header, token, i);
  }

  /** A header whose second word is `token` yields `token`. */
  lemma TokenOfFromShape(header: string, token: string, i: int)
    requires ' ' !in token
    requires SecondWordAt(header, token, i)
    ensures TokenOf(header) == Some(token)
  {
    assert header == header[..i] + " " + token + header[i + 1 + |token|..];
    TokenOfWords(header[..i], token, header[i + 1 + |token|..]);
  }

  // ---------------------------------------------------------------------------
  // checkAdmin (serverless functions)

  /** `req.headers['authorization'] || req.headers['Authorization']`, None when falsy. */
  function AuthHeader(h: Headers): (a: Option<string>)
    ensures a.Some? ==> a.value != ""
    ensures a.Some? ==> a == Header(h, "authorization") || a == Header(h, "Authorization")
    ensures a.None? ==> Header(h, "authorization") in {None, Some("")}
  {
    var lower := Header(h, "authorization");
    if lower.Some? && lower.value != "" then lower
    else
      var upper := Header(h, "Authorization");
      if upper.Some? && upper.value != "" then upper else None
  }

  /** `checkAdmin(req)`: the token after the header's first space is strictly equal to
      `ADMIN_PASSWORD` (`secret`, None when unset). The scheme word is never read. */
  function CheckAdmin(h: Headers, secret: Option<string>): (ok: bool)
    ensures AuthHeader(h).None? ==> !ok
    ensures ok && secret.Some? ==> ' ' !in secret.value
    ensures ok && secret.None? ==> ' ' !in AuthHeader(h).value
  {
    var a := AuthHeader(h);
    a.Some? && TokenOf(a.value) == secret
  }

  /** Any scheme word passes: "Basic <secret>" is as good as "Bearer <secret>". */
  lemma CheckAdminAnyScheme(h: Headers, scheme: string, secret: string)
    requires ' ' !in scheme && ' ' !in secret
    requires Header(h, "authorization") == Some(scheme + " " + secret)
    ensures CheckAdmin(h, Some(secret))
  {
    assert scheme + " " + secret == scheme + " " + secret + "";
    TokenOfWords(scheme, secret, "");
  }

  /** Exactly which headers `checkAdmin` accepts for a configured secret: the header it
      reads has the secret as its second space-separated word. */
  lemma CheckAdminExactly(h: Headers, secret: string)
    requires ' ' !in secret
    ensures CheckAdmin(h, Some(secret)) <==>
              AuthHeader(h).Some? && exists i :: SecondWordAt(AuthHeader(h).value, secret, i)
  {
    if CheckAdmin(h, Some(secret)) {
      TokenOfShape(AuthHeader(h).value, secret);
    }
    if AuthHeader(h).Some? && exists i :: SecondWordAt(AuthHeader(h).value, secret, i) {
      var i :| SecondWordAt(AuthHeader(h).value, secret, i);
      TokenOfFromShape(AuthHeader(h).value, secret, i);
    }
  }

  /** With `ADMIN_PASSWORD` unset, any present header without a space is accepted,
      since its missing second field is `undefined` too. */
  lemma CheckAdminUnsetSecret(h: Headers)
    ensures CheckAdmin(h, None) <==> AuthHeader(h).Some? && ' ' !in AuthHeader(h).value
  {
  }

  // ---------------------------------------------------------------------------
  // The Express server: start-up guard, requireAdmin, /api/login

  /** The configuration the Express server runs with once it has started. */
  datatype ServerConfig = ServerConfig(adminPassword: string)

  /** Start-up: the process exits (None) when `ADMIN_PASSWORD` is unset or empty. */
  function Startup(adminPassword: Option<string>): (cfg: Option<ServerConfig>)
    ensures cfg.Some? <==> adminPassword.Some? && adminPassword.value != ""
    ensures cfg.Some? ==> cfg.value.adminPassword == adminPassword.value
  {
    if adminPassword.Some? && adminPassword.value != "" then Some(ServerConfig(adminPassword.value))
    else None
  }

  /** An Express middleware's decision: call `next()`, or answer and stop. */
  datatype Gate = Next | Deny(response: Response)

  /** `requireAdmin`: 401 without a (non-empty) `authorization` header, 403 when the
      token after its first space is not the password, otherwise `next()`. */
  function RequireAdmin(h: Headers, cfg: ServerConfig): (g: Gate)
    ensures g == Deny(ErrorResponse(401, "Unauthorized")) <==> Header(h, "authorization") in {None, Some("")}
    ensures g.Deny? ==> g.response in {ErrorResponse(401, "Unauthorized"), ErrorResponse(403, "Forbidden")}
    ensures g.Next? <==>
              Header(h, "authorization").Some? && TokenOf(Header(h, "authorization").value) == Some(cfg.adminPassword)
  {
    var a := Header(h, "authorization");
    if a.None? || a.value == "" then Deny(ErrorResponse(401, "Unauthorized"))
    else if TokenOf(a.value) != Some(cfg.adminPassword) then Deny(ErrorResponse(403, "Forbidden"))
    else Next
  }

  /** A password holding a space can never be presented: every request is refused. */
  lemma RequireAdminSpacedPassword(h: Headers, cfg: ServerConfig)
    requires ' ' in cfg.adminPassword
    ensures RequireAdmin(h, cfg).Deny?
  {
  }

  /** `POST /api/login` of the Express server (`res.json` answers 200). */
  function ServerLogin(body: Row, cfg: ServerConfig): (r: Response)
    ensures r.status == 200 <==> Get(body, "password") == Str(cfg.adminPassword)
    ensures r.status != 200 ==> r == JsonResponse(401, map["success" := Bool(false), "error" := Str("Invalid password")])
    ensures r.status == 200 ==> r == JsonResponse(200, map["success" := Bool(true), "token" := Str(cfg.adminPassword)])
  {
    var password := Get(body, "password");
    if password == Str(cfg.adminPassword) then
      JsonResponse(200, map["success" := Bool(true), "token" := password])
    else
      JsonResponse(401, map["success" := Bool(false), "error" := Str("Invalid password")])
  }

  /** Once the server has started, a login body without a password always fails. */
  lemma ServerLoginNeedsPassword(env: Option<string>, body: Row)
    requires Startup(env).Some?
    requires "password" !in body
    ensures ServerLogin(body, Startup(env).value).status == 401
  {
  }

  /** The token the Express login hands out opens `requireAdmin` when sent as a bearer
      credential, provided the password holds no space. */
  lemma ServerLoginTokenOpensGate(body: Row, cfg: ServerConfig, h: Headers)
    requires ServerLogin(body, cfg).status == 200
    requires ' ' !in cfg.adminPassword
    requires Header(h, "authorization") == Some("Bearer " + cfg.adminPassword)
    ensures RequireAdmin(h, cfg) == Next
  {
    assert "Bearer " + cfg.adminPassword == "Bearer" + " " + cfg.adminPassword + "";
    TokenOfWords("Bearer", cfg.adminPassword, "");
  }

  // ---------------------------------------------------------------------------
  // api/login.js

  /** The serverless login handler: 405 for anything but POST; 200 with the submitted
      password as token when it is strictly equal to `ADMIN_PASSWORD`; 401 otherwise. */
  function Login(verb: string, body: Row, secret: Option<string>): (r: Response)
    ensures verb != "POST" ==> r == ErrorResponse(405, "Method Not Allowed")
    ensures r.status == 200 <==> verb == "POST" && Get(body, "password") == OfOption(secret)
    ensures r.status == 200 ==> r.body == Json(Obj(map["success" := Bool(true), "token" := OfOption(secret)]))
    ensures verb == "POST" && r.status != 200 ==>
      r == JsonResponse(401, map["success" := Bool(false), "error" := Str("Invalid password")])
  {
    if verb != "POST" then ErrorResponse(405, "Method Not Allowed")
    else
      var password := Get(body, "password");
      if StrictEqualsSecret(password, secret) then
        JsonResponse(200, map["success" := Bool(true), "token" := password])
      else
        JsonResponse(401, map["success" := Bool(false), "error" := Str("Invalid password")])
  }

  /** There is no guard against an unset secret: with `ADMIN_PASSWORD` unset, a POST
      whose body has no password logs in. */
  lemma LoginUnsetSecret(body: Row)
    requires "password" !in body
    ensures Login("POST", body, None).status == 200
  {
  }

  /** A token from a successful login, sent back as `Bearer <token>`, passes
      `checkAdmin` exactly when it holds no space. */
  lemma LoginTokenPassesCheckAdmin(body: Row, secret: string, h: Headers)
    requires Login("POST", body, Some(secret)).status == 200
    requires Header(h, "authorization") == Some("Bearer " + secret)
    ensures CheckAdmin(h, Some(secret)) <==> ' ' !in secret
  {
    if ' ' !in secret {
      assert ' ' !in "Bearer";
      assert "Bearer " + secret == "Bearer" + " " + secret;
      CheckAdminAnyScheme(h, "Bearer", secret);
    }
  }

  // ---------------------------------------------------------------------------
  // recruiters and leads endpoints

  /** `authHeader && authHeader.startsWith('Bearer ')` on `req.headers.authorization`:
      the truthiness test adds nothing to the prefix test. */
  predicate HasBearerPrefix(h: Headers): (r: bool)
    ensures r <==> Header(h, "authorization").Some? && StartsWith(Header(h, "authorization").value, "Bearer ")
  {
    var a := Header(h, "authorization");
    a.Some? && a.value != "" && StartsWith(a.value, "Bearer ")
  }

  /** No secret is compared: every value after "Bearer ", the empty one included, passes. */
  lemma BearerPrefixAcceptsAnyValue(h: Headers, anything: string)
    requires Header(h, "authorization") == Some("Bearer " + anything)
    ensures HasBearerPrefix(h)
  {
    assert ("Bearer " + anything)[..7] == "Bearer ";
  }

  /** The prefix test is case-sensitive and needs the space: a missing or empty header,
      a bare "Bearer", a lower-case "bearer " and any other scheme are all refused, even
      where `CheckAdmin` (which ignores the scheme word) would accept the same value. */
  lemma BearerPrefixRefuses(h: Headers, rest: string)
    requires Header(h, "authorization") in
               {None, Some(""), Some("Bearer"), Some("bearer " + rest), Some("Basic " + rest)}
    ensures !HasBearerPrefix(h)
  {
    var a := Header(h, "authorization");
    if a == Some("bearer " + rest) {
      assert a.value[0] == 'b';
    } else if a == Some("Basic " + rest) {
      assert a.value[1] == 'a';
    }
  }
}
