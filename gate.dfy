/** The auth gate and the routing at the top of `handleRequest`: the HTTPS
    requirement, the special paths, the HTTP Basic credentials (close to
    section 2 of RFC 7617) with the `token` query parameter as a password
    fallback, and the exact comparison with the configured credentials. */
module Gate {
  import opened Types
  import opened Text

  /** An incoming request, after the host has parsed its URL. Header names
      are lower-case (the Fetch API's `Headers` is case-insensitive); `query`
      maps each query parameter to its first value, which is what
      `searchParams.get` and `searchParams.has` see. `decodedAuth` is what
      `atob` returns for the second space-separated word of the
      `Authorization` header, or `None` when `atob` throws. */
  datatype Request = Request(
    protocol: string,
    pathname: string,
    query: map<string, string>,
    headers: map<string, string>,
    decodedAuth: Option<string>)

  /** The worker's environment; `None` is a variable that is not set
      (`undefined`). */
  datatype Env = Env(user: Option<string>, password: Option<string>, apiKey: Option<string>)

  /** The result of `parseBasicAuth`; `None` is an absent property
      (`undefined`). */
  datatype Credentials = Credentials(username: Option<string>, password: Option<string>)

  /** How the gate ends: a response, an exception, or admission to the
      update. */
  datatype Admission = Respond(response: Response) | Throw(failure: Failure) | Admitted

  const HttpsRequired := BadRequest("Please use a HTTPS connection.")
  const InvalidAuthorization := BadRequest("Invalid authorization value.")
  const NoContent := Response(204, None, NullBody, map[])
  const NotFound := Response(404, None, Text("Not Found."), map[])
  const BadAuth := Response(401, None, Text("badauth"), map["WWW-Authenticate" := "Basic"])

  function Get(m: map<string, string>, key: string): Option<string> {
    if key in m then Some(m[key]) else None
  }

  /** `requireHttps`: the URL scheme must be `https:` and the
      `x-forwarded-proto` header exactly `https`. */
  function RequireHttps(req: Request): (r: Result<()>)
    ensures r.Ok? <==> req.protocol == "https:" && Get(req.headers, "x-forwarded-proto") == Some("https")
    ensures r.Err? ==> r.error == HttpsRequired
  {
    if req.protocol != "https:" || Get(req.headers, "x-forwarded-proto") != Some("https") then Err(HttpsRequired)
    else Ok(())
  }

  /** `parseBasicAuth`: no header gives no credentials; a decoded value
      without a colon or with a control character is a bad request;
      otherwise the value is split at its first colon. */
  function ParseBasicAuth(req: Request): (r: Result<Credentials>)
    ensures "authorization" !in req.headers ==> r == Ok(Credentials(None, None))
    ensures "authorization" in req.headers && req.decodedAuth.None? ==> r == Err(HostError("InvalidCharacterError"))
    ensures "authorization" in req.headers && req.decodedAuth.Some? ==>
      var decoded := req.decodedAuth.value;
      && (r.Err? <==> ':' !in decoded || HasControl(decoded))
      && (r.Err? ==> r.error == InvalidAuthorization)
      && (r.Ok? ==> && r.value.username.Some? && r.value.password.Some?
                    && ':' !in r.value.username.value
                    && r.value.username.value + ":" + r.value.password.value == decoded)
  {
    if "authorization" !in req.headers then Ok(Credentials(None, None))
    else match req.decodedAuth
      case None => Err(HostError("InvalidCharacterError"))
      case Some(decoded) =>
        var index := IndexOf(decoded, ':');
        if index == -1 || HasControl(decoded) then Err(InvalidAuthorization)
        else
          assert decoded == decoded[..index] + ":" + decoded[index + 1..];
          Ok(Credentials(Some(decoded[..index]), Some(decoded[index + 1..])))
  }

  /** `password || searchParams.get("token")`: the Basic password when it is
      a non-empty string, the `token` parameter otherwise (`None` here is
      `null`, a missing parameter). */
  function EffectivePassword(creds: Credentials, query: map<string, string>): (p: Option<string>)
    ensures creds.password.Some? && creds.password.value != "" ==> p == creds.password
    ensures (creds.password.None? || creds.password == Some("")) ==> p == Get(query, "token")
  {
    if creds.password.Some? && creds.password.value != "" then creds.password else Get(query, "token")
  }

  /** `env.BASIC_AUTH_USER !== username || env.BASIC_AUTH_PASSWORD !== password`
      is false: strict equality of the user (both may be `undefined`) and of
      the password (a configured string against a string; `undefined` never
      equals the `null` of a missing token). */
  predicate Matches(env: Env, creds: Credentials, password: Option<string>) {
    env.user == creds.username && env.password.Some? && env.password == password
  }

  /** Lines 126-157 of `handleRequest`: HTTPS first, then the special paths,
      the `/update` suffix, the presence of some credential, and the
      comparison. */
  function Admit(req: Request, env: Env): (a: Admission)
    ensures a.Admitted? ==>
      && RequireHttps(req).Ok?
      && EndsWith(req.pathname, "/update")
      && ("authorization" in req.headers || "token" in req.query)
      && ParseBasicAuth(req).Ok?
      && Matches(env, ParseBasicAuth(req).value, EffectivePassword(ParseBasicAuth(req).value, req.query))
    ensures a.Respond? ==> a.response.status in {204, 401, 404}
  {
    if RequireHttps(req).Err? then Throw(HttpsRequired)
    else if req.pathname == "/favicon.ico" || req.pathname == "/robots.txt" then Respond(NoContent)
    else if !EndsWith(req.pathname, "/update") then Respond(NotFound)
    else if "authorization" !in req.headers && "token" !in req.query then Respond(NotFound)
    else match ParseBasicAuth(req)
      case Err(f) => Throw(f)
      case Ok(creds) =>
        if !Matches(env, creds, EffectivePassword(creds, req.query)) then Respond(BadAuth)
        else Admitted
  }

  /** HTTPS is checked before anything else: a plain-HTTP request is a bad
      request whatever its path, even `/favicon.ico`. */
  lemma PlainHttpIsBadRequest(req: Request, env: Env)
    requires req.protocol != "https:" || Get(req.headers, "x-forwarded-proto") != Some("https")
    ensures Admit(req, env) == Throw(BadRequest("Please use a HTTPS connection."))
  {
  }

  /** Over HTTPS, `/favicon.ico` and `/robots.txt` get 204 with a null body
      whatever the credentials. */
  lemma SpecialPathsNoContent(req: Request, env: Env)
    requires RequireHttps(req).Ok?
    requires req.pathname in {"/favicon.ico", "/robots.txt"}
    ensures Admit(req, env).Respond? && Admit(req, env).response.status == 204
    ensures Admit(req, env).response.body == NullBody
  {
  }

  /** A path that does not end in `/update`, or a request that carries
      neither an `Authorization` header nor a `token` parameter, gets the same
      404, so the endpoint is not revealed to unauthenticated probes. */
  lemma UnknownOrAnonymousIsNotFound(req: Request, env: Env)
    requires RequireHttps(req).Ok?
    requires req.pathname != "/favicon.ico" && req.pathname != "/robots.txt"
    requires !EndsWith(req.pathname, "/update") || ("authorization" !in req.headers && "token" !in req.query)
    ensures Admit(req, env) == Respond(Response(404, None, Text("Not Found."), map[]))
  {
  }

  /** Valid Basic credentials that do not match the configuration, with no
      `token` parameter, get 401 `badauth` with the Basic challenge. */
  lemma MismatchIsUnauthorized(req: Request, env: Env, user: string, password: string)
    requires RequireHttps(req).Ok? && EndsWith(req.pathname, "/update")
    requires "authorization" in req.headers && "token" !in req.query
    requires req.decodedAuth == Some(user + ":" + password)
    requires ':' !in user && !HasControl(user + ":" + password)
    requires env.user != Some(user) || env.password != Some(password) || password == ""
    ensures Admit(req, env).Respond?
    ensures Admit(req, env).response == Response(401, None, Text("badauth"), map["WWW-Authenticate" := "Basic"])
  {
    var decoded := user + ":" + password;
    assert decoded[|user|] == ':';
    var i := IndexOf(decoded, ':');
    assert i == |user| by {
      assert decoded[..|user|] == user;
    }
    assert decoded[..i] == user && decoded[i + 1..] == password;
    assert ParseBasicAuth(req) == Ok(Credentials(Some(user), Some(password)));
    assert req.pathname != "/favicon.ico" && req.pathname != "/robots.txt";
  }

  /** Access is granted exactly when the username from the Basic header and
      the effective password equal the configured ones. */
  lemma AdmittedIffCredentialsMatch(req: Request, env: Env)
    requires RequireHttps(req).Ok? && EndsWith(req.pathname, "/update")
    requires "authorization" in req.headers || "token" in req.query
    requires ParseBasicAuth(req).Ok?
    ensures Admit(req, env).Admitted? <==>
      var creds := ParseBasicAuth(req).value;
      && env.user == creds.username
      && env.password.Some?
      && env.password == EffectivePassword(creds, req.query)
  {
    assert req.pathname != "/favicon.ico" && req.pathname != "/robots.txt";
  }

  /** A token-only client is refused whenever a user is configured: without
      an `Authorization` header the username is `undefined`, which never
      equals a configured user, so even the right token gets 401. */
  lemma TokenOnlyClientRefusedWhenUserSet(req: Request, env: Env)
    requires RequireHttps(req).Ok? && EndsWith(req.pathname, "/update")
    requires "authorization" !in req.headers && "token" in req.query
    requires env.user.Some?
    ensures Admit(req, env) == Respond(BadAuth)
  {
    assert req.pathname != "/favicon.ico" && req.pathname != "/robots.txt";
    assert ParseBasicAuth(req) == Ok(Credentials(None, None));
  }

  /** A token-only client (duckdns style): with no `Authorization` header and
      no configured user, a `token` equal to the configured password is
      admitted. */
  lemma TokenOnlyClientAdmitted(req: Request, env: Env, token: string)
    requires RequireHttps(req).Ok? && EndsWith(req.pathname, "/update")
    requires "authorization" !in req.headers && Get(req.query, "token") == Some(token)
    requires env.user.None? && env.password == Some(token)
    ensures Admit(req, env).Admitted?
  {
    assert req.pathname != "/favicon.ico" && req.pathname != "/robots.txt";
  }
}
