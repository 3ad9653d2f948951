/** `handleRequest` as a whole and the worker's `fetch` entry point: the gate,
    the normaliser and the engine in sequence, with every exception turned
    into a plain-text error response by the `catch` of `fetch`. The provider's
    state before the request is an input and its state afterwards an output. */
module Handler {
  import opened Types
  import opened Text
  import opened Domain
  import opened Gate
  import opened Normalizer
  import opened Provider
  import opened Engine

  /** Where the synchronous part of `handleRequest` leaves a request: an
      early response, an exception, or an update to hand to `informAPI`. */
  datatype Decision = Answer(response: Response) | Raise(failure: Failure) | Inform(update: UpdateRequest)

  const PlainText := map["Content-Type" := "text/plain;charset=UTF-8", "Cache-Control" := "no-store"]

  /** The response to a successful update. */
  const Good := Response(200, None, Text("good"), PlainText)

  /** Lines 126-173 of `handleRequest`, up to the call of `informAPI`: the
      gate, then the normaliser. */
  function Prepare(req: Request, env: Env): (d: Decision)
    ensures d.Inform? <==> Admit(req, env).Admitted? && Normalize(req).Ok?
    ensures d.Inform? ==>
      && RequireHttps(req).Ok? && EndsWith(req.pathname, "/update") && ParseBasicAuth(req).Ok?
      && Matches(env, ParseBasicAuth(req).value, EffectivePassword(ParseBasicAuth(req).value, req.query))
      && |d.update.hostnames| >= 1
      && d.update.ip == Trim(FirstNonEmpty(IpSources(req.query, req.headers)).value)
      && (d.update.proxied <==> "proxied" in req.query)
    ensures d.Inform? ==> d.update == Normalize(req).value
    ensures Admit(req, env).Admitted? && Normalize(req).Err? ==> d == Raise(MissingParameters)
    ensures Admit(req, env).Respond? ==> d == Answer(Admit(req, env).response)
    ensures Admit(req, env).Throw? ==> d == Raise(Admit(req, env).failure)
  {
    match Admit(req, env)
    case Respond(response) => Answer(response)
    case Throw(f) => Raise(f)
    case Admitted =>
      match Normalize(req)
      case Err(f) => Raise(f)
      case Ok(u) => Inform(u)
  }

  /** What `handleRequest` resolves to (a response) or rejects with (an
      exception), and the provider's state afterwards. */
  function Handle(req: Request, env: Env, provider: Store): (Result<Response>, Store) {
    AfterDecision(Prepare(req, env), provider)
  }

  /** The rest of `handleRequest` once the decision is taken: an update runs
      the batch and answers `good` when it succeeds. */
  function AfterDecision(d: Decision, provider: Store): (Result<Response>, Store) {
    match d
    case Answer(response) => (Ok(response), provider)
    case Raise(f) => (Err(f), provider)
    case Inform(u) =>
      var run := Reconcile(provider, u.hostnames, u.ip, u.proxied);
      (if run.outcome.Ok? then Ok(Good) else Err(run.outcome.error), run.store)
  }

  /** The `catch` of `fetch`: `err.status || 500` and `err.statusText ||
      null` from the exception classes of lines 1-16, whose `status` is 400
      for a bad request and 500 for a provider failure; host errors carry
      neither. The body is the error's stack text, since neither class sets
      the `reason` property the handler reads first. */
  function ErrorResponse(f: Failure): (r: Response)
    ensures r.status == 400 <==> f.BadRequest?
    ensures r.status == 500 <==> !f.BadRequest?
    ensures f.BadRequest? ==> r.statusText == Some("Bad Request")
    ensures f.ApiError? ==> r.statusText == Some("Internal Server Error")
    ensures f.HostError? ==> r.statusText.None?
    ensures r.body == Diagnostic && r.headers == PlainText
  {
    match f
    case BadRequest(_) => Response(400, Some("Bad Request"), Diagnostic, PlainText)
    case ApiError(_) => Response(500, Some("Internal Server Error"), Diagnostic, PlainText)
    case HostError(_) => Response(500, None, Diagnostic, PlainText)
  }

  /** `fetch`: the response the worker sends and the provider's state
      afterwards. */
  function Serve(req: Request, env: Env, provider: Store): (Response, Store) {
    var handled := Handle(req, env, provider);
    (match handled.0 case Ok(response) => response case Err(f) => ErrorResponse(f), handled.1)
  }

  /** `fetch` for each kind of decision: the early response, the error
      response of the exception, or the outcome of the batch. */
  lemma ServeByDecision(req: Request, env: Env, provider: Store)
    ensures match Prepare(req, env)
      case Answer(response) => Serve(req, env, provider) == (response, provider)
      case Raise(f) => Serve(req, env, provider) == (ErrorResponse(f), provider)
      case Inform(u) =>
        var run := Reconcile(provider, u.hostnames, u.ip, u.proxied);
        Serve(req, env, provider) == (if run.outcome.Ok? then Good else ErrorResponse(run.outcome.error), run.store)
  {
  }

  /** `handleRequest`: a fresh client over the provider runs the update. */
  method HandleRequest(req: Request, env: Env, provider: Store) returns (outcome: Result<Response>, after: Store)
    requires WellFormed(provider)
    ensures (outcome, after) == Handle(req, env, provider)
    ensures WellFormed(after)
  {
    var decision := Prepare(req, env);
    outcome, after := Conclude(decision, env, provider);
  }

  /** Lines 175-184: a fresh client over the provider runs `informAPI`, and
      success is answered with `good`. */
  method Conclude(decision: Decision, env: Env, provider: Store) returns (outcome: Result<Response>, after: Store)
    requires WellFormed(provider)
    ensures (outcome, after) == AfterDecision(decision, provider)
    ensures WellFormed(after)
  {
    match decision
    case Answer(response) =>
      outcome, after := Ok(response), provider;
    case Raise(f) =>
      outcome, after := Err(f), provider;
    case Inform(u) =>
      var cloudflare := new Cloudflare(env.apiKey, provider);
      var informed := InformApi(cloudflare, u.hostnames, u.ip, u.proxied);
      outcome := if informed.Ok? then Ok(Good) else Err(informed.error);
      after := cloudflare.Snapshot();
  }

  /** `fetch`: `handleRequest` with its exceptions caught. */
  method Fetch(req: Request, env: Env, provider: Store) returns (response: Response, after: Store)
    requires WellFormed(provider)
    ensures (response, after) == Serve(req, env, provider)
    ensures WellFormed(after)
  {
    var outcome;
    outcome, after := HandleRequest(req, env, provider);
    match outcome
    case Ok(r) =>
      response := r;
    case Err(f) =>
      response := ErrorResponse(f);
  }

  /** A plain-HTTP request gets 400 whatever its path and credentials, and
      the provider sees no call. */
  lemma PlainHttpGets400(req: Request, env: Env, provider: Store)
    requires req.protocol != "https:" || Get(req.headers, "x-forwarded-proto") != Some("https")
    ensures Serve(req, env, provider).0.status == 400
    ensures Serve(req, env, provider).1 == provider
  {
    PlainHttpIsBadRequest(req, env);
  }

  /** A request the gate does not admit never reaches the provider, and never
      gets the 200 of a successful update. */
  lemma UnadmittedTouchesNothing(req: Request, env: Env, provider: Store)
    requires !Admit(req, env).Admitted?
    ensures Serve(req, env, provider).1 == provider
    ensures Serve(req, env, provider).0.status != 200
  {
  }

  /** An admitted request without a usable hostname or IP gets 400, and the
      provider sees no call. */
  lemma MissingParametersGets400(req: Request, env: Env, provider: Store)
    requires Admit(req, env).Admitted?
    requires || (FirstNonEmpty(HostnameAliases(req.query)).None? && "domains" !in req.query)
             || FirstNonEmpty(IpSources(req.query, req.headers)).None?
    ensures Serve(req, env, provider).0.status == 400
    ensures Serve(req, env, provider).1 == provider
  {
  }

  /** When the zone lookup for the first hostname fails, the response is a
      500 and the provider has seen exactly that one `findZone` call: no
      record call for this hostname or any later one. */
  lemma ZoneFailureGives500(req: Request, env: Env, provider: Store)
    requires Prepare(req, env).Inform?
    requires FindZoneReply(provider, RootDomain(Prepare(req, env).update.hostnames[0])).0.Err?
    ensures Serve(req, env, provider).0.status == 500
    ensures Serve(req, env, provider).1 == provider.(log := provider.log + [FindZoneCall(RootDomain(Prepare(req, env).update.hostnames[0]))])
  {
    var u := Prepare(req, env).update;
    ServeByDecision(req, env, provider);
    FirstZoneFailureEndsBatch(provider, u.hostnames, u.ip, u.proxied);
  }

  /** The worker answers 200 exactly when the request was admitted and
      normalised and the whole batch went through. */
  lemma GoodIffBatchSucceeds(req: Request, env: Env, provider: Store)
    ensures Serve(req, env, provider).0.status == 200 <==>
      && Prepare(req, env).Inform?
      && var u := Prepare(req, env).update;
         Reconcile(provider, u.hostnames, u.ip, u.proxied).outcome.Ok?
  {
    ServeByDecision(req, env, provider);
    match Prepare(req, env)
    case Answer(response) =>
      assert Admit(req, env) == Respond(response);
    case Raise(f) =>
    case Inform(u) =>
  }

  /** Every hostname has a record of the type with the IP and the flag, in
      the first zone of `zones` named after its root domain. */
  ghost predicate ResolvedInFirstZones(zones: seq<Zone>, records: seq<DnsRecord>, hostnames: seq<string>, ip: string, proxied: bool) {
    forall i :: 0 <= i < |hostnames| ==>
      exists zone ::
        && FirstZoneNamed(zones, RootDomain(hostnames[i])) == Some(zone)
        && Resolves(records, zone.id, hostnames[i], RecordType(ip), ip, proxied)
  }

  /** After a successful batch every hostname has a record of the batch's
      type with the IP and the flag, in the account's first zone named after
      its root domain. */
  lemma BatchResolvesInFirstZone(st: Store, hostnames: seq<string>, ip: string, proxied: bool)
    requires Reconcile(st, hostnames, ip, proxied).outcome.Ok?
    ensures ResolvedInFirstZones(st.zones, Reconcile(st, hostnames, ip, proxied).store.records, hostnames, ip, proxied)
  {
    var run := Reconcile(st, hostnames, ip, proxied);
    SuccessfulBatchResolves(st, hostnames, ip, proxied);
    forall i | 0 <= i < |hostnames|
      ensures exists zone ::
        && FirstZoneNamed(st.zones, RootDomain(hostnames[i])) == Some(zone)
        && Resolves(run.store.records, zone.id, hostnames[i], RecordType(ip), ip, proxied)
    {
      var zone := run.cache[RootDomain(hostnames[i])];
      assert FirstZoneNamed(st.zones, RootDomain(hostnames[i])) == Some(zone);
    }
  }

  /** A 200 means the request was admitted and every hostname it named now
      has a record of the batch's type with the IP and the requested flag,
      in the account's first zone named after its root domain. */
  lemma GoodMeansResolved(req: Request, env: Env, provider: Store)
    requires Serve(req, env, provider).0.status == 200
    ensures Admit(req, env).Admitted? && Normalize(req).Ok?
    ensures var u := Normalize(req).value;
      ResolvedInFirstZones(provider.zones, Serve(req, env, provider).1.records, u.hostnames, u.ip, u.proxied)
  {
    GoodIffBatchSucceeds(req, env, provider);
    ServeByDecision(req, env, provider);
    var u := Prepare(req, env).update;
    assert u == Normalize(req).value;
    BatchResolvesInFirstZone(provider, u.hostnames, u.ip, u.proxied);
  }
}
