/**
 * What the worker promises, stated over the handler functions: the order of
 * the POST checks and that a rejected request leaves the namespace alone,
 * the bounded collision search, the single write on success, the round
 * trip from a created short link back through GET, and the dispatcher's
 * routing.
 */
module WorkerProperties {
  import opened Wrappers
  import opened Http
  import opened Renderer
  import opened Json
  import opened ShortCode
  import opened Kv
  import opened Worker

  // ---------------------------------------------------------------- GET

  /** An empty path redirects to the default URL whatever the namespace holds. */
  lemma GetEmptyPath(req: Request, env: Env, store: Store)
    requires PathOf(req.url.pathname) == ""
    ensures Get(req, env, store) == Redirect(env.defaultUrl, env.htmlRedirect)
    ensures Destination(Get(req, env, store)) == Some(env.defaultUrl)
  {
    RedirectReachesTarget(env.defaultUrl, env.htmlRedirect);
  }

  /**
   * A non-empty path is resolved through the namespace: a non-empty stored
   * target is followed exactly, an absent or empty one falls back to the
   * default URL.
   */
  lemma GetResolves(req: Request, env: Env, store: Store)
    requires PathOf(req.url.pathname) != "" && !store.readFault
    ensures var path := PathOf(req.url.pathname);
            Get(req, env, store) ==
              Redirect(if Vacant(store.entries, path) then env.defaultUrl else store.entries[path], env.htmlRedirect)
    ensures var path := PathOf(req.url.pathname);
            Destination(Get(req, env, store)) ==
              Some(if Vacant(store.entries, path) then env.defaultUrl else store.entries[path])
  {
    var path := PathOf(req.url.pathname);
    if Vacant(store.entries, path) {
      RedirectReachesTarget(env.defaultUrl, env.htmlRedirect);
    } else {
      RedirectReachesTarget(store.entries[path], env.htmlRedirect);
    }
  }

  /** A namespace that throws on a lookup gives a bare 500. */
  lemma GetStoreFault(req: Request, env: Env, store: Store)
    requires PathOf(req.url.pathname) != "" && store.readFault
    ensures Get(req, env, store) == InternalServerError
  {
  }

  // ---------------------------------------------------------------- POST

  /**
   * The source's two-step header check (present, starts with `Bearer `,
   * then the rest equals the token) accepts exactly one header value.
   */
  lemma BearerCheck(auth: Option<string>, token: string)
    ensures (!MalformedAuth(auth) && auth.value[|BearerPrefix|..] == token)
            <==> auth == Some(BearerPrefix + token)
  {
    if auth == Some(BearerPrefix + token) {
      assert auth.value[..|BearerPrefix|] == BearerPrefix;
      assert auth.value[|BearerPrefix|..] == token;
    }
    if !MalformedAuth(auth) && auth.value[|BearerPrefix|..] == token {
      assert auth.value == auth.value[..|BearerPrefix|] + auth.value[|BearerPrefix|..];
    }
  }

  /** A request that passes every check of the write handler. */
  predicate Accepted(req: Request, env: Env, isUrl: string -> bool) {
    && env.apiToken != ""
    && req.authorization == Some(BearerPrefix + env.apiToken)
    && req.body.Parsed?
    && req.body.url.Some? && req.body.url.value != ""
    && isUrl(req.body.url.value)
  }

  /** Without a configured token every POST is a 500 that changes nothing. */
  lemma PostNeedsToken(req: Request, env: Env, store: Store, rolls: seq<real>, isUrl: string -> bool)
    requires CanDraw(rolls) && env.apiToken == ""
    ensures Post(req, env, store, rolls, isUrl) == Outcome(InternalServerError, store.entries)
  {
  }

  /**
   * With a token configured, a POST is answered 401 (with
   * `WWW-Authenticate: Bearer`) exactly when its header is not
   * `Bearer <token>`; such a request never reaches the body, the URL check
   * or the namespace, so the outcome depends on none of them.
   */
  lemma PostAuthentication(req: Request, env: Env, store: Store, rolls: seq<real>, isUrl: string -> bool)
    requires CanDraw(rolls) && env.apiToken != ""
    ensures req.authorization != Some(BearerPrefix + env.apiToken)
            ==> Post(req, env, store, rolls, isUrl) == Outcome(Unauthorized, store.entries)
    ensures Post(req, env, store, rolls, isUrl).response == Unauthorized
            ==> req.authorization != Some(BearerPrefix + env.apiToken)
  {
    BearerCheck(req.authorization, env.apiToken);
    if req.authorization == Some(BearerPrefix + env.apiToken) {
      var r := Post(req, env, store, rolls, isUrl).response;
      if r == Unauthorized {
        assert false;
      }
    }
  }

  /**
   * Once authenticated, the body is checked in order: JSON, then a
   * non-empty `url`, then URL syntax; each failure is its own 400 and
   * leaves the namespace unchanged.
   */
  lemma PostValidation(req: Request, env: Env, store: Store, rolls: seq<real>, isUrl: string -> bool)
    requires CanDraw(rolls) && env.apiToken != ""
    requires req.authorization == Some(BearerPrefix + env.apiToken)
    ensures req.body.Unparsable?
            ==> Post(req, env, store, rolls, isUrl) == Outcome(BadJson, store.entries)
    ensures req.body.Parsed? && (req.body.url.None? || req.body.url.value == "")
            ==> Post(req, env, store, rolls, isUrl) == Outcome(MissingUrl, store.entries)
    ensures req.body.Parsed? && req.body.url.Some? && req.body.url.value != "" && !isUrl(req.body.url.value)
            ==> Post(req, env, store, rolls, isUrl) == Outcome(InvalidUrl, store.entries)
    ensures Accepted(req, env, isUrl)
            ==> Post(req, env, store, rolls, isUrl) == Allocate(req.url.origin, req.body.url.value, store, rolls)
  {
    BearerCheck(req.authorization, env.apiToken);
  }

  /**
   * When all ten candidates are taken the request fails with 500 and no
   * `put` happens.
   */
  lemma PostExhausted(req: Request, env: Env, store: Store, rolls: seq<real>, isUrl: string -> bool)
    requires CanDraw(rolls) && Accepted(req, env, isUrl) && !store.readFault
    requires forall k :: 0 <= k < MaxAttempts ==> !Vacant(store.entries, Candidate(rolls, k))
    ensures Post(req, env, store, rolls, isUrl) == Outcome(InternalServerError, store.entries)
  {
    PostValidation(req, env, store, rolls, isUrl);
    var cands := Candidates(rolls);
    assert forall j :: 0 <= j < |cands| ==> !Vacant(store.entries, cands[j]);
  }

  /** A namespace that throws, on `get` or on `put`, gives 500 and no change. */
  lemma PostStoreFault(req: Request, env: Env, store: Store, rolls: seq<real>, isUrl: string -> bool)
    requires CanDraw(rolls) && Accepted(req, env, isUrl)
    requires store.readFault || store.writeFault
    ensures Post(req, env, store, rolls, isUrl) == Outcome(InternalServerError, store.entries)
  {
    PostValidation(req, env, store, rolls, isUrl);
  }

  /**
   * Success: the first vacant candidate (a six-character code from the
   * alphabet) is bound to the submitted URL and nothing else changes, every
   * existing link survives, and the 200 JSON body names the short URL
   * (origin, `/`, code) and the original URL.
   */
  lemma PostSuccess(req: Request, env: Env, store: Store, rolls: seq<real>, isUrl: string -> bool)
    requires CanDraw(rolls) && Accepted(req, env, isUrl)
    requires !store.readFault && !store.writeFault
    requires exists k :: 0 <= k < MaxAttempts && Vacant(store.entries, Candidate(rolls, k))
    ensures FirstVacant(store.entries, Candidates(rolls)).Some?
    ensures var code := Candidates(rolls)[FirstVacant(store.entries, Candidates(rolls)).value];
            var url := req.body.url.value;
            var o := Post(req, env, store, rolls, isUrl);
            && IsCode(code, DefaultLength)
            && Vacant(store.entries, code)
            && o.entries == store.entries[code := url]
            && o.response.status == 200
            && o.response.headers == map["Content-Type" := "application/json"]
            && ParseShortUrlBody(o.response.body) == Some((req.url.origin + "/" + code, url))
    ensures var o := Post(req, env, store, rolls, isUrl);
            forall key :: key in store.entries && store.entries[key] != ""
              ==> key in o.entries && o.entries[key] == store.entries[key]
  {
    PostValidation(req, env, store, rolls, isUrl);
    var cands := Candidates(rolls);
    var k :| 0 <= k < MaxAttempts && Vacant(store.entries, Candidate(rolls, k));
    assert Vacant(store.entries, cands[k]);
    var code := cands[FirstVacant(store.entries, cands).value];
    ShortUrlBodyRoundTrip(req.url.origin + "/" + code, req.body.url.value);
  }

  /** Two namespaces that agree on which candidates are vacant lead to the same candidate. */
  lemma {:induction false} FirstVacantAgrees(e1: map<string, string>, e2: map<string, string>, cands: seq<string>)
    requires forall j :: 0 <= j < |cands| ==> Vacant(e1, cands[j]) == Vacant(e2, cands[j])
    ensures FirstVacant(e1, cands) == FirstVacant(e2, cands)
  {
    if cands != [] && !Vacant(e1, cands[0]) {
      FirstVacantAgrees(e1, e2, cands[1..]);
    }
  }

  /**
   * POST looks the namespace up at the ten candidate keys and nowhere else:
   * namespaces that agree there get the same response.
   */
  lemma PostReadsOnlyCandidates(req: Request, env: Env, s1: Store, s2: Store, rolls: seq<real>, isUrl: string -> bool)
    requires CanDraw(rolls)
    requires s1.readFault == s2.readFault && s1.writeFault == s2.writeFault
    requires forall k :: 0 <= k < MaxAttempts ==> Vacant(s1.entries, Candidate(rolls, k)) == Vacant(s2.entries, Candidate(rolls, k))
    ensures Post(req, env, s1, rolls, isUrl).response == Post(req, env, s2, rolls, isUrl).response
  {
    FirstVacantAgrees(s1.entries, s2.entries, Candidates(rolls));
  }

  /** POST draws at most ten six-character codes: later random values are never used. */
  lemma PostDrawsAtMostTenCodes(req: Request, env: Env, store: Store, rolls: seq<real>, isUrl: string -> bool)
    requires CanDraw(rolls)
    ensures CanDraw(rolls[..MaxAttempts * DefaultLength])
    ensures Post(req, env, store, rolls, isUrl) == Post(req, env, store, rolls[..MaxAttempts * DefaultLength], isUrl)
  {
    var prefix := rolls[..MaxAttempts * DefaultLength];
    forall k | 0 <= k < MaxAttempts
      ensures Candidate(rolls, k) == Candidate(prefix, k)
    {
      assert rolls[k * DefaultLength..(k + 1) * DefaultLength]
          == prefix[k * DefaultLength..(k + 1) * DefaultLength];
    }
    assert Candidates(rolls) == Candidates(prefix);
  }

  /**
   * The path of the short URL in a success body, relative to `origin`;
   * "" when the body is not one.
   */
  function ShortLinkPath(origin: string, body: string): string {
    match ParseShortUrlBody(body)
    case None => ""
    case Some((short, _)) =>
      if StartsWith(short, origin) then short[|origin|..] else ""
  }

  /**
   * A POST answered 200 was accepted, found a free path and wrote it.
   */
  lemma PostCreated(req: Request, env: Env, store: Store, rolls: seq<real>, isUrl: string -> bool)
    requires CanDraw(rolls)
    requires Post(req, env, store, rolls, isUrl).response.status == 200
    ensures Accepted(req, env, isUrl) && !store.writeFault && SearchPath(store, rolls).Free?
    ensures var code := SearchPath(store, rolls).code;
            Post(req, env, store, rolls, isUrl)
              == Outcome(Created(req.url.origin, code, req.body.url.value),
                         store.entries[code := req.body.url.value])
  {
    BearerCheck(req.authorization, env.apiToken);
  }

  /**
   * Round trip: after a successful POST, a GET of the returned short URL's
   * path on the updated namespace is a redirect from which the submitted
   * URL is read back.
   */
  lemma ShortLinkRoundTrip(req: Request, env: Env, store: Store, rolls: seq<real>, isUrl: string -> bool,
                           later: Request, laterStore: Store)
    requires CanDraw(rolls)
    requires Post(req, env, store, rolls, isUrl).response.status == 200
    requires later.url.pathname == ShortLinkPath(req.url.origin, Post(req, env, store, rolls, isUrl).response.body)
    requires laterStore.entries == Post(req, env, store, rolls, isUrl).entries && !laterStore.readFault
    ensures req.body.Parsed? && req.body.url.Some?
    ensures Destination(Get(later, env, laterStore)) == Some(req.body.url.value)
  {
    PostCreated(req, env, store, rolls, isUrl);
    var code := SearchPath(store, rolls).code;
    var url := req.body.url.value;
    CreatedPath(req.url.origin, code, url);
    assert laterStore.entries == store.entries[code := url];
    GetResolves(later, env, laterStore);
  }

  /** The short URL of a success body is the origin, `/` and the code. */
  lemma CreatedPath(origin: string, code: string, url: string)
    ensures ShortLinkPath(origin, Created(origin, code, url).body) == "/" + code
    ensures PathOf("/" + code) == code
  {
    var short := origin + "/" + code;
    assert StartsWith(short, origin);
    assert short[|origin|..] == "/" + code;
  }

  // ---------------------------------------------------------------- fetch

  /** Missing namespace binding or default URL: 500 before any routing. */
  lemma DispatchMisconfigured(req: Request, env: Env, store: Store, rolls: seq<real>, isUrl: string -> bool)
    requires CanDraw(rolls) && (!env.kvBound || env.defaultUrl == "")
    ensures Dispatch(req, env, store, rolls, isUrl) == Outcome(InternalServerError, store.entries)
  {
  }

  /** Routing sees the method only through its upper-cased form. */
  lemma DispatchIgnoresCase(req: Request, verb: string, env: Env, store: Store, rolls: seq<real>, isUrl: string -> bool)
    requires CanDraw(rolls) && UpperCase(req.verb) == UpperCase(verb)
    ensures Dispatch(req, env, store, rolls, isUrl) == Dispatch(req.(verb := verb), env, store, rolls, isUrl)
  {
  }

  /** `get` routes like `GET`, and `post` like `POST`. */
  lemma LowerCaseMethods(req: Request, env: Env, store: Store, rolls: seq<real>, isUrl: string -> bool)
    requires CanDraw(rolls)
    ensures Dispatch(req.(verb := "get"), env, store, rolls, isUrl) == Dispatch(req.(verb := "GET"), env, store, rolls, isUrl)
    ensures Dispatch(req.(verb := "post"), env, store, rolls, isUrl) == Dispatch(req.(verb := "POST"), env, store, rolls, isUrl)
  {
    assert UpperCase("get") == "GET";
    assert UpperCase("post") == "POST";
  }

  /**
   * A configured worker sends GET to the read handler and POST to the
   * write handler, and answers every other method 405 with
   * `Allow: GET, POST`; 405 comes from nowhere else.
   */
  lemma DispatchRoutes(req: Request, env: Env, store: Store, rolls: seq<real>, isUrl: string -> bool)
    requires CanDraw(rolls) && env.kvBound && env.defaultUrl != ""
    ensures UpperCase(req.verb) == "GET"
            ==> Dispatch(req, env, store, rolls, isUrl) == Outcome(Get(req, env, store), store.entries)
    ensures UpperCase(req.verb) == "POST"
            ==> Dispatch(req, env, store, rolls, isUrl) == Post(req, env, store, rolls, isUrl)
    ensures Dispatch(req, env, store, rolls, isUrl).response.status == 405
            <==> UpperCase(req.verb) != "GET" && UpperCase(req.verb) != "POST"
    ensures UpperCase(req.verb) != "GET" && UpperCase(req.verb) != "POST"
            ==> Dispatch(req, env, store, rolls, isUrl) == Outcome(MethodNotAllowed, store.entries)
  {
    if UpperCase(req.verb) == "POST" {
      if Accepted(req, env, isUrl) {
        PostValidation(req, env, store, rolls, isUrl);
      }
    }
  }

  /**
   * The namespace changes only through a POST that answers 200, and then by
   * one new binding.
   */
  lemma DispatchWritesOnlyOnCreate(req: Request, env: Env, store: Store, rolls: seq<real>, isUrl: string -> bool)
    requires CanDraw(rolls)
    ensures var o := Dispatch(req, env, store, rolls, isUrl);
            o.entries != store.entries
            ==> && UpperCase(req.verb) == "POST" && o.response.status == 200
                && Accepted(req, env, isUrl)
                && FirstVacant(store.entries, Candidates(rolls)).Some?
                && o.entries == store.entries[Candidates(rolls)[FirstVacant(store.entries, Candidates(rolls)).value]
                                              := req.body.url.value]
  {
    var o := Dispatch(req, env, store, rolls, isUrl);
    if o.entries != store.entries {
      assert UpperCase(req.verb) == "POST" && env.kvBound && env.defaultUrl != "";
      assert o == Post(req, env, store, rolls, isUrl);
      BearerCheck(req.authorization, env.apiToken);
    }
  }
}
