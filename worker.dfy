/**
 * The worker's request handling: the read handler (GET), the write handler
 * (POST) with its bounded search for a free short path, and the dispatcher.
 * Each request is one sequential transaction over the namespace.
 */
module Worker {
  import opened Wrappers
  import opened Http
  import opened Renderer
  import opened Json
  import opened ShortCode
  import opened Kv

  /**
   * The worker's bindings. An unset string variable and an empty one are
   * both falsy in JavaScript and are both written "" here.
   */
  datatype Env = Env(
    kvBound: bool,        // `KV_NAMESPACE_BINDING` is present
    defaultUrl: string,   // `DEFAULT_URL`
    htmlRedirect: bool,   // `HTML_REDIRECT ?? false`
    apiToken: string)     // `API_TOKEN`

  /** A response together with the namespace's entries after the request. */
  datatype Outcome = Outcome(response: Response, entries: map<string, string>)

  const MaxAttempts := 10
  const BearerPrefix := "Bearer "

  /** Enough `Math.random()` values for every candidate POST may draw. */
  predicate CanDraw(rolls: seq<real>) {
    |rolls| >= MaxAttempts * DefaultLength && AllRolls(rolls)
  }

  /** `url.pathname.substring(1)`. */
  function PathOf(pathname: string): (path: string)
    ensures pathname != [] ==> pathname == [pathname[0]] + path
    ensures pathname == [] ==> path == []
  {
    if pathname == [] then [] else pathname[1..]
  }

  // ---------------------------------------------------------------- GET

  /**
   * The read handler: a redirect in the configured mode, or a bare 500
   * exactly when a non-empty path meets a namespace that throws.
   */
  function Get(req: Request, env: Env, store: Store): (r: Response)
    ensures r.status in {200, 302, 500}
    ensures r.status == 500 <==> PathOf(req.url.pathname) != "" && store.readFault
  {
    var path := PathOf(req.url.pathname);
    if path == "" then Redirect(env.defaultUrl, env.htmlRedirect)
    else
      match Lookup(store, path)
      case Threw => InternalServerError
      case Found(target) =>
        if target != "" then Redirect(target, env.htmlRedirect)
        else Redirect(env.defaultUrl, env.htmlRedirect)
      case Missing => Redirect(env.defaultUrl, env.htmlRedirect)
  }

  // ---------------------------------------------------------------- POST

  /** The `k`-th candidate short path: `generateRandomString()` on its six rolls. */
  function Candidate(rolls: seq<real>, k: nat): (code: string)
    requires CanDraw(rolls) && k < MaxAttempts
    ensures IsCode(code, DefaultLength)
  {
    Code(rolls[k * DefaultLength..(k + 1) * DefaultLength])
  }

  /** The candidates the loop may try, in order. */
  function Candidates(rolls: seq<real>): (cs: seq<string>)
    requires CanDraw(rolls)
    ensures |cs| == MaxAttempts
    ensures forall k :: 0 <= k < MaxAttempts ==> cs[k] == Candidate(rolls, k)
  {
    seq(MaxAttempts, k requires 0 <= k < MaxAttempts => Candidate(rolls, k))
  }

  /** The position of the first vacant candidate, if there is one. */
  function FirstVacant(entries: map<string, string>, cands: seq<string>): (r: Option<nat>)
    ensures r.Some? ==> r.value < |cands| && Vacant(entries, cands[r.value])
    ensures r.Some? ==> forall j :: 0 <= j < r.value ==> !Vacant(entries, cands[j])
    ensures r.None? ==> forall j :: 0 <= j < |cands| ==> !Vacant(entries, cands[j])
  {
    if cands == [] then None
    else if Vacant(entries, cands[0]) then Some(0)
    else
      match FirstVacant(entries, cands[1..])
      case None => None
      case Some(i) => Some(i + 1)
  }

  /**
   * The success response for short path `code`: a JSON body from which the
   * short URL (origin, `/`, code) and the target are read back.
   */
  function Created(origin: string, code: string, target: string): (r: Response)
    ensures r.status == 200 && r.headers == map["Content-Type" := "application/json"]
    ensures ParseShortUrlBody(r.body) == Some((origin + "/" + code, target))
  {
    ShortUrlBodyRoundTrip(origin + "/" + code, target);
    Response(200, map["Content-Type" := "application/json"],
             ShortUrlBody(origin + "/" + code, target))
  }

  /**
   * `!authHeader || !authHeader.startsWith('Bearer ')`: a header that passes
   * is the prefix followed by the token it carries.
   */
  function MalformedAuth(auth: Option<string>): (malformed: bool)
    ensures !malformed ==> auth.Some? && |BearerPrefix| <= |auth.value|
                           && auth.value == BearerPrefix + auth.value[|BearerPrefix|..]
  {
    if auth.None? || auth.value == "" || !StartsWith(auth.value, BearerPrefix) then true
    else
      assert auth.value == auth.value[..|BearerPrefix|] + auth.value[|BearerPrefix|..];
      false
  }

  /** `!urlToShorten`. */
  predicate MissingTarget(body: JsonBody)
    requires body.Parsed?
  {
    body.url.None? || body.url.value == ""
  }

  /** How the search for a free short path ends. */
  datatype Search = Free(code: string) | Exhausted | StoreThrew

  /**
   * The collision loop: the first vacant candidate, unless the lookup
   * throws or all candidates are taken.
   */
  function SearchPath(store: Store, rolls: seq<real>): (r: Search)
    requires CanDraw(rolls)
    ensures r.StoreThrew? <==> store.readFault
    ensures r.Free? ==> IsCode(r.code, DefaultLength) && Vacant(store.entries, r.code)
    ensures r.Exhausted? ==> forall k :: 0 <= k < MaxAttempts ==> !Vacant(store.entries, Candidate(rolls, k))
    ensures r.Free? ==> exists k :: 0 <= k < MaxAttempts && r.code == Candidate(rolls, k)
                                   && forall j :: 0 <= j < k ==> !Vacant(store.entries, Candidate(rolls, j))
    ensures !store.readFault && (exists k :: 0 <= k < MaxAttempts && Vacant(store.entries, Candidate(rolls, k)))
            ==> r.Free?
  {
    if store.readFault then StoreThrew
    else
      match FirstVacant(store.entries, Candidates(rolls))
      case None => Exhausted
      case Some(k) =>
        assert Candidates(rolls)[k] == Candidate(rolls, k);
        Free(Candidates(rolls)[k])
  }

  /** The `do … while (true)` loop of POST, which only reads the namespace. */
  method FindFreePath(kv: KvNamespace, rolls: seq<real>) returns (result: Search)
    requires CanDraw(rolls)
    ensures result == SearchPath(kv.View(), rolls)
  {
    ghost var cands := Candidates(rolls);
    var attempts := 0;
    while true
      invariant 0 <= attempts < MaxAttempts
      invariant forall j :: 0 <= j < attempts ==> !Vacant(kv.entries, cands[j])
      decreases MaxAttempts - attempts
    {
      var shortPath := GenerateRandomString(rolls[attempts * DefaultLength..]);
      assert rolls[attempts * DefaultLength..][..DefaultLength]
          == rolls[attempts * DefaultLength..(attempts + 1) * DefaultLength];
      assert shortPath == cands[attempts];
      var existingUrl := kv.Get(shortPath);
      if existingUrl.Threw? {
        return StoreThrew;
      }
      if existingUrl.Missing? || existingUrl.value == "" {
        assert FirstVacant(kv.entries, cands) == Some(attempts);
        return Free(shortPath);
      }
      attempts := attempts + 1;
      if attempts >= MaxAttempts {
        assert FirstVacant(kv.entries, cands) == None;
        return Exhausted;
      }
    }
  }

  /**
   * The collision loop, the `put` and the success response, once the
   * request has passed every check.
   */
  function Allocate(origin: string, target: string, store: Store, rolls: seq<real>): (o: Outcome)
    requires CanDraw(rolls)
    ensures o.response.status in {200, 500}
    ensures o.response.status == 200 <==> SearchPath(store, rolls).Free? && !store.writeFault
    ensures o.response.status == 500 ==> o == Outcome(InternalServerError, store.entries)
  {
    match SearchPath(store, rolls)
    case StoreThrew => Outcome(InternalServerError, store.entries)
    case Exhausted => Outcome(InternalServerError, store.entries)
    case Free(code) =>
      if store.writeFault then Outcome(InternalServerError, store.entries)
      else Outcome(Created(origin, code, target), store.entries[code := target])
  }

  /**
   * The write handler. `isUrl` stands for "`new URL(s)` does not throw".
   */
  function Post(req: Request, env: Env, store: Store, rolls: seq<real>, isUrl: string -> bool): (o: Outcome)
    requires CanDraw(rolls)
    ensures o.response.status in {200, 400, 401, 500}
    ensures o.response.status != 200 ==> o.entries == store.entries
  {
    if env.apiToken == "" then Outcome(InternalServerError, store.entries)
    else if MalformedAuth(req.authorization) then Outcome(Unauthorized, store.entries)
    else if req.authorization.value[|BearerPrefix|..] != env.apiToken then Outcome(Unauthorized, store.entries)
    else if req.body.Unparsable? then Outcome(BadJson, store.entries)
    else if MissingTarget(req.body) then Outcome(MissingUrl, store.entries)
    else if !isUrl(req.body.url.value) then Outcome(InvalidUrl, store.entries)
    else Allocate(req.url.origin, req.body.url.value, store, rolls)
  }

  /** `POST` over the namespace object, with the `do … while` loop of the source. */
  method HandlePost(req: Request, env: Env, kv: KvNamespace, rolls: seq<real>, isUrl: string -> bool)
    returns (r: Response)
    requires CanDraw(rolls)
    modifies kv
    ensures Outcome(r, kv.entries) == Post(req, env, old(kv.View()), rolls, isUrl)
  {
    if env.apiToken == "" {
      return InternalServerError;
    }
    var authHeader := req.authorization;
    if MalformedAuth(authHeader) {
      return Unauthorized;
    }
    var token := authHeader.value[|BearerPrefix|..];
    if token != env.apiToken {
      return Unauthorized;
    }
    if req.body.Unparsable? {
      return BadJson;
    }
    if MissingTarget(req.body) {
      return MissingUrl;
    }
    var urlToShorten := req.body.url.value;
    if !isUrl(urlToShorten) {
      return InvalidUrl;
    }

    var search := FindFreePath(kv, rolls);
    if !search.Free? {
      return InternalServerError;
    }
    var shortPath := search.code;
    var stored := kv.Put(shortPath, urlToShorten);
    if !stored {
      return InternalServerError;
    }
    r := Created(req.url.origin, shortPath, urlToShorten);
  }

  // ---------------------------------------------------------------- fetch

  /** ASCII `toUpperCase` of one character. */
  function UpperChar(c: char): char {
    if 'a' <= c <= 'z' then (c as int - 32) as char else c
  }

  /** `String.prototype.toUpperCase` on an HTTP method token. */
  function UpperCase(s: string): (u: string)
    ensures |u| == |s|
    ensures forall i :: 0 <= i < |u| ==> !('a' <= u[i] <= 'z')
    ensures forall i :: 0 <= i < |s| && 'a' <= s[i] <= 'z' ==> u[i] as int == s[i] as int - 32
    ensures forall i :: 0 <= i < |s| && !('a' <= s[i] <= 'z') ==> u[i] == s[i]
  {
    seq(|s|, i requires 0 <= i < |s| => UpperChar(s[i]))
  }

  /** The dispatcher: configuration checks, then routing by upper-cased method. */
  function Dispatch(req: Request, env: Env, store: Store, rolls: seq<real>, isUrl: string -> bool): (o: Outcome)
    requires CanDraw(rolls)
    ensures o.response.status in {200, 302, 400, 401, 405, 500}
    ensures UpperCase(req.verb) != "POST" ==> o.entries == store.entries
  {
    var verb := UpperCase(req.verb);
    if !env.kvBound || env.defaultUrl == "" then Outcome(InternalServerError, store.entries)
    else if verb == "GET" then Outcome(Get(req, env, store), store.entries)
    else if verb == "POST" then Post(req, env, store, rolls, isUrl)
    else Outcome(MethodNotAllowed, store.entries)
  }

  /** `fetch`, the worker's entry point, over the namespace object. */
  method Fetch(req: Request, env: Env, kv: KvNamespace, rolls: seq<real>, isUrl: string -> bool)
    returns (r: Response)
    requires CanDraw(rolls)
    modifies kv
    ensures Outcome(r, kv.entries) == Dispatch(req, env, old(kv.View()), rolls, isUrl)
  {
    var verb := UpperCase(req.verb);
    if !env.kvBound || env.defaultUrl == "" {
      return InternalServerError;
    }
    if verb == "GET" {
      r := Get(req, env, kv.View());
    } else if verb == "POST" {
      r := HandlePost(req, env, kv, rolls, isUrl);
    } else {
      r := MethodNotAllowed;
    }
  }
}
