# URL-shortener worker, modelled in Dafny

A model of a Cloudflare Worker that shortens URLs. The worker is one file,
`src/index.ts`. It has two handlers. GET resolves a short path through a
key-value namespace and redirects to the stored target, or to `DEFAULT_URL`
when there is none. POST needs a bearer token. It validates a submitted URL,
tries up to ten random six-character codes until one is free, stores the
binding and answers with the short URL as JSON. A dispatcher checks the
configuration and routes by the upper-cased method.

Files and modules:

- `wrappers.dfy` (`Wrappers`): `Option` and `StartsWith`.
- `http.dfy` (`Http`): requests, responses and the fixed error responses of the worker.
- `renderer.dfy` (`Renderer`): `HTML_REDIRECT_PAGE` and `redirect`. `Destination`
  reads the target back from a redirect response: the `Location` header of a
  302, or the target of an HTML page, found by inverting the page template.
- `json.dfy` (`Json`): the success body as `JSON.stringify` writes it, with string
  escaping as ECMAScript's QuoteJSONString does it, and a reader for it.
- `short_code.dfy` (`ShortCode`): the alphabet and `generateRandomString`.
- `kv.dfy` (`Kv`): the namespace. `Store` is its state as a value. `KvNamespace`
  is a class whose `Get` and `Put` may throw.
- `worker.dfy` (`Worker`): GET (`Get`), POST (`Post`, `Allocate`, the method
  `FindFreePath` with the source's retry loop, and the method `HandlePost`) and
  the dispatcher (`Dispatch`, and the method `Fetch`).
- `worker_properties.dfy` (`WorkerProperties`): the lemmas about the handlers.

Each request is one sequential transaction over the namespace. The two
methods `HandlePost` and `Fetch` update a `KvNamespace` object. Their
postconditions equate the response and the new entries with the functions
`Post` and `Dispatch` applied to the namespace's state before the call. The
lemmas are stated about those functions.

Three facts about `src/index.ts` that the model keeps:

- The alphabet literal has 48 characters: 21 upper-case letters, 20
  lower-case letters and 7 digits.
- POST looks up at most 10 candidates. It gives up after the 10th collision.
- A stored empty string counts as "not found" for GET and as "free" for POST.
  Both test the looked-up value for truthiness.

The dispatcher looks the method up in an object literal. Every inherited key
of `Object.prototype` contains lower-case letters, so no upper-cased method
can hit one. Only `GET` and `POST` route, and the model branches on exactly
those two.

## Model

| member | source | states |
|---|---|---|
| `Renderer.HtmlRedirectPage` | src/index.ts:1-12 | the page embeds the target verbatim both in the `window.location.replace("…")` call and in the `<a href="…">` fallback; its length is a fixed overhead plus twice the target's |
| `Renderer.Redirect` | src/index.ts:14-22 | without HTML mode: 302 with `Location` equal to the target; with it: 200 with `Content-Type: text/html;charset=UTF-8` whose body holds the target in the script and in the link |
| `Renderer.RedirectReachesTarget` | src/index.ts:14-22 | in either mode the target can be read back from the response exactly: from the `Location` header, or from the page by inverting its template |
| `Renderer.PageTargetOfPage` | src/index.ts:1-12 | the target is recovered from its redirect page |
| `Renderer.HtmlRedirectPageInjective` | src/index.ts:1-12 | different targets give different pages |
| `Json.EscapeChar` | src/index.ts:121 | each character is escaped to at least one character, none of them a control character |
| `Json.Escape` | src/index.ts:121 | the escaped form of a string is at least as long as the string and holds no control character, as a JSON string literal must not |
| `Json.ShortUrlBody` | src/index.ts:121 | the success body starts with `{"short":"` and holds no control character; the escaped short URL sits right after that key, and the escaped original URL right after the closing quote and `,"original":"` |
| `Json.ReadEscaped` | src/index.ts:121 | a JSON string reader recovers any string from its escaped form, whatever follows the closing quote |
| `Json.ShortUrlBodyRoundTrip` | src/index.ts:121 | the success body `{"short":…,"original":…}` yields back both URLs verbatim |
| `ShortCode.Pick` | src/index.ts:28 | `Math.floor(Math.random() * chars.length)` is always a position inside the alphabet |
| `ShortCode.Code` | src/index.ts:24-31 | the code drawn with n random values has length n and only alphabet characters |
| `ShortCode.GenerateRandomString` | src/index.ts:24-31 | the loop returns `max(length, 0)` characters (`length` defaults to 6), each from the alphabet, the i-th one chosen by the i-th random value |
| `ShortCode.AlphabetSize` | src/index.ts:25 | the alphabet literal has 48 characters |
| `Kv.Lookup` | src/index.ts:46 | a lookup throws exactly when the namespace fails; otherwise it finds the stored value of a bound key and nothing for an unbound one |
| `Kv.Vacant` | src/index.ts:108-109 | a key is free exactly when its lookup finds nothing or finds the empty string |
| `Kv.KvNamespace.Get` | src/index.ts:46 | a lookup throws, finds the stored value, or finds nothing, and changes nothing |
| `Kv.KvNamespace.Put` | src/index.ts:117 | a put binds the key to the value and leaves all other keys alone, or throws and changes nothing |
| `Worker.PathOf` | src/index.ts:35 | the path is the pathname without its first character, and empty for an empty pathname |
| `Worker.Get` | src/index.ts:33-57 | GET answers 200, 302 or 500, and 500 exactly when the path is non-empty and the lookup throws |
| `Worker.MalformedAuth` | src/index.ts:70 | a header that passes the check is `Bearer ` followed by the token it carries |
| `Worker.Candidate` | src/index.ts:107 | each candidate short path is a six-character alphabet code |
| `Worker.Candidates` | src/index.ts:102-115 | there are exactly `MAX_ATTEMPTS` = 10 candidates, in drawing order |
| `Worker.FirstVacant` | src/index.ts:106-115 | the loop stops at the first candidate whose stored value is absent or empty; none is found only when all are taken |
| `Worker.SearchPath` | src/index.ts:102-115 | the search ends with a throw exactly when lookups throw; a path it finds is a six-character alphabet code that is free, and is the first free one among the 10 candidates in drawing order; on a healthy namespace it finds a path whenever some candidate is free, and it is exhausted only when all 10 are taken |
| `Worker.FindFreePath` | src/index.ts:102-115 | the loop draws the candidates in order and ends at the first one whose stored value is absent or empty; a throwing lookup ends it at once, and 10 collisions end it with no free path |
| `Worker.Allocate` | src/index.ts:102-129 | allocation answers 200 or 500; 200 exactly when a free path is found and the put does not throw; a 500 leaves the namespace unchanged |
| `Worker.Created` | src/index.ts:119-124 | the success response is 200 `application/json`, and its body reads back as the short URL (origin, `/`, code) and the submitted URL |
| `Worker.Post` | src/index.ts:59-130 | POST answers 200, 400, 401 or 500, and only a 200 changes the namespace |
| `Worker.HandlePost` | src/index.ts:59-130 | the POST handler with its retry loop gives exactly the response and new namespace contents of `Post` |
| `Worker.UpperCase` | src/index.ts:134 | upper-casing keeps the length of the method name, maps each lower-case ASCII letter to its upper-case counterpart (32 code points lower), leaves no lower-case ASCII letter and keeps every other character |
| `Worker.Dispatch` | src/index.ts:132-160 | the entry point answers 200, 302, 400, 401, 405 or 500, and only a method that upper-cases to `POST` can change the namespace |
| `Worker.Fetch` | src/index.ts:132-160 | the entry point gives exactly the response and new namespace contents of `Dispatch` |
| `WorkerProperties.GetEmptyPath` | src/index.ts:41-43 | an empty path redirects to `DEFAULT_URL`, whatever the namespace holds |
| `WorkerProperties.GetResolves` | src/index.ts:45-52 | a non-empty path is answered with `redirect` in the configured mode, to the stored value when it is non-empty and to `DEFAULT_URL` when it is absent or empty; that target is read back from the response |
| `WorkerProperties.GetStoreFault` | src/index.ts:53-56 | a lookup that throws gives 500 "Internal Server Error" |
| `WorkerProperties.BearerCheck` | src/index.ts:69-78 | the header checks (present, starts with `Bearer `, rest equals the token) pass exactly for `Bearer <token>` |
| `WorkerProperties.PostNeedsToken` | src/index.ts:64-67 | with no `API_TOKEN`, every POST is 500 and the namespace is unchanged |
| `WorkerProperties.PostAuthentication` | src/index.ts:69-78 | with a token configured, POST answers 401 with `WWW-Authenticate: Bearer` exactly when the header is not `Bearer <token>`; that answer does not depend on the body, the URL check or the namespace, and the namespace is unchanged |
| `WorkerProperties.PostValidation` | src/index.ts:80-100 | after authentication: invalid JSON, then a missing or empty `url`, then an unparsable URL each give their own 400 message and leave the namespace unchanged; a request that passes goes on to allocation |
| `WorkerProperties.PostExhausted` | src/index.ts:102-115 | when all 10 candidates are taken, the answer is 500 and no put happens |
| `WorkerProperties.PostStoreFault` | src/index.ts:126-128 | a throwing get or put gives 500 and leaves the namespace unchanged |
| `WorkerProperties.PostSuccess` | src/index.ts:117-124 | on success the namespace gains exactly one binding, from the first free candidate (a six-character alphabet code) to the URL, and every existing link survives; the answer is 200 `application/json` naming origin + "/" + code and the original URL |
| `WorkerProperties.PostReadsOnlyCandidates` | src/index.ts:102-115 | POST's answer depends on the namespace only at the 10 candidate keys |
| `WorkerProperties.PostDrawsAtMostTenCodes` | src/index.ts:102-115 | POST uses at most 10 × 6 random values |
| `WorkerProperties.PostCreated` | src/index.ts:117-124 | a 200 answer means the request passed every check, a free path was found and the put succeeded; the namespace then differs only at that path |
| `WorkerProperties.ShortLinkRoundTrip` | src/index.ts:117-121 | after a successful POST, a GET of the returned short URL's path answers a redirect from which the submitted URL is read back |
| `WorkerProperties.DispatchMisconfigured` | src/index.ts:138-145 | a missing namespace binding or `DEFAULT_URL` gives 500 before any routing |
| `WorkerProperties.DispatchIgnoresCase` | src/index.ts:134 | methods with the same upper-cased form are handled alike |
| `WorkerProperties.LowerCaseMethods` | src/index.ts:134-155 | `get` routes like `GET` and `post` like `POST` |
| `WorkerProperties.DispatchRoutes` | src/index.ts:147-158 | GET goes to the read handler and leaves the namespace unchanged; POST goes to the write handler; 405 with `Allow: GET, POST` is the answer to exactly the other methods |
| `WorkerProperties.DispatchWritesOnlyOnCreate` | src/index.ts:132-160 | the namespace changes only through an accepted POST that answers 200, and then only at the first free candidate |

## Left out

- `Math.random()`: the random values are the parameter `rolls`, a sequence of reals in [0, 1). POST asks for at least 60 of them (10 codes of 6 characters). Uniformity is not modelled.
- `request.json()` and WHATWG URL parsing are library calls. The body is given as already parsed: either unparsable or an optional `url` string. "`new URL(s)` does not throw" is the parameter `isUrl`.
- Non-string `url` values in the JSON body (numbers, booleans, objects) are not modelled. A falsy one behaves like a missing `url`.
- The short URL is `origin + "/" + code`. This is what `new URL('/' + code, url).href` gives for codes from the alphabet. The `new URL(request.url)` call that yields the origin and the path is not modelled.
- `Response.redirect`: the runtime's check that the target is a valid URL, and its normalisation of the `Location` value, are not modelled. The `Location` header is the target as given. In 302 mode the source's call throws on a target that does not parse. For a stored target the `catch` at src/index.ts:53-56 turns that into a 500. For `DEFAULT_URL` on an empty path (src/index.ts:41-43) the exception is not caught at all. The model answers 302 in both cases, so `Worker.Get`'s "500 exactly when the lookup throws" holds only for targets that parse.
- Headers the runtime adds by itself (`Content-Type: text/plain;charset=UTF-8` on plain-text responses) are not modelled. Header-name case-insensitivity is not modelled either.
- Store failures are two flags, one for `get` and one for `put`. They hold for the whole request. A store that fails only on some calls of the same kind is not modelled.
- Renderer.Destination: reads the target back by inverting the page template, not as a browser would. The page inserts the target unescaped into a script string and an HTML attribute. A browser would apply the script's escapes to `\`, end the string or the attribute at `"`, decode `&` entities, and could run script injected through `"` or `<`. So a target holding these characters is read back by the model but not necessarily visited.
- Lone surrogates: a Dafny `char` is a Unicode scalar value, so strings with unpaired UTF-16 surrogates, which `JSON.stringify` writes as `\udxxx`, are not modelled.
- `async`/`await`, concurrency and the check-then-put race between concurrent POSTs: each request runs as one sequential transaction.
- `console.warn`/`console.error` logging and the unused `ExecutionContext`.
- Worker.UpperCase: upper-cases ASCII letters only. HTTP method names are ASCII tokens.
- ShortCode.GenerateRandomString: the length is an integer. A fractional JavaScript number is not modelled.
- `HTML_REDIRECT` is modelled as a boolean. A non-boolean value would be taken by its truthiness in the source.
- Unset and empty `DEFAULT_URL`/`API_TOKEN` are both "". Both are falsy in the source.
