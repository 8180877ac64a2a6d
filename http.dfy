/**
 * The HTTP values the worker exchanges with the runtime: requests as the
 * handlers see them and responses as status, headers and body.
 */
module Http {
  import opened Wrappers

  type Headers = map<string, string>

  datatype Response = Response(status: nat, headers: Headers, body: string)

  /**
   * The parts of `new URL(request.url)` the handlers use: the origin
   * (scheme, host and port) and the path, which for an http(s) URL always
   * starts with `/`.
   */
  datatype RequestUrl = RequestUrl(origin: string, pathname: string)

  /**
   * What `await request.json()` gives the write handler: either the parse
   * throws, or it yields a value whose `url` property (`body?.url`) is
   * absent (`None`) or a string.
   */
  datatype JsonBody = Unparsable | Parsed(url: Option<string>)

  datatype Request = Request(
    verb: string,                   // `request.method`
    url: RequestUrl,
    authorization: Option<string>,  // `request.headers.get('Authorization')`
    body: JsonBody)

  const InternalServerError := Response(500, map[], "Internal Server Error")

  const Unauthorized := Response(401, map["WWW-Authenticate" := "Bearer"], "Unauthorized")

  const BadJson := Response(400, map[], "Bad Request: Empty or invalid JSON request body")

  const MissingUrl := Response(400, map[], "Bad Request: Missing \"url\" in request body")

  const InvalidUrl := Response(400, map[], "Bad Request: Invalid URL format in request body")

  const MethodNotAllowed := Response(405, map["Allow" := "GET, POST"], "Method Not Allowed")
}
