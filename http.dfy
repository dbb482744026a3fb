/** Requests and responses as the middleware sees them, abstracted from
    the ASGI plumbing. */
module Http {
  import opened Json

  /** An inbound request. Header names are held in lower case, the way the
      case-insensitive header lookup finds them; `query` is the query string,
      `body` the decoded request body and `clientIp` the peer's address,
      when the server knows it. */
  datatype Request = Request(
    httpMethod: string,
    path: string,
    query: string,
    headers: map<string, string>,
    body: string,
    clientIp: Option<string>)

  /** `request.headers.get(name)`. */
  function Header(r: Request, name: string): Option<string>
  {
    if name in r.headers then Some(r.headers[name]) else None
  }

  const ApiKeyHeader := "x-api-key"

  /** `str.startswith(prefix)`. */
  predicate StartsWith(s: string, prefix: string)
  {
    |prefix| <= |s| && s[..|prefix|] == prefix
  }

  /** A JSON response produced by a middleware instead of the application. */
  datatype Response = Response(status: int, content: Json)

  /** `{"detail": message}`, the body FastAPI gives an HTTPException. */
  function Detail(status: int, message: string): Response
  {
    Response(status, JObj(map["detail" := JStr(message)]))
  }

  /** Two error responses are the same only with the same status and
      message. */
  lemma DetailInjective()
    ensures forall s1, m1, s2, m2 :: Detail(s1, m1) == Detail(s2, m2) ==> s1 == s2 && m1 == m2
  {
    forall s1, m1, s2, m2 | Detail(s1, m1) == Detail(s2, m2)
      ensures s1 == s2 && m1 == m2
    {
      assert Detail(s1, m1).content.fields["detail"] == JStr(m1);
      assert Detail(s2, m2).content.fields["detail"] == JStr(m2);
    }
  }

  /** What the application sends back through the ASGI `send` callable:
      an optional response start (status and headers) and the body chunks.
      Headers are a map: their order and repeated names are not kept. */
  datatype Start = Start(status: int, headers: map<string, string>)
  datatype Sent = Sent(start: Option<Start>, chunks: seq<string>)
}
