/** The response cache: a fingerprint of the request names a store entry
    that holds a successful response for a fixed time to live. */
module ResponseCaching {
  import opened Json
  import opened Http
  import KeyValue

  /** `CacheConfig`. */
  datatype CacheConfig = CacheConfig(ttl: int, enabled: bool, excludedPaths: seq<string>)

  const DefaultConfig := CacheConfig(300, true, ["/api/v1/health"])

  // ---------------------------------------------------------------------
  // The fingerprint
  // ---------------------------------------------------------------------

  /** The `X-API-Key` header, or "" when there is none. */
  function ApiKeyOf(req: Request): string
  {
    if ApiKeyHeader in req.headers then req.headers[ApiKeyHeader] else ""
  }

  /** The body is part of the fingerprint of POST and PUT requests only. */
  function KeyBody(req: Request): string
  {
    if req.httpMethod in ["POST", "PUT"] then req.body else ""
  }

  /** `_get_cache_key` with the request body available, as the comment in
      its body intends: the key starts with `cache:` and ends with the
      body of a POST or PUT. */
  function CacheKey(req: Request): (k: string)
    ensures |k| >= 6 + |KeyBody(req)| && k[..6] == "cache:"
    ensures k[|k| - |KeyBody(req)|..] == KeyBody(req)
  {
    "cache:" + ApiKeyOf(req) + ":" + req.httpMethod + ":" + req.path + ":" + req.query + ":" + KeyBody(req)
  }

  /** `_get_cache_key` as `__call__` runs it. The request it builds from the
      scope alone has no receive channel, so reading the body of a POST or
      PUT raises before the application runs; None stands for that error. */
  function KeyAsWritten(req: Request): (k: Option<string>)
    ensures k.Some? ==> req.httpMethod !in ["POST", "PUT"] && k.value == CacheKey(req)
  {
    if req.httpMethod in ["POST", "PUT"] then None else Some(CacheKey(req))
  }

  /** As written, no POST or PUT to a cached path gets a key at all, so two
      such requests with different bodies are never told apart by their
      body: the lookup raises for both. */
  lemma WritesRaiseAsWritten(r: Request, body: string)
    requires r.httpMethod in ["POST", "PUT"]
    ensures KeyAsWritten(r).None? && KeyAsWritten(r.(body := body)).None?
  {
  }

  /** A cache key spells the API key from position 6, right after
      "cache:", and a colon follows it. */
  lemma KeyLayout(req: Request)
    ensures |CacheKey(req)| > 6 + |ApiKeyOf(req)|
    ensures forall i :: 0 <= i < |ApiKeyOf(req)| ==> CacheKey(req)[6 + i] == ApiKeyOf(req)[i]
    ensures CacheKey(req)[6 + |ApiKeyOf(req)|] == ':'
  {
    var head := "cache:" + ApiKeyOf(req) + ":";
    var tail := req.httpMethod + ":" + req.path + ":" + req.query + ":" + KeyBody(req);
    assert CacheKey(req) == head + tail;
  }

  /** Requests under different API keys never share a cache entry, as long
      as neither key contains a colon. */
  lemma KeysIsolateCallers(r1: Request, r2: Request)
    requires ApiKeyOf(r1) != ApiKeyOf(r2)
    requires ':' !in ApiKeyOf(r1) && ':' !in ApiKeyOf(r2)
    ensures CacheKey(r1) != CacheKey(r2)
  {
    var a, b := ApiKeyOf(r1), ApiKeyOf(r2);
    KeyLayout(r1);
    KeyLayout(r2);
    if |a| == |b| {
      assert !(forall i :: 0 <= i < |a| ==> a[i] == b[i]);
      var i :| 0 <= i < |a| && a[i] != b[i];
      assert CacheKey(r1)[6 + i] != CacheKey(r2)[6 + i];
    } else if |a| < |b| {
      assert b[|a|] in b;
      assert CacheKey(r1)[6 + |a|] != CacheKey(r2)[6 + |a|];
    } else {
      assert a[|b|] in a;
      assert CacheKey(r1)[6 + |b|] != CacheKey(r2)[6 + |b|];
    }
  }

  /** Only POST and PUT bodies are fingerprinted: two requests that differ
      only in their body share an entry unless they are POST or PUT, and
      then they do not. */
  lemma BodyCountsForWritesOnly(r: Request, body: string)
    ensures r.httpMethod !in ["POST", "PUT"] ==> CacheKey(r.(body := body)) == CacheKey(r)
    ensures r.httpMethod in ["POST", "PUT"] && body != r.body ==> CacheKey(r.(body := body)) != CacheKey(r)
  {
    if r.httpMethod in ["POST", "PUT"] && body != r.body {
      var prefix := "cache:" + ApiKeyOf(r) + ":" + r.httpMethod + ":" + r.path + ":" + r.query + ":";
      assert CacheKey(r) == prefix + r.body;
      assert CacheKey(r.(body := body)) == prefix + body;
      assert (prefix + r.body)[|prefix|..] == r.body;
      assert (prefix + body)[|prefix|..] == body;
    }
  }

  // ---------------------------------------------------------------------
  // The stored response
  // ---------------------------------------------------------------------

  /** `b"".join(chunks).decode()`. */
  function Concat(chunks: seq<string>): string
  {
    if chunks == [] then "" else chunks[0] + Concat(chunks[1..])
  }

  function StatusOf(sent: Sent): int
  {
    if sent.start.Some? then sent.start.value.status else 0
  }

  function HeadersOf(sent: Sent): map<string, string>
  {
    if sent.start.Some? then sent.start.value.headers else map[]
  }

  function StrValues(m: map<string, string>): (r: map<string, Json>)
    ensures r.Keys == m.Keys && forall k :: k in r ==> r[k] == JStr(m[k])
  {
    map k | k in m :: JStr(m[k])
  }

  /** A decoded object of strings; None where a value is not a string. */
  function AsStrValues(m: map<string, Json>): (r: Option<map<string, string>>)
    ensures r.Some? <==> forall k :: k in m ==> m[k].JStr?
    ensures r.Some? ==> r.value.Keys == m.Keys && forall k :: k in m ==> m[k] == JStr(r.value[k])
  {
    if forall k :: k in m ==> m[k].JStr? then Some(map k | k in m :: m[k].s) else None
  }

  /** The document `__call__` caches for a response it passed through. A
      response that never started has status 0. */
  function Captured(sent: Sent): Json
  {
    JObj(map[
      "content" := JStr(Concat(sent.chunks)),
      "status_code" := JNum(StatusOf(sent)),
      "headers" := JObj(StrValues(HeadersOf(sent))),
      "media_type" := JStr("application/json")])
  }

  /** What `cached_send` turns the application's messages into on a hit:
      the start carries the cached status and headers, every body chunk is
      the whole cached content. Messages go out in order, so an entry that
      lacks what the start needs raises before anything is delivered, and
      one that lacks the content raises after the rewritten start went out. */
  function Replay(doc: Json, sent: Sent): (o: Outcome)
    ensures o.RaisedAfter? ==> o.sent.start.Some? && o.sent.chunks == [] && sent.start.Some? && sent.chunks != []
    ensures o.Delivered? ==> (o.sent.start.Some? <==> sent.start.Some?) && |o.sent.chunks| == |sent.chunks|
  {
    var start :=
      if sent.start.None? then Some(None)
      else if !doc.JObj? || "status_code" !in doc.fields || "headers" !in doc.fields then None
      else
        var st, hs := doc.fields["status_code"], doc.fields["headers"];
        if !st.JNum? || !hs.JObj? then None
        else match AsStrValues(hs.fields)
          case None => None
          case Some(h) => Some(Some(Start(st.n, h)));
    var chunks :=
      if sent.chunks == [] then Some([])
      else if !doc.JObj? || "content" !in doc.fields || !doc.fields["content"].JStr? then None
      else Some(seq(|sent.chunks|, _ => doc.fields["content"].s));
    if start.None? then Raised
    else if chunks.None? then (if start.value.Some? then RaisedAfter(Sent(start.value, [])) else Raised)
    else Delivered(Sent(start.value, chunks.value))
  }

  /** An entry with a status and headers but no content: the client gets
      the rewritten start, then the missing content raises. */
  lemma ContentlessEntryRaisesAfterStart(sent: Sent)
    requires sent.start.Some? && sent.chunks != []
    ensures Replay(JObj(map["status_code" := JNum(200), "headers" := JObj(map[])]), sent)
              == RaisedAfter(Sent(Some(Start(200, map[])), []))
  {
    var doc := JObj(map["status_code" := JNum(200), "headers" := JObj(map[])]);
    assert "content" !in doc.fields;
    assert AsStrValues(map[]) == Some(map[]);
  }

  lemma StrValuesRoundTrip(m: map<string, string>)
    ensures AsStrValues(StrValues(m)) == Some(m)
  {
    var r := AsStrValues(StrValues(m));
    assert r.Some?;
    assert r.value.Keys == m.Keys;
    assert forall k :: k in m ==> r.value[k] == m[k];
    assert r.value == m;
  }

  /** A response cached by one request is replayed to the next with the
      same fingerprint: its status and headers, and its full content in
      place of each chunk the application sends. */
  lemma CapturedReplays(first: Sent, later: Sent)
    ensures Replay(Captured(first), later) ==
              Delivered(Sent(if later.start.Some? then Some(Start(StatusOf(first), HeadersOf(first))) else None,
                        seq(|later.chunks|, _ => Concat(first.chunks))))
  {
    var doc := Captured(first);
    StrValuesRoundTrip(HeadersOf(first));
    assert doc.fields["status_code"] == JNum(StatusOf(first));
    assert doc.fields["headers"] == JObj(StrValues(HeadersOf(first)));
    assert doc.fields["content"] == JStr(Concat(first.chunks));
    if later.chunks != [] {
      assert seq(|later.chunks|, _ => doc.fields["content"].s) == seq(|later.chunks|, _ => Concat(first.chunks));
    }
  }

  /** The entry of `get_cached_response`. */
  datatype Lookup = Miss | Hit(doc: Json) | Unreadable

  /** What the middleware does with one request: the messages it delivers,
      an error before anything is delivered, or an error raised after the
      messages in `sent` went out (a replay whose entry lacks the content,
      or the store refusing the cache write). */
  datatype Outcome = Delivered(sent: Sent) | Raised | RaisedAfter(sent: Sent)

  class ResponseCache {
    const store: KeyValue.Store
    const config: CacheConfig

    constructor (store: KeyValue.Store, config: CacheConfig)
      ensures this.store == store && this.config == config
    {
      this.store := store;
      this.config := config;
    }

    predicate Caches(req: Request)
    {
      config.enabled && req.path !in config.excludedPaths
    }

    /** `get_cached_response` at second `now`: nothing when caching is off
        or the path is excluded, else the decoded entry. */
    function GetCachedResponse(req: Request, now: int): (r: Lookup)
      reads store
      ensures !Caches(req) ==> r == Miss
    {
      if !Caches(req) then Miss
      else match store.Get(CacheKey(req), now)
        case None => Miss
        case Some(t) =>
          if !NonEmpty(t) then Miss
          else match Loads(t)
            case Some(d) => Hit(d)
            case None => Unreadable
    }

    /** `cache_response`: stores the document under the request's key for
        `ttl` seconds; writes nothing when caching is off or the path is
        excluded. The store refuses a time to live that is not positive:
        nothing is written and the call raises (`raised`). Until the entry
        expires, the same request reads it back. */
    method CacheResponse(req: Request, data: Json, now: int) returns (raised: bool)
      modifies store
      ensures raised <==> Caches(req) && config.ttl <= 0
      ensures !Caches(req) || config.ttl <= 0 ==> unchanged(store)
      ensures Caches(req) && config.ttl > 0 ==>
                store.strings == old(store.strings)[CacheKey(req) := Encoded(data)]
                && store.expiry == old(store.expiry)[CacheKey(req) := now + config.ttl]
                && store.hashes == old(store.hashes) && store.sets == old(store.sets)
                && store.zsets == old(store.zsets) && store.lists == old(store.lists)
      ensures Caches(req) && config.ttl > 0 ==>
                forall t :: now <= t < now + config.ttl ==> GetCachedResponse(req, t) == Hit(data)
    {
      if !config.enabled {
        return false;
      }
      if req.path in config.excludedPaths {
        return false;
      }
      var ok := store.SetEx(CacheKey(req), config.ttl, Encoded(data), now);
      raised := !ok;
      if ok {
        forall t | now <= t < now + config.ttl
          ensures GetCachedResponse(req, t) == Hit(data)
        {
          assert CacheKey(req) in store.Live(t);
        }
      }
    }

    /** `__call__` for one HTTP request, where `sent` is what the
        application sends. A readable, truthy entry is replayed over the
        application's messages and nothing is stored; otherwise the
        response passes through unchanged and is stored when its status is
        below 400; when the store refuses the time to live, the error is
        raised after the response went out. An entry that cannot be
        decoded raises. */
    method Serve(req: Request, sent: Sent, now: int) returns (out: Outcome)
      modifies store
      ensures old(GetCachedResponse(req, now)).Unreadable? ==> out == Raised && unchanged(store)
      ensures old(GetCachedResponse(req, now)).Hit? && Truthy(old(GetCachedResponse(req, now)).doc) ==>
                unchanged(store)
                && out == Replay(old(GetCachedResponse(req, now)).doc, sent)
      ensures old(GetCachedResponse(req, now)) == Miss
              || (old(GetCachedResponse(req, now)).Hit? && !Truthy(old(GetCachedResponse(req, now)).doc)) ==>
                out == (if StatusOf(sent) < 400 && Caches(req) && config.ttl <= 0 then RaisedAfter(sent)
                        else Delivered(sent))
                && (StatusOf(sent) >= 400 || !Caches(req) || config.ttl <= 0 ==> unchanged(store))
                && (StatusOf(sent) < 400 && Caches(req) && config.ttl > 0 ==>
                      store.strings == old(store.strings)[CacheKey(req) := Encoded(Captured(sent))]
                      && store.expiry == old(store.expiry)[CacheKey(req) := now + config.ttl]
                      && store.hashes == old(store.hashes) && store.sets == old(store.sets)
                      && store.zsets == old(store.zsets) && store.lists == old(store.lists))
    {
      var lookup := GetCachedResponse(req, now);
      if lookup.Unreadable? {
        return Raised;
      }
      if lookup.Hit? && Truthy(lookup.doc) {
        return Replay(lookup.doc, sent);
      }
      out := Delivered(sent);
      if StatusOf(sent) < 400 {
        var raised := CacheResponse(req, Captured(sent), now);
        if raised {
          out := RaisedAfter(sent);
        }
      }
    }
  }
}
