/** The API-key authentication middleware: a read-through cache in front of
    the stored key records, an ordered decision chain, and the error
    response sent in place of the application's. */
module Auth {
  import opened Json
  import opened Http
  import KeyValue

  /** `AuthConfig`. The header name is held in lower case: header lookup
      ignores case. */
  datatype AuthConfig = AuthConfig(
    enabled: bool,
    publicPaths: seq<string>,
    apiKeyHeader: string,
    cacheTtl: int)

  const DefaultConfig := AuthConfig(
    true,
    ["/", "/api/v1/health", "/docs", "/redoc", "/openapi.json", "/openapi.json/"],
    ApiKeyHeader,
    300)

  /** The hash holding one record per API key. */
  const ApiKeysHash := "api_keys"

  /** `_get_cache_key`. */
  function AuthCacheKey(apiKey: string): string
  {
    "auth:api_key:" + apiKey
  }

  /** Where `validate_api_key` finds the key: a truthy cache entry, else a
      truthy record in the key hash, else nowhere. */
  datatype Origin = FromCache(cached: Text) | FromRecord(record: Text) | Unknown

  /** What `validate_api_key` returns: the decoded data, None for an unknown
      key or undecodable text; or the store's refusal of a cache entry with
      a time to live that is not positive, which propagates as an error. */
  datatype Validation = Validated(data: Option<Json>) | TtlRefused

  /** What `check_auth` does: lets the request through with the key data
      (None when there is nothing to attach), raises an HTTP error, or
      propagates a store error. */
  datatype Decision = Pass(data: Option<Json>) | Deny(status: int, detail: string) | Failed

  /** What `__call__` does with an HTTP request: calls the application once
      with `state.api_key` set to the data when there is some, sends a JSON
      error of its own, or lets an error escape. */
  datatype Reply =
    | Forward(apiKeyState: Option<Json>)
    | Refuse(status: int, headers: map<string, string>, body: Json)
    | Escape

  /** The body of the error response: `{"detail": ..., "status_code": ...}`. */
  function ErrorBody(status: int, detail: string): (j: Json)
    ensures j.JObj? && j.fields.Keys == {"detail", "status_code"}
    ensures j.fields["detail"] == JStr(detail) && j.fields["status_code"] == JNum(status)
  {
    JObj(map["detail" := JStr(detail), "status_code" := JNum(status)])
  }

  class AuthMiddleware {
    const store: KeyValue.Store
    const config: AuthConfig

    constructor (store: KeyValue.Store, config: AuthConfig)
      ensures this.store == store && this.config == config
    {
      this.store := store;
      this.config := config;
    }

    function LookupOrigin(apiKey: string, now: int): Origin
      reads store
    {
      var cached := store.Get(AuthCacheKey(apiKey), now);
      if cached.Some? && NonEmpty(cached.value) then FromCache(cached.value)
      else
        var record := store.HGet(ApiKeysHash, apiKey);
        if record.Some? && NonEmpty(record.value) then FromRecord(record.value)
        else Unknown
    }

    /** The result of `validate_api_key(apiKey)` at second `now`. */
    function Validate(apiKey: string, now: int): (r: Validation)
      reads store
      ensures LookupOrigin(apiKey, now).FromCache? ==>
                r == Validated(Loads(LookupOrigin(apiKey, now).cached))
      ensures LookupOrigin(apiKey, now).Unknown? ==> r == Validated(None)
      ensures r.Validated? && r.data.Some? ==>
                exists t :: Loads(t) == r.data
                            && (LookupOrigin(apiKey, now) == FromCache(t) || LookupOrigin(apiKey, now) == FromRecord(t))
      ensures r == TtlRefused <==> LookupOrigin(apiKey, now).FromRecord? && Loads(LookupOrigin(apiKey, now).record).Some?
                                    && config.cacheTtl <= 0
    {
      match LookupOrigin(apiKey, now)
      case FromCache(t) => Validated(Loads(t))
      case Unknown => Validated(None)
      case FromRecord(t) =>
        if Loads(t).None? then Validated(None)
        else if config.cacheTtl <= 0 then TtlRefused
        else Validated(Loads(t))
    }

    /** Whether `validate_api_key(apiKey)` at second `now` fills the cache:
        only on a cache miss whose record decodes. */
    predicate FillsCache(apiKey: string, now: int)
      reads store
    {
      LookupOrigin(apiKey, now).FromRecord? && LookupOrigin(apiKey, now).record.Encoded?
      && config.cacheTtl > 0
    }

    /** `validate_api_key`. A cache hit is answered from the cache and an
        unknown or undecodable key writes nothing; a decodable record is
        copied, as stored, into the cache for `cacheTtl` seconds, and until
        then the same key is answered from that entry, with the same data
        and no further write. */
    method ValidateApiKey(apiKey: string, now: int) returns (r: Validation)
      modifies store
      ensures r == old(Validate(apiKey, now))
      ensures !old(FillsCache(apiKey, now)) ==> unchanged(store)
      ensures old(FillsCache(apiKey, now)) ==>
                store.strings == old(store.strings)[AuthCacheKey(apiKey) := old(LookupOrigin(apiKey, now)).record]
                && store.expiry == old(store.expiry)[AuthCacheKey(apiKey) := now + config.cacheTtl]
                && store.hashes == old(store.hashes) && store.sets == old(store.sets)
                && store.zsets == old(store.zsets) && store.lists == old(store.lists)
      ensures old(FillsCache(apiKey, now)) ==>
                forall t :: now <= t < now + config.cacheTtl ==>
                  LookupOrigin(apiKey, t).FromCache? && Validate(apiKey, t) == r && !FillsCache(apiKey, t)
    {
      var cached := store.Get(AuthCacheKey(apiKey), now);
      if cached.Some? && NonEmpty(cached.value) {
        return Validated(Loads(cached.value));
      }
      var record := store.HGet(ApiKeysHash, apiKey);
      if record.Some? && NonEmpty(record.value) {
        var data := Loads(record.value);
        if data.None? {
          return Validated(None);
        }
        var ok := store.SetEx(AuthCacheKey(apiKey), config.cacheTtl, record.value, now);
        if !ok {
          return TtlRefused;
        }
        r := Validated(data);
        forall t | now <= t < now + config.cacheTtl
          ensures LookupOrigin(apiKey, t) == FromCache(record.value)
        {
          assert AuthCacheKey(apiKey) in store.Live(t);
        }
        return;
      }
      return Validated(None);
    }

    /** Whether the request skips authentication: it is off, the path is
        public, or the method is OPTIONS. */
    predicate Bypassed(req: Request)
    {
      !config.enabled || req.path in config.publicPaths || req.httpMethod == "OPTIONS"
    }

    /** The key `check_auth` validates, if it gets that far. */
    function KeyToValidate(req: Request): (k: Option<string>)
      ensures k.Some? <==> !Bypassed(req) && Present(Header(req, config.apiKeyHeader))
      ensures k.Some? ==> Header(req, config.apiKeyHeader) == k && k.value != ""
    {
      if Bypassed(req) then None
      else
        var h := Header(req, config.apiKeyHeader);
        if Present(h) then h else None
    }

    /** The decision of `check_auth(req)` at second `now`. */
    function Decide(req: Request, now: int): (d: Decision)
      reads store
      ensures Bypassed(req) ==> d == Pass(None)
      ensures d.Deny? ==> d.status == 401 && !Bypassed(req)
      ensures d == Deny(401, "Missing API key") <==> !Bypassed(req) && !Present(Header(req, config.apiKeyHeader))
      ensures d == Deny(401, "Invalid API key") <==>
                KeyToValidate(req).Some?
                && Validate(KeyToValidate(req).value, now).Validated?
                && (Validate(KeyToValidate(req).value, now).data.None?
                    || !Truthy(Validate(KeyToValidate(req).value, now).data.value))
      ensures d.Pass? && d.data.Some? ==>
                KeyToValidate(req).Some? && Truthy(d.data.value)
                && Validate(KeyToValidate(req).value, now) == Validated(d.data)
      ensures d.Failed? <==> KeyToValidate(req).Some? && Validate(KeyToValidate(req).value, now) == TtlRefused
    {
      if Bypassed(req) then Pass(None)
      else if !Present(Header(req, config.apiKeyHeader)) then Deny(401, "Missing API key")
      else match Validate(Header(req, config.apiKeyHeader).value, now)
        case TtlRefused => Failed
        case Validated(data) =>
          if data.None? || !Truthy(data.value) then Deny(401, "Invalid API key")
          else Pass(data)
    }

    /** `check_auth`: the decision above; the store changes only through
        the validation of the request's key. */
    method CheckAuth(req: Request, now: int) returns (d: Decision)
      modifies store
      ensures d == old(Decide(req, now))
      ensures KeyToValidate(req).None? || !old(FillsCache(KeyToValidate(req).value, now)) ==> unchanged(store)
      ensures KeyToValidate(req).Some? && old(FillsCache(KeyToValidate(req).value, now)) ==>
                store.strings == old(store.strings)[AuthCacheKey(KeyToValidate(req).value) :=
                                                      old(LookupOrigin(KeyToValidate(req).value, now)).record]
                && store.expiry == old(store.expiry)[AuthCacheKey(KeyToValidate(req).value) := now + config.cacheTtl]
                && store.hashes == old(store.hashes) && store.sets == old(store.sets)
                && store.zsets == old(store.zsets) && store.lists == old(store.lists)
    {
      if Bypassed(req) {
        return Pass(None);
      }
      var apiKey := Header(req, config.apiKeyHeader);
      if !Present(apiKey) {
        return Deny(401, "Missing API key");
      }
      var v := ValidateApiKey(apiKey.value, now);
      if v.TtlRefused? {
        return Failed;
      }
      if v.data.None? || !Truthy(v.data.value) {
        return Deny(401, "Invalid API key");
      }
      return Pass(v.data);
    }

    /** `__call__` for an HTTP request. A refusal answers with the error's
        status, a JSON content type and `{"detail", "status_code"}`, and the
        application is not called; otherwise the application is called once,
        with the key data on the request state when there is any. */
    method Serve(req: Request, now: int) returns (out: Reply)
      modifies store
      ensures old(Decide(req, now)).Deny? <==> out.Refuse?
      ensures out.Refuse? ==>
                out.status == old(Decide(req, now)).status
                && out.headers == map["content-type" := "application/json"]
                && out.body == ErrorBody(out.status, old(Decide(req, now)).detail)
      ensures old(Decide(req, now)).Pass? <==> out.Forward?
      ensures out.Forward? ==> out.apiKeyState == old(Decide(req, now)).data
      ensures out.Escape? <==> old(Decide(req, now)).Failed?
      ensures KeyToValidate(req).None? || !old(FillsCache(KeyToValidate(req).value, now)) ==> unchanged(store)
      ensures KeyToValidate(req).Some? && old(FillsCache(KeyToValidate(req).value, now)) ==>
                store.strings == old(store.strings)[AuthCacheKey(KeyToValidate(req).value) :=
                                                      old(LookupOrigin(KeyToValidate(req).value, now)).record]
                && store.expiry == old(store.expiry)[AuthCacheKey(KeyToValidate(req).value) := now + config.cacheTtl]
                && store.hashes == old(store.hashes) && store.sets == old(store.sets)
                && store.zsets == old(store.zsets) && store.lists == old(store.lists)
    {
      var d := CheckAuth(req, now);
      match d
      case Pass(data) =>
        out := Forward(data);
      case Deny(status, detail) =>
        out := Refuse(status, map["content-type" := "application/json"], ErrorBody(status, detail));
      case Failed =>
        out := Escape;
    }
  }

  /** With the default configuration, a request to a public path or an
      OPTIONS request is let through with nothing attached, whatever its
      headers and whatever the store holds. */
  lemma {:induction false} DefaultPublicPathsPass(m: AuthMiddleware, req: Request, now: int)
    requires m.config == DefaultConfig
    requires req.path in ["/", "/api/v1/health", "/docs", "/redoc", "/openapi.json", "/openapi.json/"]
             || req.httpMethod == "OPTIONS"
    ensures m.Decide(req, now) == Pass(None)
    ensures m.KeyToValidate(req).None?
  {
    assert m.Bypassed(req);
  }
}
