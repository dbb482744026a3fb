/** The security layer the application installs: the request screening of
    its HTTP middleware and the permission dependency of its routes. Audit
    records are kept as notes of what would be logged. */
module Integration {
  import opened Json
  import opened Http
  import KeyValue
  import Rbac

  /** The paths, besides OPTIONS requests, that skip every check. */
  const OpenPaths := ["/docs", "/redoc", "/openapi.json", "/", "/api/v1/health"]

  const IpRefusal := "Forbidden: IP address not authorized"
  const FormatRefusal := "Unauthorized: Invalid API key"
  const ServerError := "Internal Server Error"

  /** The audit records the middleware asks for, by kind. */
  datatype AuditNote =
    | AuthFailure(apiKey: string, ip: Option<string>, reason: string)
    | AuthSuccess(apiKey: string, ip: Option<string>)
    | RequestInitiated(action: string, givenKey: Option<string>, ip: Option<string>)
    | RequestFailed(action: string, ip: Option<string>)
    | AccessDenied(permission: string, keyState: Json, ip: Option<string>,
                   resourceType: Option<string>, resourceId: Option<string>)

  /** What the middleware writes on `request.state`: the role found for the
      key, and the key itself (None when the attribute is never set; a JSON
      null when it is set to a missing header). */
  datatype RequestState = RequestState(role: Option<Text>, apiKey: Option<Json>)

  const Untouched := RequestState(None, None)

  /** The application is called and answers, the middleware answers itself,
      or an error escapes the middleware. */
  datatype Outcome = Forwarded | Answered(response: Response) | Escaped

  datatype Dispatched = Dispatched(outcome: Outcome, state: RequestState, notes: seq<AuditNote>)

  /** The screening before the application is called: go on with this state
      and these notes, or stop with an outcome. */
  datatype Screened =
    | Proceed(state: RequestState, notes: seq<AuditNote>)
    | Stop(outcome: Outcome, state: RequestState, notes: seq<AuditNote>)

  /** What the permission dependency decides. */
  datatype Verdict = Allowed | Denied(status: int, detail: string) | Crashed

  /** `"apikey:{key}"`, the role of a key. */
  function RoleKey(apiKey: string): string
  {
    "apikey:" + apiKey
  }

  /** `"apikey:{key}:ip_whitelist"`, the addresses a key may be used from. */
  function WhitelistKey(apiKey: string): string
  {
    "apikey:" + apiKey + ":ip_whitelist"
  }

  /** `a in s` on two strings. */
  predicate IsSubstring(a: string, s: string)
  {
    exists i :: 0 <= i <= |s| - |a| && StartsWith(s[i..], a)
  }

  /** `client_ip in whitelist` on the decoded allow-list: membership in a
      list, a key of an object, a substring of a string; None where Python
      raises a TypeError. */
  function Admits(whitelist: Json, ip: Option<string>): (r: Option<bool>)
    ensures whitelist.JArr? ==> r == Some(OptStr(ip) in whitelist.items)
    ensures r.None? <==> whitelist.JNull? || whitelist.JBool? || whitelist.JNum? || (whitelist.JStr? && ip.None?)
  {
    match whitelist
    case JArr(items) => Some(OptStr(ip) in items)
    case JObj(fields) => Some(ip.Some? && ip.value in fields)
    case JStr(s) => if ip.None? then None else Some(IsSubstring(ip.value, s))
    case _ => None
  }

  /** The key prefixes the legacy check accepts. */
  predicate LegacyFormat(apiKey: string)
  {
    StartsWith(apiKey, "aorbit") || StartsWith(apiKey, "ao-")
  }

  predicate Bypassed(req: Request)
  {
    req.httpMethod == "OPTIONS" || req.path in OpenPaths
  }

  class SecurityIntegration {
    const store: KeyValue.Store
    const rbacEnabled: bool
    const auditEnabled: bool
    /** The header the key travels in, in lower case. */
    const apiKeyHeader: string
    /** The manager and whether an audit logger exists; either is missing
        until the components are initialised. */
    const rbac: Option<Rbac.RBACManager>
    const auditReady: bool

    constructor (store: KeyValue.Store, rbacEnabled: bool, auditEnabled: bool,
                 rbac: Option<Rbac.RBACManager>, auditReady: bool)
      ensures this.store == store && this.rbacEnabled == rbacEnabled && this.auditEnabled == auditEnabled
      ensures this.rbac == rbac && this.auditReady == auditReady && apiKeyHeader == ApiKeyHeader
    {
      this.store := store;
      this.rbacEnabled := rbacEnabled;
      this.auditEnabled := auditEnabled;
      this.apiKeyHeader := ApiKeyHeader;
      this.rbac := rbac;
      this.auditReady := auditReady;
    }

    /** The enterprise branch runs when RBAC or auditing is on. */
    predicate Enterprise()
    {
      rbacEnabled || auditEnabled
    }

    /** The stored role of the key the request carries, when it is looked
        up and found. */
    function KeyRole(req: Request, now: int): (r: Option<Text>)
      reads store
      ensures r.Some? ==> Present(Header(req, apiKeyHeader)) && rbac.Some? && NonEmpty(r.value)
                          && store.Get(RoleKey(Header(req, apiKeyHeader).value), now) == r
    {
      var apiKey := Header(req, apiKeyHeader);
      if !Present(apiKey) || rbac.None? then None
      else
        var role := store.Get(RoleKey(apiKey.value), now);
        if role.Some? && NonEmpty(role.value) then role else None
    }

    /** The allow-list stored for the request's key, decoded, when the key
        has a role and a non-empty allow-list text; None inside for text
        that does not decode. */
    function Whitelist(req: Request, now: int): Option<Option<Json>>
      reads store
    {
      if KeyRole(req, now).None? then None
      else
        var w := store.Get(WhitelistKey(Header(req, apiKeyHeader).value), now);
        if w.Some? && NonEmpty(w.value) then Some(Loads(w.value)) else None
    }

    /** The condition of the 403 answer: a key with a role whose decoded
        allow-list is truthy and does not admit the client's address. */
    predicate IpRefused(req: Request, now: int)
      reads store
    {
      var w := Whitelist(req, now);
      w.Some? && w.value.Some? && Truthy(w.value.value) && Admits(w.value.value, req.clientIp) == Some(false)
    }

    function Action(req: Request): string
    {
      req.httpMethod + " " + req.path
    }

    function RequestNote(req: Request): seq<AuditNote>
    {
      if auditReady then [RequestInitiated(Action(req), Header(req, apiKeyHeader), req.clientIp)] else []
    }

    /** The enterprise screening: look up the key's role and allow-list,
        refuse an address the allow-list does not admit, and otherwise put
        the key (and role) on the request state and note the request. */
    function ScreenEnterprise(req: Request, now: int): (s: Screened)
      reads store
      ensures s.Stop? && s.outcome.Answered? <==> IpRefused(req, now)
      ensures KeyRole(req, now).None? ==> s == Proceed(RequestState(None, Some(OptStr(Header(req, apiKeyHeader)))), RequestNote(req))
    {
      var apiKey := Header(req, apiKeyHeader);
      var keyState := Some(OptStr(apiKey));
      match KeyRole(req, now)
      case None => Proceed(RequestState(None, keyState), RequestNote(req))
      case Some(role) =>
        var success := if auditReady then [AuthSuccess(apiKey.value, req.clientIp)] else [];
        var through := Proceed(RequestState(Some(role), keyState), success + RequestNote(req));
        match Whitelist(req, now)
        case None => through
        case Some(None) => Stop(Escaped, RequestState(Some(role), None), [])
        case Some(Some(w)) =>
          if !Truthy(w) then through
          else match Admits(w, req.clientIp)
            case None => Stop(Escaped, RequestState(Some(role), None), [])
            case Some(true) => through
            case Some(false) =>
              Stop(Answered(Detail(403, IpRefusal)), RequestState(Some(role), None),
                   if auditReady then [AuthFailure(apiKey.value, req.clientIp, "IP address not in whitelist")] else [])
    }

    /** Everything before the application is called: the enterprise
        screening, or outside enterprise mode only the legacy key format
        check, which answers 401 and otherwise leaves the request state
        untouched. */
    function Screen(req: Request, now: int): (s: Screened)
      reads store
      ensures Enterprise() ==> s == ScreenEnterprise(req, now)
      ensures !Enterprise() ==>
                (s.Stop? <==> Present(Header(req, apiKeyHeader)) && !LegacyFormat(Header(req, apiKeyHeader).value))
                && (s.Stop? ==> s.outcome == Answered(Detail(401, FormatRefusal)))
                && s.state == Untouched && s.notes == []
    {
      if Enterprise() then ScreenEnterprise(req, now)
      else
        var apiKey := Header(req, apiKeyHeader);
        if Present(apiKey) && !LegacyFormat(apiKey.value) then
          Stop(Answered(Detail(401, FormatRefusal)), Untouched, [])
        else Proceed(Untouched, [])
    }

    /** `_security_middleware_dispatch` at second `now`, where `appFails`
        says whether the rest of the chain raises. */
    function Dispatch(req: Request, now: int, appFails: bool): (d: Dispatched)
      reads store
      ensures Bypassed(req) ==>
                d == Dispatched(if appFails then Escaped else Forwarded, Untouched, [])
      ensures d.outcome == Answered(Detail(403, IpRefusal)) <==>
                !Bypassed(req) && Enterprise() && IpRefused(req, now)
      ensures d.outcome == Answered(Detail(401, FormatRefusal)) <==>
                !Bypassed(req) && !Enterprise() && Present(Header(req, apiKeyHeader))
                && !LegacyFormat(Header(req, apiKeyHeader).value)
      ensures d.outcome == Answered(Detail(500, ServerError)) <==>
                !Bypassed(req) && appFails && Screen(req, now).Proceed?
      ensures d.outcome.Answered? ==>
                d.outcome.response in {Detail(403, IpRefusal), Detail(401, FormatRefusal), Detail(500, ServerError)}
      ensures !appFails && !Bypassed(req) && Screen(req, now).Proceed? ==>
                d == Dispatched(Forwarded, Screen(req, now).state, Screen(req, now).notes)
      ensures !Bypassed(req) && Enterprise() && KeyRole(req, now).None? ==>
                d.outcome == (if appFails then Answered(Detail(500, ServerError)) else Forwarded)
                && d.state.apiKey == Some(OptStr(Header(req, apiKeyHeader)))
    {
      if Bypassed(req) then
        Dispatched(if appFails then Escaped else Forwarded, Untouched, [])
      else match Screen(req, now)
        case Stop(outcome, state, notes) => Dispatched(outcome, state, notes)
        case Proceed(state, notes) =>
          if !appFails then Dispatched(Forwarded, state, notes)
          else
            var failed := if state.apiKey.Some? && auditReady then [RequestFailed(Action(req), req.clientIp)] else [];
            Dispatched(Answered(Detail(500, ServerError)), state, notes + failed)
    }

    /** The route dependency made by `check_permission_dependency`: allows
        everything with RBAC off; without a key on the request state it
        answers 401; otherwise 403 exactly when the manager does not grant
        the permission to that key (a key that is not a string, such as
        the null the middleware stores for a request without a key, is
        never granted). With RBAC on but no manager it fails. */
    method CheckPermissionDependency(permission: string, resourceType: Option<string>,
                                     resourceId: Option<string>, apiKeyState: Option<Json>,
                                     clientIp: Option<string>, clock: real)
      returns (v: Verdict, notes: seq<AuditNote>)
      modifies if rbac.Some? then {rbac.value} else {}
      ensures !rbacEnabled ==> v == Allowed && notes == []
      ensures rbacEnabled && apiKeyState.None? ==> v == Denied(401, "Authentication required") && notes == []
      ensures rbacEnabled && apiKeyState.Some? && rbac.None? ==> v == Crashed
      ensures rbacEnabled && apiKeyState.Some? && rbac.Some? ==>
                (v == Allowed <==>
                   apiKeyState.value.JStr?
                   && Rbac.PermissionGranted(old(rbac.value.Roles(clock.Floor)),
                                             rbac.value.store.HGet(Rbac.ApiKeysHash, apiKeyState.value.s),
                                             permission, resourceType, resourceId, clock))
                && (v != Allowed ==> v == Denied(403, "Permission denied: " + permission + " required"))
      ensures notes == if v.Denied? && v.status == 403 && auditReady
                       then [AccessDenied(permission, apiKeyState.value, clientIp, resourceType, resourceId)]
                       else []
    {
      notes := [];
      if !rbacEnabled {
        return Allowed, [];
      }
      if apiKeyState.None? {
        return Denied(401, "Authentication required"), [];
      }
      if rbac.None? {
        return Crashed, [];
      }
      var granted := false;
      if apiKeyState.value.JStr? {
        granted := rbac.value.HasPermission(apiKeyState.value.s, permission, resourceType, resourceId, clock);
      }
      if granted {
        return Allowed, [];
      }
      if auditReady {
        notes := [AccessDenied(permission, apiKeyState.value, clientIp, resourceType, resourceId)];
      }
      v := Denied(403, "Permission denied: " + permission + " required");
    }
  }

  /** A request without a key that passes the enterprise screening leaves
      a null key on the request state, so the permission dependency answers
      it with 403 rather than with its 401 "Authentication required". */
  lemma {:induction false} KeylessRequestLeavesNullKey(si: SecurityIntegration, req: Request, now: int)
    requires si.Enterprise() && !Bypassed(req)
    requires si.apiKeyHeader !in req.headers
    ensures si.Dispatch(req, now, false) == Dispatched(Forwarded, RequestState(None, Some(JNull)), si.RequestNote(req))
  {
    assert Header(req, si.apiKeyHeader) == None;
    assert si.KeyRole(req, now) == None;
  }

  /** A key whose stored allow-list is a list that includes the client's
      address is let through with its role on the request state. */
  lemma {:induction false} ListedAddressPasses(si: SecurityIntegration, req: Request, now: int)
    requires si.Enterprise() && !Bypassed(req)
    requires si.KeyRole(req, now).Some?
    requires si.Whitelist(req, now).Some? && si.Whitelist(req, now).value.Some?
    requires si.Whitelist(req, now).value.value.JArr?
    requires OptStr(req.clientIp) in si.Whitelist(req, now).value.value.items
    ensures si.Dispatch(req, now, false).outcome == Forwarded
    ensures si.Dispatch(req, now, false).state == RequestState(si.KeyRole(req, now), Some(OptStr(Header(req, si.apiKeyHeader))))
  {
    var w := si.Whitelist(req, now).value.value;
    assert Truthy(w);
    assert Admits(w, req.clientIp) == Some(true);
  }
}
