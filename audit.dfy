/** The audit log: every event is written once under its own id, and its id
    is added to a timestamp index, a per-type index and, when the event
    names a user, a per-user index. */
module Audit {
  import opened Json
  import KeyValue

  /** `AuditEventType`. */
  datatype EventType =
    | AuthSuccess | AuthFailure | Logout | ApiKeyCreated | ApiKeyDeleted
    | AccessDenied | PermissionGranted | RoleCreated | RoleUpdated | RoleDeleted
    | AgentExecution | AgentCreated | AgentUpdated | AgentDeleted
    | FinanceView | FinanceTransaction | FinanceApproval
    | SystemError | SystemStartup | SystemShutdown | ConfigChange
    | ApiRequest | ApiResponse | ApiError

  /** The string value of each event type, as it is written into the
      stored document and the type-index key. */
  function Value(t: EventType): string
  {
    match t
    case AuthSuccess => "auth.success"
    case AuthFailure => "auth.failure"
    case Logout => "auth.logout"
    case ApiKeyCreated => "api_key.created"
    case ApiKeyDeleted => "api_key.deleted"
    case AccessDenied => "access.denied"
    case PermissionGranted => "permission.granted"
    case RoleCreated => "role.created"
    case RoleUpdated => "role.updated"
    case RoleDeleted => "role.deleted"
    case AgentExecution => "agent.execution"
    case AgentCreated => "agent.created"
    case AgentUpdated => "agent.updated"
    case AgentDeleted => "agent.deleted"
    case FinanceView => "finance.view"
    case FinanceTransaction => "finance.transaction"
    case FinanceApproval => "finance.approval"
    case SystemError => "system.error"
    case SystemStartup => "system.startup"
    case SystemShutdown => "system.shutdown"
    case ConfigChange => "config.change"
    case ApiRequest => "api.request"
    case ApiResponse => "api.response"
    case ApiError => "api.error"
  }

  /** The arguments of `log_event`. */
  datatype EventArgs = EventArgs(
    eventType: EventType,
    userId: Option<string>,
    apiKeyId: Option<string>,
    ipAddress: Option<string>,
    resource: Option<string>,
    action: Option<string>,
    status: Option<string>,
    details: map<string, Json>,
    metadata: map<string, Json>)

  const LogKeyPrefix := "audit:log:"
  const IndexKeyPrefix := "audit:index:"

  function LogKey(id: string): string
  {
    LogKeyPrefix + id
  }

  const TimestampIndex := IndexKeyPrefix + "timestamp"

  function TypeIndex(t: EventType): string
  {
    IndexKeyPrefix + "type:" + Value(t)
  }

  function UserIndex(user: string): string
  {
    IndexKeyPrefix + "user:" + user
  }

  /** The document `log_event` stores; an empty `details` or `metadata`
      (the only falsy dictionary) is stored as `{}` either way. */
  function EventDoc(id: string, timestamp: string, a: EventArgs): Json
  {
    JObj(map[
      "id" := JStr(id),
      "timestamp" := JStr(timestamp),
      "event_type" := JStr(Value(a.eventType)),
      "user_id" := OptStr(a.userId),
      "api_key_id" := OptStr(a.apiKeyId),
      "ip_address" := OptStr(a.ipAddress),
      "resource" := OptStr(a.resource),
      "action" := OptStr(a.action),
      "status" := OptStr(a.status),
      "details" := JObj(a.details),
      "metadata" := JObj(a.metadata)])
  }

  /** The indexes an event's id is added to: the timestamp index, its type's
      index and, only for a non-empty user id, that user's index. */
  function IndexKeys(a: EventArgs): (keys: seq<string>)
    ensures |keys| == (if Present(a.userId) then 3 else 2)
    ensures keys[0] == TimestampIndex && keys[1] == TypeIndex(a.eventType)
    ensures Present(a.userId) ==> keys[2] == UserIndex(a.userId.value)
  {
    [TimestampIndex, TypeIndex(a.eventType)]
      + (if Present(a.userId) then [UserIndex(a.userId.value)] else [])
  }

  /** What `get_event` hands back: nothing for a missing or empty entry,
      the decoded document, or the decoding error it lets escape. */
  datatype Fetched = NotFound | Found(doc: Json) | DecodeError

  /** The entry of `get_event` for the text stored under an id. */
  function FetchedFrom(t: Option<Text>): (r: Fetched)
    ensures r.Found? <==> t.Some? && t.value.Encoded?
    ensures r.Found? ==> r.doc == t.value.doc
    ensures r == NotFound <==> t.None? || t.value == Raw("")
  {
    if t.None? || !NonEmpty(t.value) then NotFound
    else match Loads(t.value)
      case Some(d) => Found(d)
      case None => DecodeError
  }

  /** `log_auth_success`. */
  function AuthSuccessArgs(userId: string, ipAddress: Option<string>, apiKeyId: Option<string>,
                           metadata: map<string, Json>): (a: EventArgs)
    ensures a.eventType == AuthSuccess && a.userId == Some(userId)
    ensures a.action == Some("login") && a.status == Some("success")
    ensures a.details == map[] && a.resource.None?
  {
    EventArgs(AuthSuccess, Some(userId), apiKeyId, ipAddress, None, Some("login"), Some("success"),
              map[], metadata)
  }

  /** `log_auth_failure`: the reason is recorded only when one is given. */
  function AuthFailureArgs(userId: Option<string>, ipAddress: Option<string>, reason: Option<string>,
                           metadata: map<string, Json>): (a: EventArgs)
    ensures a.eventType == AuthFailure && a.action == Some("login") && a.status == Some("failure")
    ensures a.apiKeyId.None? && a.resource.None?
    ensures Present(reason) ==> a.details == map["reason" := JStr(reason.value)]
    ensures !Present(reason) ==> a.details == map[]
  {
    EventArgs(AuthFailure, userId, None, ipAddress, None, Some("login"), Some("failure"),
              if Present(reason) then map["reason" := JStr(reason.value)] else map[], metadata)
  }

  /** `log_api_request`: the endpoint is the resource, the method the
      action, and a status code below 400 counts as success. */
  function ApiRequestArgs(endpoint: string, httpMethod: string, userId: Option<string>,
                          apiKeyId: Option<string>, ipAddress: Option<string>, statusCode: int,
                          metadata: map<string, Json>): (a: EventArgs)
    ensures a.eventType == ApiRequest
    ensures a.resource == Some(endpoint) && a.action == Some(httpMethod)
    ensures a.status == Some("success") <==> statusCode < 400
    ensures a.status == Some("failure") <==> statusCode >= 400
    ensures a.details.Keys == {"endpoint", "method", "status_code"}
    ensures a.details["status_code"] == JNum(statusCode)
  {
    EventArgs(ApiRequest, userId, apiKeyId, ipAddress, Some(endpoint), Some(httpMethod),
              Some(if statusCode < 400 then "success" else "failure"),
              map["endpoint" := JStr(endpoint), "method" := JStr(httpMethod),
                  "status_code" := JNum(statusCode)],
              metadata)
  }

  /** One ZADD: `id` joins the sorted set `key` with `score`. */
  function AddMember(z: map<string, map<string, int>>, key: string, id: string, score: int)
    : map<string, map<string, int>>
  {
    z[key := (if key in z then z[key] else map[])[id := score]]
  }

  /** The ZADDs of `log_event`, one index after the other. */
  function IndexAll(z: map<string, map<string, int>>, keys: seq<string>, id: string, score: int)
    : map<string, map<string, int>>
    decreases |keys|
  {
    if keys == [] then z else IndexAll(AddMember(z, keys[0], id, score), keys[1..], id, score)
  }

  /** Indexing touches exactly the named indexes, and in each of them only
      the entry of the new id: earlier memberships and scores stay. */
  lemma {:induction false} IndexAllSpec(z: map<string, map<string, int>>, keys: seq<string>,
                                        id: string, score: int)
    ensures var r := IndexAll(z, keys, id, score);
            forall k :: k in r <==> k in z || k in keys
    ensures var r := IndexAll(z, keys, id, score);
            forall k :: k in keys ==> r[k] == (if k in z then z[k] else map[])[id := score]
    ensures var r := IndexAll(z, keys, id, score);
            forall k :: k in z && k !in keys ==> r[k] == z[k]
    decreases |keys|
  {
    if keys != [] {
      var z' := AddMember(z, keys[0], id, score);
      IndexAllSpec(z', keys[1..], id, score);
      forall k | k in keys
        ensures k == keys[0] || k in keys[1..]
      {
        var j :| 0 <= j < |keys| && keys[j] == k;
        if j > 0 {
          assert keys[1..][j - 1] == k;
        }
      }
    }
  }

  class AuditLogger {
    const store: KeyValue.Store

    constructor (store: KeyValue.Store)
      ensures this.store == store
    {
      this.store := store;
    }

    /** `get_event`: the event is found exactly when its log entry is live
        and holds a JSON document, and it is that document. */
    function GetEvent(id: string, now: int): (r: Fetched)
      reads store
      ensures r.Found? <==> LogKey(id) in store.Live(now) && store.Live(now)[LogKey(id)].Encoded?
      ensures r.Found? ==> store.Live(now)[LogKey(id)] == Encoded(r.doc)
    {
      FetchedFrom(store.Get(LogKey(id), now))
    }

    /** Whether `id` is in the sorted set `index`. */
    function InIndex(index: string, id: string): bool
      reads store
    {
      id in store.ZMembers(index)
    }

    /** `log_event`. `eventId`, `timestamp` and `score` stand for the fresh
        uuid, the ISO time and the clock reading used as index score. The
        event is stored under its own key and its id joins the indexes
        `IndexKeys` names; nothing else in the store changes. */
    method LogEvent(a: EventArgs, eventId: string, timestamp: string, score: int) returns (id: string)
      modifies store
      ensures id == eventId
      ensures store.strings == old(store.strings)[LogKey(id) := Encoded(EventDoc(id, timestamp, a))]
      ensures store.expiry == old(store.expiry) - {LogKey(id)}
      ensures store.zsets == IndexAll(old(store.zsets), IndexKeys(a), id, score)
      ensures forall now :: GetEvent(id, now) == Found(EventDoc(id, timestamp, a))
      ensures forall j, now :: j != id ==> GetEvent(j, now) == old(GetEvent(j, now))
      ensures store.hashes == old(store.hashes) && store.sets == old(store.sets)
      ensures store.lists == old(store.lists)
    {
      id := eventId;
      store.Set(LogKey(id), Encoded(EventDoc(id, timestamp, a)));
      store.ZAdd(TimestampIndex, id, score);
      store.ZAdd(TypeIndex(a.eventType), id, score);
      ghost var z1 := AddMember(old(store.zsets), TimestampIndex, id, score);
      ghost var z2 := AddMember(z1, TypeIndex(a.eventType), id, score);
      assert store.zsets == z2;
      forall now
        ensures GetEvent(id, now) == Found(EventDoc(id, timestamp, a))
      {
        LoggedEventReadsBack(old(store.strings), old(store.expiry), id, EventDoc(id, timestamp, a));
      }
      forall j, now | j != id
        ensures GetEvent(j, now) == old(GetEvent(j, now))
      {
        OtherEventsUnchanged(old(store.strings), id, EventDoc(id, timestamp, a), j);
        if LogKey(j) == LogKey(id) {
          LogKeyInjective(j, id);
        }
      }
      ghost var keys := IndexKeys(a);
      assert IndexAll(old(store.zsets), keys, id, score) == IndexAll(z2, keys[1..][1..], id, score);
      if Present(a.userId) {
        store.ZAdd(UserIndex(a.userId.value), id, score);
        ghost var z3 := AddMember(z2, UserIndex(a.userId.value), id, score);
        assert keys[1..][1..] == [UserIndex(a.userId.value)];
        assert IndexAll(z2, keys[1..][1..], id, score) == IndexAll(z3, [], id, score);
      } else {
        assert keys[1..][1..] == [];
      }
    }
  }

  lemma LogKeyInjective(i: string, j: string)
    requires LogKey(i) == LogKey(j)
    ensures i == j
  {
    assert i == LogKey(i)[|LogKeyPrefix|..];
    assert j == LogKey(j)[|LogKeyPrefix|..];
  }

  /** Reading back a logged event gives the document written for it, at
      any time: the key carries no time to live. */
  lemma LoggedEventReadsBack(strings: map<string, Text>, expiry: map<string, int>, id: string,
                             doc: Json)
    ensures var s := strings[LogKey(id) := Encoded(doc)];
            LogKey(id) in s && LogKey(id) !in expiry - {LogKey(id)}
            && FetchedFrom(Some(s[LogKey(id)])) == Found(doc)
  {
  }

  /** Logging under a fresh id leaves every other event readable exactly as
      before: stored events are never rewritten. */
  lemma OtherEventsUnchanged(strings: map<string, Text>, id: string, doc: Json, other: string)
    requires other != id
    ensures var s := strings[LogKey(id) := Encoded(doc)];
            (LogKey(other) in s <==> LogKey(other) in strings)
            && (LogKey(other) in strings ==> s[LogKey(other)] == strings[LogKey(other)])
  {
    if LogKey(other) == LogKey(id) {
      LogKeyInjective(other, id);
    }
  }
}
