/** Role-based access control: roles with parent roles, API-key records,
    the lazily filled role cache and the permission checks. */
module Rbac {
  import opened Json
  import KeyValue
  import Cardinality

  /** A role as `get_role` hands it out. */
  datatype Role = Role(
    name: string,
    description: string,
    permissions: seq<string>,
    resources: seq<string>,
    parentRoles: seq<string>)

  /** An API-key record (`EnhancedApiKey`). */
  datatype ApiKeyRecord = ApiKeyRecord(
    key: string,
    name: string,
    description: string,
    roles: seq<string>,
    rateLimit: int,
    expiration: Option<int>,
    ipWhitelist: seq<string>,
    userId: Option<string>,
    organizationId: Option<string>,
    metadata: map<string, Json>,
    isActive: bool)

  const RolesSetKey := "roles"
  const ApiKeysHash := "rbac:api_keys"
  const ApiKeyNamesSet := "rbac:api_key_names"
  const ApiKeyPrefix := "ao-"

  function RoleKey(name: string): string
  {
    "role:" + name
  }

  // ---------------------------------------------------------------------
  // Role documents
  // ---------------------------------------------------------------------

  /** The JSON document `create_role` writes under `role:{name}`. */
  function RoleDoc(r: Role): Json
  {
    JObj(map[
      "name" := JStr(r.name),
      "description" := JStr(r.description),
      "permissions" := StrList(r.permissions),
      "resources" := StrList(r.resources),
      "parent_roles" := StrList(r.parentRoles)])
  }

  /** A list field read as `d.get(k, [])` and then defaulted with `or []`. */
  function ListField(fields: map<string, Json>, k: string): Option<seq<string>>
  {
    var v := GetOr(fields, k, JArr([]));
    if !Truthy(v) then Some([]) else AsStrList(v)
  }

  /** A string field read as `d.get(k, default)`. */
  function TextField(fields: map<string, Json>, k: string, default: string): Option<string>
  {
    var v := GetOr(fields, k, JStr(default));
    if v.JStr? then Some(v.s) else None
  }

  /** How `get_role` turns a decoded document into a role named `name`;
      None is a document the code fails on (and so reports as no role). */
  function RoleFromDoc(name: string, doc: Json): Option<Role>
  {
    if !doc.JObj? then None
    else
      var f := doc.fields;
      match (TextField(f, "description", ""), ListField(f, "permissions"),
             ListField(f, "resources"), ListField(f, "parent_roles"))
      case (Some(d), Some(p), Some(r), Some(pr)) => Some(Role(name, d, p, r, pr))
      case _ => None
  }

  /** What `get_role(name)` yields for a given cache and store contents:
      a cache hit, else the decoded `role:{name}` document, else nothing. */
  function ResolveRole(cache: map<string, Role>, live: map<string, Text>, name: string): Option<Role>
  {
    if name in cache then Some(cache[name])
    else if RoleKey(name) !in live then None
    else
      var t := live[RoleKey(name)];
      if !NonEmpty(t) then None
      else match Loads(t)
        case None => None
        case Some(doc) => RoleFromDoc(name, doc)
  }

  /** The role names that have a `role:` key in the store. */
  function StoredRoleNames(live: map<string, Text>): set<string>
  {
    set k | k in live && |k| >= 5 && k[..5] == "role:" :: k[5..]
  }

  lemma ResolvedIsCandidate(cache: map<string, Role>, live: map<string, Text>, name: string)
    requires ResolveRole(cache, live, name).Some?
    ensures name in cache.Keys + StoredRoleNames(live)
  {
    if name !in cache {
      var k := RoleKey(name);
      assert k[..5] == "role:" && k[5..] == name;
    }
  }

  /** The role table every lookup sees: each name that resolves, with its role. */
  ghost function Graph(cache: map<string, Role>, live: map<string, Text>): map<string, Role>
  {
    map n | n in cache.Keys + StoredRoleNames(live) && ResolveRole(cache, live, n).Some?
      :: ResolveRole(cache, live, n).value
  }

  lemma GraphAt(cache: map<string, Role>, live: map<string, Text>, name: string)
    ensures name in Graph(cache, live) <==> ResolveRole(cache, live, name).Some?
    ensures name in Graph(cache, live) ==> Some(Graph(cache, live)[name]) == ResolveRole(cache, live, name)
  {
    if ResolveRole(cache, live, name).Some? {
      ResolvedIsCandidate(cache, live, name);
    }
  }

  function Lookup(g: map<string, Role>, name: string): Option<Role>
  {
    if name in g then Some(g[name]) else None
  }

  /** Every lookup through `cache` and `live` agrees with the table `g`. */
  ghost predicate Resolves(cache: map<string, Role>, live: map<string, Text>, g: map<string, Role>)
  {
    forall n {:trigger Lookup(g, n)} :: ResolveRole(cache, live, n) == Lookup(g, n)
  }

  lemma GraphResolves(cache: map<string, Role>, live: map<string, Text>)
    ensures Resolves(cache, live, Graph(cache, live))
  {
    forall n
      ensures ResolveRole(cache, live, n) == Lookup(Graph(cache, live), n)
    {
      GraphAt(cache, live, n);
    }
  }

  /** One `get_role` call against a cache that agrees with `g`: it answers
      from `g` and the grown cache still agrees with `g`. */
  lemma CachingKeepsResolves(cache: map<string, Role>, live: map<string, Text>, g: map<string, Role>,
                             name: string, r: Option<Role>, cache': map<string, Role>)
    requires Resolves(cache, live, g)
    requires r == ResolveRole(cache, live, name)
    requires cache' == if r.Some? then cache[name := r.value] else cache
    ensures r == Lookup(g, name)
    ensures Resolves(cache', live, g)
  {
    if r.Some? {
      CacheIsTransparent(cache, live, name, r.value);
    }
  }

  /** Caching what `get_role` resolved changes no later lookup: the cache is
      invisible as long as the store does not change underneath it. */
  lemma CacheIsTransparent(cache: map<string, Role>, live: map<string, Text>, name: string, r: Role)
    requires ResolveRole(cache, live, name) == Some(r)
    ensures forall n :: ResolveRole(cache[name := r], live, n) == ResolveRole(cache, live, n)
    ensures Graph(cache[name := r], live) == Graph(cache, live)
  {
    var c' := cache[name := r];
    ResolvedIsCandidate(cache, live, name);
    assert c'.Keys + StoredRoleNames(live) == cache.Keys + StoredRoleNames(live);
    forall n
      ensures ResolveRole(c', live, n) == ResolveRole(cache, live, n)
    {
    }
  }

  // ---------------------------------------------------------------------
  // Inheritance: paths through parent roles
  // ---------------------------------------------------------------------

  /** A chain of names in which each one after the first is a parent of the
      resolved role before it. */
  ghost predicate IsPath(g: map<string, Role>, path: seq<string>)
  {
    |path| > 0 &&
    forall i :: 0 <= i < |path| - 1 ==> path[i] in g && path[i + 1] in g[path[i]].parentRoles
  }

  ghost predicate ReachableFrom(g: map<string, Role>, from: string, to: string)
  {
    exists path :: IsPath(g, path) && path[0] == from && path[|path| - 1] == to
  }

  /** `to` is one of the `roots` or is reached from one through parent links. */
  ghost predicate Reachable(g: map<string, Role>, roots: seq<string>, to: string)
  {
    exists i :: 0 <= i < |roots| && ReachableFrom(g, roots[i], to)
  }

  /** The permissions granted directly by the resolved roles among `s`. */
  ghost function PermsOf(g: map<string, Role>, s: set<string>): set<string>
  {
    set n, p | n in s && n in g && p in g[n].permissions :: p
  }

  ghost function ReachableRoles(g: map<string, Role>, roots: seq<string>): set<string>
  {
    set n | n in g && Reachable(g, roots, n)
  }

  /** The specification of `get_effective_permissions`: the union of the
      permissions of every role reachable from the given roles. */
  ghost function EffectivePermissions(g: map<string, Role>, roots: seq<string>): set<string>
  {
    PermsOf(g, ReachableRoles(g, roots))
  }

  /** A set closed under parent links, for the roles that resolve. */
  ghost predicate ParentsIn(g: map<string, Role>, m: string, s: set<string>)
  {
    m in g ==> forall p :: p in g[m].parentRoles ==> p in s
  }

  lemma ReachSelf(g: map<string, Role>, n: string)
    ensures ReachableFrom(g, n, n)
  {
    assert IsPath(g, [n]);
  }

  lemma ReachFromRoot(g: map<string, Role>, roots: seq<string>, i: int, to: string)
    requires 0 <= i < |roots| && ReachableFrom(g, roots[i], to)
    ensures Reachable(g, roots, to)
  {
  }

  /** A role reachable from the roots contributes its permissions. */
  lemma ReachableContributes(g: map<string, Role>, roots: seq<string>, n: string, p: string)
    requires n in g && Reachable(g, roots, n) && p in g[n].permissions
    ensures p in EffectivePermissions(g, roots)
  {
    assert n in ReachableRoles(g, roots);
  }

  lemma ReachThroughParent(g: map<string, Role>, n: string, p: string, m: string)
    requires n in g && p in g[n].parentRoles
    requires ReachableFrom(g, p, m)
    ensures ReachableFrom(g, n, m)
  {
    var path :| IsPath(g, path) && path[0] == p && path[|path| - 1] == m;
    var longer := [n] + path;
    assert IsPath(g, longer);
  }

  /** A set that holds a path's start and is closed under parent links holds
      the whole path. */
  lemma {:induction false} ClosedHoldsPath(g: map<string, Role>, s: set<string>, path: seq<string>)
    requires IsPath(g, path) && path[0] in s
    requires forall m :: m in s ==> ParentsIn(g, m, s)
    ensures path[|path| - 1] in s
    decreases |path|
  {
    if |path| > 1 {
      assert path[0] in g && path[1] in g[path[0]].parentRoles;
      assert ParentsIn(g, path[0], s);
      var rest := path[1..];
      assert IsPath(g, rest);
      ClosedHoldsPath(g, s, rest);
    }
  }

  lemma ParentsInGrows(g: map<string, Role>, m: string, s: set<string>, t: set<string>)
    requires ParentsIn(g, m, s) && s <= t
    ensures ParentsIn(g, m, t)
  {
  }

  lemma PermsOfAdd(g: map<string, Role>, s: set<string>, n: string)
    ensures n in g ==> PermsOf(g, s + {n}) == PermsOf(g, s) + (set p | p in g[n].permissions)
    ensures n !in g ==> PermsOf(g, s + {n}) == PermsOf(g, s)
  {
  }

  lemma PermsOfOnRoles(g: map<string, Role>, s: set<string>, t: set<string>)
    requires forall n :: n in g ==> (n in s <==> n in t)
    ensures PermsOf(g, s) == PermsOf(g, t)
  {
  }

  /** A table is pinned down by the lookups that agree with it. */
  lemma ResolvesDeterminesGraph(cache: map<string, Role>, live: map<string, Text>, g: map<string, Role>)
    requires Resolves(cache, live, g)
    ensures Graph(cache, live) == g
  {
    forall n
      ensures n in Graph(cache, live) <==> n in g
      ensures n in g ==> Graph(cache, live)[n] == g[n]
    {
      GraphAt(cache, live, n);
      assert ResolveRole(cache, live, n) == Lookup(g, n);
    }
  }

  /** A set of processed names that holds the roots and is closed under
      parent links holds every reachable role. */
  lemma ClosedHoldsReachable(g: map<string, Role>, roots: seq<string>, s: set<string>)
    requires forall j :: 0 <= j < |roots| ==> roots[j] in s
    requires forall m :: m in s ==> ParentsIn(g, m, s)
    requires forall m :: m in s ==> Reachable(g, roots, m)
    ensures forall n :: n in g ==> (n in s <==> n in ReachableRoles(g, roots))
  {
    forall n | n in g && n in ReachableRoles(g, roots)
      ensures n in s
    {
      var k :| 0 <= k < |roots| && ReachableFrom(g, roots[k], n);
      var path :| IsPath(g, path) && path[0] == roots[k] && path[|path| - 1] == n;
      ClosedHoldsPath(g, s, path);
    }
  }

  // ---------------------------------------------------------------------
  // has_permission, as a function of the role table and the key record
  // ---------------------------------------------------------------------

  /** `"{permission}:{type}:{id}"`, checked only when both are given. */
  function Qualified(permission: string, resourceType: Option<string>, resourceId: Option<string>): Option<string>
  {
    if Present(resourceType) && Present(resourceId) then
      Some(permission + ":" + resourceType.value + ":" + resourceId.value)
    else None
  }

  /** The checks `has_permission` makes on one of the key's roles: a direct
      permission, the resource-qualified one, or a permission of an
      immediate parent. */
  ghost predicate RoleGrants(g: map<string, Role>, name: string, permission: string, qualified: Option<string>)
  {
    name in g &&
    (permission in g[name].permissions
     || (qualified.Some? && qualified.value in g[name].permissions)
     || exists j :: 0 <= j < |g[name].parentRoles| && ParentGrants(g, g[name].parentRoles[j], permission))
  }

  ghost predicate ParentGrants(g: map<string, Role>, parent: string, permission: string)
  {
    parent in g && permission in g[parent].permissions
  }

  /** `if expiration and time.time() > expiration`; a value that cannot be
      compared with the clock raises, and the failure is caught as a denial. */
  predicate ExpiryBlocks(expiration: Json, clock: real)
  {
    Truthy(expiration) &&
    match expiration
    case JNum(n) => clock > n as real
    case JBool(b) => clock > 1.0
    case _ => true
  }

  /** The decoded key record `has_permission` works on, when it gets that far. */
  function KeyInfo(record: Option<Text>): Option<map<string, Json>>
  {
    if record.None? || !NonEmpty(record.value) then None
    else match Loads(record.value)
      case Some(JObj(f)) => Some(f)
      case _ => None
  }

  /** The role names of a decoded key record; None when the key is denied
      before its roles are looked at. */
  function KeyRoles(info: map<string, Json>, clock: real): (r: Option<seq<string>>)
    ensures r.Some? ==> Truthy(GetOr(info, "is_active", JBool(true)))
                        && !ExpiryBlocks(GetOr(info, "expiration", JNull), clock)
                        && r.value != []
  {
    if !Truthy(GetOr(info, "is_active", JBool(true))) then None
    else if ExpiryBlocks(GetOr(info, "expiration", JNull), clock) then None
    else
      var roles := GetOr(info, "roles", JArr([]));
      if !Truthy(roles) then None else AsStrList(roles)
  }

  /** The verdict of `has_permission` for the stored record of the key. */
  ghost predicate PermissionGranted(
    g: map<string, Role>, record: Option<Text>, permission: string,
    resourceType: Option<string>, resourceId: Option<string>, clock: real)
  {
    match KeyInfo(record)
    case None => false
    case Some(info) =>
      match KeyRoles(info, clock)
      case None => false
      case Some(names) =>
        exists i :: 0 <= i < |names| && RoleGrants(g, names[i], permission, Qualified(permission, resourceType, resourceId))
  }

  // ---------------------------------------------------------------------
  // API-key documents
  // ---------------------------------------------------------------------

  /** The JSON document `create_api_key` writes into the `rbac:api_keys` hash. */
  function ApiKeyDoc(k: ApiKeyRecord): Json
  {
    JObj(map[
      "key" := JStr(k.key),
      "name" := JStr(k.name),
      "description" := JStr(k.description),
      "roles" := StrList(k.roles),
      "rate_limit" := JNum(k.rateLimit),
      "expiration" := (match k.expiration case None => JNull case Some(e) => JNum(e)),
      "ip_whitelist" := StrList(k.ipWhitelist),
      "user_id" := OptStr(k.userId),
      "organization_id" := OptStr(k.organizationId),
      "metadata" := JObj(k.metadata),
      "is_active" := JBool(k.isActive)])
  }

  function OptStrField(f: map<string, Json>, k: string): Option<Option<string>>
  {
    match GetOr(f, k, JNull)
    case JNull => Some(None)
    case JStr(s) => Some(Some(s))
    case _ => None
  }

  /** How `get_api_key` rebuilds a record: `key`, `name` and `roles` are
      required, the rest fall back to defaults, and the description is not
      read back at all. */
  function ApiKeyFromDoc(doc: Json): (r: Option<ApiKeyRecord>)
    ensures r.Some? ==> r.value.description == ""
  {
    if !doc.JObj? then None
    else
      var f := doc.fields;
      if !("key" in f && f["key"].JStr? && "name" in f && f["name"].JStr? && "roles" in f) then None
      else
        var roles := if Truthy(f["roles"]) then AsStrList(f["roles"]) else Some([]);
        var rate := GetOr(f, "rate_limit", JNum(60));
        var exp := GetOr(f, "expiration", JNull);
        var ips := ListField(f, "ip_whitelist");
        var meta := GetOr(f, "metadata", JObj(map[]));
        var active := GetOr(f, "is_active", JBool(true));
        match (roles, OptStrField(f, "user_id"), OptStrField(f, "organization_id"), ips)
        case (Some(rs), Some(u), Some(o), Some(ip)) =>
          if rate.JNum? && (exp.JNull? || exp.JNum?) && (meta.JNull? || meta.JObj?) && active.JBool? then
            Some(ApiKeyRecord(
              f["key"].s, f["name"].s, "", rs, rate.n,
              if exp.JNum? then Some(exp.n) else None,
              ip, u, o, if meta.JObj? then meta.fields else map[], active.b))
          else None
        case _ => None
  }

  /** The record `get_api_key` rebuilds from the hash field it reads:
      missing, empty or undecodable text gives nothing. */
  function ApiKeyFromText(t: Option<Text>): Option<ApiKeyRecord>
  {
    if t.None? || !NonEmpty(t.value) then None
    else match Loads(t.value)
      case None => None
      case Some(doc) => ApiKeyFromDoc(doc)
  }

  /** The record `create_api_key` builds. */
  function NewApiKey(token: string, name: string, roles: seq<string>, description: Option<string>,
                     rateLimit: int, expiresIn: Option<int>, nowSeconds: int): (k: ApiKeyRecord)
    ensures |k.key| >= 3 && k.key[..3] == ApiKeyPrefix
    ensures k.expiration.Some? <==> expiresIn.Some? && expiresIn.value != 0
    ensures k.expiration.Some? ==> k.expiration.value == nowSeconds + expiresIn.value
    ensures k.isActive && k.ipWhitelist == [] && k.userId.None? && k.organizationId.None?
  {
    ApiKeyRecord(
      ApiKeyPrefix + token, name,
      if description.Some? then description.value else "",
      roles, rateLimit,
      if expiresIn.Some? && expiresIn.value != 0 then Some(nowSeconds + expiresIn.value) else None,
      [], None, None, map[], true)
  }

  datatype CreateKeyResult = Created(apiKey: ApiKeyRecord) | DuplicateName(message: string)

  /** What `create_role` writes is what `get_role` reads back. */
  lemma RoleDocRoundTrip(r: Role)
    ensures RoleFromDoc(r.name, RoleDoc(r)) == Some(r)
  {
    StrListRoundTrip(r.permissions);
    StrListRoundTrip(r.resources);
    StrListRoundTrip(r.parentRoles);
  }

  /** A manager with an empty cache (another process, or one started
      later) finds a role written by `create_role` in the store. */
  lemma StoredRoleReadsBack(live: map<string, Text>, r: Role)
    ensures ResolveRole(map[], live[RoleKey(r.name) := Encoded(RoleDoc(r))], r.name) == Some(r)
  {
    RoleDocRoundTrip(r);
  }

  /** What `create_api_key` writes is what `get_api_key` reads back, except
      the description, which `get_api_key` does not read. */
  lemma ApiKeyDocRoundTrip(k: ApiKeyRecord)
    ensures ApiKeyFromDoc(ApiKeyDoc(k)) == Some(k.(description := ""))
  {
    ApiKeyDocFields(k);
    ApiKeyDocLists(k);
  }

  /** The optional and list fields of `ApiKeyDoc` read back as written. */
  lemma ApiKeyDocLists(k: ApiKeyRecord)
    ensures var f := ApiKeyDoc(k).fields;
            OptStrField(f, "user_id") == Some(k.userId)
            && OptStrField(f, "organization_id") == Some(k.organizationId)
            && ListField(f, "ip_whitelist") == Some(k.ipWhitelist)
            && "roles" in f && (if Truthy(f["roles"]) then AsStrList(f["roles"]) else Some([])) == Some(k.roles)
  {
    StrListRoundTrip(k.roles);
    StrListRoundTrip(k.ipWhitelist);
    ApiKeyDocFields(k);
  }

  /** Where `ApiKeyDoc` puts each field of the record. */
  lemma ApiKeyDocFields(k: ApiKeyRecord)
    ensures var f := ApiKeyDoc(k).fields;
            "key" in f && f["key"] == JStr(k.key) && "name" in f && f["name"] == JStr(k.name)
            && "roles" in f && f["roles"] == StrList(k.roles)
            && GetOr(f, "rate_limit", JNum(60)) == JNum(k.rateLimit)
            && GetOr(f, "expiration", JNull) == (match k.expiration case None => JNull case Some(e) => JNum(e))
            && GetOr(f, "ip_whitelist", JArr([])) == StrList(k.ipWhitelist)
            && GetOr(f, "user_id", JNull) == OptStr(k.userId)
            && GetOr(f, "organization_id", JNull) == OptStr(k.organizationId)
            && GetOr(f, "metadata", JObj(map[])) == JObj(k.metadata)
            && GetOr(f, "is_active", JBool(true)) == JBool(k.isActive)
  {
  }

  lemma ApiKeyTextRoundTrip(k: ApiKeyRecord)
    ensures ApiKeyFromText(Some(Encoded(ApiKeyDoc(k)))) == Some(k.(description := ""))
  {
    ApiKeyDocRoundTrip(k);
  }

  /** `has_permission` fails closed: a grant needs a stored, decodable,
      active, unexpired record with a non-empty role list. */
  lemma GrantNeedsUsableKey(g: map<string, Role>, record: Option<Text>, permission: string,
                            resourceType: Option<string>, resourceId: Option<string>, clock: real)
    requires PermissionGranted(g, record, permission, resourceType, resourceId, clock)
    ensures record.Some? && record.value.Encoded? && record.value.doc.JObj?
    ensures var info := record.value.doc.fields;
              Truthy(GetOr(info, "is_active", JBool(true)))
              && !ExpiryBlocks(GetOr(info, "expiration", JNull), clock)
              && Truthy(GetOr(info, "roles", JArr([])))
  {
  }

  /** Every grant of `has_permission` is backed by `get_effective_permissions`
      of the key's roles: the permission or its resource-qualified form is
      among them. */
  lemma GrantIsEffective(g: map<string, Role>, record: Option<Text>, permission: string,
                         resourceType: Option<string>, resourceId: Option<string>, clock: real)
    requires PermissionGranted(g, record, permission, resourceType, resourceId, clock)
    ensures KeyInfo(record).Some? && KeyRoles(KeyInfo(record).value, clock).Some?
    ensures var names := KeyRoles(KeyInfo(record).value, clock).value;
            var q := Qualified(permission, resourceType, resourceId);
              permission in EffectivePermissions(g, names)
              || (q.Some? && q.value in EffectivePermissions(g, names))
  {
    var names := KeyRoles(KeyInfo(record).value, clock).value;
    var q := Qualified(permission, resourceType, resourceId);
    var i :| 0 <= i < |names| && RoleGrants(g, names[i], permission, q);
    var n := names[i];
    ReachSelf(g, n);
    assert n in ReachableRoles(g, names);
    if permission in g[n].permissions {
      assert permission in PermsOf(g, ReachableRoles(g, names));
    } else if q.Some? && q.value in g[n].permissions {
      assert q.value in PermsOf(g, ReachableRoles(g, names));
    } else {
      var j :| 0 <= j < |g[n].parentRoles| && ParentGrants(g, g[n].parentRoles[j], permission);
      var p := g[n].parentRoles[j];
      ReachSelf(g, p);
      ReachThroughParent(g, n, p, p);
      assert Reachable(g, names, p);
      assert p in ReachableRoles(g, names);
      assert permission in PermsOf(g, ReachableRoles(g, names));
    }
  }

  /** A key record holding just a role list. */
  function RolesOnlyRecord(roles: seq<string>): Text
  {
    Encoded(JObj(map["roles" := StrList(roles)]))
  }

  /** `has_permission` is not complete: a permission granted only by a
      grandparent role is effective for the key's role, yet refused. */
  lemma GrandparentNotConsulted()
    ensures var g := map[
              "a" := Role("a", "", [], [], ["b"]),
              "b" := Role("b", "", [], [], ["c"]),
              "c" := Role("c", "", ["x"], [], [])];
            "x" in EffectivePermissions(g, ["a"])
            && !PermissionGranted(g, Some(RolesOnlyRecord(["a"])), "x", None, None, 0.0)
  {
    var g := map[
      "a" := Role("a", "", [], [], ["b"]),
      "b" := Role("b", "", [], [], ["c"]),
      "c" := Role("c", "", ["x"], [], [])];
    assert IsPath(g, ["a", "b", "c"]);
    ReachFromRoot(g, ["a"], 0, "c");
    ReachableContributes(g, ["a"], "c", "x");
    var info := map["roles" := StrList(["a"])];
    StrListRoundTrip(["a"]);
    assert KeyRoles(info, 0.0) == Some(["a"]);
    assert !ParentGrants(g, "b", "x");
  }

  /** The wildcard `*` is an ordinary permission string: a role holding
      only `*` grants no other permission. */
  lemma WildcardNotSpecial()
    ensures var g := map["admin" := Role("admin", "", ["*"], ["*"], [])];
            !PermissionGranted(g, Some(RolesOnlyRecord(["admin"])), "read", None, None, 0.0)
            && EffectivePermissions(g, ["admin"]) == {"*"}
  {
    var g := map["admin" := Role("admin", "", ["*"], ["*"], [])];
    var info := map["roles" := StrList(["admin"])];
    StrListRoundTrip(["admin"]);
    assert KeyRoles(info, 0.0) == Some(["admin"]);
    ReachSelf(g, "admin");
    ReachFromRoot(g, ["admin"], 0, "admin");
    ReachableContributes(g, ["admin"], "admin", "*");
    forall m | Reachable(g, ["admin"], m)
      ensures m == "admin"
    {
      var path :| IsPath(g, path) && path[0] == "admin" && path[|path| - 1] == m;
      LeafPathsStay(g, path);
    }
    assert ReachableRoles(g, ["admin"]) == {"admin"};
  }

  /** Inheritance through a chain that loops back on itself: `c`'s
      permission is effective for `a` when `a -> b -> a` and `b -> c`. */
  lemma CyclicChainInherits()
    ensures var g := map[
              "a" := Role("a", "", [], [], ["b"]),
              "b" := Role("b", "", [], [], ["a", "c"]),
              "c" := Role("c", "", ["p"], [], [])];
            "p" in EffectivePermissions(g, ["a"])
  {
    var g := map[
      "a" := Role("a", "", [], [], ["b"]),
      "b" := Role("b", "", [], [], ["a", "c"]),
      "c" := Role("c", "", ["p"], [], [])];
    assert IsPath(g, ["a", "b", "c"]);
    ReachFromRoot(g, ["a"], 0, "c");
    ReachableContributes(g, ["a"], "c", "p");
  }

  /** The first step of a path: it stops at once, or goes from a resolved
      role to one of its parents. */
  lemma PathStart(g: map<string, Role>, path: seq<string>)
    requires IsPath(g, path)
    ensures |path| == 1 || (path[0] in g && path[1] in g[path[0]].parentRoles)
  {
    if |path| > 1 {
      assert 0 <= 0 < |path| - 1;
    }
  }

  /** A path that starts at a role without parents goes nowhere. */
  lemma LeafPathsStay(g: map<string, Role>, path: seq<string>)
    requires IsPath(g, path) && path[0] in g && g[path[0]].parentRoles == []
    ensures |path| == 1
  {
    PathStart(g, path);
  }

  /** A role name that does not resolve reaches nothing but itself. */
  lemma {:induction false} UnknownReachesNothing(g: map<string, Role>, u: string, m: string)
    requires u !in g && ReachableFrom(g, u, m)
    ensures m == u
  {
    var path :| IsPath(g, path) && path[0] == u && path[|path| - 1] == m;
    PathStart(g, path);
  }

  /** Unknown role names contribute nothing to the effective permissions. */
  lemma UnknownRoleAddsNothing(g: map<string, Role>, roots: seq<string>, u: string)
    requires u !in g
    ensures EffectivePermissions(g, roots + [u]) == EffectivePermissions(g, roots)
  {
    var longer := roots + [u];
    forall n | n in g
      ensures n in ReachableRoles(g, longer) <==> n in ReachableRoles(g, roots)
    {
      if Reachable(g, longer, n) {
        var i :| 0 <= i < |longer| && ReachableFrom(g, longer[i], n);
        if i == |roots| {
          UnknownReachesNothing(g, u, n);
        } else {
          assert longer[i] == roots[i];
        }
      }
      if Reachable(g, roots, n) {
        var i :| 0 <= i < |roots| && ReachableFrom(g, roots[i], n);
        assert longer[i] == roots[i];
      }
    }
    PermsOfOnRoles(g, ReachableRoles(g, longer), ReachableRoles(g, roots));
  }

  // ---------------------------------------------------------------------
  // The manager
  // ---------------------------------------------------------------------

  class RBACManager {
    const store: KeyValue.Store
    var roleCache: map<string, Role>

    constructor (store: KeyValue.Store)
      ensures this.store == store && roleCache == map[]
    {
      this.store := store;
      roleCache := map[];
    }

    /** The role table as lookups see it at second `now`. */
    ghost function Roles(now: int): map<string, Role>
      reads this, store
    {
      Graph(roleCache, store.Live(now))
    }

    /** `get_role`: the cache first, then the `role:{name}` document. */
    method GetRole(name: string, now: int) returns (r: Option<Role>)
      modifies this`roleCache
      ensures r == ResolveRole(old(roleCache), store.Live(now), name)
      ensures roleCache == if r.Some? then old(roleCache)[name := r.value] else old(roleCache)
      ensures Roles(now) == old(Roles(now))
    {
      if name in roleCache {
        r := Some(roleCache[name]);
        return;
      }
      var t := store.Get(RoleKey(name), now);
      if t.None? || !NonEmpty(t.value) {
        r := None;
        return;
      }
      var doc := Loads(t.value);
      if doc.None? {
        r := None;
        return;
      }
      r := RoleFromDoc(name, doc.value);
      if r.Some? {
        CacheIsTransparent(roleCache, store.Live(now), name, r.value);
        roleCache := roleCache[name := r.value];
      }
    }

    /** `get_role` seen from a caller that knows the role table `g` the
        cache and store agree on: it answers from `g` and the agreement
        survives the call. */
    method FetchRole(name: string, now: int, ghost g: map<string, Role>) returns (r: Option<Role>)
      requires Resolves(roleCache, store.Live(now), g)
      modifies this`roleCache
      ensures Resolves(roleCache, store.Live(now), g)
      ensures r.Some? <==> name in g
      ensures r.Some? ==> r.value == g[name]
    {
      ghost var cache0 := roleCache;
      r := GetRole(name, now);
      CachingKeepsResolves(cache0, store.Live(now), g, name, r, roleCache);
    }

    /** `create_role`: returns an existing role untouched, or writes the new
        one to `role:{name}`, adds it to the `roles` set and caches it. */
    method CreateRole(name: string, description: string, permissions: seq<string>,
                      resources: seq<string>, parentRoles: seq<string>, now: int) returns (role: Role)
      modifies this`roleCache, store
      ensures old(ResolveRole(roleCache, store.Live(now), name)).Some? ==>
                role == old(ResolveRole(roleCache, store.Live(now), name)).value
                && unchanged(store)
      ensures old(ResolveRole(roleCache, store.Live(now), name)).None? ==>
                role == Role(name, description, permissions, resources, parentRoles)
                && store.strings == old(store.strings)[RoleKey(name) := Encoded(RoleDoc(role))]
                && store.expiry == old(store.expiry) - {RoleKey(name)}
                && store.sets == old(store.sets)[RolesSetKey := old(if RolesSetKey in store.sets then store.sets[RolesSetKey] else {}) + {name}]
                && store.hashes == old(store.hashes) && store.zsets == old(store.zsets)
                && store.lists == old(store.lists)
      ensures roleCache == old(roleCache)[name := role]
    {
      var existing := GetRole(name, now);
      if existing.Some? {
        return existing.value;
      }
      role := Role(name, description, permissions, resources, parentRoles);
      store.Set(RoleKey(name), Encoded(RoleDoc(role)));
      store.SAdd(RolesSetKey, name);
      roleCache := roleCache[name := role];
    }

    /** The recursive `process_role` of `get_effective_permissions`: marks
        the name processed, adds its permissions and descends into its
        parents, skipping every name already processed. */
    method ProcessRole(name: string, now: int, ghost g: map<string, Role>,
                       processed: set<string>, effective: set<string>)
      returns (processed': set<string>, effective': set<string>)
      requires Resolves(roleCache, store.Live(now), g)
      requires effective == PermsOf(g, processed)
      modifies this`roleCache
      ensures Resolves(roleCache, store.Live(now), g)
      ensures processed <= processed' && name in processed'
      ensures effective' == PermsOf(g, processed')
      ensures forall m :: m in processed' - processed ==> ReachableFrom(g, name, m)
      ensures forall m :: m in processed' - processed ==> ParentsIn(g, m, processed')
      decreases |g.Keys - processed|
    {
      if name in processed {
        return processed, effective;
      }
      processed' := processed + {name};
      ReachSelf(g, name);
      var role := FetchRole(name, now, g);
      PermsOfAdd(g, processed, name);
      if role.None? {
        effective' := effective;
        return;
      }
      effective' := effective + (set p | p in role.value.permissions);
      var parents := role.value.parentRoles;
      var i := 0;
      while i < |parents|
        invariant 0 <= i <= |parents|
        invariant Resolves(roleCache, store.Live(now), g)
        invariant processed + {name} <= processed'
        invariant effective' == PermsOf(g, processed')
        invariant forall m :: m in processed' - processed ==> ReachableFrom(g, name, m)
        invariant forall m :: m in processed' - processed && m != name ==> ParentsIn(g, m, processed')
        invariant forall j :: 0 <= j < i ==> parents[j] in processed'
      {
        ghost var before := processed';
        assert g.Keys - before < g.Keys - processed;
        Cardinality.FewerLeft(g.Keys - before, g.Keys - processed);
        processed', effective' := ProcessRole(parents[i], now, g, processed', effective');
        forall m | m in processed' - processed
          ensures ReachableFrom(g, name, m)
          ensures m != name ==> ParentsIn(g, m, processed')
        {
          if m in before {
            if m != name {
              ParentsInGrows(g, m, before, processed');
            }
          } else {
            ReachThroughParent(g, name, parents[i], m);
          }
        }
        i := i + 1;
      }
    }

    /** `get_effective_permissions`: the union of the permissions of every
        role reachable from `roleNames`, each name processed once. */
    method GetEffectivePermissions(roleNames: seq<string>, now: int) returns (perms: set<string>)
      modifies this`roleCache
      ensures perms == EffectivePermissions(old(Roles(now)), roleNames)
      ensures Roles(now) == old(Roles(now))
    {
      ghost var g := Roles(now);
      GraphResolves(roleCache, store.Live(now));
      var processed: set<string> := {};
      perms := {};
      var i := 0;
      while i < |roleNames|
        invariant 0 <= i <= |roleNames|
        invariant Resolves(roleCache, store.Live(now), g)
        invariant perms == PermsOf(g, processed)
        invariant forall m :: m in processed ==> Reachable(g, roleNames, m)
        invariant forall m :: m in processed ==> ParentsIn(g, m, processed)
        invariant forall j :: 0 <= j < i ==> roleNames[j] in processed
      {
        ghost var before := processed;
        processed, perms := ProcessRole(roleNames[i], now, g, processed, perms);
        forall m | m in processed - before
          ensures Reachable(g, roleNames, m)
        {
          assert ReachableFrom(g, roleNames[i], m);
        }
        i := i + 1;
      }
      ClosedHoldsReachable(g, roleNames, processed);
      PermsOfOnRoles(g, processed, ReachableRoles(g, roleNames));
      ResolvesDeterminesGraph(roleCache, store.Live(now), g);
    }

    /** `get_api_key`: the stored record, or None when it is missing or
        cannot be read back. */
    function GetApiKey(key: string): (r: Option<ApiKeyRecord>)
      reads this, store
      ensures r.Some? ==> store.HGet(ApiKeysHash, key).Some? && NonEmpty(store.HGet(ApiKeysHash, key).value)
      ensures r.Some? ==> r.value.description == ""
    {
      ApiKeyFromText(store.HGet(ApiKeysHash, key))
    }

    /** `create_api_key`: refuses a name already registered; otherwise writes
        the new record into the `rbac:api_keys` hash and registers the name.
        `token` stands for the random URL-safe token. */
    method CreateApiKey(name: string, roles: seq<string>, description: Option<string>,
                        rateLimit: int, expiresIn: Option<int>, nowSeconds: int, token: string)
      returns (r: CreateKeyResult)
      modifies store
      ensures old(store.SIsMember(ApiKeyNamesSet, name)) ==>
                r == DuplicateName("API key name '" + name + "' already exists") && unchanged(store)
      ensures !old(store.SIsMember(ApiKeyNamesSet, name)) ==>
                r == Created(NewApiKey(token, name, roles, description, rateLimit, expiresIn, nowSeconds))
                && store.hashes == old(store.hashes)[ApiKeysHash :=
                     old(if ApiKeysHash in store.hashes then store.hashes[ApiKeysHash] else map[])
                       [r.apiKey.key := Encoded(ApiKeyDoc(r.apiKey))]]
                && store.sets == old(store.sets)[ApiKeyNamesSet :=
                     old(if ApiKeyNamesSet in store.sets then store.sets[ApiKeyNamesSet] else {}) + {name}]
                && store.strings == old(store.strings) && store.expiry == old(store.expiry)
                && store.zsets == old(store.zsets) && store.lists == old(store.lists)
    ensures r.Created? ==> GetApiKey(r.apiKey.key) == Some(r.apiKey.(description := ""))
    {
      if store.SIsMember(ApiKeyNamesSet, name) {
        return DuplicateName("API key name '" + name + "' already exists");
      }
      var k := NewApiKey(token, name, roles, description, rateLimit, expiresIn, nowSeconds);
      store.HSet(ApiKeysHash, k.key, Encoded(ApiKeyDoc(k)));
      store.SAdd(ApiKeyNamesSet, name);
      r := Created(k);
      assert store.HGet(ApiKeysHash, k.key) == Some(Encoded(ApiKeyDoc(k)));
      ApiKeyTextRoundTrip(k);
    }

    /** `has_permission`: fails closed on a missing, inactive or expired key
        or one without roles, then checks each role directly, in its
        resource-qualified form, and through its immediate parents. The store
        is read at the second the clock shows. */
    method HasPermission(apiKey: string, permission: string, resourceType: Option<string>,
                         resourceId: Option<string>, clock: real) returns (granted: bool)
      modifies this`roleCache
      ensures granted == PermissionGranted(old(Roles(clock.Floor)), store.HGet(ApiKeysHash, apiKey),
                                           permission, resourceType, resourceId, clock)
      ensures Roles(clock.Floor) == old(Roles(clock.Floor))
    {
      var now := clock.Floor;
      ghost var g := Roles(now);
      GraphResolves(roleCache, store.Live(now));
      var record := store.HGet(ApiKeysHash, apiKey);
      var info := KeyInfo(record);
      if info.None? {
        return false;
      }
      var names := KeyRoles(info.value, clock);
      if names.None? {
        return false;
      }
      granted := AnyRoleGrants(names.value, permission, Qualified(permission, resourceType, resourceId), now, g);
      ResolvesDeterminesGraph(roleCache, store.Live(now), g);
    }

    /** The role loop of `has_permission`: stops at the first role that grants. */
    method AnyRoleGrants(roles: seq<string>, permission: string, qualified: Option<string>,
                         now: int, ghost g: map<string, Role>) returns (hit: bool)
      requires Resolves(roleCache, store.Live(now), g)
      modifies this`roleCache
      ensures Resolves(roleCache, store.Live(now), g)
      ensures hit <==> exists i :: 0 <= i < |roles| && RoleGrants(g, roles[i], permission, qualified)
    {
      var i := 0;
      while i < |roles|
        invariant 0 <= i <= |roles|
        invariant Resolves(roleCache, store.Live(now), g)
        invariant forall k :: 0 <= k < i ==> !RoleGrants(g, roles[k], permission, qualified)
      {
        hit := CheckRole(roles[i], permission, qualified, now, g);
        if hit {
          return;
        }
        i := i + 1;
      }
      hit := false;
    }

    /** The body of the role loop in `has_permission`: one role's direct,
        resource-qualified and immediate-parent permissions. */
    method CheckRole(name: string, permission: string, qualified: Option<string>,
                     now: int, ghost g: map<string, Role>) returns (hit: bool)
      requires Resolves(roleCache, store.Live(now), g)
      modifies this`roleCache
      ensures Resolves(roleCache, store.Live(now), g)
      ensures hit == RoleGrants(g, name, permission, qualified)
    {
      var role := FetchRole(name, now, g);
      if role.None? {
        return false;
      }
      var r := role.value;
      if permission in r.permissions {
        return true;
      }
      if qualified.Some? && qualified.value in r.permissions {
        return true;
      }
      var j := 0;
      while j < |r.parentRoles|
        invariant 0 <= j <= |r.parentRoles|
        invariant Resolves(roleCache, store.Live(now), g)
        invariant forall k :: 0 <= k < j ==> !ParentGrants(g, r.parentRoles[k], permission)
      {
        var parent := FetchRole(r.parentRoles[j], now, g);
        if parent.Some? && permission in parent.value.permissions {
          assert ParentGrants(g, r.parentRoles[j], permission);
          return true;
        }
        j := j + 1;
      }
      hit := false;
    }
  }

  /** The module-level `check_permission`: no manager or no key on the
      request state denies; a key that is not a string is refused by the
      store, which the manager reports as a denial. */
  method CheckPermission(manager: Option<RBACManager>, apiKey: Option<Json>, permission: string,
                         resourceType: Option<string>, resourceId: Option<string>, clock: real)
    returns (allowed: bool)
    modifies if manager.Some? then {manager.value} else {}
    ensures manager.None? || apiKey.None? ==> !allowed
    ensures manager.Some? && apiKey.Some? && apiKey.value.JStr? ==>
              allowed == PermissionGranted(old(manager.value.Roles(clock.Floor)),
                                           manager.value.store.HGet(ApiKeysHash, apiKey.value.s),
                                           permission, resourceType, resourceId, clock)
    ensures manager.Some? && apiKey.Some? && !apiKey.value.JStr? ==> !allowed
  {
    if manager.None? || apiKey.None? {
      return false;
    }
    if !apiKey.value.JStr? {
      return false;
    }
    allowed := manager.value.HasPermission(apiKey.value.s, permission, resourceType, resourceId, clock);
  }
}
