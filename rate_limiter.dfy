/** The sliding-window rate limiter: one sorted set per client address,
    member and score both taken from the request's second. */
module RateLimit {
  import opened Json
  import KeyValue
  import Cardinality

  /** `RateLimitConfig`; the burst limit is carried but never consulted. */
  datatype RateLimitConfig = RateLimitConfig(requestsPerMinute: int, burstLimit: int, enabled: bool)

  const DefaultConfig := RateLimitConfig(60, 100, true)

  /** Length of the window in seconds. */
  const Window := 60

  function WindowKey(clientIp: string): string
  {
    "rate_limit:" + clientIp
  }

  /** The outcome of a check: the request goes on, or it is refused with
      status 429 and the detail `{error, limit, reset}`, or (`NoClient`)
      the request carries no client address and reading its host raises. */
  datatype Verdict = Allowed | Rejected(limit: int, reset: int) | NoClient

  const TooManyRequests := 429
  const RejectionError := "Rate limit exceeded"

  // ---------------------------------------------------------------------
  // Decimal rendering of a second, as `str(current_time)` writes it
  // ---------------------------------------------------------------------

  function Digit(d: nat): char
    requires d < 10
  {
    (48 + d) as char
  }

  function NatToString(n: nat): (s: string)
    ensures |s| >= 1
    decreases n
  {
    if n < 10 then [Digit(n)] else NatToString(n / 10) + [Digit(n % 10)]
  }

  /** Different seconds are different members. */
  lemma {:induction false} NatToStringInjective(a: nat, b: nat)
    requires NatToString(a) == NatToString(b)
    ensures a == b
    decreases a
  {
    var s := NatToString(a);
    if a < 10 && b < 10 {
      assert Digit(a) == s[0] == Digit(b);
    } else if a >= 10 && b >= 10 {
      assert NatToString(a / 10) == s[..|s| - 1] == NatToString(b / 10);
      assert Digit(a % 10) == s[|s| - 1] == Digit(b % 10);
      NatToStringInjective(a / 10, b / 10);
    }
  }

  // ---------------------------------------------------------------------
  // One check step on a window
  // ---------------------------------------------------------------------

  /** The window after `ZREMRANGEBYSCORE key 0 (now - 60)`. */
  function Recent(z: map<string, int>, now: nat): (r: map<string, int>)
    ensures forall m :: m in r <==> m in z && !(0 <= z[m] <= now - Window)
    ensures forall m :: m in r ==> r[m] == z[m]
  {
    KeyValue.ScoredOutside(z, 0, now - Window)
  }

  /** The window after the purge and the `ZADD` of `member` at `now`: the
      member at `now`, and every other entry that was scored after
      `now - 60`, with its score. */
  function Record(z: map<string, int>, now: nat, member: string): (r: map<string, int>)
    ensures member in r && r[member] == now
    ensures forall m :: m != member ==> (m in r <==> m in z && !(0 <= z[m] <= now - Window))
    ensures forall m :: m in r && m != member ==> r[m] == z[m]
  {
    Recent(z, now)[member := now]
  }

  /** The comparison of the count with the limit, and the 429 detail. */
  function Decide(count: nat, limit: int, now: nat): (v: Verdict)
    ensures v.Rejected? <==> count > limit
    ensures v == Allowed <==> count <= limit
    ensures v.Rejected? ==> v.limit == limit && v.reset == Window - now % Window
  {
    if count > limit then Rejected(limit, Window - now % Window) else Allowed
  }

  /** The `reset` of a rejection always lies between 1 and 60 seconds. */
  lemma ResetInRange(now: nat)
    ensures 1 <= Window - now % Window <= Window
  {
  }

  class RateLimiter {
    const store: KeyValue.Store
    const config: RateLimitConfig

    constructor (store: KeyValue.Store, config: RateLimitConfig)
      ensures this.store == store && this.config == config
    {
      this.store := store;
      this.config := config;
    }

    /** `check_rate_limit` at second `now` (`int(time.time())`), for the
        request's client address, None when the request has none: purge the
        entries at least a window old, count the rest, record this second,
        and refuse when the count exceeds the limit. A refused request is
        recorded all the same, and no other window changes. */
    method CheckRateLimit(client: Option<string>, now: nat) returns (v: Verdict)
      modifies store
      ensures !config.enabled ==> v == Allowed && unchanged(store)
      ensures config.enabled && client.None? ==> v == NoClient && unchanged(store)
      ensures config.enabled && client.Some? ==>
                v == Decide(|Recent(old(store.ZMembers(WindowKey(client.value))), now)|,
                            config.requestsPerMinute, now)
                && store.zsets == old(store.zsets)[WindowKey(client.value) :=
                     Record(old(store.ZMembers(WindowKey(client.value))), now, NatToString(now))]
      ensures store.strings == old(store.strings) && store.expiry == old(store.expiry)
      ensures store.hashes == old(store.hashes) && store.sets == old(store.sets)
      ensures store.lists == old(store.lists)
    {
      if !config.enabled {
        return Allowed;
      }
      if client.None? {
        return NoClient;
      }
      var key := WindowKey(client.value);
      store.ZRemRangeByScore(key, 0, now - Window);
      var count := |store.ZMembers(key)|;
      store.ZAdd(key, NatToString(now), now);
      v := Decide(count, config.requestsPerMinute, now);
    }

    /** The check as evidently intended: each request is its own window
        entry, so requests within one second are all counted. `requestId`
        stands for a member unique to the request. */
    method CheckRateLimitPerRequest(client: Option<string>, now: nat, requestId: string) returns (v: Verdict)
      modifies store
      ensures !config.enabled ==> v == Allowed && unchanged(store)
      ensures config.enabled && client.None? ==> v == NoClient && unchanged(store)
      ensures config.enabled && client.Some? ==>
                v == Decide(|Recent(old(store.ZMembers(WindowKey(client.value))), now)|,
                            config.requestsPerMinute, now)
                && store.zsets == old(store.zsets)[WindowKey(client.value) :=
                     Record(old(store.ZMembers(WindowKey(client.value))), now, requestId)]
      ensures store.strings == old(store.strings) && store.expiry == old(store.expiry)
      ensures store.hashes == old(store.hashes) && store.sets == old(store.sets)
      ensures store.lists == old(store.lists)
    {
      if !config.enabled {
        return Allowed;
      }
      if client.None? {
        return NoClient;
      }
      var key := WindowKey(client.value);
      store.ZRemRangeByScore(key, 0, now - Window);
      var count := |store.ZMembers(key)|;
      store.ZAdd(key, requestId, now);
      v := Decide(count, config.requestsPerMinute, now);
    }
  }

  /** Windows of different clients are different keys. */
  lemma WindowKeysDistinct(a: string, b: string)
    requires a != b
    ensures WindowKey(a) != WindowKey(b)
  {
    assert WindowKey(a)[11..] == a && WindowKey(b)[11..] == b;
  }

  /** After a step at `now` the window holds `member` at `now` and no entry
      from a window or more ago. */
  lemma RecordShape(z: map<string, int>, now: nat, member: string)
    ensures var r := Record(z, now, member);
            member in r && r[member] == now
            && forall m :: m in r ==> !(0 <= r[m] <= now - Window)
  {
  }

  // ---------------------------------------------------------------------
  // Runs of requests
  // ---------------------------------------------------------------------

  datatype Request = Request(time: nat, member: string)

  /** The verdicts of successive checks of one client: one per request,
      each an allowance or a rejection. */
  function Run(z: map<string, int>, reqs: seq<Request>, limit: int): (vs: seq<Verdict>)
    ensures |vs| == |reqs|
    ensures forall i :: 0 <= i < |vs| ==> vs[i] == Allowed || vs[i].Rejected?
    decreases |reqs|
  {
    if reqs == [] then []
    else [Decide(|Recent(z, reqs[0].time)|, limit, reqs[0].time)]
         + Run(Record(z, reqs[0].time, reqs[0].member), reqs[1..], limit)
  }

  /** Entries no older than `lo` survive every purge before `lo + 60`. */
  lemma NothingPurged(z: map<string, int>, lo: nat, now: nat)
    requires now < lo + Window
    requires forall m :: m in z ==> z[m] >= lo
    ensures Recent(z, now) == z
  {
  }

  /** Within one window, with every request a new member, the i-th check
      sees exactly the entries before it, and so is refused exactly when
      those exceed the limit. */
  lemma {:induction false} RunInOneWindow(z: map<string, int>, reqs: seq<Request>, limit: int, lo: nat)
    requires forall i :: 0 <= i < |reqs| ==> lo <= reqs[i].time < lo + Window
    requires forall m :: m in z ==> z[m] >= lo
    requires forall i :: 0 <= i < |reqs| ==> reqs[i].member !in z
    requires forall i, j :: 0 <= i < j < |reqs| ==> reqs[i].member != reqs[j].member
    ensures forall i :: 0 <= i < |reqs| ==> (Run(z, reqs, limit)[i].Rejected? <==> |z| + i > limit)
    decreases |reqs|
  {
    if reqs != [] {
      var r := reqs[0];
      NothingPurged(z, lo, r.time);
      var z' := Record(z, r.time, r.member);
      assert z'.Keys == z.Keys + {r.member};
      assert |z'| == |z| + 1;
      var rest := reqs[1..];
      assert forall i :: 0 <= i < |rest| ==> rest[i] == reqs[i + 1];
      RunInOneWindow(z', rest, limit, lo);
      var vs := Run(z, reqs, limit);
      forall i | 0 <= i < |reqs|
        ensures vs[i].Rejected? <==> |z| + i > limit
      {
        if i > 0 {
          assert vs[i] == Run(z', rest, limit)[i - 1];
        }
      }
    }
  }

  /** Requests at distinct seconds of one window, starting from an empty
      window: `limit + 1` of them all pass. */
  lemma DistinctSecondsPass(times: seq<nat>, limit: nat, lo: nat)
    requires |times| == limit + 1
    requires forall i :: 0 <= i < |times| ==> lo <= times[i] < lo + Window
    requires forall i, j :: 0 <= i < j < |times| ==> times[i] != times[j]
    ensures var reqs := seq(|times|, i requires 0 <= i < |times| => Request(times[i], NatToString(times[i])));
            forall i :: 0 <= i < |times| ==> Run(map[], reqs, limit)[i] == Allowed
  {
    var reqs := seq(|times|, i requires 0 <= i < |times| => Request(times[i], NatToString(times[i])));
    forall i, j | 0 <= i < j < |reqs|
      ensures reqs[i].member != reqs[j].member
    {
      if reqs[i].member == reqs[j].member {
        NatToStringInjective(times[i], times[j]);
      }
    }
    RunInOneWindow(map[], reqs, limit, lo);
  }

  /** Corrected keying: `limit + 1` distinct requests in one window pass and
      the next one in the same window is refused. */
  lemma PerRequestRefusesOverLimit(reqs: seq<Request>, limit: nat, lo: nat)
    requires |reqs| == limit + 2
    requires forall i :: 0 <= i < |reqs| ==> lo <= reqs[i].time < lo + Window
    requires forall i, j :: 0 <= i < j < |reqs| ==> reqs[i].member != reqs[j].member
    ensures forall i :: 0 <= i <= limit ==> Run(map[], reqs, limit)[i] == Allowed
    ensures Run(map[], reqs, limit)[limit + 1].Rejected?
  {
    RunInOneWindow(map[], reqs, limit, lo);
  }

  // ---------------------------------------------------------------------
  // The second-keyed window as written
  // ---------------------------------------------------------------------

  /** Every entry of a window the limiter wrote is keyed by its own second. */
  ghost predicate SecondKeyed(z: map<string, int>)
  {
    forall m :: m in z ==> z[m] >= 0 && m == NatToString(z[m])
  }

  /** No entry lies in the future of `now` (the clock does not go back). */
  ghost predicate NotAfter(z: map<string, int>, now: nat)
  {
    forall m :: m in z ==> z[m] <= now
  }

  /** A step keeps the window second-keyed and not after any later second. */
  lemma RecordKeepsSecondKeyed(z: map<string, int>, now: nat, later: nat)
    requires SecondKeyed(z) && NotAfter(z, now) && now <= later
    ensures SecondKeyed(Record(z, now, NatToString(now)))
    ensures NotAfter(Record(z, now, NatToString(now)), later)
  {
  }

  /** The members the seconds in `s` are written as. */
  function Names(s: set<nat>): set<string>
  {
    set n | n in s :: NatToString(n)
  }

  lemma {:induction false} NamesNoMore(s: set<nat>)
    ensures |Names(s)| <= |s|
    decreases |s|
  {
    if s != {} {
      var x :| x in s;
      var rest := s - {x};
      NamesNoMore(rest);
      assert s == rest + {x};
      assert |s| == |rest| + 1;
      assert Names(s) == Names(rest) + {NatToString(x)};
      if NatToString(x) in Names(rest) {
        assert Names(s) == Names(rest);
      } else {
        assert |Names(rest) + {NatToString(x)}| == |Names(rest)| + 1;
      }
    }
  }

  /** As written, a purged window holds at most one entry per second of
      the window: never more than 60. */
  lemma SecondKeyedWindowBounded(z: map<string, int>, now: nat)
    requires SecondKeyed(z) && NotAfter(z, now)
    ensures |Recent(z, now)| <= Window
  {
    var r := Recent(z, now);
    var lo: nat := if now >= Window then now - Window + 1 else 0;
    var seconds := Cardinality.Span(lo, now);
    forall m | m in r
      ensures m in Names(seconds)
    {
      var t: nat := r[m];
      Cardinality.InSpan(lo, now, t);
      assert m == NatToString(t);
    }
    Cardinality.SubsetNoLarger(r.Keys, Names(seconds));
    NamesNoMore(seconds);
    Cardinality.SpanSize(lo, now);
  }

  /** The limiter as written never refuses a request once the limit is 60
      or more, the default included: at most 60 entries survive a purge. */
  lemma DefaultLimitNeverRejects(z: map<string, int>, now: nat, limit: int)
    requires SecondKeyed(z) && NotAfter(z, now) && limit >= Window
    ensures Decide(|Recent(z, now)|, limit, now) == Allowed
  {
    SecondKeyedWindowBounded(z, now);
  }

  /** The concrete case: 62 requests within one second against the default
      limit are all let through. */
  lemma SameSecondBurstAsWritten()
    ensures var reqs := seq(62, i => Request(0, NatToString(0)));
            forall i :: 0 <= i < 62 ==> Run(map[], reqs, DefaultConfig.requestsPerMinute)[i] == Allowed
  {
    var reqs := seq(62, i => Request(0, NatToString(0)));
    SameSecondRun(map[], reqs, DefaultConfig.requestsPerMinute, 0);
  }

  /** Repeated requests within one second `t` all see the same single
      entry, whatever the second. */
  lemma {:induction false} SameSecondRun(z: map<string, int>, reqs: seq<Request>, limit: int, t: nat)
    requires limit >= 1
    requires forall m :: m in z ==> m == NatToString(t) && z[m] == t
    requires forall i :: 0 <= i < |reqs| ==> reqs[i] == Request(t, NatToString(t))
    ensures forall i :: 0 <= i < |reqs| ==> Run(z, reqs, limit)[i] == Allowed
    decreases |reqs|
  {
    if reqs != [] {
      var z' := Record(z, t, NatToString(t));
      assert z'.Keys <= {NatToString(t)};
      Cardinality.SubsetNoLarger(Recent(z, t).Keys, {NatToString(t)});
      SameSecondRun(z', reqs[1..], limit, t);
      var vs := Run(z, reqs, limit);
      forall i | 0 <= i < |reqs|
        ensures vs[i] == Allowed
      {
        if i > 0 {
          assert reqs[1..][i - 1] == reqs[i];
          assert vs[i] == Run(z', reqs[1..], limit)[i - 1];
        }
      }
    }
  }

  /** The window's own 60-second expiry is never observed: by the time it
      would fire, the purge empties the window anyway. */
  lemma WindowExpiryUnobservable(z: map<string, int>, last: nat, now: nat)
    requires NotAfter(z, last) && last + Window <= now
    requires forall m :: m in z ==> z[m] >= 0
    ensures Recent(z, now) == map[]
  {
  }
}
