/** The shared key/value store every component talks to, reduced to the
    operations the modelled code issues: strings with an optional time to
    live, hashes, sets, sorted sets and lists. */
module KeyValue {
  import opened Json

  class Store {
    /** String keys and the text stored under them. */
    var strings: map<string, Text>
    /** Absolute expiry second of the string keys that have a time to live. */
    var expiry: map<string, int>
    var hashes: map<string, map<string, Text>>
    var sets: map<string, set<string>>
    /** Sorted sets: member to score. */
    var zsets: map<string, map<string, int>>
    var lists: map<string, seq<string>>

    constructor ()
      ensures strings == map[] && expiry == map[] && hashes == map[]
      ensures sets == map[] && zsets == map[] && lists == map[]
    {
      strings, expiry, hashes := map[], map[], map[];
      sets, zsets, lists := map[], map[], map[];
    }

    /** The string keys that have not expired at second `now`. */
    function Live(now: int): (live: map<string, Text>)
      reads this
      ensures live.Keys <= strings.Keys
      ensures forall k :: k in strings ==>
                (k in live <==> (k !in expiry || now < expiry[k]))
      ensures forall k :: k in live ==> live[k] == strings[k]
    {
      map k | k in strings && (k !in expiry || now < expiry[k]) :: strings[k]
    }

    /** GET */
    function Get(key: string, now: int): (r: Option<Text>)
      reads this
      ensures r.Some? <==> key in Live(now)
      ensures r.Some? ==> r.value == Live(now)[key]
    {
      if key in strings && (key !in expiry || now < expiry[key]) then Some(strings[key]) else None
    }

    /** HGET */
    function HGet(hash: string, field: string): Option<Text>
      reads this
    {
      if hash in hashes && field in hashes[hash] then Some(hashes[hash][field]) else None
    }

    /** SISMEMBER */
    function SIsMember(key: string, member: string): bool
      reads this
    {
      key in sets && member in sets[key]
    }

    /** The sorted set under a key (empty when absent). */
    function ZMembers(key: string): map<string, int>
      reads this
    {
      if key in zsets then zsets[key] else map[]
    }

    /** The list under a key (empty when absent). */
    function List(key: string): seq<string>
      reads this
    {
      if key in lists then lists[key] else []
    }

    /** SET: stores the text and clears any time to live. */
    method Set(key: string, value: Text)
      modifies this
      ensures strings == old(strings)[key := value]
      ensures expiry == old(expiry) - {key}
      ensures hashes == old(hashes) && sets == old(sets)
      ensures zsets == old(zsets) && lists == old(lists)
    {
      strings := strings[key := value];
      expiry := expiry - {key};
    }

    /** SETEX: stores the text to expire `ttl` seconds after `now`; the store
        refuses a time to live that is not positive, and then nothing is
        written. */
    method SetEx(key: string, ttl: int, value: Text, now: int) returns (ok: bool)
      modifies this
      ensures ok <==> ttl > 0
      ensures ok ==> strings == old(strings)[key := value]
                     && expiry == old(expiry)[key := now + ttl]
      ensures !ok ==> unchanged(this)
      ensures hashes == old(hashes) && sets == old(sets)
      ensures zsets == old(zsets) && lists == old(lists)
    {
      ok := ttl > 0;
      if ok {
        strings := strings[key := value];
        expiry := expiry[key := now + ttl];
      }
    }

    /** HSET of one field. */
    method HSet(hash: string, field: string, value: Text)
      modifies this
      ensures hashes == old(hashes)[hash := (if hash in old(hashes) then old(hashes)[hash] else map[])[field := value]]
      ensures strings == old(strings) && expiry == old(expiry) && sets == old(sets)
      ensures zsets == old(zsets) && lists == old(lists)
    {
      var h := if hash in hashes then hashes[hash] else map[];
      hashes := hashes[hash := h[field := value]];
    }

    /** SADD of one member. */
    method SAdd(key: string, member: string)
      modifies this
      ensures sets == old(sets)[key := (if key in old(sets) then old(sets)[key] else {}) + {member}]
      ensures strings == old(strings) && expiry == old(expiry) && hashes == old(hashes)
      ensures zsets == old(zsets) && lists == old(lists)
    {
      var s := if key in sets then sets[key] else {};
      sets := sets[key := s + {member}];
    }

    /** ZADD of one member: inserts it or moves it to the new score. */
    method ZAdd(key: string, member: string, score: int)
      modifies this
      ensures zsets == old(zsets)[key := old(ZMembers(key))[member := score]]
      ensures strings == old(strings) && expiry == old(expiry) && hashes == old(hashes)
      ensures sets == old(sets) && lists == old(lists)
    {
      zsets := zsets[key := ZMembers(key)[member := score]];
    }

    /** ZREMRANGEBYSCORE key lo hi: drops the members scored in [lo, hi]. */
    method ZRemRangeByScore(key: string, lo: int, hi: int)
      modifies this
      ensures zsets == old(zsets)[key := ScoredOutside(old(ZMembers(key)), lo, hi)]
      ensures strings == old(strings) && expiry == old(expiry) && hashes == old(hashes)
      ensures sets == old(sets) && lists == old(lists)
    {
      zsets := zsets[key := ScoredOutside(ZMembers(key), lo, hi)];
    }

    /** LPUSH of one element. */
    method LPush(key: string, value: string)
      modifies this
      ensures lists == old(lists)[key := [value] + old(List(key))]
      ensures strings == old(strings) && expiry == old(expiry) && hashes == old(hashes)
      ensures sets == old(sets) && zsets == old(zsets)
    {
      lists := lists[key := [value] + List(key)];
    }

    /** RPOP: removes and returns the last element, if any. */
    method RPop(key: string) returns (v: Option<string>)
      modifies this
      ensures old(List(key)) == [] ==> v == None && unchanged(this)
      ensures old(List(key)) != [] ==>
                v == Some(old(List(key))[|old(List(key))| - 1])
                && lists == old(lists)[key := old(List(key))[..|old(List(key))| - 1]]
      ensures strings == old(strings) && expiry == old(expiry) && hashes == old(hashes)
      ensures sets == old(sets) && zsets == old(zsets)
    {
      var l := List(key);
      if l == [] {
        v := None;
      } else {
        v := Some(l[|l| - 1]);
        lists := lists[key := l[..|l| - 1]];
      }
    }
  }

  /** The members of a sorted set whose score lies outside [lo, hi]. */
  function ScoredOutside(z: map<string, int>, lo: int, hi: int): (r: map<string, int>)
    ensures forall m :: m in r <==> m in z && !(lo <= z[m] <= hi)
    ensures forall m :: m in r ==> r[m] == z[m]
  {
    map m | m in z && !(lo <= z[m] <= hi) :: z[m]
  }
}
