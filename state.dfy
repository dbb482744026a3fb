/** The in-memory state manager: a dictionary from keys to values. */
module StateStore {
  import opened Json

  /** One update of the dictionary. */
  datatype Update<V> = Put(key: string, value: V) | Remove(key: string)

  /** The dictionary after one update: `_store[key] = value` or
      `_store.pop(key, None)`. */
  function Apply<V>(m: map<string, V>, u: Update<V>): (r: map<string, V>)
    ensures u.Put? ==> r.Keys == m.Keys + {u.key} && r[u.key] == u.value
    ensures u.Remove? ==> r.Keys == m.Keys - {u.key}
    ensures forall k :: k != u.key ==> (k in r <==> k in m) && (k in r ==> r[k] == m[k])
  {
    match u
    case Put(k, v) => m[k := v]
    case Remove(k) => m - {k}
  }

  /** The dictionary after a history of updates, oldest first. */
  function Replay<V>(m: map<string, V>, history: seq<Update<V>>): map<string, V>
    decreases |history|
  {
    if history == [] then m else Replay(Apply(m, history[0]), history[1..])
  }

  /** The last update of `key` in a history, if any. */
  function LastOf<V>(history: seq<Update<V>>, key: string): (r: Option<Update<V>>)
    ensures r.Some? ==> r.value in history && r.value.key == key
    decreases |history|
  {
    if history == [] then None
    else if history[|history| - 1].key == key then Some(history[|history| - 1])
    else LastOf(history[..|history| - 1], key)
  }

  lemma {:induction false} ReplaySnoc<V>(m: map<string, V>, history: seq<Update<V>>, u: Update<V>)
    ensures Replay(m, history + [u]) == Apply(Replay(m, history), u)
    decreases |history|
  {
    if history == [] {
      assert history + [u] == [u];
    } else {
      assert (history + [u])[0] == history[0];
      assert (history + [u])[1..] == history[1..] + [u];
      ReplaySnoc(Apply(m, history[0]), history[1..], u);
    }
  }

  /** Starting from an empty dictionary, a key exists exactly when its last
      update stored a value, and then it holds that value. A key nobody
      updated is absent. */
  lemma {:induction false} ExistsIffLastPut<V>(history: seq<Update<V>>, key: string)
    ensures key in Replay(map[], history) <==> LastOf(history, key).Some? && LastOf(history, key).value.Put?
    ensures key in Replay(map[], history) ==> Replay(map[], history)[key] == LastOf(history, key).value.value
    decreases |history|
  {
    if history != [] {
      var front, u := history[..|history| - 1], history[|history| - 1];
      assert history == front + [u];
      ReplaySnoc(map[], front, u);
      ExistsIffLastPut(front, key);
    }
  }

  class InMemoryStateManager<V> {
    var store: map<string, V>

    constructor ()
      ensures store == map[]
    {
      store := map[];
    }

    /** `get`: the value, or None for an absent key. */
    function Get(key: string): (r: Option<V>)
      reads this
      ensures r.Some? <==> key in store
      ensures r.Some? ==> r.value == store[key]
    {
      if key in store then Some(store[key]) else None
    }

    /** `exists`: a key exists exactly when `get` finds a value for it. */
    function Exists(key: string): (b: bool)
      reads this
      ensures b <==> Get(key).Some?
    {
      key in store
    }

    /** `set`: the key now holds the value; no other key changes. */
    method Set(key: string, value: V)
      modifies this
      ensures store == Apply(old(store), Put(key, value))
      ensures Get(key) == Some(value)
    {
      store := store[key := value];
    }

    /** `delete`: the key is gone, whether or not it was there; no other
        key changes, and deleting an absent key changes nothing. */
    method Delete(key: string)
      modifies this
      ensures store == Apply(old(store), Remove(key))
      ensures !Exists(key)
      ensures old(!Exists(key)) ==> store == old(store)
    {
      store := store - {key};
    }
  }
}
