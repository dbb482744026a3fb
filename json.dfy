/** Values as the Python code sees them after `json.loads`, and the text the
    key/value store holds. */
module Json {

  datatype Option<+T> = None | Some(value: T)

  /** A decoded JSON document. Numbers are integers: no modelled component
      stores a fractional number. */
  datatype Json =
    | JNull
    | JBool(b: bool)
    | JNum(n: int)
    | JStr(s: string)
    | JArr(items: seq<Json>)
    | JObj(fields: map<string, Json>)

  /** Python truthiness of a decoded value (`if value:`). */
  predicate Truthy(j: Json)
  {
    match j
    case JNull => false
    case JBool(b) => b
    case JNum(n) => n != 0
    case JStr(s) => s != ""
    case JArr(xs) => xs != []
    case JObj(m) => m != map[]
  }

  /** `d.get(k, default)` on a decoded object. */
  function GetOr(fields: map<string, Json>, k: string, default: Json): Json
  {
    if k in fields then fields[k] else default
  }

  /** An optional string as it is written into a JSON document (None is null). */
  function OptStr(s: Option<string>): (j: Json)
    ensures s.None? <==> j == JNull
    ensures s.Some? ==> j == JStr(s.value)
  {
    match s
    case None => JNull
    case Some(v) => JStr(v)
  }

  /** Python truthiness of an optional string. */
  predicate Present(s: Option<string>)
  {
    s.Some? && s.value != ""
  }

  /** A list of strings as a JSON array. */
  function StrList(xs: seq<string>): (j: Json)
    ensures j.JArr? && |j.items| == |xs|
    ensures forall i :: 0 <= i < |xs| ==> j.items[i] == JStr(xs[i])
  {
    JArr(seq(|xs|, i requires 0 <= i < |xs| => JStr(xs[i])))
  }

  /** Reads a JSON array of strings back; anything else is malformed. */
  function AsStrList(j: Json): (r: Option<seq<string>>)
    ensures r.Some? <==> j.JArr? && forall i :: 0 <= i < |j.items| ==> j.items[i].JStr?
    ensures r.Some? ==> |r.value| == |j.items|
                        && forall i :: 0 <= i < |j.items| ==> j.items[i] == JStr(r.value[i])
  {
    if j.JArr? && forall i :: 0 <= i < |j.items| ==> j.items[i].JStr? then
      Some(seq(|j.items|, i requires 0 <= i < |j.items| => j.items[i].s))
    else
      None
  }

  lemma StrListRoundTrip(xs: seq<string>)
    ensures AsStrList(StrList(xs)) == Some(xs)
  {
    var r := AsStrList(StrList(xs));
    assert r.Some?;
    assert r.value == xs;
  }

  /** The text stored under a key: either what `json.dumps` produced from a
      document, or text that `json.loads` rejects. */
  datatype Text = Encoded(doc: Json) | Raw(s: string)

  /** Python truthiness of the stored string: a dump is never empty. */
  predicate NonEmpty(t: Text)
  {
    t.Encoded? || t.s != ""
  }

  /** `json.loads` of stored text; None stands for a JSONDecodeError. */
  function Loads(t: Text): (r: Option<Json>)
    ensures r.Some? <==> t.Encoded?
    ensures t.Encoded? ==> r == Some(t.doc)
  {
    match t
    case Encoded(d) => Some(d)
    case Raw(_) => None
  }
}
