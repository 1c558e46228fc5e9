/** Decoded JSON values, as `json.loads` returns them, and the few
    Python operations the pipeline applies to them. Decoding itself is not
    modelled: a parser is a function parameter returning `None` where
    `json.loads` raises `JSONDecodeError`. */
module JsonValue {

  /** A decoded value. A dictionary holds its entries and its keys in
      insertion order, which is the order iterating it yields; the keys of
      a dictionary `json.loads` builds are those of the text, in the text's
      order. */
  datatype Json =
    | JNull
    | JBool(b: bool)
    | JNumber(n: real)
    | JString(s: string)
    | JArray(items: seq<Json>)
    | JObject(fields: map<string, Json>, keys: seq<string>)

  /** Python's truth value of a decoded value. */
  predicate Truthy(j: Json)
  {
    match j
    case JNull => false
    case JBool(b) => b
    case JNumber(n) => n != 0.0
    case JString(s) => s != []
    case JArray(items) => items != []
    case JObject(fields, _) => fields != map[]
  }

  /** `obj.get(key, default)` on a decoded object. */
  function Get(fields: map<string, Json>, key: string, default: Json): (r: Json)
    ensures key in fields ==> r == fields[key]
    ensures key !in fields ==> r == default
  {
    if key in fields then fields[key] else default
  }

  /** The keys list every entry of the dictionary once. */
  predicate KeysListed(fields: map<string, Json>, keys: seq<string>)
  {
    && (forall i, j | 0 <= i < j < |keys| :: keys[i] != keys[j])
    && (forall i | 0 <= i < |keys| :: keys[i] in fields)
    && (forall k | k in fields :: k in keys)
  }

  /** The dictionary after `d[key] = value`: a new key goes last, a key
      already present keeps its place. */
  function Assign(fields: map<string, Json>, keys: seq<string>, key: string, value: Json): Json
  {
    JObject(fields[key := value], if key in fields then keys else keys + [key])
  }

  /** Assigning keeps the keys listed, and lists the assigned key. */
  lemma AssignListed(fields: map<string, Json>, keys: seq<string>, key: string, value: Json)
    requires KeysListed(fields, keys)
    ensures var d := Assign(fields, keys, key, value);
            && KeysListed(d.fields, d.keys)
            && d.fields[key] == value
            && (forall k | k in fields && k != key :: d.fields[k] == fields[k])
            && keys <= d.keys && |d.keys| <= |keys| + 1
  {
  }

  /** Strings as decoded values: a list of strings, or what iterating a
      dictionary with these keys yields. */
  function JsonStrings(xs: seq<string>): (r: seq<Json>)
    ensures |r| == |xs|
    ensures forall i | 0 <= i < |xs| :: r[i] == JString(xs[i])
  {
    seq(|xs|, i requires 0 <= i < |xs| => JString(xs[i]))
  }
}
