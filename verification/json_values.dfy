/**
 * JSON values as the Python client builds and receives them (dicts, lists,
 * strings, numbers).  Objects are maps: the order in which `json.dumps` lays
 * out keys is not part of this model.
 */
module JsonValues {

  import opened Wrappers

  datatype Json =
    | JNull
    | JBool(b: bool)
    | JNum(n: int)
    | JStr(s: string)
    | JArr(items: seq<Json>)
    | JObj(fields: map<string, Json>)

  /** A dict lookup without a default: an absent key reads as `None`, which is JSON null. */
  function Get(d: map<string, Json>, key: string): Json {
    if key in d then d[key] else JNull
  }

  /** A dict lookup with a default for an absent key. */
  function GetOr(d: map<string, Json>, key: string, default: Json): Json {
    if key in d then d[key] else default
  }

  /** Python truthiness of an optional string: given and non-empty. */
  predicate TruthyString(s: Option<string>) {
    s.Some? && s.value != ""
  }

  /** Python truthiness of an optional dict: given and non-empty. */
  predicate TruthyObject(d: Option<map<string, Json>>) {
    d.Some? && d.value != map[]
  }

  /** A list of strings as a JSON array. */
  function StrItems(xs: seq<string>): (r: seq<Json>)
    ensures |r| == |xs|
    ensures forall i :: 0 <= i < |xs| ==> r[i] == JStr(xs[i])
  {
    seq(|xs|, i requires 0 <= i < |xs| => JStr(xs[i]))
  }

  /** Reads a JSON array back as a list of strings; `None` if an item is not a string. */
  function AsStrings(items: seq<Json>): (r: Option<seq<string>>)
    ensures r.Some? ==> |r.value| == |items|
    decreases |items|
  {
    if |items| == 0 then Some([])
    else if !items[0].JStr? then None
    else match AsStrings(items[1..])
      case None => None
      case Some(rest) => Some([items[0].s] + rest)
  }

  lemma {:induction false} AsStringsOfStrItems(xs: seq<string>)
    ensures AsStrings(StrItems(xs)) == Some(xs)
    decreases |xs|
  {
    if |xs| > 0 {
      assert StrItems(xs)[1..] == StrItems(xs[1..]);
      AsStringsOfStrItems(xs[1..]);
      assert [xs[0]] + xs[1..] == xs;
    }
  }
}
