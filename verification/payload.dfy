/**
 * The JSON values that the prompt builders produce and that `model_dump`
 * yields: Python dicts, lists, strings, ints and bools. Objects are finite
 * maps from key to value, so key order is not represented.
 */
module Payload {
  import opened Wrappers

  datatype Json =
    | JNull
    | JBool(b: bool)
    | JInt(i: int)
    | JString(s: string)
    | JArray(items: seq<Json>)
    | JObject(fields: map<string, Json>)

  /** `j[key]` when `j` is an object holding `key`. */
  function Get(j: Json, key: string): (r: Option<Json>)
    ensures r.Some? <==> j.JObject? && key in j.fields
    ensures r.Some? ==> r.value == j.fields[key]
  {
    if j.JObject? && key in j.fields then Some(j.fields[key]) else None
  }

  function GetString(j: Json, key: string): Option<string>
  {
    match Get(j, key)
    case Some(JString(s)) => Some(s)
    case _ => None
  }

  function GetInt(j: Json, key: string): Option<int>
  {
    match Get(j, key)
    case Some(JInt(i)) => Some(i)
    case _ => None
  }

  function GetBool(j: Json, key: string): Option<bool>
  {
    match Get(j, key)
    case Some(JBool(b)) => Some(b)
    case _ => None
  }

  /** A list of values, each encoded with `encode`, in order. */
  function ArrayOf<T>(xs: seq<T>, encode: T -> Json): (r: Json)
    ensures r.JArray? && |r.items| == |xs|
    ensures forall i :: 0 <= i < |xs| ==> r.items[i] == encode(xs[i])
  {
    JArray(seq(|xs|, i requires 0 <= i < |xs| => encode(xs[i])))
  }

  /** Decodes every element of a list with `decode`; fails if any element does. */
  function DecodeItems<T>(items: seq<Json>, decode: Json -> Option<T>): Option<seq<T>>
  {
    if items == [] then Some([])
    else
      match decode(items[0])
      case None => None
      case Some(x) =>
        match DecodeItems(items[1..], decode)
        case None => None
        case Some(rest) => Some([x] + rest)
  }

  function DecodeArray<T>(j: Json, decode: Json -> Option<T>): Option<seq<T>>
  {
    if j.JArray? then DecodeItems(j.items, decode) else None
  }

  /** A list encoded element by element is decoded back to the same list
      when every element is. */
  lemma {:induction false} ArrayRoundTrip<T>(xs: seq<T>, encode: T -> Json, decode: Json -> Option<T>)
    requires forall i :: 0 <= i < |xs| ==> decode(encode(xs[i])) == Some(xs[i])
    ensures DecodeArray(ArrayOf(xs, encode), decode) == Some(xs)
  {
    if xs != [] {
      var items := ArrayOf(xs, encode).items;
      assert items[1..] == ArrayOf(xs[1..], encode).items;
      ArrayRoundTrip(xs[1..], encode, decode);
      assert [xs[0]] + xs[1..] == xs;
    }
  }

  function StringJson(s: string): Json
  {
    JString(s)
  }

  function JsonString(j: Json): Option<string>
  {
    if j.JString? then Some(j.s) else None
  }

  /** A Python list of strings. */
  function StringArray(xs: seq<string>): Json
  {
    ArrayOf(xs, StringJson)
  }

  /** `j[key]` decoded as a list with `decode`. */
  function GetArray<T>(j: Json, key: string, decode: Json -> Option<T>): Option<seq<T>>
  {
    match Get(j, key)
    case Some(a) => DecodeArray(a, decode)
    case None => None
  }

  function GetStrings(j: Json, key: string): Option<seq<string>>
  {
    GetArray(j, key, JsonString)
  }

  lemma StringArrayRoundTrip(xs: seq<string>)
    ensures DecodeArray(StringArray(xs), JsonString) == Some(xs)
  {
    ArrayRoundTrip(xs, StringJson, JsonString);
  }
}
