/**
 * JSON values as Python holds them after `json.loads`, and the dictionary
 * operations the code applies to them (`key in d`, `d.get(key, default)`).
 * A dictionary is its list of (key, value) members in insertion order; the
 * keys of a Python dict are distinct, and lookups take the first match.
 */
module Json {
  import opened Wrappers

  /** Numbers keep their lexeme: the code only copies them, never computes with them. */
  datatype Json =
    | JNull
    | JBool(b: bool)
    | JNumber(lexeme: string)
    | JString(s: string)
    | JArray(items: seq<Json>)
    | JObject(members: seq<(string, Json)>)

  type Dict<V> = seq<(string, V)>

  function Keys<V>(d: Dict<V>): (ks: seq<string>)
    ensures |ks| == |d|
    ensures forall i :: 0 <= i < |d| ==> ks[i] == d[i].0
  {
    if |d| == 0 then [] else [d[0].0] + Keys(d[1..])
  }

  /** `d[key]` when `key in d`, else None. */
  function Lookup<V>(d: Dict<V>, key: string): (r: Option<V>)
  {
    if |d| == 0 then None
    else if d[0].0 == key then Some(d[0].1)
    else Lookup(d[1..], key)
  }

  predicate DistinctKeys<V>(d: Dict<V>)
  {
    Distinct(Keys(d))
  }

  predicate Distinct(ks: seq<string>)
  {
    forall i, j :: 0 <= i < j < |ks| ==> ks[i] != ks[j]
  }

  /** `key in d` holds exactly when the lookup finds something. */
  lemma {:induction false} LookupFound<V>(d: Dict<V>, key: string)
    ensures Lookup(d, key).Some? <==> key in Keys(d)
  {
    if |d| > 0 {
      assert Keys(d) == [d[0].0] + Keys(d[1..]);
      LookupFound(d[1..], key);
    }
  }

  lemma {:induction false} LookupAbsent<V>(d: Dict<V>, key: string)
    requires key !in Keys(d)
    ensures Lookup(d, key) == None
  {
    if |d| > 0 {
      assert Keys(d)[0] == d[0].0;
      assert Keys(d[1..]) == Keys(d)[1..];
      LookupAbsent(d[1..], key);
    }
  }

  /** In a dictionary with distinct keys, each member is found by its key. */
  lemma {:induction false} LookupMember<V>(d: Dict<V>, i: nat)
    requires DistinctKeys(d) && i < |d|
    ensures Lookup(d, d[i].0) == Some(d[i].1)
  {
    if i > 0 {
      assert d[1..][i - 1] == d[i];
      assert Keys(d[1..]) == Keys(d)[1..];
      LookupMember(d[1..], i - 1);
    }
  }

  /** Adding a new key: it is found, and every other key is found as before. */
  lemma {:induction false} LookupAppend<V>(d: Dict<V>, key: string, value: V)
    requires key !in Keys(d)
    ensures Keys(d + [(key, value)]) == Keys(d) + [key]
    ensures Lookup(d + [(key, value)], key) == Some(value)
    ensures forall other :: other != key ==> Lookup(d + [(key, value)], other) == Lookup(d, other)
  {
    var e := d + [(key, value)];
    if |d| == 0 {
      assert e == [(key, value)];
    } else {
      assert e[1..] == d[1..] + [(key, value)];
      assert Keys(d[1..]) == Keys(d)[1..];
      LookupAppend(d[1..], key, value);
    }
  }

  /** `d.get(key, default)`. */
  function Get<V>(d: Dict<V>, key: string, default: V): V
  {
    match Lookup(d, key)
    case Some(v) => v
    case None => default
  }

  /** The name Python's `type(v).__name__` gives a decoded JSON value. */
  function TypeName(v: Json): string
  {
    match v
    case JNull => "NoneType"
    case JBool(_) => "bool"
    case JNumber(lexeme) => if exists i :: 0 <= i < |lexeme| && lexeme[i] in ".eE" then "float" else "int"
    case JString(_) => "str"
    case JArray(_) => "list"
    case JObject(_) => "dict"
  }

  /** The `AttributeError` raised by calling `.get` on a value that is not a dict. */
  function NoGet(v: Json): Exception
  {
    Exception("AttributeError", "'" + TypeName(v) + "' object has no attribute 'get'")
  }
}
