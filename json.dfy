/**
  The Python values a decoded JSON document is made of (the result of
  json.loads), the subscript `v[key]` on them and the text `str(v)`.
*/
module Json {
  import opened Wrappers
  import opened Text

  /** A decoded JSON value. An object keeps its keys in insertion order;
      a Python dict holds each key once (UniqueKeys), and Lookup answers
      the first entry, which is then the only one. */
  datatype Json =
    | JNull
    | JBool(b: bool)
    | JInt(i: int)
    | JFloat(x: real)
    | JStr(s: string)
    | JList(items: seq<Json>)
    | JObj(fields: seq<(string, Json)>)

  /** The exceptions the modelled Python code can raise on such values. */
  datatype PyError =
    | KeyError(key: string)   // a dict without the key
    | TypeError               // subscripting or iterating a value that does not allow it
    | AttributeError          // calling a method a value does not have
    | ValueError              // int() of a str that is not a number
    | IntegrityError          // a database constraint the saved row breaks
    | DataError               // a value the column's type cannot hold

  /** The fields of a dict: no key occurs twice. */
  predicate UniqueKeys(fields: seq<(string, Json)>) {
    forall i, j :: 0 <= i < j < |fields| ==> fields[i].0 != fields[j].0
  }

  predicate HasKey(fields: seq<(string, Json)>, key: string) {
    exists k :: 0 <= k < |fields| && fields[k].0 == key
  }

  /** The value stored under `key`, when present. */
  function Lookup(fields: seq<(string, Json)>, key: string): (r: Option<Json>)
    ensures r.Some? <==> HasKey(fields, key)
  {
    if fields == [] then None
    else if fields[0].0 == key then Some(fields[0].1)
    else
      var r := Lookup(fields[1..], key);
      assert HasKey(fields, key) ==> fields[0].0 == key || HasKey(fields[1..], key) by {
        if HasKey(fields, key) {
          var k :| 0 <= k < |fields| && fields[k].0 == key;
          if k > 0 { assert fields[1..][k - 1].0 == key; }
        }
      }
      assert HasKey(fields[1..], key) ==> HasKey(fields, key) by {
        if HasKey(fields[1..], key) {
          var k :| 0 <= k < |fields| - 1 && fields[1..][k].0 == key;
          assert fields[k + 1].0 == key;
        }
      }
      r
  }

  /** In a dict every entry is the one its key looks up. */
  lemma {:induction false} LookupUnique(fields: seq<(string, Json)>, k: nat)
    requires UniqueKeys(fields) && k < |fields|
    ensures Lookup(fields, fields[k].0) == Some(fields[k].1)
    decreases k
  {
    if k > 0 {
      assert fields[0].0 != fields[k].0;
      assert fields[1..][k - 1] == fields[k];
      assert UniqueKeys(fields[1..]) by {
        forall i, j | 0 <= i < j < |fields| - 1 ensures fields[1..][i].0 != fields[1..][j].0 {
          assert fields[1..][i] == fields[i + 1] && fields[1..][j] == fields[j + 1];
        }
      }
      LookupUnique(fields[1..], k - 1);
    }
  }

  /** Python's `v[key]` with a str key: a dict answers its value or raises
      KeyError; every other value raises TypeError. */
  function Index(v: Json, key: string): (r: Result<Json, PyError>)
    ensures r.Ok? <==> v.JObj? && HasKey(v.fields, key)
    ensures v.JObj? && !HasKey(v.fields, key) ==> r == Err(KeyError(key))
    ensures !v.JObj? ==> r == Err(TypeError)
  {
    if !v.JObj? then Err(TypeError)
    else
      match Lookup(v.fields, key)
      case Some(w) => Ok(w)
      case None => Err(KeyError(key))
  }

  /** The elements a `for` loop visits: a list's items, a str's characters
      as one-character strs, a dict's keys; other values raise TypeError. */
  function Iterate(v: Json): (r: Result<seq<Json>, PyError>)
    ensures r.Ok? <==> v.JList? || v.JStr? || v.JObj?
    ensures v.JList? ==> r == Ok(v.items)
    ensures r.Ok? ==> |r.value| == match v case JList(items) => |items| case JStr(s) => |s| case JObj(f) => |f| case _ => 0
  {
    match v
    case JList(items) => Ok(items)
    case JStr(s) => Ok(seq(|s|, i requires 0 <= i < |s| => JStr([s[i]])))
    case JObj(fields) => Ok(seq(|fields|, i requires 0 <= i < |fields| => JStr(fields[i].0)))
    case _ => Err(TypeError)
  }

  /** Python's str(v); floats, lists and dicts are rendered by `repr`,
      which is not part of this model. */
  function PyStr(v: Json, repr: Json -> string): string {
    match v
    case JNull => "None"
    case JBool(b) => if b then "True" else "False"
    case JInt(i) => IntToString(i)
    case JStr(s) => s
    case _ => repr(v)
  }

  /** Python's truth value: None, False, zero, and empty str, list or dict
      are false. */
  predicate Truthy(v: Json) {
    match v
    case JNull => false
    case JBool(b) => b
    case JInt(i) => i != 0
    case JFloat(x) => x != 0.0
    case JStr(s) => s != ""
    case JList(items) => items != []
    case JObj(fields) => fields != []
  }

  /** Python's `v.get(key, default)`: a dict answers its value or the
      default; other values have no `get` and raise AttributeError. */
  function Get(v: Json, key: string, default: Json): (r: Result<Json, PyError>)
    ensures r.Ok? <==> v.JObj?
    ensures v.JObj? && HasKey(v.fields, key) ==> r == Index(v, key)
    ensures v.JObj? && !HasKey(v.fields, key) ==> r == Ok(default)
  {
    if !v.JObj? then Err(AttributeError) else Ok(Lookup(v.fields, key).GetOr(default))
  }
}
