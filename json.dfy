/**
 * The values that Python's json decoder produces (None, bool, int, str, list
 * and dict) and the few Python operations the bot applies to them: `key in x`,
 * `d[key]` / `d.get(key)` and `str(x)`. `Put` builds dicts for stating lemmas.
 */
module Json {
  import opened Wrappers

  /** A decoded JSON value. A dict keeps its keys in insertion order, as Python's does. */
  datatype Json =
    | JNull
    | JBool(b: bool)
    | JInt(i: int)
    | JStr(s: string)
    | JList(items: seq<Json>)
    | JDict(members: seq<(string, Json)>)

  /** `key in d` for a dict. */
  predicate HasKey(members: seq<(string, Json)>, key: string) {
    exists k :: 0 <= k < |members| && members[k].0 == key
  }

  /** `d[key]`: the value stored under `key`, or None where Python raises KeyError. */
  function Get(members: seq<(string, Json)>, key: string): (r: Option<Json>)
    ensures r.Some? <==> HasKey(members, key)
    ensures r.Some? ==> (key, r.value) in members
  {
    if members == [] then None
    else if members[0].0 == key then Some(members[0].1)
    else
      var r := Get(members[1..], key);
      assert HasKey(members[1..], key) ==> HasKey(members, key) by {
        if HasKey(members[1..], key) {
          var k :| 0 <= k < |members[1..]| && members[1..][k].0 == key;
          assert members[k + 1].0 == key;
        }
      }
      r
  }

  /** `d.get(key)`: like `d[key]`, but None (JNull) when the key is absent. */
  function GetOrNull(members: seq<(string, Json)>, key: string): (r: Json)
    ensures HasKey(members, key) ==> Some(r) == Get(members, key)
    ensures !HasKey(members, key) ==> r == JNull
  {
    match Get(members, key)
    case Some(v) => v
    case None => JNull
  }

  /** The dict with `key` set to `v`: the entry is overwritten if present, appended otherwise. */
  function Put(members: seq<(string, Json)>, key: string, v: Json): (r: seq<(string, Json)>)
    ensures Get(r, key) == Some(v)
    ensures forall other :: other != key ==> Get(r, other) == Get(members, other)
  {
    if members == [] then [(key, v)]
    else if members[0].0 == key then [(key, v)] + members[1..]
    else [members[0]] + Put(members[1..], key, v)
  }

  /** `needle in hay` for two strings. */
  predicate IsSubstring(needle: string, hay: string) {
    exists k :: 0 <= k <= |hay| && needle <= hay[k..]
  }

  /** `str(v)`: a string is itself; anything else is shown as its repr. */
  function PyStr(v: Json): string {
    match v
    case JStr(s) => s
    case _ => Repr(v)
  }

  /** `repr(v)`. Strings are shown between single quotes, without Python's escaping. */
  function Repr(v: Json): string {
    match v
    case JNull => "None"
    case JBool(b) => if b then "True" else "False"
    case JInt(i) => Decimal(i)
    case JStr(s) => Quoted(s)
    case JList(items) =>
      "[" + Join(seq(|items|, k requires 0 <= k < |items| => Repr(items[k]))) + "]"
    case JDict(members) =>
      "{" + Join(seq(|members|, k requires 0 <= k < |members| =>
                       Quoted(members[k].0) + ": " + Repr(members[k].1))) + "}"
  }

  function Quoted(s: string): string {
    "'" + s + "'"
  }

  /** The parts separated by ", ". */
  function Join(parts: seq<string>): string {
    if parts == [] then ""
    else if |parts| == 1 then parts[0]
    else parts[0] + ", " + Join(parts[1..])
  }

  /** The decimal numeral of an integer, with a leading '-' when it is negative. */
  function Decimal(i: int): string {
    if i < 0 then "-" + Digits(-i) else Digits(i)
  }

  function Digits(n: nat): string {
    if n < 10 then ["0123456789"[n]] else Digits(n / 10) + ["0123456789"[n % 10]]
  }
}
