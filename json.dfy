/**
 * `serde_json::Value` as the client uses it: indexing by key, inserting a
 * key, and the compact text that `to_string()` and `{}` produce.
 *
 * Objects keep their members in key order, as serde_json's default map
 * (a `BTreeMap`) does.
 */
module Json {
  import opened Structs
  import Fmt

  /** A JSON value. Only objects whose keys are distinct and in `KeyLess`
      order stand for serde_json values: its map never holds a repeated key,
      and a parsed repeated key keeps the last value. The operations below
      accept any member list. */
  datatype Json =
    | JNull
    | JBool(b: bool)
    | JInt(i: int)
    | JFloat(f: Float64)
    | JStr(s: string)
    | JArr(items: seq<Json>)
    | JObj(members: seq<Member>)

  datatype Member = Member(key: string, value: Json)

  /** Byte-wise (code point) order of keys. */
  predicate KeyLess(a: string, b: string) {
    if a == [] then b != []
    else if b == [] then false
    else a[0] < b[0] || (a[0] == b[0] && KeyLess(a[1..], b[1..]))
  }

  function Keys(ms: seq<Member>): (ks: seq<string>)
    ensures |ks| == |ms| && forall i :: 0 <= i < |ms| ==> ks[i] == ms[i].key
  {
    if ms == [] then [] else [ms[0].key] + Keys(ms[1..])
  }

  /** `v[key]`: the member's value, or `Null` when `v` is not an object or
      lacks the key. */
  function Get(v: Json, key: string): Json {
    match v
    case JObj(ms) => Lookup(ms, key)
    case _ => JNull
  }

  function Lookup(ms: seq<Member>, key: string): (r: Json)
    ensures key !in Keys(ms) ==> r == JNull
  {
    if ms == [] then JNull
    else if ms[0].key == key then ms[0].value
    else Lookup(ms[1..], key)
  }

  /** The value under a key is that of the first member carrying it. */
  lemma {:induction false} LookupAt(ms: seq<Member>, i: nat)
    requires i < |ms| && forall k :: 0 <= k < i ==> ms[k].key != ms[i].key
    ensures Lookup(ms, ms[i].key) == ms[i].value
  {
    if i > 0 {
      assert ms[1..][i - 1] == ms[i];
      LookupAt(ms[1..], i - 1);
    }
  }

  /** In a member list without repeated keys, every key finds its own value. */
  lemma LookupDistinct(ms: seq<Member>)
    requires forall i, j :: 0 <= i < j < |ms| ==> ms[i].key != ms[j].key
    ensures forall i :: 0 <= i < |ms| ==> Lookup(ms, ms[i].key) == ms[i].value
  {
    forall i | 0 <= i < |ms| ensures Lookup(ms, ms[i].key) == ms[i].value {
      LookupAt(ms, i);
    }
  }

  /** `map.insert(key, x)` on a key-ordered member list: replaces the
      member with that key, or adds one in key order. */
  function Insert(ms: seq<Member>, key: string, x: Json): (r: seq<Member>)
    ensures Lookup(r, key) == x
    ensures forall k :: k != key ==> Lookup(r, k) == Lookup(ms, k)
    ensures forall k :: k in Keys(r) <==> k == key || k in Keys(ms)
  {
    if ms == [] then [Member(key, x)]
    else if ms[0].key == key then [Member(key, x)] + ms[1..]
    else if KeyLess(key, ms[0].key) then [Member(key, x)] + ms
    else [ms[0]] + Insert(ms[1..], key, x)
  }

  /** `v[key] = x` on an object. */
  function Set(v: Json, key: string, x: Json): (r: Json)
    requires v.JObj?
    ensures r.JObj? && Get(r, key) == x
    ensures forall k :: k != key ==> Get(r, k) == Get(v, k)
    ensures forall k :: k in Keys(r.members) <==> k == key || k in Keys(v.members)
  {
    JObj(Insert(v.members, key, x))
  }

  // ---- compact text --------------------------------------------------------

  /** serde_json's escaping of one character inside a string literal. */
  function EscapeJsonChar(c: char): string {
    if c == '"' then "\\\""
    else if c == '\\' then "\\\\"
    else if c as int == 0x08 then "\\b"
    else if c as int == 0x0c then "\\f"
    else if c == '\n' then "\\n"
    else if c == '\r' then "\\r"
    else if c == '\t' then "\\t"
    else if c as int < 0x20 then "\\u00" + [Fmt.HexChar(c as int / 16), Fmt.HexChar(c as int % 16)]
    else [c]
  }

  function EscapeJson(s: string): string {
    if s == [] then [] else EscapeJsonChar(s[0]) + EscapeJson(s[1..])
  }

  function StringText(s: string): string {
    "\"" + EscapeJson(s) + "\""
  }

  /** `v.to_string()`: compact JSON without spaces. */
  function Text(v: Json): string
    decreases v, 1
  {
    match v
    case JNull => "null"
    case JBool(b) => if b then "true" else "false"
    case JInt(i) => Fmt.IntText(i)
    case JFloat(f) => f.text
    case JStr(s) => StringText(s)
    case JArr(items) => "[" + ItemsText(v, items) + "]"
    case JObj(ms) => "{" + MembersText(v, ms) + "}"
  }

  function ItemsText(parent: Json, items: seq<Json>): string
    requires forall x :: x in items ==> x < parent
    decreases parent, 0, |items|
  {
    if items == [] then ""
    else
      assert items[0] in items;
      assert forall x :: x in items[1..] ==> x in items;
      if |items| == 1 then Text(items[0])
      else Text(items[0]) + "," + ItemsText(parent, items[1..])
  }

  function MembersText(parent: Json, ms: seq<Member>): string
    requires forall m :: m in ms ==> m < parent
    decreases parent, 0, |ms|
  {
    if ms == [] then ""
    else
      var m := ms[0];
      assert m in ms && m.value < m;
      assert forall x :: x in ms[1..] ==> x in ms;
      var one := StringText(m.key) + ":" + Text(m.value);
      if |ms| == 1 then one else one + "," + MembersText(parent, ms[1..])
  }
}
