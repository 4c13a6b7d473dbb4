/** Decoded JSON values, as `JSON.parse` yields them and `JSON.stringify` writes them.
    An object keeps its members in insertion order, as a JavaScript object does; the
    keys of a parsed object are distinct, and lookup takes the first occurrence. */
module Json {
  import opened Base
  import opened Strings

  datatype Json =
    | JNull
    | JBool(b: bool)
    | JNum(n: int)
    | JStr(s: string)
    | JArr(items: seq<Json>)
    | JObj(members: seq<(string, Json)>)

  /** The keys of an object, in order. */
  function Keys(members: seq<(string, Json)>): (ks: seq<string>)
    ensures |ks| == |members|
    ensures forall i :: 0 <= i < |members| ==> ks[i] == members[i].0
  {
    seq(|members|, i requires 0 <= i < |members| => members[i].0)
  }

  /** `obj[k]`: the value stored under `k`, if any. */
  function Get(members: seq<(string, Json)>, k: string): (r: Option<Json>)
    ensures r.None? <==> k !in Keys(members)
    ensures r.Some? ==> (k, r.value) in members
  {
    if members == [] then None
    else if members[0].0 == k then Some(members[0].1)
    else
      var r := Get(members[1..], k);
      assert Keys(members) == [members[0].0] + Keys(members[1..]);
      r
  }

  /** `obj[k] = v`: an existing key keeps its position and takes the new value; a new
      key is appended. */
  function Put(members: seq<(string, Json)>, k: string, v: Json): (r: seq<(string, Json)>)
  {
    if members == [] then [(k, v)]
    else if members[0].0 == k then [(k, v)] + members[1..]
    else [members[0]] + Put(members[1..], k, v)
  }

  /** After `obj[k] = v`, reading `k` gives `v`. */
  lemma {:induction false} PutThenGet(members: seq<(string, Json)>, k: string, v: Json)
    ensures Get(Put(members, k, v), k) == Some(v)
  {
    if members != [] && members[0].0 != k {
      PutThenGet(members[1..], k, v);
    }
  }

  /** `obj[k] = v` leaves every other key's value as it was. */
  lemma {:induction false} PutKeepsOthers(members: seq<(string, Json)>, k: string, v: Json, other: string)
    requires other != k
    ensures Get(Put(members, k, v), other) == Get(members, other)
  {
    if members != [] && members[0].0 != k && members[0].0 != other {
      PutKeepsOthers(members[1..], k, v, other);
    }
  }

  /** `obj[k] = v` keeps the key order and appends `k` only when it is new. */
  lemma {:induction false} PutKeys(members: seq<(string, Json)>, k: string, v: Json)
    ensures Keys(Put(members, k, v)) == if k in Keys(members) then Keys(members) else Keys(members) + [k]
  {
    if members == [] {
    } else if members[0].0 == k {
      assert Keys(Put(members, k, v)) == [k] + Keys(members[1..]);
      assert Keys(members) == [k] + Keys(members[1..]);
    } else {
      PutKeys(members[1..], k, v);
      assert Keys(members) == [members[0].0] + Keys(members[1..]);
      assert Keys(Put(members, k, v)) == [members[0].0] + Keys(Put(members[1..], k, v));
    }
  }

  /** Assigning the same value twice gives the same object as assigning it once. */
  lemma {:induction false} PutIdempotent(members: seq<(string, Json)>, k: string, v: Json)
    ensures Put(Put(members, k, v), k, v) == Put(members, k, v)
  {
    if members != [] && members[0].0 != k {
      PutIdempotent(members[1..], k, v);
    }
  }

  /** Property access `j.k` on a decoded value: only objects have members here
      (`j?.k` is undefined on null, and arrays, strings and numbers have no property
      of the names the model looks up). */
  function Member(j: Json, k: string): (r: Option<Json>)
    ensures r.Some? ==> j.JObj? && (k, r.value) in j.members
  {
    if j.JObj? then Get(j.members, k) else None
  }

  /** JavaScript's `String(v)` on a decoded value. Inside an array, `null` becomes the
      empty string, as `Array.prototype.join` does. */
  function JsString(j: Json): string {
    match j
    case JNull => "null"
    case JBool(b) => if b then "true" else "false"
    case JNum(n) => IntToString(n)
    case JStr(s) => s
    case JArr(items) =>
      Join(seq(|items|, i requires 0 <= i < |items| => if items[i].JNull? then "" else JsString(items[i])), ",")
    case JObj(_) => "[object Object]"
  }

  /** The document every content file holds: `{ text }`. */
  function TextDoc(text: string): (j: Json)
    ensures Member(j, "text") == Some(JStr(text))
  {
    JObj([("text", JStr(text))])
  }
}
