/**
 * JSON values as the web framework hands them to the handlers, and the parts of
 * Python's value semantics the request pipeline relies on: equality against the
 * whitelisted constants, truthiness, identity with `True` and hashability.
 */
module Json {

  /** A decoded JSON value. Numbers are kept as reals (`1` and `1.0` behave alike here). */
  datatype Json =
    | JNull
    | JBool(b: bool)
    | JNum(n: real)
    | JStr(s: string)
    | JArr(items: seq<Json>)
    | JObj(fields: map<string, Json>)

  /** A request body: the top-level JSON object. */
  type Body = map<string, Json>

  /** A constant written in the source: a default or a member of a whitelist tuple. */
  datatype Literal = LStr(str: string) | LBool(flag: bool)

  function ToJson(l: Literal): Json
  {
    match l
    case LStr(s) => JStr(s)
    case LBool(b) => JBool(b)
  }

  /**
   * Python's `v == l` for a JSON value and a constant. `bool` is a subclass of
   * `int`, so `True == 1 == 1.0` and `False == 0 == 0.0`; a string equals only
   * the same string.
   */
  predicate Matches(v: Json, l: Literal)
  {
    match l
    case LStr(s) => v == JStr(s)
    case LBool(b) => v == JBool(b) || v == JNum(if b then 1.0 else 0.0)
  }

  /** Python's `v in (l0, l1, ...)`. */
  predicate In(v: Json, valid: seq<Literal>)
  {
    exists i :: 0 <= i < |valid| && Matches(v, valid[i])
  }

  /** Python's truth value of a JSON value (`if v:`). */
  predicate Truthy(v: Json)
  {
    match v
    case JNull => false
    case JBool(b) => b
    case JNum(n) => n != 0.0
    case JStr(s) => s != ""
    case JArr(items) => items != []
    case JObj(fields) => fields != map[]
  }

  /** `body.get(key) is True`: only the JSON literal `true`, never `1`. */
  predicate IsTrue(body: Body, key: string)
  {
    key in body && body[key] == JBool(true)
  }

  /** Whether the value can be part of a dictionary key (lists and objects cannot). */
  predicate Hashable(v: Json)
  {
    !v.JArr? && !v.JObj?
  }

  /** The number a boolean or a number stands for in Python arithmetic and comparison. */
  function NumberOf(v: Json): real
    requires v.JBool? || v.JNum?
  {
    if v.JBool? then (if v.b then 1.0 else 0.0) else v.n
  }

  /** Python's `a == b` for hashable values: booleans and numbers compare as numbers, everything else by value. */
  predicate ScalarEquals(a: Json, b: Json)
  {
    if (a.JBool? || a.JNum?) && (b.JBool? || b.JNum?) then NumberOf(a) == NumberOf(b) else a == b
  }

  /**
   * The value a dictionary key stands for: `hash(True) == hash(1) == hash(1.0)`
   * and they are `==`, so a boolean is filed as its number.
   */
  function HashKey(v: Json): Json
  {
    if v.JBool? then JNum(NumberOf(v)) else v
  }

  /** Two hashable values are filed under the same key exactly when Python finds them equal. */
  lemma HashKeyEquals(a: Json, b: Json)
    requires Hashable(a) && Hashable(b)
    ensures HashKey(a) == HashKey(b) <==> ScalarEquals(a, b)
    ensures Hashable(HashKey(a)) && !HashKey(a).JBool?
  {
  }

  /** A value accepted by a whitelist made only of strings is one of those strings. */
  lemma InStrings(v: Json, valid: seq<Literal>)
    requires forall i :: 0 <= i < |valid| ==> valid[i].LStr?
    requires In(v, valid)
    ensures v.JStr? && LStr(v.s) in valid
  {
    var i :| 0 <= i < |valid| && Matches(v, valid[i]);
    assert valid[i] == LStr(v.s);
  }

  /** The boolean whitelist `(True, False)` accepts exactly booleans and the numbers 0 and 1. */
  lemma InBooleans(v: Json)
    ensures In(v, [LBool(true), LBool(false)]) <==> v.JBool? || v == JNum(1.0) || v == JNum(0.0)
  {
    if v.JBool? {
      assert Matches(v, [LBool(true), LBool(false)][if v.b then 0 else 1]);
    } else if v == JNum(1.0) {
      assert Matches(v, [LBool(true), LBool(false)][0]);
    } else if v == JNum(0.0) {
      assert Matches(v, [LBool(true), LBool(false)][1]);
    }
  }
}
