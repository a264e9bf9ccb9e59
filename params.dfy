/**
 * The `extractor` decorator of web.py and the chains of stacked extractors in
 * front of each endpoint. Each extractor reads one key of the request body,
 * falls back to a default when the key is absent, and rejects the whole request
 * when the value is not in its whitelist. The top-most decorator is the
 * outermost wrapper, so keys are checked in the order the decorators are
 * listed, and each wrapper passes its value in front of the ones it received:
 * the handler gets its arguments in reverse listing order.
 */
module Params {
  import opened Wrappers
  import opened Json

  /** One `@extractor(key, default, valid)` line. */
  datatype Param = Param(key: string, default: Literal, valid: seq<Literal>)

  /** The error text `"invalid value for {}".format(key)`. */
  function InvalidMessage(key: string): string
  {
    "invalid value for " + key
  }

  /** `request.json.get(key, default)`. */
  function Lookup(body: Body, p: Param): Json
  {
    if p.key in body then body[p.key] else ToJson(p.default)
  }

  /** Whether the extractor for `p` lets the request through. */
  predicate Accepts(body: Body, p: Param)
  {
    In(Lookup(body, p), p.valid)
  }

  /** One extractor: the value it hands on, or the error response it returns instead. */
  function Extract(body: Body, p: Param): (r: Result<Json, string>)
    ensures r.Ok? ==> In(r.value, p.valid)
    ensures r.Ok? && p.key in body ==> r.value == body[p.key]
    ensures p.key !in body && In(ToJson(p.default), p.valid) ==> r == Ok(ToJson(p.default))
    ensures r.Err? <==> !In(Lookup(body, p), p.valid)
    ensures r.Err? ==> r.error == InvalidMessage(p.key)
  {
    var value := Lookup(body, p);
    if !In(value, p.valid) then Err(InvalidMessage(p.key)) else Ok(value)
  }

  /**
   * The wrappers of `ps` (in listing order) run one after the other; `passed`
   * holds the values the wrappers already run have handed on, innermost first.
   */
  function Chain(body: Body, ps: seq<Param>, passed: seq<Json>): Result<seq<Json>, string>
    decreases |ps|
  {
    if ps == [] then Ok(passed)
    else
      match Extract(body, ps[0])
      case Err(e) => Err(e)
      case Ok(v) => Chain(body, ps[1..], [v] + passed)
  }

  /** All extractors of `ps` accept the request. */
  predicate AllAccept(body: Body, ps: seq<Param>)
  {
    forall i :: 0 <= i < |ps| ==> Accepts(body, ps[i])
  }

  /** `i` is the first extractor of `ps` that rejects the request. */
  predicate FirstRejected(body: Body, ps: seq<Param>, i: int)
  {
    0 <= i < |ps| && !Accepts(body, ps[i]) && forall j :: 0 <= j < i ==> Accepts(body, ps[j])
  }

  /** The chain succeeds exactly when every extractor accepts, and then hands on every looked-up value, reversed. */
  lemma {:induction false} ChainOk(body: Body, ps: seq<Param>, passed: seq<Json>)
    ensures Chain(body, ps, passed).Ok? <==> AllAccept(body, ps)
    ensures Chain(body, ps, passed).Ok? ==>
      var vs := Chain(body, ps, passed).value;
      |vs| == |ps| + |passed| && vs[|ps|..] == passed &&
      forall i :: 0 <= i < |ps| ==> vs[|ps| - 1 - i] == Lookup(body, ps[i])
    decreases |ps|
  {
    if ps != [] {
      ChainOk(body, ps[1..], [Lookup(body, ps[0])] + passed);
      if Accepts(body, ps[0]) {
        assert forall i :: 1 <= i < |ps| ==> ps[i] == ps[1..][i - 1];
        if AllAccept(body, ps[1..]) {
          assert AllAccept(body, ps);
        }
      }
    }
  }

  /** A failing chain reports the first rejecting extractor in listing order, and only that one. */
  lemma {:induction false} ChainErr(body: Body, ps: seq<Param>, passed: seq<Json>)
    ensures Chain(body, ps, passed).Err? ==>
      exists i :: FirstRejected(body, ps, i) && Chain(body, ps, passed).error == InvalidMessage(ps[i].key)
    decreases |ps|
  {
    if ps != [] && Accepts(body, ps[0]) {
      ChainErr(body, ps[1..], [Lookup(body, ps[0])] + passed);
      if Chain(body, ps, passed).Err? {
        var i :| FirstRejected(body, ps[1..], i) && Chain(body, ps, passed).error == InvalidMessage(ps[1..][i].key);
        assert FirstRejected(body, ps, i + 1);
      }
    } else if ps != [] {
      assert FirstRejected(body, ps, 0);
    }
  }

  /**
   * The whole decorator stack: either the arguments the handler is called
   * with, or the error of the first rejecting extractor (and then the handler
   * is not called).
   */
  function ExtractAll(body: Body, ps: seq<Param>): (r: Result<seq<Json>, string>)
    ensures r.Ok? <==> AllAccept(body, ps)
    ensures r.Ok? ==> |r.value| == |ps|
    ensures r.Ok? ==> forall i :: 0 <= i < |ps| ==>
      r.value[|ps| - 1 - i] == Lookup(body, ps[i]) && In(r.value[|ps| - 1 - i], ps[i].valid)
    ensures r.Err? ==> exists i :: FirstRejected(body, ps, i) && r.error == InvalidMessage(ps[i].key)
  {
    ChainOk(body, ps, []);
    ChainErr(body, ps, []);
    Chain(body, ps, [])
  }

  /** Whichever extractor rejects first decides the error; nothing after it is consulted. */
  lemma ReportsFirstRejected(body: Body, ps: seq<Param>, i: int)
    requires FirstRejected(body, ps, i)
    ensures ExtractAll(body, ps) == Err(InvalidMessage(ps[i].key))
  {
    var r := ExtractAll(body, ps);
    assert r.Err?;
    var j :| FirstRejected(body, ps, j) && r.error == InvalidMessage(ps[j].key);
    assert i == j;
  }

  /** The handler's argument for the `i`-th extractor of an accepting stack. */
  lemma ExtractedValue(body: Body, ps: seq<Param>, i: int)
    requires ExtractAll(body, ps).Ok? && 0 <= i < |ps|
    ensures ExtractAll(body, ps).value[|ps| - 1 - i] == Lookup(body, ps[i])
    ensures In(Lookup(body, ps[i]), ps[i].valid)
  {
  }
}
