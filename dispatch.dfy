/**
 * `execute` in web.py: the backtrace rewrite and the call into the sandbox,
 * behind a memo cache keyed by all five arguments. The sandbox (`playpen.execute`)
 * is a function supplied from outside; it maps a toolchain version, a command,
 * its arguments and the source code to raw output bytes and a return code.
 */
module Dispatch {
  import opened Wrappers
  import opened Json
  import opened Bytes
  import Shell

  /** What the sandbox returns: output bytes and the process return code. */
  datatype Raw = Raw(out: seq<byte>, rc: int)

  /** `playpen.execute(version, command, arguments, code)`. */
  type Sandbox = (string, string, seq<string>, Json) -> Raw

  /** The five arguments of `execute`, which are also its cache key. */
  datatype Signature = Signature(version: string, command: string, arguments: seq<string>, code: Json, showBacktrace: bool)

  const Dash := "/usr/bin/dash"
  const BacktracePrefix := "export RUST_BACKTRACE=1; "

  /** The command and arguments handed to the sandbox. */
  datatype Invocation = Invocation(command: string, arguments: seq<string>)

  /**
   * With backtraces on, the tool runs under `dash -c` with RUST_BACKTRACE set,
   * every original argument quoted on its own; otherwise it runs unchanged.
   */
  function Rewritten(command: string, arguments: seq<string>, showBacktrace: bool): Invocation
  {
    if showBacktrace then Invocation(Dash, ["-c", BacktracePrefix + command + Shell.EscapedArgs(arguments)])
    else Invocation(command, arguments)
  }

  /** The rewrite at the top of `execute`: the loop builds the quoted argument string. */
  method Rewrite(command: string, arguments: seq<string>, showBacktrace: bool) returns (inv: Invocation)
    ensures inv == Rewritten(command, arguments, showBacktrace)
    ensures showBacktrace ==> inv.command == Dash && |inv.arguments| == 2 && inv.arguments[0] == "-c"
    ensures !showBacktrace ==> inv == Invocation(command, arguments)
  {
    if !showBacktrace {
      return Invocation(command, arguments);
    }
    var escaped := "";
    for i := 0 to |arguments|
      invariant escaped == Shell.EscapedArgs(arguments[..i])
    {
      var done, next := arguments[..i], arguments[i];
      assert arguments[..i + 1] == done + [next];
      Shell.EscapedArgsSnoc(done, next);
      escaped := escaped + " " + Shell.Quote(next);
    }
    assert arguments[..|arguments|] == arguments;
    assert escaped == Shell.EscapedArgs(arguments);
    inv := Invocation(Dash, ["-c", BacktracePrefix + command + escaped]);
  }

  /** Whatever a shell reads from `tail` it still reads after `prefix` is cut off again. */
  lemma AfterPrefix(prefix: string, tail: string, words: seq<string>)
    requires Shell.Words(tail) == Some(words)
    ensures (prefix + tail)[..|prefix|] == prefix
    ensures Shell.Words((prefix + tail)[|prefix|..]) == Some(words)
  {
    assert (prefix + tail)[|prefix|..] == tail;
  }

  /**
   * The rewrite keeps the invocation: the script is the environment prefix,
   * and after it a shell reads exactly the original command followed by the
   * original arguments, whatever characters they contain.
   */
  lemma RewritePreservesInvocation(command: string, arguments: seq<string>)
    requires command != [] && Shell.AllSafe(command)
    ensures var script := Rewritten(command, arguments, true).arguments[1];
      script[..|BacktracePrefix|] == BacktracePrefix &&
      Shell.Words(script[|BacktracePrefix|..]) == Some([command] + arguments)
  {
    var tail := command + Shell.EscapedArgs(arguments);
    Shell.CommandLineRoundTrip(command, arguments);
    AfterPrefix(BacktracePrefix, tail, [command] + arguments);
    assert Rewritten(command, arguments, true).arguments[1] == BacktracePrefix + tail;
  }

  /** What one uncached call of `execute` returns. */
  function Run(sandbox: Sandbox, sig: Signature): Raw
  {
    var inv := Rewritten(sig.command, sig.arguments, sig.showBacktrace);
    sandbox(sig.version, inv.command, inv.arguments, sig.code)
  }

  /** Whether every part of the signature can be hashed into a cache key (lists and objects cannot). */
  predicate KeyHashable(sig: Signature)
  {
    Hashable(sig.code)
  }

  /**
   * The key `lru_cache` files a call under. Its `==` is Python's, so codes
   * `true`, `1` and `1.0` are one key; the other four arguments are strings,
   * a tuple of strings and a boolean, compared by value.
   */
  function CacheKey(sig: Signature): Signature
  {
    sig.(code := HashKey(sig.code))
  }

  /** Two calls share a cache entry exactly when their arguments are equal under Python's `==`. */
  lemma CacheKeyEquals(a: Signature, b: Signature)
    requires KeyHashable(a) && KeyHashable(b)
    ensures CacheKey(a) == CacheKey(b) <==>
      a.version == b.version && a.command == b.command && a.arguments == b.arguments &&
      a.showBacktrace == b.showBacktrace && ScalarEquals(a.code, b.code)
  {
    HashKeyEquals(a.code, b.code);
  }

  /** What a call of the cached `execute` returns, given the cache contents before it. */
  function Served(sandbox: Sandbox, entries: map<Signature, Raw>, sig: Signature): Result<Raw, string>
  {
    if !KeyHashable(sig) then Err("TypeError")
    else if CacheKey(sig) in entries then Ok(entries[CacheKey(sig)])
    else Ok(Run(sandbox, sig))
  }

  /**
   * `execute` together with its memo cache. `entries` holds the results of
   * earlier calls under their keys; `origin` records, for each key, the call
   * that reached the sandbox and filled it; `runs` records every call that
   * reached the sandbox, in order.
   */
  class Memo {
    const sandbox: Sandbox
    var entries: map<Signature, Raw>
    ghost var origin: map<Signature, Signature>
    ghost var runs: seq<Signature>

    /**
     * Every cached result is what the sandbox returned for a call filed under
     * that key, every call that ran has an entry, and no key reached the
     * sandbox twice.
     */
    ghost predicate Valid()
      reads this
    {
      entries.Keys == origin.Keys &&
      (forall k :: k in entries ==>
        KeyHashable(origin[k]) && CacheKey(origin[k]) == k && entries[k] == Run(sandbox, origin[k])) &&
      (forall i :: 0 <= i < |runs| ==> CacheKey(runs[i]) in entries) &&
      (forall i, j :: 0 <= i < j < |runs| ==> CacheKey(runs[i]) != CacheKey(runs[j]))
    }

    constructor (sandbox: Sandbox)
      ensures Valid() && this.sandbox == sandbox
      ensures entries == map[] && origin == map[] && runs == []
    {
      this.sandbox := sandbox;
      entries := map[];
      origin := map[];
      runs := [];
    }

    /**
     * A cached call: a hit returns the stored result without running the
     * sandbox; a miss runs it once and stores the result. An unhashable key
     * raises before anything runs.
     */
    method Execute(sig: Signature) returns (r: Result<Raw, string>)
      requires Valid()
      modifies this
      ensures Valid()
      ensures r == Served(sandbox, old(entries), sig)
      ensures !KeyHashable(sig) ==> r == Err("TypeError")
      ensures KeyHashable(sig) ==>
        CacheKey(sig) in entries && r == Ok(Run(sandbox, origin[CacheKey(sig)])) &&
        ScalarEquals(origin[CacheKey(sig)].code, sig.code)
      ensures !KeyHashable(sig) || CacheKey(sig) in old(entries) ==>
        entries == old(entries) && origin == old(origin) && runs == old(runs)
      ensures KeyHashable(sig) && CacheKey(sig) !in old(entries) ==>
        entries == old(entries)[CacheKey(sig) := Run(sandbox, sig)] &&
        origin == old(origin)[CacheKey(sig) := sig] && runs == old(runs) + [sig]
    {
      if !KeyHashable(sig) {
        return Err("TypeError");
      }
      var key := CacheKey(sig);
      if key in entries {
        CacheKeyEquals(origin[key], sig);
        return Ok(entries[key]);
      }
      var inv := Rewrite(sig.command, sig.arguments, sig.showBacktrace);
      var raw := sandbox(sig.version, inv.command, inv.arguments, sig.code);
      entries := entries[key := raw];
      origin := origin[key := sig];
      runs := runs + [sig];
      HashKeyEquals(sig.code, sig.code);
      r := Ok(raw);
    }
  }

  /**
   * Two calls whose arguments are equal under Python's `==` (the same call, or
   * codes `true` and `1`) reach the sandbox at most once, and the second
   * returns what the first did.
   */
  method ExecuteTwice(memo: Memo, sig: Signature, again: Signature) returns (first: Result<Raw, string>, second: Result<Raw, string>)
    requires memo.Valid()
    requires CacheKey(sig) == CacheKey(again)
    modifies memo
    ensures memo.Valid()
    ensures first == second
    ensures |memo.runs| <= |old(memo.runs)| + 1
  {
    first := memo.Execute(sig);
    second := memo.Execute(again);
  }
}
