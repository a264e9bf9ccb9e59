/**
 * Shaping the sandbox output into the JSON responses of the three endpoints.
 * Text is kept at the byte level: a response field records which bytes it
 * holds and how web.py turns them into text (strict UTF-8, UTF-8 with
 * replacement characters, or syntax highlighting of the strict decoding).
 */
module Output {
  import opened Wrappers
  import opened Bytes

  /** The highlighters `compile` can choose from: Pygments' GAS and LLVM lexers. */
  datatype Lexer = Gas | Llvm

  /** A response field's text. */
  datatype Text =
    | Message(text: string)                        // text built by web.py itself
    | Utf8(bytes: seq<byte>)                       // strict UTF-8 decoding
    | Utf8Lossy(bytes: seq<byte>)                  // UTF-8 decoding with replacement characters
    | Highlighted(lexer: Lexer, bytes: seq<byte>)  // strict decoding rendered as HTML by the lexer

  /** A JSON response object. */
  type Response = map<string, Text>

  /** The bytes a byte-carrying field was made from. */
  function Source(t: Text): seq<byte>
  {
    if t.Message? then [] else t.bytes
  }

  /** `evaluate` with `separate_output: true`: diagnostics, and the program output only when the sandbox wrote a 0xFF. */
  function EvaluateSeparate(out: seq<byte>): (r: Response)
    ensures "rustc" in r && r["rustc"].Utf8? && Sentinel !in r["rustc"].bytes
    ensures "program" in r <==> Sentinel in out
    ensures r.Keys <= {"rustc", "program"}
    ensures "program" in r ==> r["program"].Utf8Lossy? && r["rustc"].bytes + [Sentinel] + r["program"].bytes == out
    ensures "program" !in r ==> r["rustc"].bytes == out
  {
    var split := SplitFirst(out);
    var ret := map["rustc" := Utf8(split[0])];
    if |split| == 2 then ret["program" := Utf8Lossy(split[1])] else ret
  }

  /** `evaluate` otherwise: one field holding the output with its first 0xFF removed. */
  function EvaluateMerged(out: seq<byte>): (r: Response)
    ensures r.Keys == {"result"} && r["result"].Utf8Lossy?
    ensures multiset(r["result"].bytes) == multiset(out) - multiset{Sentinel}
    ensures var parts := SplitFirst(out);
      r["result"].bytes == parts[0] + (if |parts| == 2 then parts[1] else [])
  {
    RemoveFirstMultiset(out);
    RemoveFirstJoinsSplit(out);
    map["result" := Utf8Lossy(RemoveFirst(out))]
  }

  /** The response of `evaluate`; `separate` is whether `separate_output` is the JSON value `true`. */
  function EvaluateOutput(out: seq<byte>, separate: bool): Response
  {
    if separate then EvaluateSeparate(out) else EvaluateMerged(out)
  }

  /** The merged response is the separated one's diagnostics followed by its program output. */
  lemma MergedJoinsSeparate(out: seq<byte>)
    ensures var sep := EvaluateSeparate(out);
      EvaluateMerged(out)["result"].bytes ==
        sep["rustc"].bytes + (if "program" in sep then sep["program"].bytes else [])
  {
    var sep := EvaluateSeparate(out);
    var merged := EvaluateMerged(out)["result"].bytes;
    assert merged == RemoveFirst(out);
    RemoveFirstJoinsSplit(out);
    if Sentinel in out {
      SplitFirstUnique(out, sep["rustc"].bytes, sep["program"].bytes);
    }
  }

  /** The response of `format`: an error exactly when the return code is non-zero (`if rc:`). */
  function FormatOutput(out: seq<byte>, rc: int): (r: Response)
    ensures ("error" in r <==> rc != 0) && ("result" in r <==> rc == 0)
    ensures |r.Keys| == 1
    ensures forall k :: k in r ==> r[k] == Utf8(out)
  {
    if rc != 0 then map["error" := Utf8(out)] else map["result" := Utf8(out)]
  }

  /** Whether `compile` runs the artifact through a highlighter, and with which lexer. */
  function ChosenLexer(highlight: bool, emit: string): (l: Option<Lexer>)
    ensures l.Some? <==> highlight && (emit == "asm" || emit == "llvm-ir")
    ensures l == Some(Gas) <==> highlight && emit == "asm"
  {
    if !highlight then None
    else if emit == "asm" then Some(Gas)
    else if emit == "llvm-ir" then Some(Llvm)
    else None
  }

  /**
   * The response of `compile`: an error carrying the diagnostics when the
   * sandbox wrote no 0xFF; otherwise the artifact after the first 0xFF, raw or
   * highlighted. `highlight` is whether `highlight` is the JSON value `true`.
   */
  function CompileOutput(out: seq<byte>, highlight: bool, emit: string): (r: Response)
    ensures ("error" in r <==> Sentinel !in out) && ("result" in r <==> Sentinel in out)
    ensures |r.Keys| == 1
    ensures "error" in r ==> r["error"] == Utf8(out)
    ensures "result" in r ==> exists diag :: Sentinel !in diag && out == diag + [Sentinel] + Source(r["result"])
    ensures "result" in r ==> (r["result"].Highlighted? <==> ChosenLexer(highlight, emit).Some?)
    ensures "result" in r && r["result"].Highlighted? ==> r["result"].lexer == ChosenLexer(highlight, emit).value
    ensures "result" in r && !r["result"].Highlighted? ==> r["result"].Utf8?
  {
    var split := SplitFirst(out);
    if |split| != 2 then map["error" := Utf8(split[0])]
    else
      var lexer := ChosenLexer(highlight, emit);
      var result := if lexer.Some? then Highlighted(lexer.value, split[1]) else Utf8(split[1]);
      assert Sentinel !in split[0] && out == split[0] + [Sentinel] + Source(result);
      map["result" := result]
  }

  /** The two concrete cases: "diag\xffout" gives diagnostics "diag" and output "out"; output without 0xFF is a compile error. */
  lemma DecodeExamples(diag: seq<byte>, artifact: seq<byte>)
    requires Sentinel !in diag
    ensures EvaluateSeparate(diag + [Sentinel] + artifact) == map["rustc" := Utf8(diag), "program" := Utf8Lossy(artifact)]
    ensures CompileOutput(diag, false, "asm") == map["error" := Utf8(diag)]
  {
    SplitFirstUnique(diag + [Sentinel] + artifact, diag, artifact);
  }
}
