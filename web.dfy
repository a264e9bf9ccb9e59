/**
 * The three endpoints of web.py (`/evaluate.json`, `/format.json`,
 * `/compile.json`) without their HTTP plumbing: the stacked extractors, the
 * argument vector, the cached `execute` call and the shaping of the response.
 */
module Web {
  import opened Wrappers
  import opened Json
  import opened Params
  import opened Args
  import opened Dispatch
  import opened Output

  const OptimizeParam := Param("optimize", LStr("2"), [LStr("0"), LStr("1"), LStr("2"), LStr("3")])
  const BacktraceParam := Param("backtrace", LStr("0"), [LStr("0"), LStr("1"), LStr("2")])
  const ColorParam := Param("color", LBool(false), [LBool(true), LBool(false)])
  const TestParam := Param("test", LBool(false), [LBool(true), LBool(false)])
  const VersionParam := Param("version", LStr("stable"), [LStr("stable"), LStr("beta"), LStr("nightly")])
  const SyntaxParam := Param("syntax", LStr("att"), [LStr("att"), LStr("intel")])
  const EmitParam := Param("emit", LStr("asm"), [LStr("asm"), LStr("llvm-ir"), LStr("mir")])

  /** The extractor stacks, top to bottom as the decorators are listed. */
  const EvaluateStack := [BacktraceParam, ColorParam, TestParam, VersionParam, OptimizeParam]
  const FormatStack := [OptimizeParam, BacktraceParam, VersionParam]
  const CompileStack := [BacktraceParam, SyntaxParam, ColorParam, VersionParam, OptimizeParam, EmitParam]

  const EvaluateScript := "/usr/local/bin/evaluate.sh"
  const Rustfmt := "/usr/bin/rustfmt"
  const CompileScript := "/usr/local/bin/compile.sh"

  /** The handlers' parameters, in the order the handlers declare them. */
  datatype EvaluateOptions = EvaluateOptions(optimize: string, version: string, test: bool, color: bool, backtrace: string)
  datatype FormatOptions = FormatOptions(version: string, backtrace: string, optimize: string)
  datatype CompileOptions = CompileOptions(emit: string, optimize: string, version: string, color: bool, syntax: string, backtrace: string)

  /** What an endpoint produces: a JSON response, or an uncaught exception (a server error). */
  datatype Outcome = Reply(response: Response) | Fault(exception: string)

  predicate ValidVersion(version: string) { version in {"stable", "beta", "nightly"} }
  predicate ValidBacktrace(backtrace: string) { backtrace in {"0", "1", "2"} }

  /** What each string whitelist lets through, as the handler sees it. */
  lemma OptimizeAccepted(v: Json)
    requires In(v, OptimizeParam.valid)
    ensures v.JStr? && ValidOptimize(v.s)
  {
    InStrings(v, OptimizeParam.valid);
  }

  lemma VersionAccepted(v: Json)
    requires In(v, VersionParam.valid)
    ensures v.JStr? && ValidVersion(v.s)
  {
    InStrings(v, VersionParam.valid);
  }

  lemma BacktraceAccepted(v: Json)
    requires In(v, BacktraceParam.valid)
    ensures v.JStr? && ValidBacktrace(v.s)
  {
    InStrings(v, BacktraceParam.valid);
  }

  lemma SyntaxAccepted(v: Json)
    requires In(v, SyntaxParam.valid)
    ensures v.JStr? && ValidSyntax(v.s)
  {
    InStrings(v, SyntaxParam.valid);
  }

  lemma EmitAccepted(v: Json)
    requires In(v, EmitParam.valid)
    ensures v.JStr? && ValidEmit(v.s)
  {
    InStrings(v, EmitParam.valid);
  }

  /** The arguments the evaluate handler receives, last decorator first. */
  lemma EvaluateAccepted(body: Body)
    requires ExtractAll(body, EvaluateStack).Ok?
    ensures var vals := ExtractAll(body, EvaluateStack).value;
      |vals| == 5 &&
      vals[0] == Lookup(body, OptimizeParam) && vals[0].JStr? && ValidOptimize(vals[0].s) &&
      vals[1] == Lookup(body, VersionParam) && vals[1].JStr? && ValidVersion(vals[1].s) &&
      vals[2] == Lookup(body, TestParam) && vals[3] == Lookup(body, ColorParam) &&
      vals[4] == Lookup(body, BacktraceParam) && vals[4].JStr? && ValidBacktrace(vals[4].s)
  {
    var vals := ExtractAll(body, EvaluateStack).value;
    ExtractedValue(body, EvaluateStack, 0);
    ExtractedValue(body, EvaluateStack, 1);
    ExtractedValue(body, EvaluateStack, 2);
    ExtractedValue(body, EvaluateStack, 3);
    ExtractedValue(body, EvaluateStack, 4);
    OptimizeAccepted(vals[0]);
    VersionAccepted(vals[1]);
    BacktraceAccepted(vals[4]);
  }

  /** The arguments the format handler receives. */
  lemma FormatAccepted(body: Body)
    requires ExtractAll(body, FormatStack).Ok?
    ensures var vals := ExtractAll(body, FormatStack).value;
      |vals| == 3 &&
      vals[0] == Lookup(body, VersionParam) && vals[0].JStr? && ValidVersion(vals[0].s) &&
      vals[1] == Lookup(body, BacktraceParam) && vals[1].JStr? && ValidBacktrace(vals[1].s) &&
      vals[2] == Lookup(body, OptimizeParam) && vals[2].JStr? && ValidOptimize(vals[2].s)
  {
    var vals := ExtractAll(body, FormatStack).value;
    ExtractedValue(body, FormatStack, 0);
    ExtractedValue(body, FormatStack, 1);
    ExtractedValue(body, FormatStack, 2);
    VersionAccepted(vals[0]);
    BacktraceAccepted(vals[1]);
    OptimizeAccepted(vals[2]);
  }

  /** The arguments the compile handler receives. */
  lemma CompileAccepted(body: Body)
    requires ExtractAll(body, CompileStack).Ok?
    ensures var vals := ExtractAll(body, CompileStack).value;
      |vals| == 6 &&
      vals[0] == Lookup(body, EmitParam) && vals[0].JStr? && ValidEmit(vals[0].s) &&
      vals[1] == Lookup(body, OptimizeParam) && vals[1].JStr? && ValidOptimize(vals[1].s) &&
      vals[2] == Lookup(body, VersionParam) && vals[2].JStr? && ValidVersion(vals[2].s) &&
      vals[3] == Lookup(body, ColorParam) &&
      vals[4] == Lookup(body, SyntaxParam) && vals[4].JStr? && ValidSyntax(vals[4].s) &&
      vals[5] == Lookup(body, BacktraceParam) && vals[5].JStr? && ValidBacktrace(vals[5].s)
  {
    var vals := ExtractAll(body, CompileStack).value;
    ExtractedValue(body, CompileStack, 0);
    ExtractedValue(body, CompileStack, 1);
    ExtractedValue(body, CompileStack, 2);
    ExtractedValue(body, CompileStack, 3);
    ExtractedValue(body, CompileStack, 4);
    ExtractedValue(body, CompileStack, 5);
    EmitAccepted(vals[0]);
    OptimizeAccepted(vals[1]);
    VersionAccepted(vals[2]);
    SyntaxAccepted(vals[4]);
    BacktraceAccepted(vals[5]);
  }

  /** The evaluate extractors: the handler's parameters, or the error of the first rejecting key. */
  function ParseEvaluate(body: Body): (r: Result<EvaluateOptions, string>)
    ensures r.Err? <==> !AllAccept(body, EvaluateStack)
    ensures r.Err? ==> exists i :: FirstRejected(body, EvaluateStack, i) && r.error == InvalidMessage(EvaluateStack[i].key)
    ensures r.Ok? ==> ValidOptimize(r.value.optimize) && ValidVersion(r.value.version) && ValidBacktrace(r.value.backtrace)
    ensures r.Ok? ==> Lookup(body, OptimizeParam) == JStr(r.value.optimize) && Lookup(body, VersionParam) == JStr(r.value.version)
    ensures r.Ok? ==> Lookup(body, BacktraceParam) == JStr(r.value.backtrace)
    ensures r.Ok? ==> r.value.test == Truthy(Lookup(body, TestParam)) && r.value.color == Truthy(Lookup(body, ColorParam))
  {
    match ExtractAll(body, EvaluateStack)
    case Err(e) => Err(e)
    case Ok(vals) =>
      EvaluateAccepted(body);
      Ok(EvaluateOptions(vals[0].s, vals[1].s, Truthy(vals[2]), Truthy(vals[3]), vals[4].s))
  }

  /** The format extractors. */
  function ParseFormat(body: Body): (r: Result<FormatOptions, string>)
    ensures r.Err? <==> !AllAccept(body, FormatStack)
    ensures r.Err? ==> exists i :: FirstRejected(body, FormatStack, i) && r.error == InvalidMessage(FormatStack[i].key)
    ensures r.Ok? ==> ValidOptimize(r.value.optimize) && ValidVersion(r.value.version) && ValidBacktrace(r.value.backtrace)
    ensures r.Ok? ==> Lookup(body, OptimizeParam) == JStr(r.value.optimize) && Lookup(body, VersionParam) == JStr(r.value.version)
    ensures r.Ok? ==> Lookup(body, BacktraceParam) == JStr(r.value.backtrace)
  {
    match ExtractAll(body, FormatStack)
    case Err(e) => Err(e)
    case Ok(vals) =>
      FormatAccepted(body);
      Ok(FormatOptions(vals[0].s, vals[1].s, vals[2].s))
  }

  /** The compile extractors. */
  function ParseCompile(body: Body): (r: Result<CompileOptions, string>)
    ensures r.Err? <==> !AllAccept(body, CompileStack)
    ensures r.Err? ==> exists i :: FirstRejected(body, CompileStack, i) && r.error == InvalidMessage(CompileStack[i].key)
    ensures r.Ok? ==> ValidEmit(r.value.emit) && ValidOptimize(r.value.optimize) && ValidVersion(r.value.version)
    ensures r.Ok? ==> ValidSyntax(r.value.syntax) && ValidBacktrace(r.value.backtrace)
    ensures r.Ok? ==> Lookup(body, EmitParam) == JStr(r.value.emit) && Lookup(body, OptimizeParam) == JStr(r.value.optimize)
    ensures r.Ok? ==> Lookup(body, VersionParam) == JStr(r.value.version) && Lookup(body, SyntaxParam) == JStr(r.value.syntax)
    ensures r.Ok? ==> Lookup(body, BacktraceParam) == JStr(r.value.backtrace)
    ensures r.Ok? ==> r.value.color == Truthy(Lookup(body, ColorParam))
  {
    match ExtractAll(body, CompileStack)
    case Err(e) => Err(e)
    case Ok(vals) =>
      CompileAccepted(body);
      Ok(CompileOptions(vals[0].s, vals[1].s, vals[2].s, Truthy(vals[3]), vals[4].s, vals[5].s))
  }

  /** The `execute` call each endpoint makes. */
  function EvaluateSignature(o: EvaluateOptions, code: Json): Signature
  {
    Signature(o.version, EvaluateScript, EvaluateArgs(o.optimize, o.color, o.test), code, ShowBacktrace(o.backtrace, o.optimize))
  }

  function FormatSignature(o: FormatOptions, code: Json): Signature
  {
    Signature(o.version, Rustfmt, [], code, ShowBacktrace(o.backtrace, o.optimize))
  }

  function CompileSignature(o: CompileOptions, code: Json): Signature
  {
    Signature(o.version, CompileScript, CompileArgs(o.optimize, o.color, o.syntax, o.emit), code, ShowBacktrace(o.backtrace, o.optimize))
  }

  /** The error response of a rejected parameter. */
  function InvalidReply(message: string): Response
  {
    map["error" := Message(message)]
  }

  /**
   * The cache after a call for `sig` that got past validation: a new entry,
   * filled by this call, exactly when the key is hashable and was not there.
   */
  twostate predicate CacheAfter(memo: Memo, sig: Signature)
    reads memo
  {
    if KeyHashable(sig) && CacheKey(sig) !in old(memo.entries) then
      memo.entries == old(memo.entries)[CacheKey(sig) := Run(memo.sandbox, sig)] &&
      memo.origin == old(memo.origin)[CacheKey(sig) := sig] &&
      memo.runs == old(memo.runs) + [sig]
    else
      memo.entries == old(memo.entries) && memo.origin == old(memo.origin) && memo.runs == old(memo.runs)
  }

  /** `/evaluate.json`. */
  method Evaluate(body: Body, memo: Memo) returns (r: Outcome)
    requires memo.Valid()
    modifies memo
    ensures memo.Valid()
    ensures ParseEvaluate(body).Err? ==>
      r == Reply(InvalidReply(ParseEvaluate(body).error)) && memo.entries == old(memo.entries) && memo.origin == old(memo.origin) && memo.runs == old(memo.runs)
    ensures ParseEvaluate(body).Ok? && "code" !in body ==>
      r == Fault("KeyError") && memo.entries == old(memo.entries) && memo.origin == old(memo.origin) && memo.runs == old(memo.runs)
    ensures ParseEvaluate(body).Ok? && "code" in body ==>
      var sig := EvaluateSignature(ParseEvaluate(body).value, body["code"]);
      CacheAfter(memo, sig) &&
      r == match Served(memo.sandbox, old(memo.entries), sig)
           case Err(e) => Fault(e)
           case Ok(raw) => Reply(EvaluateOutput(raw.out, IsTrue(body, "separate_output")))
  {
    var parsed := ParseEvaluate(body);
    if parsed.Err? {
      return Reply(InvalidReply(parsed.error));
    }
    var o := parsed.value;
    var args, showBacktrace := BuildEvaluateArgs(o.optimize, o.color, o.test, o.backtrace);
    if "code" !in body {
      return Fault("KeyError");
    }
    var executed := memo.Execute(Signature(o.version, EvaluateScript, args, body["code"], showBacktrace));
    if executed.Err? {
      return Fault(executed.error);
    }
    r := Reply(EvaluateOutput(executed.value.out, IsTrue(body, "separate_output")));
  }

  /** `/format.json`: the base vector is computed only for the backtrace flag; rustfmt gets no arguments. */
  method Format(body: Body, memo: Memo) returns (r: Outcome)
    requires memo.Valid()
    modifies memo
    ensures memo.Valid()
    ensures ParseFormat(body).Err? ==>
      r == Reply(InvalidReply(ParseFormat(body).error)) && memo.entries == old(memo.entries) && memo.origin == old(memo.origin) && memo.runs == old(memo.runs)
    ensures ParseFormat(body).Ok? && "code" !in body ==>
      r == Fault("KeyError") && memo.entries == old(memo.entries) && memo.origin == old(memo.origin) && memo.runs == old(memo.runs)
    ensures ParseFormat(body).Ok? && "code" in body ==>
      var sig := FormatSignature(ParseFormat(body).value, body["code"]);
      CacheAfter(memo, sig) &&
      r == match Served(memo.sandbox, old(memo.entries), sig)
           case Err(e) => Fault(e)
           case Ok(raw) => Reply(FormatOutput(raw.out, raw.rc))
  {
    var parsed := ParseFormat(body);
    if parsed.Err? {
      return Reply(InvalidReply(parsed.error));
    }
    var o := parsed.value;
    var _, showBacktrace := InitArgsGetBt(o.optimize, false, o.backtrace);
    if "code" !in body {
      return Fault("KeyError");
    }
    var executed := memo.Execute(Signature(o.version, Rustfmt, [], body["code"], showBacktrace));
    if executed.Err? {
      return Fault(executed.error);
    }
    r := Reply(FormatOutput(executed.value.out, executed.value.rc));
  }

  /** `/compile.json`. */
  method Compile(body: Body, memo: Memo) returns (r: Outcome)
    requires memo.Valid()
    modifies memo
    ensures memo.Valid()
    ensures ParseCompile(body).Err? ==>
      r == Reply(InvalidReply(ParseCompile(body).error)) && memo.entries == old(memo.entries) && memo.origin == old(memo.origin) && memo.runs == old(memo.runs)
    ensures ParseCompile(body).Ok? && "code" !in body ==>
      r == Fault("KeyError") && memo.entries == old(memo.entries) && memo.origin == old(memo.origin) && memo.runs == old(memo.runs)
    ensures ParseCompile(body).Ok? && "code" in body ==>
      var o := ParseCompile(body).value;
      var sig := CompileSignature(o, body["code"]);
      CacheAfter(memo, sig) &&
      r == match Served(memo.sandbox, old(memo.entries), sig)
           case Err(e) => Fault(e)
           case Ok(raw) => Reply(CompileOutput(raw.out, IsTrue(body, "highlight"), o.emit))
  {
    var parsed := ParseCompile(body);
    if parsed.Err? {
      return Reply(InvalidReply(parsed.error));
    }
    var o := parsed.value;
    var args, showBacktrace := BuildCompileArgs(o.optimize, o.color, o.syntax, o.emit, o.backtrace);
    if "code" !in body {
      return Fault("KeyError");
    }
    var executed := memo.Execute(Signature(o.version, CompileScript, args, body["code"], showBacktrace));
    if executed.Err? {
      return Fault(executed.error);
    }
    r := Reply(CompileOutput(executed.value.out, IsTrue(body, "highlight"), o.emit));
  }

  /** Two evaluate requests share a cache entry only when they run the same vector with the same backtrace setting and equal code. */
  lemma EvaluateSignatureInjective(o1: EvaluateOptions, code1: Json, o2: EvaluateOptions, code2: Json)
    requires Hashable(code1) && Hashable(code2)
    requires CacheKey(EvaluateSignature(o1, code1)) == CacheKey(EvaluateSignature(o2, code2))
    ensures o1.optimize == o2.optimize && o1.version == o2.version && o1.test == o2.test && o1.color == o2.color
    ensures ShowBacktrace(o1.backtrace, o1.optimize) == ShowBacktrace(o2.backtrace, o2.optimize)
    ensures ScalarEquals(code1, code2)
  {
    CacheKeyEquals(EvaluateSignature(o1, code1), EvaluateSignature(o2, code2));
    EvaluateArgsInjective(o1.optimize, o1.color, o1.test, o2.optimize, o2.color, o2.test);
  }

  /** Two compile requests share a cache entry only when every option but the backtrace selector agrees and the codes are equal. */
  lemma CompileSignatureInjective(o1: CompileOptions, code1: Json, o2: CompileOptions, code2: Json)
    requires ValidSyntax(o1.syntax) && ValidSyntax(o2.syntax)
    requires Hashable(code1) && Hashable(code2)
    requires CacheKey(CompileSignature(o1, code1)) == CacheKey(CompileSignature(o2, code2))
    ensures o1.optimize == o2.optimize && o1.version == o2.version && o1.color == o2.color
    ensures o1.syntax == o2.syntax && o1.emit == o2.emit && ScalarEquals(code1, code2)
    ensures ShowBacktrace(o1.backtrace, o1.optimize) == ShowBacktrace(o2.backtrace, o2.optimize)
  {
    CacheKeyEquals(CompileSignature(o1, code1), CompileSignature(o2, code2));
    CompileArgsInjective(o1.optimize, o1.color, o1.syntax, o1.emit, o2.optimize, o2.color, o2.syntax, o2.emit);
  }

  /** An invalid backtrace selector is what evaluate reports, whatever else is wrong with the request. */
  lemma EvaluateChecksBacktraceFirst(body: Body)
    requires !Accepts(body, BacktraceParam)
    ensures ParseEvaluate(body) == Err("invalid value for backtrace")
  {
    assert FirstRejected(body, EvaluateStack, 0);
    ReportsFirstRejected(body, EvaluateStack, 0);
    assert InvalidMessage(EvaluateStack[0].key) == "invalid value for backtrace";
  }

  /** Format checks optimize before anything else. */
  lemma FormatChecksOptimizeFirst(body: Body)
    requires !Accepts(body, OptimizeParam)
    ensures ParseFormat(body) == Err("invalid value for optimize")
  {
    assert FirstRejected(body, FormatStack, 0);
    ReportsFirstRejected(body, FormatStack, 0);
    assert InvalidMessage(FormatStack[0].key) == "invalid value for optimize";
  }

  /**
   * A request that sets only an out-of-range optimisation level is rejected
   * with an error naming optimize: every other key takes its accepted default.
   */
  lemma EvaluateRejectsOptimize(body: Body)
    requires "backtrace" !in body && "color" !in body && "test" !in body && "version" !in body
    requires "optimize" in body && body["optimize"] !in {JStr("0"), JStr("1"), JStr("2"), JStr("3")}
    ensures ParseEvaluate(body) == Err("invalid value for optimize")
  {
    assert Matches(Lookup(body, BacktraceParam), BacktraceParam.valid[0]);
    assert Matches(Lookup(body, ColorParam), ColorParam.valid[1]);
    assert Matches(Lookup(body, TestParam), TestParam.valid[1]);
    assert Matches(Lookup(body, VersionParam), VersionParam.valid[0]);
    assert !Accepts(body, OptimizeParam);
    assert FirstRejected(body, EvaluateStack, 4);
    ReportsFirstRejected(body, EvaluateStack, 4);
    assert InvalidMessage(EvaluateStack[4].key) == "invalid value for optimize";
  }

  /** With no keys present every compile extractor passes its default on. */
  lemma CompileDefaultValues()
    ensures ExtractAll(map[], CompileStack).Ok?
    ensures var vals := ExtractAll(map[], CompileStack).value;
      |vals| == 6 && vals[0] == JStr("asm") && vals[1] == JStr("2") && vals[2] == JStr("stable") &&
      vals[3] == JBool(false) && vals[4] == JStr("att") && vals[5] == JStr("0")
  {
    var body: Body := map[];
    assert Matches(Lookup(body, BacktraceParam), BacktraceParam.valid[0]);
    assert Matches(Lookup(body, SyntaxParam), SyntaxParam.valid[0]);
    assert Matches(Lookup(body, ColorParam), ColorParam.valid[1]);
    assert Matches(Lookup(body, VersionParam), VersionParam.valid[0]);
    assert Matches(Lookup(body, OptimizeParam), OptimizeParam.valid[2]);
    assert Matches(Lookup(body, EmitParam), EmitParam.valid[0]);
    assert AllAccept(body, CompileStack);
    var vals := ExtractAll(body, CompileStack).value;
    ExtractedValue(body, CompileStack, 0);
    ExtractedValue(body, CompileStack, 1);
    ExtractedValue(body, CompileStack, 2);
    ExtractedValue(body, CompileStack, 3);
    ExtractedValue(body, CompileStack, 4);
    ExtractedValue(body, CompileStack, 5);
  }

  /** An empty compile request is accepted with the defaults: optimize 2, stable, AT&T syntax, asm, no colour, no backtrace. */
  lemma CompileDefaults()
    ensures ParseCompile(map[]) == Ok(CompileOptions("asm", "2", "stable", false, "att", "0"))
  {
    CompileDefaultValues();
  }
}
