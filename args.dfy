/**
 * The rustc argument vectors of web.py. `init_args_get_bt` starts every vector
 * and resolves the three-state backtrace selector; `evaluate` and `compile`
 * keep appending to the list it returns. The functions state what each vector
 * is; the methods build it by successive appends, as the handlers do.
 */
module Args {

  /** The optimisation levels, backtrace selectors, asm syntaxes and emit kinds the endpoints accept. */
  predicate ValidOptimize(optimize: string) { optimize in {"0", "1", "2", "3"} }
  predicate ValidSyntax(syntax: string) { syntax in {"att", "intel"} }
  predicate ValidEmit(emit: string) { emit in {"asm", "llvm-ir", "mir"} }

  /** Whether failures print a backtrace: selector "1" always, selector "2" only for unoptimised builds. */
  function ShowBacktrace(backtrace: string, optimize: string): bool
  {
    "1" == backtrace || ("2" == backtrace && "0" == optimize)
  }

  /** The flags every rustc vector starts with. */
  function BaseArgs(optimize: string, color: bool): seq<string>
  {
    ["-C", "opt-level=" + optimize]
      + (if "0" == optimize then ["-g"] else [])
      + (if color then ["--color=always"] else [])
  }

  /** The vector `evaluate` passes to evaluate.sh. */
  function EvaluateArgs(optimize: string, color: bool, test: bool): seq<string>
  {
    BaseArgs(optimize, color) + (if test then ["--test"] else [])
  }

  /** The flags `compile` adds for the artifact kind. */
  function EmitArgs(emit: string): seq<string>
  {
    if emit == "mir" then ["-Zunstable-options", "--unpretty=mir"] else ["--emit=" + emit]
  }

  /** The vector `compile` passes to compile.sh; the syntax flag is added when `syntax` is non-empty (`if syntax:`). */
  function CompileArgs(optimize: string, color: bool, syntax: string, emit: string): seq<string>
  {
    BaseArgs(optimize, color)
      + (if syntax != "" then ["-C", "llvm-args=-x86-asm-syntax=" + syntax] else [])
      + EmitArgs(emit)
  }

  function Count(b: bool): nat { if b then 1 else 0 }

  /** `init_args_get_bt`: the base vector built by appends, and the resolved backtrace flag. */
  method InitArgsGetBt(optimize: string, color: bool, backtrace: string) returns (args: seq<string>, showBacktrace: bool)
    ensures args == BaseArgs(optimize, color)
    ensures showBacktrace <==> backtrace == "1" || (backtrace == "2" && optimize == "0")
    ensures |args| == 2 + Count(optimize == "0") + Count(color)
  {
    args := ["-C", "opt-level=" + optimize];
    if "1" == backtrace || ("2" == backtrace && "0" == optimize) {
      showBacktrace := true;
    } else {
      showBacktrace := false;
    }
    if "0" == optimize {
      args := args + ["-g"];
    }
    if color {
      args := args + ["--color=always"];
    }
  }

  /** The argument-building part of `evaluate`. */
  method BuildEvaluateArgs(optimize: string, color: bool, test: bool, backtrace: string) returns (args: seq<string>, showBacktrace: bool)
    ensures args == EvaluateArgs(optimize, color, test)
    ensures showBacktrace == ShowBacktrace(backtrace, optimize)
    ensures ("--test" in args) <==> test
  {
    args, showBacktrace := InitArgsGetBt(optimize, color, backtrace);
    if test {
      args := args + ["--test"];
    }
    EvaluateArgsFlags(optimize, color, test);
  }

  /** The argument-building part of `compile`. */
  method BuildCompileArgs(optimize: string, color: bool, syntax: string, emit: string, backtrace: string)
    returns (args: seq<string>, showBacktrace: bool)
    ensures args == CompileArgs(optimize, color, syntax, emit)
    ensures showBacktrace == ShowBacktrace(backtrace, optimize)
  {
    args, showBacktrace := InitArgsGetBt(optimize, color, backtrace);
    if syntax != "" {
      args := args + ["-C"];
      args := args + ["llvm-args=-x86-asm-syntax=" + syntax];
    }
    if emit == "mir" {
      args := args + ["-Zunstable-options"];
      args := args + ["--unpretty=mir"];
    } else {
      args := args + ["--emit=" + emit];
    }
  }

  /**
   * The base vector: it starts with the optimisation level, contains "-g"
   * exactly for level "0" and "--color=always" exactly when colour is on,
   * with "-g" first.
   */
  lemma BaseArgsFlags(optimize: string, color: bool)
    ensures var args := BaseArgs(optimize, color);
      |args| == 2 + Count(optimize == "0") + Count(color) &&
      args[..2] == ["-C", "opt-level=" + optimize] &&
      ("-g" in args <==> optimize == "0") &&
      ("--color=always" in args <==> color) &&
      "--test" !in args &&
      (optimize == "0" && color ==> args[2..] == ["-g", "--color=always"])
  {
    var level := "opt-level=" + optimize;
    assert level[0] == 'o';
    assert level != "-g" && level != "--color=always" && level != "--test";
  }

  /** "--test" is in the evaluate vector exactly when tests were requested, and then last. */
  lemma EvaluateArgsFlags(optimize: string, color: bool, test: bool)
    ensures var args := EvaluateArgs(optimize, color, test);
      ("--test" in args <==> test) && (test ==> args[|args| - 1] == "--test") &&
      args[..|BaseArgs(optimize, color)|] == BaseArgs(optimize, color)
  {
    BaseArgsFlags(optimize, color);
  }

  /** For the accepted syntaxes the compile vector always carries the syntax flag, then exactly the emit flags. */
  lemma CompileArgsShape(optimize: string, color: bool, syntax: string, emit: string)
    requires ValidSyntax(syntax)
    ensures var args := CompileArgs(optimize, color, syntax, emit);
      var n := |BaseArgs(optimize, color)|;
      args[..n] == BaseArgs(optimize, color) &&
      args[n..n + 2] == ["-C", "llvm-args=-x86-asm-syntax=" + syntax] &&
      (emit == "mir" ==> args[n + 2..] == ["-Zunstable-options", "--unpretty=mir"]) &&
      (emit != "mir" ==> args[n + 2..] == ["--emit=" + emit])
  {
  }

  /** After a common prefix, equal sequences have equal remainders (a flag's value, a vector's tail). */
  lemma SamePrefixSameRest<T>(prefix: seq<T>, x: seq<T>, y: seq<T>)
    requires prefix + x == prefix + y
    ensures x == y
  {
    assert x == (prefix + x)[|prefix|..];
    assert y == (prefix + y)[|prefix|..];
  }

  /** The second flag of a vector built on the base determines the optimisation level. */
  lemma OptLevelInjective(o1: string, c1: bool, rest1: seq<string>, o2: string, c2: bool, rest2: seq<string>)
    requires BaseArgs(o1, c1) + rest1 == BaseArgs(o2, c2) + rest2
    ensures o1 == o2
  {
    BaseArgsFlags(o1, c1);
    BaseArgsFlags(o2, c2);
    var a := BaseArgs(o1, c1) + rest1;
    assert a[1] == "opt-level=" + o1;
    assert a[1] == "opt-level=" + o2;
    SamePrefixSameRest("opt-level=", o1, o2);
  }

  /** Different evaluate options never share an argument vector. */
  lemma EvaluateArgsInjective(o1: string, c1: bool, t1: bool, o2: string, c2: bool, t2: bool)
    requires EvaluateArgs(o1, c1, t1) == EvaluateArgs(o2, c2, t2)
    ensures o1 == o2 && c1 == c2 && t1 == t2
  {
    EvaluateArgsFlags(o1, c1, t1);
    EvaluateArgsFlags(o2, c2, t2);
    OptLevelInjective(o1, c1, if t1 then ["--test"] else [], o2, c2, if t2 then ["--test"] else []);
  }

  /** The emit flags determine the emit kind. */
  lemma EmitArgsInjective(e1: string, e2: string)
    requires EmitArgs(e1) == EmitArgs(e2)
    ensures e1 == e2
  {
    if e1 != "mir" && e2 != "mir" {
      assert "--emit=" + e1 == "--emit=" + e2;
      SamePrefixSameRest("--emit=", e1, e2);
    }
  }

  /** Right after the colour-free base vector, a compile vector holds the colour flag when colour is on and the syntax flag's "-C" otherwise. */
  lemma CompileColorSlot(o: string, c: bool, s: string, e: string)
    requires ValidSyntax(s)
    ensures CompileArgs(o, c, s, e)[|BaseArgs(o, false)|] == if c then "--color=always" else "-C"
  {
    var base := BaseArgs(o, false);
    var rest := ["-C", "llvm-args=-x86-asm-syntax=" + s] + EmitArgs(e);
    if c {
      assert BaseArgs(o, c) == base + ["--color=always"];
      assert CompileArgs(o, c, s, e) == base + (["--color=always"] + rest);
    } else {
      assert CompileArgs(o, c, s, e) == base + rest;
    }
  }

  /** With the same level, the colour flag is told apart by what follows the base vector. */
  lemma CompileColorInjective(o: string, c1: bool, s1: string, e1: string, c2: bool, s2: string, e2: string)
    requires ValidSyntax(s1) && ValidSyntax(s2)
    requires CompileArgs(o, c1, s1, e1) == CompileArgs(o, c2, s2, e2)
    ensures c1 == c2
  {
    CompileColorSlot(o, c1, s1, e1);
    CompileColorSlot(o, c2, s2, e2);
  }

  /** Different compile options (with an accepted syntax) never share an argument vector. */
  lemma CompileArgsInjective(o1: string, c1: bool, s1: string, e1: string, o2: string, c2: bool, s2: string, e2: string)
    requires ValidSyntax(s1) && ValidSyntax(s2)
    requires CompileArgs(o1, c1, s1, e1) == CompileArgs(o2, c2, s2, e2)
    ensures o1 == o2 && c1 == c2 && s1 == s2 && e1 == e2
  {
    var tail1 := ["-C", "llvm-args=-x86-asm-syntax=" + s1] + EmitArgs(e1);
    var tail2 := ["-C", "llvm-args=-x86-asm-syntax=" + s2] + EmitArgs(e2);
    assert CompileArgs(o1, c1, s1, e1) == BaseArgs(o1, c1) + tail1;
    assert CompileArgs(o2, c2, s2, e2) == BaseArgs(o2, c2) + tail2;
    OptLevelInjective(o1, c1, tail1, o2, c2, tail2);
    CompileColorInjective(o1, c1, s1, e1, c2, s2, e2);
    SamePrefixSameRest(BaseArgs(o1, c1), tail1, tail2);
    assert "llvm-args=-x86-asm-syntax=" + s1 == "llvm-args=-x86-asm-syntax=" + s2 by {
      assert tail1[1] == tail2[1];
    }
    SamePrefixSameRest("llvm-args=-x86-asm-syntax=", s1, s2);
    assert EmitArgs(e1) == tail1[2..] == tail2[2..] == EmitArgs(e2);
    EmitArgsInjective(e1, e2);
  }

  /** The resolution table: ("2","0") on, ("2","2") off, ("1","3") on, ("0","0") off. */
  lemma ShowBacktraceTable()
    ensures ShowBacktrace("2", "0") && !ShowBacktrace("2", "2")
    ensures ShowBacktrace("1", "3") && !ShowBacktrace("0", "0")
  {
  }
}
