# rust-playpen request pipeline, modelled in Dafny

This project models the request-to-command pipeline of the rust-playpen web front end (`web.py`). The pipeline has three endpoints: `/evaluate.json` runs or tests a snippet, `/format.json` runs rustfmt, and `/compile.json` emits assembly, LLVM IR or MIR. Each endpoint does the following:

1. Stacked `extractor` decorators read whitelisted parameters from the JSON body. Each parameter falls back to a default when absent. A value outside its whitelist turns the whole request into `{"error": "invalid value for <key>"}` before anything runs.
2. `init_args_get_bt` and the handler build the rustc argument vector by successive appends. They also resolve the three-state backtrace selector into a boolean.
3. The memoised `execute` calls the sandbox. With backtraces on, it first rewrites the command into `/usr/bin/dash -c "export RUST_BACKTRACE=1; <command> <quoted args>"`.
4. The handler splits the raw output on its first 0xFF byte and shapes the response.

Modules, one per stage:

- `Wrappers`: the Option and Result types.
- `Json`: JSON values and the parts of Python's value semantics the extractors rely on. The whitelist check uses Python's `==`, so `True == 1 == 1.0` and `{"color": 1}` passes. `separate_output` and `highlight` are tested with `is True`, so only the JSON literal `true` counts.
- `Params`: the extractor and a stack of extractors. The top-most decorator is the outermost wrapper, so keys are checked in listing order and only the first rejected key is reported. The handler receives its arguments in reverse listing order.
- `Bytes`: `split(b"\xff", 1)` and `replace(b"\xff", b"", 1)`.
- `Shell`: `shlex.quote` as Python defines it, and the quoted-argument string the rewrite loop builds. It also holds a reference word splitter for the part of POSIX shell syntax that quoting produces. Against that splitter, the quoted arguments read back as exactly the original arguments.
- `Args`: the argument vectors, as functions and as the append-by-append methods the handlers run.
- `Dispatch`: the backtrace rewrite (a method with the loop), the five-field cache key compared with Python's `==`, and the memoised `execute` as a class `Memo`. The sandbox is a function-typed parameter.
- `Output`: response shaping. Text stays at the byte level: a field records its bytes and how they are decoded (strict UTF-8, UTF-8 with replacement, or highlighted).
- `Web`: the three endpoints.

Three behaviours of `web.py` that the model keeps as they are:

- A missing `code` field raises `KeyError` (web.py:91), which surfaces as a server error. There is no separate "missing code" error.
- Only the first invalid key is reported (web.py:59-63), because each extractor returns its error before calling the wrapper below it.
- The cache is `functools.lru_cache(maxsize=256)` around `execute` (web.py:35). Its keys compare with Python's `==`, so codes `true`, `1` and `1.0` share one entry.

## Model

| member | source | states |
|---|---|---|
| `Json.InStrings` | web.py:60-63 | a value accepted by a whitelist of strings is one of those strings |
| `Json.InBooleans` | web.py:82-83 | the `(True, False)` whitelist accepts exactly booleans and the numbers 0 and 1 (Python's `==`) |
| `Json.HashKeyEquals` | web.py:35 | two hashable values are filed under the same dictionary key exactly when Python's `==` finds them equal (`true`, `1` and `1.0` are one key) |
| `Params.Extract` | web.py:57-65 | an accepted value is in the whitelist; a present key passes its value through unchanged; an absent key takes the default; a value not in the whitelist gives exactly "invalid value for " + key |
| `Params.ChainOk` | web.py:58-64 | the stacked wrappers succeed iff every extractor accepts; the handler then gets every looked-up value, in reverse listing order |
| `Params.ChainErr` | web.py:58-64 | a failing stack reports the first rejecting extractor in listing order |
| `Params.ExtractAll` | web.py:57-65 | the whole stack: accepted iff every key is valid, and the arguments are the looked-up values reversed; otherwise the error names the first invalid key |
| `Params.ReportsFirstRejected` | web.py:59-63 | whichever extractor rejects first decides the error, whatever follows it |
| `Params.ExtractedValue` | web.py:60-63 | the handler's argument for each extractor is its looked-up, whitelisted value |
| `Bytes.SplitFirst` | web.py:94 | one or two parts; two iff the output holds a 0xFF; part 0 holds no 0xFF; with two parts, part0 ++ [0xFF] ++ part1 is the output; with one part, the part is the output |
| `Bytes.SplitFirstUnique` | web.py:94 | any cut of the output at a 0xFF with no 0xFF before it is the split |
| `Bytes.RemoveFirstJoinsSplit` | web.py:102 | the merged output is part 0 followed by part 1 of the split, so any later 0xFF bytes stay |
| `Bytes.RemoveFirstMultiset` | web.py:102 | removing the first 0xFF takes exactly one 0xFF out of the multiset of bytes, and nothing else |
| `Bytes.RemoveFirstCount` | web.py:102 | one 0xFF fewer and one byte shorter when a 0xFF is present, unchanged otherwise |
| `Shell.EscapedArgsSnoc` | web.py:38-40 | appending an argument appends a blank and its quoted form to the escaped string |
| `Shell.QuoteReadsBack` | web.py:40 | a quoted argument reads back, outside quotes, as one word equal to the argument |
| `Shell.QuoteWraps` | web.py:40 | an unsafe argument without a single quote is wrapped whole in single quotes |
| `Shell.FlushedAfterArgs` | web.py:38-40 | reading the escaped arguments after any word adds exactly those arguments as words and ends outside quotes |
| `Shell.EscapedArgsRoundTrip` | web.py:38-41 | the escaped argument string splits back into the original argument list, element for element |
| `Shell.CommandLineRoundTrip` | web.py:41 | the command followed by the escaped arguments splits into the command and then the arguments |
| `Args.InitArgsGetBt` | web.py:67-77 | the base vector is the opt-level flag, then "-g" iff optimize is "0", then "--color=always" iff color; length 2 + [optimize == "0"] + [color]; backtrace on iff selector "1", or "2" with optimize "0" |
| `Args.BuildEvaluateArgs` | web.py:87-89 | the evaluate vector is the base vector followed by "--test" iff test |
| `Args.BuildCompileArgs` | web.py:126-134 | the compile vector is the base vector, the asm-syntax flag, then the MIR flags or the single "--emit=" flag |
| `Args.BaseArgsFlags` | web.py:68-76 | the base vector starts with "-C", "opt-level=" + optimize; contains "-g" iff level "0", "--color=always" iff color, never "--test"; "-g" comes before the colour flag |
| `Args.EvaluateArgsFlags` | web.py:88-89 | "--test" is in the evaluate vector iff test, and then last, after the unchanged base vector |
| `Args.CompileArgsShape` | web.py:127-134 | for an accepted syntax, the syntax flag always follows the base vector, then "-Zunstable-options", "--unpretty=mir" for mir and "--emit=" + emit otherwise |
| `Args.EvaluateArgsInjective` | web.py:67-89 | different optimize, color or test options never produce the same evaluate vector |
| `Args.OptLevelInjective` | web.py:68 | the second flag of any vector built on the base vector determines the optimisation level |
| `Args.EmitArgsInjective` | web.py:130-134 | the emit flags determine the emit kind |
| `Args.CompileColorSlot` | web.py:126-129 | right after the colour-free base vector the compile vector holds "--color=always" when colour is on and the syntax flag's "-C" otherwise |
| `Args.CompileArgsInjective` | web.py:126-134 | different compile options never produce the same compile vector |
| `Args.ShowBacktraceTable` | web.py:69-72 | ("2","0") on, ("2","2") off, ("1","3") on, ("0","0") off |
| `Dispatch.Rewrite` | web.py:37-42 | with backtrace on, the command is dash with exactly "-c" and "export RUST_BACKTRACE=1; " + command + " " + quote(a) for each argument in order; otherwise command and arguments pass unchanged |
| `Dispatch.RewritePreservesInvocation` | web.py:37-42 | after the environment prefix, the script reads as exactly the original command followed by the original arguments |
| `Dispatch.CacheKeyEquals` | web.py:35-36 | two `execute` calls share a cache key exactly when version, command, arguments and backtrace flag are equal and the codes are `==` |
| `Dispatch.Memo.constructor` | web.py:35 | an empty cache that has run nothing |
| `Dispatch.Memo.Execute` | web.py:35-44 | the result is the stored one on a hit and the sandbox's on a miss; a cached result is the sandbox's result for the call that filled the key, whose code is `==` to this one; a miss runs the sandbox once and stores the result; an unhashable key raises TypeError and runs nothing; no key ever reaches the sandbox twice |
| `Dispatch.ExecuteTwice` | web.py:35-36 | two calls whose arguments are `==` (the same call, or codes `true` and `1`) return the same result and run the sandbox at most once |
| `Output.EvaluateSeparate` | web.py:93-100 | "rustc" holds the diagnostics before the first 0xFF (strict decoding); "program" is present iff the output has a 0xFF and holds everything after it (lossy decoding) |
| `Output.EvaluateMerged` | web.py:101-102 | the single "result" field holds the split's part 0 followed by its part 1, i.e. the output with exactly its first 0xFF removed and the order kept, decoded lossily |
| `Output.MergedJoinsSeparate` | web.py:93-102 | the merged result is the separated diagnostics followed by the separated program output |
| `Output.FormatOutput` | web.py:112-115 | "error" iff the return code is non-zero, "result" otherwise, holding the whole output |
| `Output.ChosenLexer` | web.py:149-156 | the artifact is highlighted only when highlight is requested and emit is asm (GAS lexer) or llvm-ir (LLVM lexer) |
| `Output.CompileOutput` | web.py:136-156 | "error" with the whole output iff there is no 0xFF; otherwise "result" with the bytes after the first 0xFF, highlighted with the chosen lexer or decoded as they are |
| `Output.DecodeExamples` | web.py:94-98 | "diag" 0xFF "out" gives rustc "diag" and program "out"; output without 0xFF is a compile error carrying it |
| `Web.ParseEvaluate` | web.py:81-86 | the evaluate stack checks backtrace, color, test, version, optimize in that order; optimize, version and backtrace are the requested (or default) strings, in their domains; test and color are the truth values of the requested values |
| `Web.ParseFormat` | web.py:106-109 | the format stack checks optimize, backtrace, version in that order; each option is the requested (or default) string, in its domain |
| `Web.ParseCompile` | web.py:119-125 | the compile stack checks backtrace, syntax, color, version, optimize, emit in that order; emit, optimize, version, syntax and backtrace are the requested (or default) strings, in their domains; color is the truth value of the requested value |
| `Web.EvaluateAccepted` | web.py:81-86 | an accepted evaluate stack hands optimize, version, test, color, backtrace to the handler, each the looked-up value and the string ones in their domains |
| `Web.FormatAccepted` | web.py:106-109 | an accepted format stack hands version, backtrace, optimize to the handler, each the looked-up value and a string in its domain |
| `Web.CompileAccepted` | web.py:119-125 | an accepted compile stack hands emit, optimize, version, color, syntax, backtrace to the handler, each the looked-up value, the string ones in their domains |
| `Web.EvaluateChecksBacktraceFirst` | web.py:81-85 | an invalid backtrace selector is the error evaluate reports, whatever else is invalid |
| `Web.FormatChecksOptimizeFirst` | web.py:106-108 | format reports an invalid optimize before anything else |
| `Web.EvaluateRejectsOptimize` | web.py:81-85 | a request whose only parameter is an out-of-range optimize is rejected naming optimize |
| `Web.CompileDefaultValues` | web.py:119-124 | with no keys present every compile extractor passes its default on, in the handler's parameter order |
| `Web.CompileDefaults` | web.py:119-124 | an empty compile request takes asm, optimize 2, stable, no colour, AT&T syntax, backtrace 0 |
| `Web.EvaluateSignatureInjective` | web.py:87-91 | two evaluate requests share a cache key only if they have the same options, backtrace flag, and codes equal under Python's `==` |
| `Web.CompileSignatureInjective` | web.py:126-135 | two compile requests share a cache key only if they have the same options, backtrace flag, and codes equal under Python's `==` |
| `Web.Evaluate` | web.py:79-102 | invalid parameter: the error, and nothing runs; missing code: KeyError; otherwise the cached execute of evaluate.sh with the evaluate vector, shaped by separate_output |
| `Web.Format` | web.py:104-115 | rustfmt with no arguments, the backtrace flag from optimize and backtrace; the response depends on the return code |
| `Web.Compile` | web.py:117-156 | the cached execute of compile.sh with the compile vector; the response is an error without a 0xFF, else the artifact |

## Left out

- HTTP plumbing is not modelled: bottle routing, `serve_index` and `serve_static` (web.py:15-33), the CORS wrapper and its OPTIONS pre-flight (web.py:46-55), and `os.chdir` and `run` (web.py:158-159). It is framework glue with no decision logic.
- `playpen.execute` (web.py:44) is a function-typed parameter (`Dispatch.Sandbox`). Its isolation and timeouts are outside this code.
- Dispatch.Memo.Execute: does not model `lru_cache`'s bound of 256 entries or its least-recently-used eviction, because they belong to the library. In the model the sandbox is a pure function of its arguments, so eviction could change only which calls reach the sandbox, not the result a call returns. The real `playpen.execute` can give a different result when it runs again after an eviction, and that is not captured. Thread safety of the cache is not modelled either.
- Shell.Words: is a reference splitter for blanks, single quotes, double quotes without expansions and unquoted `shlex.quote`-safe characters. It is not a model of dash, and it gives no answer on any other input.
- UTF-8 decoding is kept abstract. A response field records its bytes and whether they are decoded strictly or with replacement. The `UnicodeDecodeError` that strict decoding raises on invalid bytes is not modelled. This affects the diagnostics of every endpoint and the artifact of `compile`.
- Pygments highlighting (web.py:152-154) appears only as the chosen lexer and the bytes it is given. The HTML it produces is not modelled.
- The request body is taken to be a JSON object. `request.json` being `None` or a non-object (an `AttributeError` in `.get`) is not modelled. JSON numbers are reals, and NaN and infinities are not represented.
- The stderr log line (web.py:43) has no effect on the result.
