/**
 * Shell quoting for the backtrace rewrite. `Quote` is Python's `shlex.quote`:
 * the empty string becomes `''`, a string made only of safe characters is left
 * as it is, and anything else is put in single quotes with every `'` written
 * as `'"'"'`. `EscapedArgs` is the string the rewrite loop in web.py builds.
 *
 * `Words` is a reference word splitter for the part of POSIX shell syntax that
 * quoting produces: blanks between words, single-quoted text, double-quoted
 * text without expansions, and unquoted safe characters. On anything else
 * (an unquoted `;`, `$`, a tab, an unterminated quote ...) it gives up, so a
 * round trip through it also shows that no quoted argument leaves a character
 * with a special meaning outside quotes.
 */
module Shell {
  import opened Wrappers

  /** Characters `shlex.quote` leaves unquoted: ASCII letters, digits and `_@%+=:,./-`. */
  predicate SafeChar(c: char)
  {
    ('a' <= c <= 'z') || ('A' <= c <= 'Z') || ('0' <= c <= '9') ||
    c == '_' || c == '@' || c == '%' || c == '+' || c == '=' || c == ':' || c == ',' || c == '.' || c == '/' || c == '-'
  }

  predicate AllSafe(s: string)
  {
    forall i :: 0 <= i < |s| ==> SafeChar(s[i])
  }

  /** `s.replace("'", "'\"'\"'")`. */
  function EscapeQuotes(s: string): string
  {
    if s == [] then []
    else (if s[0] == '\'' then "'\"'\"'" else [s[0]]) + EscapeQuotes(s[1..])
  }

  /** `shlex.quote(s)`. */
  function Quote(s: string): string
  {
    if s == [] then "''"
    else if AllSafe(s) then s
    else "'" + EscapeQuotes(s) + "'"
  }

  /** The string `" " + quote(a)` for every argument `a`, in order. */
  function EscapedArgs(args: seq<string>): string
  {
    if args == [] then "" else " " + Quote(args[0]) + EscapedArgs(args[1..])
  }

  /** Appending an argument appends its quoted form: the loop's view of `EscapedArgs`. */
  lemma {:induction false} EscapedArgsSnoc(args: seq<string>, a: string)
    ensures EscapedArgs(args + [a]) == EscapedArgs(args) + " " + Quote(a)
  {
    if args == [] {
      assert [a][1..] == [];
    } else {
      assert (args + [a])[1..] == args[1..] + [a];
      EscapedArgsSnoc(args[1..], a);
    }
  }

  // ---------------------------------------------------------------------------
  // Reference word splitting

  datatype Mode = Plain | InSingle | InDouble | Stuck

  /** Splitter state: the quoting mode, the word being read (if one has started) and the finished words. */
  datatype Splitter = Splitter(mode: Mode, word: Option<string>, words: seq<string>)

  function Current(st: Splitter): string
  {
    if st.word.Some? then st.word.value else ""
  }

  /** The finished words plus the one being read. */
  function Flushed(st: Splitter): seq<string>
  {
    if st.word.Some? then st.words + [st.word.value] else st.words
  }

  function Step(st: Splitter, c: char): Splitter
  {
    match st.mode
    case Stuck => st
    case Plain =>
      if c == ' ' then Splitter(Plain, None, Flushed(st))
      else if c == '\'' then Splitter(InSingle, Some(Current(st)), st.words)
      else if c == '"' then Splitter(InDouble, Some(Current(st)), st.words)
      else if SafeChar(c) then Splitter(Plain, Some(Current(st) + [c]), st.words)
      else Splitter(Stuck, st.word, st.words)
    case InSingle =>
      if c == '\'' then Splitter(Plain, st.word, st.words)
      else Splitter(InSingle, Some(Current(st) + [c]), st.words)
    case InDouble =>
      if c == '"' then Splitter(Plain, st.word, st.words)
      else if c in "$`\\" then Splitter(Stuck, st.word, st.words)
      else Splitter(InDouble, Some(Current(st) + [c]), st.words)
  }

  function Scan(st: Splitter, s: string): Splitter
    decreases |s|
  {
    if s == [] then st else Scan(Step(st, s[0]), s[1..])
  }

  /** The words a shell reads from `s`, or `None` where this reference does not describe the shell. */
  function Words(s: string): Option<seq<string>>
  {
    var st := Scan(Splitter(Plain, None, []), s);
    if st.mode == Plain then Some(Flushed(st)) else None
  }

  lemma {:induction false} ScanConcat(st: Splitter, a: string, b: string)
    ensures Scan(st, a + b) == Scan(Scan(st, a), b)
    decreases |a|
  {
    if a == [] {
      assert a + b == b;
    } else {
      assert (a + b)[0] == a[0];
      assert (a + b)[1..] == a[1..] + b;
      ScanConcat(Step(st, a[0]), a[1..], b);
    }
  }

  /** An unquoted safe character extends the current word. */
  lemma SafeStep(st: Splitter, c: char)
    requires st.mode == Plain && SafeChar(c)
    ensures Step(st, c) == Splitter(Plain, Some(Current(st) + [c]), st.words)
  {
    assert c != ' ' && c != '\'' && c != '"';
  }

  /** The text after a first character that starts the word: the rest extends the word the first character began. */
  lemma ScanAfterSafe(st: Splitter, s: string, rest: Splitter)
    requires st.mode == Plain && s != [] && SafeChar(s[0])
    requires Scan(Splitter(Plain, Some(Current(st) + [s[0]]), st.words), s[1..]) == rest
    ensures Scan(st, s) == rest
  {
    SafeStep(st, s[0]);
  }

  lemma AllSafeTail(s: string)
    requires AllSafe(s) && s != []
    ensures SafeChar(s[0]) && AllSafe(s[1..])
  {
    assert forall i :: 0 <= i < |s[1..]| ==> s[1..][i] == s[i + 1];
  }

  /** Unquoted safe characters extend the current word. */
  lemma {:induction false} ScanSafe(st: Splitter, s: string)
    requires st.mode == Plain && AllSafe(s) && s != []
    ensures Scan(st, s) == Splitter(Plain, Some(Current(st) + s), st.words)
    decreases |s|
  {
    var st' := Splitter(Plain, Some(Current(st) + [s[0]]), st.words);
    var tail := s[1..];
    AllSafeTail(s);
    if tail == [] {
      assert s == [s[0]];
      ScanAfterSafe(st, s, st');
    } else {
      ScanSafe(st', tail);
      assert Current(st') + tail == Current(st) + s by {
        assert [s[0]] + tail == s;
      }
      ScanAfterSafe(st, s, Splitter(Plain, Some(Current(st) + s), st.words));
    }
  }

  /** Inside single quotes, `'"'"'` reads as one `'` and leaves the splitter inside single quotes again. */
  lemma ScanQuoteEscape(x: string, w: seq<string>)
    ensures Scan(Splitter(InSingle, Some(x), w), "'\"'\"'") == Splitter(InSingle, Some(x + "'"), w)
  {
    var q := "'\"'\"'";
    var s0 := Splitter(InSingle, Some(x), w);
    var s1 := Splitter(Plain, Some(x), w);
    var s2 := Splitter(InDouble, Some(x), w);
    var s3 := Splitter(InDouble, Some(x + "'"), w);
    var s4 := Splitter(Plain, Some(x + "'"), w);
    var s5 := Splitter(InSingle, Some(x + "'"), w);
    assert Step(s0, q[0]) == s1 && Step(s1, q[1]) == s2 && Step(s2, q[2]) == s3;
    assert Step(s3, q[3]) == s4 && Step(s4, q[4]) == s5;
    assert Scan(s0, q) == Scan(s1, q[1..]) == Scan(s2, q[2..]) == Scan(s3, q[3..]);
    assert Scan(s3, q[3..]) == Scan(s4, q[4..]) == Scan(s5, q[5..]);
  }

  /** Inside single quotes, the escaped text reads back as the original text. */
  lemma {:induction false} ScanEscaped(x: string, w: seq<string>, s: string)
    ensures Scan(Splitter(InSingle, Some(x), w), EscapeQuotes(s)) == Splitter(InSingle, Some(x + s), w)
    decreases |s|
  {
    if s == [] {
      assert x + s == x;
    } else {
      var st := Splitter(InSingle, Some(x), w);
      var first := if s[0] == '\'' then "'\"'\"'" else [s[0]];
      assert EscapeQuotes(s) == first + EscapeQuotes(s[1..]);
      ScanConcat(st, first, EscapeQuotes(s[1..]));
      if s[0] == '\'' {
        ScanQuoteEscape(x, w);
        assert x + "'" == x + [s[0]];
      } else {
        assert first[1..] == [];
        assert Scan(st, first) == Scan(Step(st, s[0]), []);
      }
      ScanEscaped(x + [s[0]], w, s[1..]);
      assert x + [s[0]] + s[1..] == x + s;
    }
  }

  /** A quoted argument is read as exactly one word equal to the argument. */
  lemma QuoteReadsBack(st: Splitter, s: string)
    requires st.mode == Plain
    ensures Scan(st, Quote(s)) == Splitter(Plain, Some(Current(st) + s), st.words)
  {
    if s == [] {
      var q := "''";
      var open := Splitter(InSingle, Some(Current(st)), st.words);
      assert Step(st, q[0]) == open;
      assert Scan(st, q) == Scan(open, q[1..]) == Scan(Step(open, q[1]), []);
      assert Current(st) + s == Current(st);
    } else if AllSafe(s) {
      ScanSafe(st, s);
    } else {
      var open := Splitter(InSingle, Some(Current(st)), st.words);
      var body := Splitter(InSingle, Some(Current(st) + s), st.words);
      assert Quote(s) == "'" + (EscapeQuotes(s) + "'");
      ScanConcat(st, "'", EscapeQuotes(s) + "'");
      assert Scan(st, "'") == Scan(Step(st, '\''), []) == open;
      ScanConcat(open, EscapeQuotes(s), "'");
      ScanEscaped(Current(st), st.words, s);
      assert Scan(body, "'") == Scan(Step(body, '\''), []);
    }
  }

  /** A blank ends the current word and the quoted argument after it is read as the next word. */
  lemma ScanOneArg(st: Splitter, a: string, rest: string)
    requires st.mode == Plain
    ensures Scan(st, " " + Quote(a) + rest) == Scan(Splitter(Plain, Some(a), Flushed(st)), rest)
  {
    var blank := Splitter(Plain, None, Flushed(st));
    assert " " + Quote(a) + rest == " " + (Quote(a) + rest);
    ScanConcat(st, " ", Quote(a) + rest);
    assert Scan(st, " ") == Scan(Step(st, ' '), []) == blank;
    ScanConcat(blank, Quote(a), rest);
    QuoteReadsBack(blank, a);
    assert Current(blank) + a == a;
  }

  /** One more quoted argument after a blank adds exactly that argument to what the rest of the text yields. */
  lemma FlushedOneArg(st: Splitter, a: string, rest: string, more: seq<string>)
    requires st.mode == Plain
    requires Scan(Splitter(Plain, Some(a), Flushed(st)), rest).mode == Plain
    requires Flushed(Scan(Splitter(Plain, Some(a), Flushed(st)), rest)) == Flushed(st) + [a] + more
    ensures Scan(st, " " + Quote(a) + rest).mode == Plain
    ensures Flushed(Scan(st, " " + Quote(a) + rest)) == Flushed(st) + ([a] + more)
  {
    ScanOneArg(st, a, rest);
  }

  /** Reading the escaped arguments adds exactly those arguments to the words, ending outside quotes. */
  lemma {:induction false} FlushedAfterArgs(st: Splitter, args: seq<string>)
    requires st.mode == Plain
    ensures Scan(st, EscapedArgs(args)).mode == Plain
    ensures Flushed(Scan(st, EscapedArgs(args))) == Flushed(st) + args
    decreases |args|
  {
    if args == [] {
      assert Flushed(st) + args == Flushed(st);
    } else {
      var next := Splitter(Plain, Some(args[0]), Flushed(st));
      FlushedAfterArgs(next, args[1..]);
      assert Flushed(next) == Flushed(st) + [args[0]];
      FlushedOneArg(st, args[0], EscapedArgs(args[1..]), args[1..]);
      assert [args[0]] + args[1..] == args;
    }
  }

  /** Escape round trip: the escaped arguments split back into the original argument list, element for element. */
  lemma EscapedArgsRoundTrip(args: seq<string>)
    ensures Words(EscapedArgs(args)) == Some(args)
  {
    var start := Splitter(Plain, None, []);
    FlushedAfterArgs(start, args);
    assert Flushed(start) + args == args;
  }

  /** A leading command made of safe characters is read as the first word. */
  lemma ScanCommand(command: string, rest: string)
    requires command != [] && AllSafe(command)
    ensures Scan(Splitter(Plain, None, []), command + rest) == Scan(Splitter(Plain, Some(command), []), rest)
  {
    var start := Splitter(Plain, None, []);
    ScanConcat(start, command, rest);
    ScanSafe(start, command);
    assert Current(start) + command == command;
  }

  /** A command made of safe characters followed by the escaped arguments splits into the command and then the arguments. */
  lemma CommandLineRoundTrip(command: string, args: seq<string>)
    requires command != [] && AllSafe(command)
    ensures Words(command + EscapedArgs(args)) == Some([command] + args)
  {
    ScanCommand(command, EscapedArgs(args));
    var first := Splitter(Plain, Some(command), []);
    FlushedAfterArgs(first, args);
    assert Flushed(first) == [command];
  }

  /** Text without a single quote is left alone by the escaping. */
  lemma {:induction false} EscapeQuotesIdentity(s: string)
    requires '\'' !in s
    ensures EscapeQuotes(s) == s
  {
    if s != [] {
      EscapeQuotesIdentity(s[1..]);
      assert s == [s[0]] + s[1..];
    }
  }

  /** An unsafe argument without a single quote (a blank, a double quote, a semicolon ...) is wrapped whole in single quotes. */
  lemma QuoteWraps(s: string)
    requires !AllSafe(s) && '\'' !in s
    ensures Quote(s) == "'" + s + "'"
  {
    EscapeQuotesIdentity(s);
  }
}
