/** The shell's command line: words separated by white space, and the commands they spell. */
module ShellSyntax {
  import opened Sequences
  import opened Decimal

  /** Where a command's output goes: nowhere special, `|n`, `!n`, `>`, `>>` or `&>`. */
  datatype Sink =
    | NoSink | PipeTo(n: int) | ErrPipeTo(n: int)
    | Into(name: string) | Onto(name: string) | BothInto(name: string)

  /** One command; `lineEnds` marks the last of its line. */
  datatype Cmd = Cmd(args: seq<string>, sink: Sink, lineEnds: bool)

  predicate IsPipeSink(s: Sink) { s.PipeTo? || s.ErrPipeTo? }

  // ---------- words ----------

  predicate IsWord(w: string) { w != "" && forall i :: 0 <= i < |w| ==> !IsSpace(w[i]) }

  predicate Blank(s: string) { forall i :: 0 <= i < |s| ==> IsSpace(s[i]) }

  function Head(s: string): (w: string)
    ensures w <= s && (forall i :: 0 <= i < |w| ==> !IsSpace(w[i]))
    ensures |w| < |s| ==> IsSpace(s[|w|])
    ensures s != "" && !IsSpace(s[0]) ==> w != ""
  {
    if s == "" || IsSpace(s[0]) then "" else [s[0]] + Head(s[1..])
  }

  /** The words of a line, as repeated `>>` from a string stream yields them. */
  function Words(s: string): seq<string> {
    if s == "" then [] else if IsSpace(s[0]) then Words(s[1..]) else [Head(s)] + Words(s[|Head(s)|..])
  }

  /** `words` written out with `gaps[i]` before word i and the last gap at the end. */
  function Spaced(words: seq<string>, gaps: seq<string>): string
    requires |gaps| == |words| + 1
  {
    if words == [] then gaps[0] else gaps[0] + words[0] + Spaced(words[1..], gaps[1..])
  }

  lemma {:induction false} WordsSkipBlank(gap: string, s: string)
    requires Blank(gap)
    ensures Words(gap + s) == Words(s)
  {
    if gap != "" {
      assert (gap + s)[1..] == gap[1..] + s;
      WordsSkipBlank(gap[1..], s);
    } else {
      assert gap + s == s;
    }
  }

  lemma {:induction false} HeadOfWord(w: string, s: string)
    requires forall i :: 0 <= i < |w| ==> !IsSpace(w[i])
    requires s == "" || IsSpace(s[0])
    ensures Head(w + s) == w
  {
    if w != "" {
      assert (w + s)[1..] == w[1..] + s;
      HeadOfWord(w[1..], s);
    } else {
      assert w + s == s;
    }
  }

  /** Words come back whatever white space surrounds them, as long as some separates them. */
  lemma {:induction false} WordsOfSpaced(words: seq<string>, gaps: seq<string>)
    requires |gaps| == |words| + 1
    requires forall i :: 0 <= i < |words| ==> IsWord(words[i])
    requires forall i :: 0 <= i < |gaps| ==> Blank(gaps[i])
    requires forall i :: 0 < i < |words| ==> gaps[i] != ""
    ensures Words(Spaced(words, gaps)) == words
  {
    if words == [] {
      WordsSkipBlank(gaps[0], "");
      assert gaps[0] + "" == gaps[0];
    } else {
      var rest := Spaced(words[1..], gaps[1..]);
      WordsOfSpaced(words[1..], gaps[1..]);
      assert rest == "" || IsSpace(rest[0]) by {
        if |words| == 1 {
          assert words[1..] == [] && rest == gaps[1];
        } else {
          assert gaps[1] != "" && rest[0] == gaps[1][0];
        }
      }
      HeadOfWord(words[0], rest);
      WordsSkipBlank(gaps[0], words[0] + rest);
      assert gaps[0] + words[0] + rest == gaps[0] + (words[0] + rest);
      assert (words[0] + rest)[|words[0]|..] == rest;
    }
  }

  // ---------- commands ----------

  predicate IsPipe(t: string) { '|' in t }

  predicate IsErrPipe(t: string) { '|' !in t && '!' in t }

  predicate IsRedirect(t: string) { t == ">" || t == ">>" || t == "&>" }

  /** A word that can only be an argument. */
  predicate IsArgument(t: string) { !IsPipe(t) && !IsErrPipe(t) && !IsRedirect(t) }

  /** These are the words without pipe sign or exclamation mark, but for the three redirections. */
  lemma {:induction false} ArgumentIs(t: string)
    ensures IsArgument(t) <==> '|' !in t && '!' !in t && t != ">" && t != ">>" && t != "&>"
  {
  }

  /** The pipe number of a `|` or `!` word: one if it stands alone. */
  function PipeNumber(t: string): int
    requires t != ""
  {
    if |t| == 1 then 1 else Atoi(t[1..])
  }

  function RedirectSink(t: string, name: string): Sink
    requires IsRedirect(t)
  {
    if t == ">" then Into(name) else if t == ">>" then Onto(name) else BothInto(name)
  }

  /** What the code demands of a line: a pipe word fits its five-character buffer and a redirection
      is followed by a file name. `first` says the next word is a program name. */
  predicate Safe(first: bool, ts: seq<string>)
    decreases |ts|
  {
    if ts == [] then true
    else if first then Safe(false, ts[1..])
    else if IsPipe(ts[0]) || IsErrPipe(ts[0]) then |ts[0]| <= 5 && Safe(true, ts[1..])
    else if IsRedirect(ts[0]) then |ts| >= 2 && Safe(true, ts[2..])
    else Safe(false, ts[1..])
  }

  /** The commands spelled by `ts` when `args` are the words of the current command so far. */
  function Parse(args: seq<string>, ts: seq<string>): seq<Cmd>
    requires Safe(args == [], ts)
    decreases |ts|
  {
    if ts == [] then (if args == [] then [] else [Cmd(args, NoSink, true)])
    else if args == [] then Parse([ts[0]], ts[1..])
    else if IsPipe(ts[0]) then [Cmd(args, PipeTo(PipeNumber(ts[0])), ts[1..] == [])] + Parse([], ts[1..])
    else if IsErrPipe(ts[0]) then [Cmd(args, ErrPipeTo(PipeNumber(ts[0])), ts[1..] == [])] + Parse([], ts[1..])
    else if IsRedirect(ts[0]) then [Cmd(args, RedirectSink(ts[0], ts[1]), ts[2..] == [])] + Parse([], ts[2..])
    else Parse(args + [ts[0]], ts[1..])
  }

  // ---------- writing lines down ----------

  /** `t` is how the number may be written: any numeral of at most four digits. */
  predicate IsNumeral(t: string, n: int) { 1 <= |t| <= 4 && AllDigits(t) && Value(t) == n }

  /** A sign and its number; a sign alone means one. */
  predicate IsSign(t: string, mark: char, n: int) {
    t != "" && t[0] == mark && (IsNumeral(t[1..], n) || (t == [mark] && n == 1))
  }

  /** The words that may spell a sink. */
  predicate Spells(ws: seq<string>, s: Sink) {
    match s
    case NoSink => ws == []
    case PipeTo(n) => |ws| == 1 && IsSign(ws[0], '|', n)
    case ErrPipeTo(n) => |ws| == 1 && IsSign(ws[0], '!', n)
    case Into(f) => ws == [">", f]
    case Onto(f) => ws == [">>", f]
    case BothInto(f) => ws == ["&>", f]
  }

  /** The words of the commands, with `ends[i]` for the sink of command i. */
  function Render(cmds: seq<Cmd>, ends: seq<seq<string>>): seq<string>
    requires |ends| == |cmds|
  {
    if cmds == [] then [] else cmds[0].args + ends[0] + Render(cmds[1..], ends[1..])
  }

  /** A command that can be written down so: a program, plain arguments, and its sink. */
  predicate Writable(c: Cmd, end: seq<string>) {
    && c.args != []
    && (forall i :: 0 <= i < |c.args| ==> IsWord(c.args[i]))
    && (forall i :: 0 < i < |c.args| ==> '|' !in c.args[i] && '!' !in c.args[i] && c.args[i] !in [">", ">>", "&>"])
    && (c.sink.Into? || c.sink.Onto? || c.sink.BothInto? ==> IsWord(c.sink.name))
    && Spells(end, c.sink)
  }

  /** A line: every command but the last has a sink, and only the last ends the line. */
  predicate WritableLine(cmds: seq<Cmd>, ends: seq<seq<string>>) {
    && |ends| == |cmds|
    && (forall i :: 0 <= i < |cmds| ==> Writable(cmds[i], ends[i]) && (cmds[i].lineEnds <==> i == |cmds| - 1))
    && (forall i :: 0 <= i < |cmds| - 1 ==> cmds[i].sink != NoSink)
  }

  /** A printed number after a sign is one way to write it. */
  lemma {:induction false} PipeWord(mark: char, n: nat)
    requires n <= 9999
    ensures IsSign([mark] + Print(n), mark, n)
  {
    assert ([mark] + Print(n))[1..] == Print(n);
    PrintThenRead(n);
    assert n < Power10(4) by {
      assert Power10(4) == 10 * Power10(3) == 100 * Power10(2) == 1000 * Power10(1) == 10000 * Power10(0);
    }
    PrintLength(n, 4);
  }

  /** Every way to write it fits the five-character buffer and is decoded to the number. */
  lemma {:induction false} SignIsRead(t: string, mark: char, n: int)
    requires IsSign(t, mark, n) && (mark == '|' || mark == '!')
    ensures PipeNumber(t) == n && |t| <= 5 && IsWord(t)
    ensures (IsPipe(t) <==> mark == '|') && (IsErrPipe(t) <==> mark == '!')
  {
    var digits := t[1..];
    assert t == [mark] + digits;
    assert forall c :: c in digits ==> IsDigit(c);
    if |t| > 1 { AtoiOfDigits(digits); }
  }

  /** Arguments are collected one by one. */
  lemma {:induction false} ParseArguments(args: seq<string>, more: seq<string>, ts: seq<string>)
    requires args != [] && forall i :: 0 <= i < |more| ==> IsArgument(more[i])
    requires Safe(false, ts)
    ensures Safe(false, more + ts) && Parse(args, more + ts) == Parse(args + more, ts)
    decreases |more|
  {
    if more == [] {
      assert more + ts == ts && args + more == args;
    } else {
      ParseArguments(args + [more[0]], more[1..], ts);
      assert (more + ts)[1..] == more[1..] + ts;
      assert args + [more[0]] + more[1..] == args + more;
    }
  }

  lemma {:induction false} ParseSink(args: seq<string>, sink: Sink, end: seq<string>, ts: seq<string>, c: Cmd)
    requires args != [] && c == Cmd(args, sink, ts == []) && Spells(end, sink) && sink != NoSink
    requires Safe(true, ts)
    ensures Safe(false, end + ts) && Parse(args, end + ts) == [c] + Parse([], ts)
  {
    var all := end + ts;
    if sink.PipeTo? || sink.ErrPipeTo? {
      SignIsRead(end[0], if sink.PipeTo? then '|' else '!', sink.n);
      assert all[1..] == ts;
    } else {
      assert all[0] == end[0] && all[1] == sink.name && all[2..] == ts;
      assert IsRedirect(all[0]) && !IsPipe(all[0]) && !IsErrPipe(all[0]);
    }
  }

  lemma {:induction false} ParseFirst(args: seq<string>, tail: seq<string>)
    requires args != [] && Safe(false, args[1..] + tail)
    ensures Safe(true, args + tail) && Parse([], args + tail) == Parse([args[0]], args[1..] + tail)
  {
    var all := args + tail;
    assert all[0] == args[0] && all[1..] == args[1..] + tail;
  }

  lemma {:induction false} ParseCommand(c: Cmd, end: seq<string>, ts: seq<string>)
    requires Writable(c, end) && (c.sink == NoSink ==> ts == []) && (c.lineEnds <==> ts == [])
    requires Safe(true, ts)
    ensures var all := c.args + end + ts;
            Safe(true, all) && Parse([], all) == [c] + Parse([], ts)
  {
    var tail := end + ts;
    if c.sink == NoSink { assert tail == []; } else { ParseSink(c.args, c.sink, end, ts, c); }
    forall i | 0 <= i < |c.args[1..]| ensures IsArgument(c.args[1..][i]) { ArgumentIs(c.args[i + 1]); }
    ParseArguments([c.args[0]], c.args[1..], tail);
    assert [c.args[0]] + c.args[1..] == c.args;
    ParseFirst(c.args, tail);
    Regroup(c.args, end, ts);
  }

  /** Parsing the words of a line, however its sinks are spelled, gives the line back. */
  lemma {:induction false} ParseOfRender(cmds: seq<Cmd>, ends: seq<seq<string>>)
    requires WritableLine(cmds, ends)
    ensures Safe(true, Render(cmds, ends)) && Parse([], Render(cmds, ends)) == cmds
  {
    if cmds != [] {
      var c, rest := cmds[0], Render(cmds[1..], ends[1..]);
      ParseOfRender(cmds[1..], ends[1..]);
      assert rest == [] <==> |cmds| == 1 by {
        if |cmds| > 1 { assert Writable(cmds[1], ends[1]) && rest[0] == cmds[1].args[0]; }
      }
      ParseCommand(c, ends[0], rest);
      assert cmds == [c] + cmds[1..];
    }
  }

  lemma {:induction false} SpelledInWords(end: seq<string>, c: Cmd)
    requires Writable(c, end)
    ensures forall i :: 0 <= i < |end| ==> IsWord(end[i])
  {
    if c.sink.PipeTo? || c.sink.ErrPipeTo? {
      SignIsRead(end[0], if c.sink.PipeTo? then '|' else '!', c.sink.n);
    }
  }

  lemma {:induction false} RenderIsWords(cmds: seq<Cmd>, ends: seq<seq<string>>)
    requires |ends| == |cmds| && forall i :: 0 <= i < |cmds| ==> Writable(cmds[i], ends[i])
    ensures forall i :: 0 <= i < |Render(cmds, ends)| ==> IsWord(Render(cmds, ends)[i])
  {
    if cmds != [] {
      RenderIsWords(cmds[1..], ends[1..]);
      SpelledInWords(ends[0], cmds[0]);
    }
  }

  /** Writing a line down with any spelling of its sinks and any white space, then splitting it into
      words and parsing those, recovers the commands with their arguments, sinks and pipe numbers; the
      last ends the line. */
  lemma {:induction false} CommandLineRoundTrip(cmds: seq<Cmd>, ends: seq<seq<string>>, gaps: seq<string>)
    requires WritableLine(cmds, ends)
    requires |gaps| == |Render(cmds, ends)| + 1
    requires forall i :: 0 <= i < |gaps| ==> Blank(gaps[i])
    requires forall i :: 0 < i < |Render(cmds, ends)| ==> gaps[i] != ""
    ensures var ts := Words(Spaced(Render(cmds, ends), gaps));
            Safe(true, ts) && Parse([], ts) == cmds
  {
    RenderIsWords(cmds, ends);
    WordsOfSpaced(Render(cmds, ends), gaps);
    ParseOfRender(cmds, ends);
  }

  // ---------- splitting a line ----------

  /** The last command of a line, as it is when more commands follow. */
  function Continued(cmds: seq<Cmd>): (r: seq<Cmd>)
    ensures |r| == |cmds|
  {
    if cmds == [] then [] else cmds[|cmds| - 1 := cmds[|cmds| - 1].(lineEnds := false)]
  }

  /** The words end with a command's terminator, so that the next word names a program. */
  predicate Closed(first: bool, ts: seq<string>)
    requires Safe(first, ts)
    decreases |ts|
  {
    if ts == [] then first
    else if first then Closed(false, ts[1..])
    else if IsPipe(ts[0]) || IsErrPipe(ts[0]) then Closed(true, ts[1..])
    else if IsRedirect(ts[0]) then Closed(true, ts[2..])
    else Closed(false, ts[1..])
  }

  lemma {:induction false} ParseNonEmpty(args: seq<string>, ts: seq<string>)
    requires Safe(args == [], ts) && (args != [] || ts != [])
    ensures Parse(args, ts) != []
    decreases |ts|
  {
    if ts != [] {
      if args == [] {
        ParseNonEmpty([ts[0]], ts[1..]);
      } else if IsArgument(ts[0]) {
        ParseNonEmpty(args + [ts[0]], ts[1..]);
      }
    }
  }

  lemma {:induction false} ClosedBySink(args: seq<string>, ts: seq<string>)
    requires Safe(args == [], ts) && Parse(args, ts) != []
    requires Parse(args, ts)[|Parse(args, ts)| - 1].sink != NoSink
    ensures Closed(args == [], ts)
    decreases |ts|
  {
    if ts != [] {
      if args == [] {
        ClosedBySink([ts[0]], ts[1..]);
      } else if IsArgument(ts[0]) {
        ClosedBySink(args + [ts[0]], ts[1..]);
      } else {
        var left := if IsRedirect(ts[0]) && !IsPipe(ts[0]) && !IsErrPipe(ts[0]) then ts[2..] else ts[1..];
        if left != [] {
          ParseNonEmpty([], left);
          ClosedBySink([], left);
        }
      }
    }
  }

  /** A terminated command in front of more words. */
  lemma {:induction false} ContinuedCons(c: Cmd, left: seq<string>, b: seq<string>)
    requires Safe(true, left) && Safe(true, b) && Safe(true, left + b) && b != []
    requires Parse([], left + b) == Continued(Parse([], left)) + Parse([], b)
    ensures [c.(lineEnds := false)] + Parse([], left + b)
         == Continued([c.(lineEnds := left == [])] + Parse([], left)) + Parse([], b)
  {
    if left != [] { ParseNonEmpty([], left); }
  }

  /** Two lines written as one spell the same commands, if the first ends with a terminator. */
  lemma {:induction false} ParseConcat(args: seq<string>, a: seq<string>, b: seq<string>)
    requires Safe(args == [], a) && Closed(args == [], a) && Safe(true, b) && b != []
    ensures Safe(args == [], a + b)
    ensures Parse(args, a + b) == Continued(Parse(args, a)) + Parse([], b)
    decreases |a|
  {
    if a == [] {
      assert a + b == b;
    } else {
      assert (a + b)[1..] == a[1..] + b;
      if args == [] {
        ParseConcat([a[0]], a[1..], b);
      } else if IsPipe(a[0]) || IsErrPipe(a[0]) {
        ParseConcat([], a[1..], b);
        var n := PipeNumber(a[0]);
        ContinuedCons(Cmd(args, if IsPipe(a[0]) then PipeTo(n) else ErrPipeTo(n), true), a[1..], b);
      } else if IsRedirect(a[0]) {
        assert (a + b)[2..] == a[2..] + b;
        ParseConcat([], a[2..], b);
        ContinuedCons(Cmd(args, RedirectSink(a[0], a[1]), true), a[2..], b);
      } else {
        ParseConcat(args + [a[0]], a[1..], b);
      }
    }
  }
}
