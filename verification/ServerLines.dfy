/** Lines of the multi-user shell, written down in any spelling, and read back. */
module ServerLines {
  import opened Sequences
  import opened Decimal
  import opened ServerSyntax
  import Plain = ShellSyntax

  /** What may follow a program's name: an argument or a redirection. */
  datatype Item = Arg(word: string) | Redirection(op: Op)

  /** A command and the words chosen for it: those of each item and those of its sink; or `tell` or
      `yell`, to which the rest of the line belongs. */
  datatype Written =
    | Command(prog: string, items: seq<Item>, words: seq<seq<string>>, sink: Sink, end: seq<string>)
    | Message(prog: string, rest: seq<string>)

  // ---------- what is meant ----------

  function Args(items: seq<Item>): seq<string> {
    if items == [] then [] else (if items[0].Arg? then [items[0].word] else []) + Args(items[1..])
  }

  function Ops(items: seq<Item>): seq<Op> {
    if items == [] then [] else (if items[0].Redirection? then [items[0].op] else []) + Ops(items[1..])
  }

  function CmdOf(w: Written): Cmd {
    match w
    case Command(prog, items, _, sink, _) => Cmd([prog] + Args(items), Ops(items), sink)
    case Message(prog, rest) => Cmd([prog] + rest, [], NoPipe)
  }

  function CmdsWritten(ws: seq<Written>): seq<Cmd> {
    seq(|ws|, i requires 0 <= i < |ws| => CmdOf(ws[i]))
  }

  // ---------- how it is written ----------

  /** A redirection sign and a user's number, of at most two digits. */
  predicate IsUserSign(t: string, mark: char, id: int) {
    2 <= |t| <= 3 && t[0] == mark && AllDigits(t[1..]) && Value(t[1..]) == id
  }

  /** The words that may spell an item. */
  predicate SpellsItem(ws: seq<string>, item: Item) {
    match item
    case Arg(t) => ws == [t] && forall c :: c in t ==> c !in "|!<>"
    case Redirection(OutFile(f)) => ws == [">", f]
    case Redirection(InFile(f)) => ws == ["<", f]
    case Redirection(ToUser(id)) => |ws| == 1 && IsUserSign(ws[0], '>', id)
    case Redirection(FromUser(id)) => |ws| == 1 && IsUserSign(ws[0], '<', id)
  }

  /** The words that may spell a sink; a sign alone means one. */
  predicate SpellsSink(ws: seq<string>, s: Sink) {
    match s
    case NoPipe => ws == []
    case OutPipe(n) => |ws| == 1 && Plain.IsSign(ws[0], '|', n)
    case ErrPipe(n) => |ws| == 1 && Plain.IsSign(ws[0], '!', n)
  }

  function Flat(words: seq<seq<string>>): seq<string> {
    if words == [] then [] else words[0] + Flat(words[1..])
  }

  function WordsOf(w: Written): seq<string> {
    match w
    case Command(prog, _, words, _, end) => [prog] + Flat(words) + end
    case Message(prog, rest) => [prog] + rest
  }

  function Render(ws: seq<Written>): seq<string> {
    if ws == [] then [] else WordsOf(ws[0]) + Render(ws[1..])
  }

  predicate SpellsItems(words: seq<seq<string>>, items: seq<Item>) {
    |words| == |items| && forall i :: 0 <= i < |items| ==> SpellsItem(words[i], items[i])
  }

  /** The command is spelled as it should be. */
  predicate Spelled(w: Written) {
    match w
    case Command(prog, items, words, sink, end) =>
      prog != "tell" && prog != "yell" && SpellsItems(words, items) && SpellsSink(end, sink)
    case Message(prog, _) => prog == "tell" || prog == "yell"
  }

  /** A line: only its last command may have no sink, and all its commands have what they demand. */
  predicate WrittenLine(ws: seq<Written>) {
    && (forall i :: 0 <= i < |ws| ==> Spelled(ws[i]) && SafeCmd(CmdOf(ws[i])))
    && (forall i :: 0 <= i < |ws| - 1 ==> ws[i].Command? && ws[i].sink != NoPipe)
  }

  // ---------- reading it back ----------

  lemma {:induction false} UserSignIsRead(t: string, mark: char, id: int)
    requires IsUserSign(t, mark, id) && (mark == '<' || mark == '>')
    ensures UserNumber(t) == id && !Plain.IsPipe(t) && !Plain.IsErrPipe(t) && t != "<" && t != ">"
    ensures (IsUserOut(t) <==> mark == '>') && (IsUserIn(t) <==> mark == '<')
  {
    var digits := t[1..];
    assert t == [mark] + digits;
    assert forall c :: c in t ==> c == mark || IsDigit(c);
    assert mark in t;
    AtoiOfDigits(digits);
  }

  /** A word is an argument just if it has none of the four signs. */
  lemma {:induction false} ArgumentIs(t: string)
    ensures !Plain.IsPipe(t) && !Plain.IsErrPipe(t) && t != ">" && t != "<" && !IsUserOut(t) && !IsUserIn(t)
       <==> forall c :: c in t ==> c !in "|!<>"
  {
    forall c ensures c in "|!<>" <==> c == '|' || c == '!' || c == '<' || c == '>' { FourSigns(c); }
    assert t == ">" ==> t[0] == '>' && '>' in t;
    assert t == "<" ==> t[0] == '<' && '<' in t;
  }

  lemma {:induction false} FourSigns(c: char)
    ensures c in "|!<>" <==> c == '|' || c == '!' || c == '<' || c == '>'
  {
    var signs := "|!<>";
    assert signs[0] == '|' && signs[1] == '!' && signs[2] == '<' && signs[3] == '>';
  }

  /** The words from here on are safe, and mean what they do with `args` and `ops` before them. */
  ghost predicate ReadsAs(args: seq<string>, ops: seq<Op>, ts: seq<string>,
                          args': seq<string>, ops': seq<Op>, ts': seq<string>)
    requires args != [] && args' != [] && Safe(false, ts')
  {
    Safe(false, ts) && Parse(args, ops, ts) == Parse(args', ops', ts')
  }

  lemma {:induction false} ReadArg(args: seq<string>, ops: seq<Op>, t: string, ts: seq<string>)
    requires args != [] && SpellsItem([t], Arg(t)) && Safe(false, ts)
    ensures ReadsAs(args, ops, [t] + ts, args + [t], ops, ts)
  {
    ArgumentIs(t);
    assert ([t] + ts)[1..] == ts;
  }

  lemma {:induction false} ReadFile(args: seq<string>, ops: seq<Op>, op: Op, ws: seq<string>, ts: seq<string>)
    requires args != [] && (op.OutFile? || op.InFile?) && SpellsItem(ws, Redirection(op)) && Safe(false, ts)
    ensures ReadsAs(args, ops, ws + ts, args, ops + [op], ts)
  {
    var all := ws + ts;
    assert all[0] == ws[0] && all[1] == op.name && all[2..] == ts;
  }

  lemma {:induction false} ReadUser(args: seq<string>, ops: seq<Op>, op: Op, t: string, ts: seq<string>)
    requires args != [] && SafeOp(op) && IsUserOp(op) && SpellsItem([t], Redirection(op)) && Safe(false, ts)
    ensures ReadsAs(args, ops, [t] + ts, args, ops + [op], ts)
  {
    UserSignIsRead(t, if op.ToUser? then '>' else '<', op.id);
    assert ([t] + ts)[1..] == ts;
  }

  lemma {:induction false} ReadItem(args: seq<string>, ops: seq<Op>, item: Item, ws: seq<string>, ts: seq<string>)
    requires args != [] && (item.Redirection? ==> SafeOp(item.op)) && SpellsItem(ws, item) && Safe(false, ts)
    ensures ReadsAs(args, ops, ws + ts, args + Args([item]), ops + Ops([item]), ts)
  {
    if item.Arg? {
      ReadArg(args, ops, item.word, ts);
    } else if item.op.OutFile? || item.op.InFile? {
      ReadFile(args, ops, item.op, ws, ts);
    } else {
      assert ws == [ws[0]];
      ReadUser(args, ops, item.op, ws[0], ts);
    }
    OneItem(args, ops, item);
  }

  lemma {:induction false} OneItem(args: seq<string>, ops: seq<Op>, item: Item)
    ensures Args([item]) == if item.Arg? then [item.word] else []
    ensures Ops([item]) == if item.Redirection? then [item.op] else []
    ensures args + [] == args && ops + [] == ops
  {
    assert [item][1..] == [];
  }

  lemma {:induction false} ItemsCons(items: seq<Item>, args: seq<string>, ops: seq<Op>)
    requires items != []
    ensures args + Args([items[0]]) + Args(items[1..]) == args + Args(items)
    ensures ops + Ops([items[0]]) + Ops(items[1..]) == ops + Ops(items)
  {
    OneItem(args, ops, items[0]);
    Regroup(args, Args([items[0]]), Args(items[1..]));
    Regroup(ops, Ops([items[0]]), Ops(items[1..]));
  }

  ghost predicate SafeItems(items: seq<Item>) {
    forall i :: 0 <= i < |items| && items[i].Redirection? ==> SafeOp(items[i].op)
  }

  lemma {:induction false} ReadItems(args: seq<string>, ops: seq<Op>, items: seq<Item>, words: seq<seq<string>>,
                                     ts: seq<string>)
    requires args != [] && SpellsItems(words, items) && SafeItems(items) && Safe(false, ts)
    ensures ReadsAs(args, ops, Flat(words) + ts, args + Args(items), ops + Ops(items), ts)
    decreases |items|
  {
    if items == [] {
      assert Flat(words) + ts == ts && args + [] == args && ops + [] == ops;
    } else {
      var args', ops' := args + Args([items[0]]), ops + Ops([items[0]]);
      ReadItems(args', ops', items[1..], words[1..], ts);
      ReadItem(args, ops, items[0], words[0], Flat(words[1..]) + ts);
      Regroup(words[0], Flat(words[1..]), ts);
      ItemsCons(items, args, ops);
    }
  }

  lemma {:induction false} ReadSink(args: seq<string>, ops: seq<Op>, sink: Sink, end: seq<string>, ts: seq<string>)
    requires args != [] && SpellsSink(end, sink) && (sink.NoPipe? ==> ts == []) && Safe(true, ts)
    ensures Safe(false, end + ts) && Parse(args, ops, end + ts) == [Cmd(args, ops, sink)] + Parse([], [], ts)
  {
    if sink.NoPipe? {
      assert end + ts == [];
    } else {
      Plain.SignIsRead(end[0], if sink.OutPipe? then '|' else '!', sink.n);
      assert (end + ts)[1..] == ts;
    }
  }

  lemma {:induction false} OpsAreSafe(items: seq<Item>)
    requires forall i :: 0 <= i < |Ops(items)| ==> SafeOp(Ops(items)[i])
    ensures SafeItems(items)
  {
    if items != [] {
      var first, rest := if items[0].Redirection? then [items[0].op] else [], Ops(items[1..]);
      assert forall i :: 0 <= i < |rest| ==> Ops(items)[|first| + i] == rest[i];
      OpsAreSafe(items[1..]);
      assert items[0].Redirection? ==> Ops(items)[0] == items[0].op;
    }
  }

  lemma {:induction false} ReadProgram(prog: string, tail: seq<string>)
    requires prog != "tell" && prog != "yell" && Safe(false, tail)
    ensures Safe(true, [prog] + tail) && Parse([], [], [prog] + tail) == Parse([prog], [], tail)
  {
    assert ([prog] + tail)[1..] == tail;
  }

  lemma {:induction false} ReadCommand(w: Written, ts: seq<string>)
    requires w.Command? && Spelled(w) && SafeCmd(CmdOf(w)) && (w.sink.NoPipe? ==> ts == []) && Safe(true, ts)
    ensures Safe(true, WordsOf(w) + ts) && Parse([], [], WordsOf(w) + ts) == [CmdOf(w)] + Parse([], [], ts)
  {
    var tail := w.end + ts;
    OpsAreSafe(w.items);
    ReadSink([w.prog] + Args(w.items), Ops(w.items), w.sink, w.end, ts);
    ReadItems([w.prog], [], w.items, w.words, tail);
    ReadProgram(w.prog, Flat(w.words) + tail);
    assert [] + Ops(w.items) == Ops(w.items);
    FourParts([w.prog], Flat(w.words), w.end, ts);
  }

  lemma {:induction false} FourParts<T>(a: seq<T>, b: seq<T>, c: seq<T>, d: seq<T>)
    ensures a + b + c + d == a + (b + (c + d))
  {
  }

  lemma {:induction false} ReadMessage(w: Written)
    requires w.Message? && Spelled(w)
    ensures Safe(true, WordsOf(w)) && Parse([], [], WordsOf(w)) == [CmdOf(w)]
  {
  }

  /** The words of a line, however it is spelled, are read as the commands that were meant. */
  lemma {:induction false} ParseOfRender(ws: seq<Written>)
    requires WrittenLine(ws)
    ensures Safe(true, Render(ws)) && Parse([], [], Render(ws)) == CmdsWritten(ws)
  {
    if ws != [] {
      var w, rest := ws[0], Render(ws[1..]);
      ParseOfRender(ws[1..]);
      if w.Message? { ReadMessage(w); } else { ReadCommand(w, rest); }
      if |ws| == 1 { NothingAfter(ws); }
      WrittenCons(ws);
    }
  }

  lemma {:induction false} NothingAfter(ws: seq<Written>)
    requires |ws| == 1
    ensures Render(ws) == WordsOf(ws[0]) && Render(ws[1..]) == [] && CmdsWritten(ws) == [CmdOf(ws[0])]
  {
    assert ws[1..] == [] && WordsOf(ws[0]) + [] == WordsOf(ws[0]);
  }

  lemma {:induction false} WrittenCons(ws: seq<Written>)
    requires ws != []
    ensures CmdsWritten(ws) == [CmdOf(ws[0])] + CmdsWritten(ws[1..])
  {
  }

  /** Any commands of the multi-user shell, written with any spelling of their redirections and sinks
      and any white space, make a line that the code can take, and that is read as these commands. */
  lemma {:induction false} LineRoundTrip(ws: seq<Written>, gaps: seq<string>)
    requires WrittenLine(ws)
    requires forall i :: 0 <= i < |Render(ws)| ==> Plain.IsWord(Render(ws)[i])
    requires |gaps| == |Render(ws)| + 1
    requires forall i :: 0 <= i < |gaps| ==> Plain.Blank(gaps[i])
    requires forall i :: 0 < i < |Render(ws)| ==> gaps[i] != ""
    ensures var line := Plain.Spaced(Render(ws), gaps);
            SafeLine(line) && CmdsOf(line) == CmdsWritten(ws)
  {
    Plain.WordsOfSpaced(Render(ws), gaps);
    ParseOfRender(ws);
  }
}
