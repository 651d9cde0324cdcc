/** A run, from the start of the server, after which a user pipe that was taken is still there. */
module HeldPipe {
  import opened Sequences
  import opened Decimal
  import opened ServerSyntax
  import opened ServerLines
  import opened ServerModel
  import opened ServerInvariant
  import opened ServerLeaving
  import opened ServerRuns
  import opened UserPipeChecks
  import opened PipesAtRest
  import Plain = ShellSyntax

  // ---------- the two lines ----------

  const SENDING := Cmd(["ls"], [ToUser(1)], NoPipe)
  const TAKING := Cmd(["cat"], [FromUser(2), FromUser(9)], NoPipe)

  lemma {:induction false} SendingWords()
    ensures Plain.Words("ls >1") == ["ls", ">1"]
  {
    var words, gaps := ["ls", ">1"], ["", " ", ""];
    assert words[1..] == [">1"] && gaps[1..] == [" ", ""] && words[1..][1..] == [] && gaps[1..][1..] == [""];
    assert Plain.Spaced([], [""]) == "";
    assert Plain.Spaced(words[1..], gaps[1..]) == " >1";
    assert Plain.Spaced(words, gaps) == "ls >1";
    Plain.WordsOfSpaced(words, gaps);
  }

  lemma {:induction false} TakingWords()
    ensures Plain.Words("cat <2 <9") == ["cat", "<2", "<9"]
  {
    var words, gaps := ["cat", "<2", "<9"], ["", " ", " ", ""];
    assert words[1..] == ["<2", "<9"] && gaps[1..] == [" ", " ", ""];
    assert words[1..][1..] == ["<9"] && gaps[1..][1..] == [" ", ""];
    assert words[1..][1..][1..] == [] && gaps[1..][1..][1..] == [""];
    assert Plain.Spaced([], [""]) == "";
    assert Plain.Spaced(words[1..][1..], gaps[1..][1..]) == " <9";
    assert Plain.Spaced(words[1..], gaps[1..]) == " <2 <9";
    assert Plain.Spaced(words, gaps) == "cat <2 <9";
    Plain.WordsOfSpaced(words, gaps);
  }

  lemma {:induction false} OneDigitSign(mark: char, n: nat)
    requires n < 10
    ensures IsUserSign([mark, Digit(n)], mark, n)
  {
    assert [mark, Digit(n)][1..] == [Digit(n)];
    OneDigit([Digit(n)]);
  }

  lemma {:induction false} ReadEnd(prog: string, ops: seq<Op>)
    ensures Safe(false, []) && Parse([prog], ops, []) == [Cmd([prog], ops, NoPipe)]
  {
  }

  /** The command `prog >n`. */
  lemma {:induction false} ReadSending(line: string, prog: string, n: nat)
    requires !TakesAll(prog) && SafeArgs([prog]) && 1 <= n < 10
    requires Plain.Words(line) == [prog, ['>', Digit(n)]]
    ensures SafeLine(line) && CmdsOf(line) == [Cmd([prog], [ToUser(n)], NoPipe)]
  {
    var t := ['>', Digit(n)];
    OneDigitSign('>', n);
    ReadEnd(prog, [ToUser(n)]);
    ReadUser([prog], [], ToUser(n), t, []);
    assert [t] + [] == [t] && [] + [ToUser(n)] == [ToUser(n)];
    ReadProgram(prog, [t]);
    assert [prog] + [t] == Plain.Words(line);
  }

  /** The command `prog <m <n`. */
  lemma {:induction false} ReadTaking(line: string, prog: string, m: nat, n: nat)
    requires !TakesAll(prog) && SafeArgs([prog]) && 1 <= m < 10 && 1 <= n < 10
    requires Plain.Words(line) == [prog, ['<', Digit(m)], ['<', Digit(n)]]
    ensures SafeLine(line) && CmdsOf(line) == [Cmd([prog], [FromUser(m), FromUser(n)], NoPipe)]
  {
    var t, u := ['<', Digit(m)], ['<', Digit(n)];
    OneDigitSign('<', m);
    OneDigitSign('<', n);
    ReadEnd(prog, [FromUser(m), FromUser(n)]);
    ReadUser([prog], [FromUser(m)], FromUser(n), u, []);
    ReadUser([prog], [], FromUser(m), t, [u]);
    assert [u] + [] == [u] && [] + [FromUser(m)] == [FromUser(m)];
    assert [FromUser(m)] + [FromUser(n)] == [FromUser(m), FromUser(n)];
    ReadProgram(prog, [t] + [u]);
    assert [prog] + ([t] + [u]) == Plain.Words(line);
  }

  lemma {:induction false} SendingLine() returns (line: string)
    ensures line == "ls >1" && SafeLine(line) && CmdsOf(line) == [SENDING]
  {
    line := "ls >1";
    SendingWords();
    assert ['>', Digit(1)] == ">1";
    ReadSending(line, "ls", 1);
  }

  lemma {:induction false} TakingLine() returns (line: string)
    ensures line == "cat <2 <9" && SafeLine(line) && CmdsOf(line) == [TAKING]
  {
    line := "cat <2 <9";
    TakingWords();
    assert ['<', Digit(2)] == "<2" && ['<', Digit(9)] == "<9";
    ReadTaking(line, "cat", 2, 9);
  }

  // ---------- a line of one command ----------

  ghost predicate LineToldBy(w: World, me: nat, c: Cmd, w': World)
    requires me < |w.clients|
  {
    var id, pairs := w.clients[me].id, PairsOf(w.clients);
    && w'.table == w.table
    && (AtRest(w'.clients) <==> !TakesInVain(w.table, pairs, id, c.ops))
    && (!Refuses(w.table, pairs, id, c.ops) ==> PairsOf(w'.clients) == PairsAfter(pairs, id, c.ops))
  }

  /** From tables at rest, what a line of one command does to them. */
  lemma {:induction false} LineOfOne(w: World, me: nat, line: string, c: Cmd)
    requires me < |w.clients| && Inv(w) && AtRest(w.clients)
    requires SafeLine(line) && SafeCmd(c) && CmdsOf(line) == [c] && c.args[0] != "exit"
    ensures LineToldBy(w, me, c, Say(w, me, line))
  {
    var id, pairs := w.clients[me].id, PairsOf(w.clients);
    LineRestsIff(w, me, line);
    assert [c][..0] == [] && [c][0] == c;
    assert LinePairs(w.table, pairs, id, []) == Some(pairs) && !LineTakesInVain(w.table, pairs, id, []);
    assert ExecuteAll(Progress(LoadEnv(w, me), 0, false), me, []) == Progress(LoadEnv(w, me), 0, false);
    assert RunLine(w, me, line).status == 0;
  }

  // ---------- the run ----------

  /** Clients 1 and 2, on descriptors 4 and 5, are there. */
  ghost predicate TwoClients(w: World) {
    && |w.clients| == 2 && w.clients[0].fd == 4 && w.clients[0].id == 1 && w.clients[1].fd == 5 && w.clients[1].id == 2
    && Occupied(w.table, 1) && Occupied(w.table, 2) && !Occupied(w.table, 9)
  }

  lemma {:induction false} Extended(msock: int, steps: seq<Step>, s: Step)
    requires Possible(msock, steps) && May(Run(msock, steps), s)
    ensures Possible(msock, steps + [s]) && Run(msock, steps + [s]) == Do(Run(msock, steps), s)
  {
    assert (steps + [s])[..|steps|] == steps;
  }

  lemma {:induction false} Accepted(w: World, fd: int, k: nat)
    requires k < |w.table| && w.table[k] == 0 && forall i :: 0 <= i < k ==> w.table[i] != 0
    ensures Accept(w, fd).clients == w.clients + [NewClient(w, fd, k + 1)] && Accept(w, fd).table == w.table[k := 1]
    ensures Accept(w, fd).watched == w.watched + {fd}
  {
  }

  lemma {:induction false} BothConnected()
    ensures var w := Accept(Accept(Initial(3), 4), 5); TwoClients(w) && AtRest(w.clients) && PairsOf(w.clients) == {}
    ensures 5 !in Accept(Initial(3), 4).watched
  {
    Accepted(Initial(3), 4, 0);
    Accepted(Accept(Initial(3), 4), 5, 1);
  }

  lemma {:induction false} BothConnect() returns (steps: seq<Step>)
    ensures steps == [Connects(4), Connects(5)] && Possible(3, steps)
    ensures var w := Run(3, steps); TwoClients(w) && AtRest(w.clients) && PairsOf(w.clients) == {}
  {
    var none: seq<Step> := [];
    Extended(3, none, Connects(4));
    BothConnected();
    Extended(3, none + [Connects(4)], Connects(5));
    steps := none + [Connects(4)] + [Connects(5)];
  }

  lemma {:induction false} SayKeepsTwo(w: World, me: nat, line: string, c: Cmd)
    requires Inv(w) && TwoClients(w) && me < 2 && AtRest(w.clients)
    requires SafeLine(line) && SafeCmd(c) && CmdsOf(line) == [c] && c.args[0] != "exit"
    ensures TwoClients(Say(w, me, line)) && Say(w, me, line) == RunLine(w, me, line).w
  {
    RunLineKeeps(w, me, line);
    LineOfOne(w, me, line, c);
  }

  lemma {:induction false} SendingOps(table: seq<int>)
    requires Occupied(table, 1)
    ensures !Refuses(table, {}, 2, SENDING.ops) && PairsAfter({}, 2, SENDING.ops) == {(2, 1)}
    ensures !TakesInVain(table, {}, 2, SENDING.ops)
  {
  }

  lemma {:induction false} TakingOps(table: seq<int>)
    requires Occupied(table, 2) && !Occupied(table, 9)
    ensures TakesInVain(table, {(2, 1)}, 1, TAKING.ops)
  {
    var ops := TAKING.ops;
    assert ops[..1][0].FromUser?;
    assert !Fails(table, {(2, 1)}, 1, ops, 0) && FailsFirst(table, {(2, 1)}, 1, ops, 1);
  }

  /** One more line, of the client at `me`. */
  lemma {:induction false} OneMoreLine(steps: seq<Step>, me: nat, line: string, c: Cmd)
    requires Possible(3, steps) && TwoClients(Run(3, steps)) && AtRest(Run(3, steps).clients) && me < 2
    requires SafeLine(line) && SafeCmd(c) && CmdsOf(line) == [c] && c.args[0] != "exit"
    ensures var w, steps' := Run(3, steps), steps + [Says(Run(3, steps).clients[me].fd, line)];
            && Possible(3, steps') && TwoClients(Run(3, steps'))
            && LineToldBy(w, me, c, Run(3, steps'))
  {
    var w := Run(3, steps);
    EveryRunIsGood(3, steps);
    SayKeepsTwo(w, me, line, c);
    LineOfOne(w, me, line, c);
    assert FindFd(w.clients, w.clients[me].fd) == me;
    Extended(3, steps, Says(w.clients[me].fd, line));
  }

  lemma {:induction false} NotAtRest(w: World, w': World)
    requires TwoClients(w) && PairsOf(w.clients) == {(2, 1)} && LineToldBy(w, 0, TAKING, w')
    ensures !AtRest(w'.clients)
  {
    TakingOps(w.table);
  }

  lemma {:induction false} OneSends() returns (steps: seq<Step>)
    ensures steps == [Connects(4), Connects(5), Says(5, "ls >1")] && Possible(3, steps)
    ensures var w := Run(3, steps); TwoClients(w) && AtRest(w.clients) && PairsOf(w.clients) == {(2, 1)}
  {
    var before := BothConnect();
    var line := SendingLine();
    SendingOps(Run(3, before).table);
    OneMoreLine(before, 1, line, SENDING);
    steps := before + [Says(5, line)];
  }

  lemma {:induction false} OneTakes(before: seq<Step>, line: string)
    requires Possible(3, before) && SafeLine(line) && CmdsOf(line) == [TAKING]
    requires var w := Run(3, before); TwoClients(w) && AtRest(w.clients) && PairsOf(w.clients) == {(2, 1)}
    ensures var steps := before + [Says(4, line)];
            Possible(3, steps) && !AtRest(Run(3, steps).clients)
  {
    OneMoreLine(before, 0, line, TAKING);
    NotAtRest(Run(3, before), Run(3, before + [Says(4, line)]));
  }

  /** Two clients log in; the second says `ls >1`, then the first `cat <2 <9`, with no user 9: the pipe
      it has taken stays in the tables. */
  lemma {:induction false} TakenInVainExample() returns (steps: seq<Step>)
    ensures steps == [Connects(4), Connects(5), Says(5, "ls >1"), Says(4, "cat <2 <9")]
    ensures Possible(3, steps) && !AtRest(Run(3, steps).clients)
  {
    var before := OneSends();
    var line := TakingLine();
    OneTakes(before, line);
    steps := before + [Says(4, line)];
  }
}
