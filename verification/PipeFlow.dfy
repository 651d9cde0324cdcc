/** Over whole runs: every command that is not refused runs as it was said, and what one user sends
    through a user pipe is what the other reads. */
module PipeFlow {
  import opened Sequences
  import opened ServerSyntax
  import opened ServerModel
  import opened ServerInvariant
  import opened ServerWiring
  import opened ServerRuns
  import opened UserPipes
  import opened UserPipeHistory
  import opened Handover

  // ---------- nothing is forgotten ----------

  lemma {:induction false} OneMoreGrows(w: World, g: Progress, me: nat, c: Cmd)
    requires me < |g.w.clients| && SafeCmd(c) && Inv(g.w) && Grows(w, g.w)
    ensures Grows(w, Execute(g, me, c).w)
  {
    ExecuteGrows(g, me, c);
  }

  lemma {:induction false} TheRestGrows(g: Progress, me: nat, cmds: seq<Cmd>, k: nat)
    requires me < |g.w.clients| && Inv(g.w) && k <= |cmds| && forall i :: 0 <= i < |cmds| ==> SafeCmd(cmds[i])
    ensures Grows(ExecuteAll(g, me, cmds[..k]).w, ExecuteAll(g, me, cmds).w)
  {
    if k == |cmds| {
      assert cmds[..k] == cmds;
    } else {
      var n := |cmds| - 1;
      TheRestGrows(g, me, cmds[..n], k);
      PrefixOfPrefix(cmds, n, k);
      ExecuteAllKeeps(g, me, cmds[..n]);
      OneMoreGrows(ExecuteAll(g, me, cmds[..k]).w, ExecuteAll(g, me, cmds[..n]), me, cmds[n]);
    }
  }

  lemma {:induction false} SayGrows(w: World, me: nat, line: string)
    requires me < |w.clients| && SafeLine(line) && Inv(w)
    ensures Grows(RunLine(w, me, line).w, Say(w, me, line)) && Grows(w, Say(w, me, line))
  {
    LoadKeeps(w, me);
    TheRestGrows(Progress(LoadEnv(w, me), 0, false), me, CmdsOf(line), 0);
    assert CmdsOf(line)[..0] == [];
  }

  lemma {:induction false} DoGrows(w: World, s: Step)
    requires Inv(w) && May(w, s)
    ensures Grows(w, Do(w, s))
  {
    if s.Says? { SayGrows(w, FindFd(w.clients, s.fd), s.line); }
  }

  lemma {:induction false} PossibleInit(msock: int, steps: seq<Step>)
    requires Possible(msock, steps) && steps != []
    ensures Possible(msock, steps[..|steps| - 1])
  {
  }

  lemma {:induction false} PossibleBefore(msock: int, steps: seq<Step>, k: nat)
    requires Possible(msock, steps) && k <= |steps|
    ensures Possible(msock, steps[..k])
  {
    if k == |steps| {
      assert steps[..k] == steps;
    } else {
      PossibleInit(msock, steps);
      PossibleBefore(msock, steps[..|steps| - 1], k);
      PrefixOfPrefix(steps, |steps| - 1, k);
    }
  }

  lemma {:induction false} SoundRun(msock: int, steps: seq<Step>)
    requires Possible(msock, steps)
    ensures Inv(Run(msock, steps)) && Linked(Run(msock, steps))
  {
    EveryRunIsGood(msock, steps);
  }

  lemma {:induction false} OneStepGrows(msock: int, steps: seq<Step>, w: World)
    requires Possible(msock, steps) && steps != [] && Possible(msock, steps[..|steps| - 1])
    requires Grows(w, Run(msock, steps[..|steps| - 1]))
    ensures Grows(w, Run(msock, steps))
  {
    var n := |steps| - 1;
    SoundRun(msock, steps[..n]);
    DoGrows(Run(msock, steps[..n]), steps[n]);
  }

  lemma {:induction false} RunGrows(msock: int, steps: seq<Step>, k: nat)
    requires Possible(msock, steps) && k <= |steps|
    ensures Possible(msock, steps[..k]) && Grows(Run(msock, steps[..k]), Run(msock, steps))
  {
    PossibleBefore(msock, steps, k);
    if k == |steps| {
      assert steps[..k] == steps;
    } else {
      var n := |steps| - 1;
      PossibleBefore(msock, steps, n);
      RunGrows(msock, steps[..n], k);
      PrefixOfPrefix(steps, n, k);
      OneStepGrows(msock, steps, Run(msock, steps[..k]));
    }
  }

  // ---------- every command as it was said ----------

  /** Step `k` is a line whose commands up to `i` are not refused. */
  ghost predicate GoesThrough(msock: int, steps: seq<Step>, k: nat, i: nat)
    requires Possible(msock, steps)
  {
    && k < |steps| && steps[k].Says? && Possible(msock, steps[..k]) && May(Run(msock, steps[..k]), steps[k])
    && i < |CmdsOf(steps[k].line)|
    && !Through(Run(msock, steps[..k]), steps[k], i).refused
  }

  /** The line of this step, up to command `i`. */
  ghost function Through(w: World, s: Step, i: nat): Progress
    requires s.Says? && May(w, s) && i < |CmdsOf(s.line)|
  {
    var me := FindFd(w.clients, s.fd);
    ExecuteAll(Progress(LoadEnv(w, me), 0, false), me, CmdsOf(s.line)[..i + 1])
  }

  /** Who says the line of step `k`. */
  ghost function Speaker(msock: int, steps: seq<Step>, k: nat, i: nat): Client
    requires Possible(msock, steps) && GoesThrough(msock, steps, k, i)
  {
    var w := Run(msock, steps[..k]);
    w.clients[FindFd(w.clients, steps[k].fd)]
  }

  ghost function Said(msock: int, steps: seq<Step>, k: nat, i: nat): Cmd
    requires Possible(msock, steps) && GoesThrough(msock, steps, k, i)
  {
    CmdsOf(steps[k].line)[i]
  }

  lemma {:induction false} LoadUnderway(w: World, me: nat)
    requires me < |w.clients| && Inv(w) && Linked(w)
    ensures Underway(Progress(LoadEnv(w, me), 0, false), me, w.clients[me].id, w.clients[me].login)
  {
    LoadKeeps(w, me);
    SameLinked(w, LoadEnv(w, me));
  }

  lemma {:induction false} ThroughGrows(w: World, s: Step, i: nat)
    requires Inv(w) && s.Says? && May(w, s) && i < |CmdsOf(s.line)|
    ensures Grows(Through(w, s, i).w, Do(w, s))
  {
    var me := FindFd(w.clients, s.fd);
    LoadKeeps(w, me);
    TheRestGrows(Progress(LoadEnv(w, me), 0, false), me, CmdsOf(s.line), i + 1);
    SayGrows(w, me, s.line);
  }

  lemma {:induction false} LineAsSaid(w: World, s: Step, i: nat) returns (n: nat)
    requires Inv(w) && Linked(w) && s.Says? && May(w, s) && i < |CmdsOf(s.line)| && !Through(w, s, i).refused
    ensures var c, w' := w.clients[FindFd(w.clients, s.fd)], Do(w, s);
            AsSaid(w'.made, w'.log, n, c.id, c.login, CmdsOf(s.line)[i])
  {
    var me := FindFd(w.clients, s.fd);
    var cmds, c, w' := CmdsOf(s.line), w.clients[me], Do(w, s);
    LoadUnderway(w, me);
    var at := ExecuteAllAsSaid(Progress(LoadEnv(w, me), 0, false), me, c.id, c.login, cmds[..i + 1]);
    n := at[i];
    ThroughGrows(w, s, i);
    var g := Through(w, s, i);
    AsSaidLater(g.w.made, g.w.log, w'.made, w'.log, n, c.id, c.login, cmds[i]);
  }

  lemma {:induction false} RunStep(msock: int, steps: seq<Step>, k: nat)
    requires Possible(msock, steps) && k < |steps|
    ensures Possible(msock, steps[..k]) && May(Run(msock, steps[..k]), steps[k])
    ensures Grows(Do(Run(msock, steps[..k]), steps[k]), Run(msock, steps))
  {
    RunGrows(msock, steps, k + 1);
    assert steps[..k + 1][..k] == steps[..k];
  }

  /** In every run, each command that is not refused has run as it was said by its client: its words and
      sink, the files and user pipes it names for output and input, the last of each kind. */
  lemma {:induction false} RunsAsSaid(msock: int, steps: seq<Step>, k: nat, i: nat) returns (n: nat)
    requires Possible(msock, steps) && GoesThrough(msock, steps, k, i)
    ensures var w, c := Run(msock, steps), Speaker(msock, steps, k, i);
            AsSaid(w.made, w.log, n, c.id, c.login, Said(msock, steps, k, i))
  {
    var w0, w, c := Run(msock, steps[..k]), Run(msock, steps), Speaker(msock, steps, k, i);
    SoundRun(msock, steps[..k]);
    n := LineAsSaid(w0, steps[k], i);
    RunStep(msock, steps, k);
    var w1 := Do(w0, steps[k]);
    AsSaidLater(w1.made, w1.log, w.made, w.log, n, c.id, c.login, Said(msock, steps, k, i));
  }

  // ---------- from one user to the other ----------

  /** Of one pair only one pipe stands at a time. */
  lemma {:induction false} OneStands(log: seq<Event>, m: int, m': int, n: nat, k: Pair, p: nat, p': nat)
    requires Replay(log).Some? && StandsAt(log, m, n, k, p) && StandsAt(log, m', n, k, p')
    ensures p == p'
  {
    LawfulBefore(log, n);
    PrefixStanding(log, m, n, k);
    PrefixStanding(log, m', n, k);
    StandingIsLinked(log[..n], m, k);
    StandingIsLinked(log[..n], m', k);
  }

  /** One command makes at most one pipe for a pair. */
  lemma {:induction false} OneMade(log: seq<Event>, m: int, m': int, n: nat, k: Pair, p: nat, p': nat)
    requires Replay(log).Some? && MadeFor(log, m, n, k, p) && MadeFor(log, m', n, k, p')
    ensures p == p'
  {
    assert !Ended(log, m, n, k) && !Ended(log, m', n, k);
    OneStands(log, m, m', n, k, p, p');
  }

  /** One user's command ends with `>n`, another's is by that user and ends with `<n` for the first: the
      second reads the pipe that is the first one's output, unless that pipe has come to its end by then
      or a numbered pipe is due. */
  lemma {:induction false} SentIsReceived(made: seq<Owner>, log: seq<Event>, n: nat, c: Cmd, from: int, l: nat,
                                          n': nat, c': Cmd, to: int, l': nat) returns (m: int)
    requires Replay(log).Some? && AsSaid(made, log, n, from, l, c) && AsSaid(made, log, n', to, l', c')
    requires c.sink.NoPipe? && LastOut(c.ops) == Some(ToUser(to)) && LastIn(c'.ops) == Some(FromUser(from))
    ensures log[n].stdout.ToPipe? && MadeFor(log, m, n, (from, to), log[n].stdout.pipe)
    ensures NumberedPipe(made, log[n'].stdin).None? && m < n' && !Ended(log, m, n', (from, to)) ==>
              log[n'].stdin == FromPipe(log[n].stdout.pipe)
  {
    var k, p := (from, to), log[n].stdout.pipe;
    m :| MadeFor(log, m, n, k, p);
    if NumberedPipe(made, log[n'].stdin).None? && m < n' && !Ended(log, m, n', k) {
      var m' :| StandsAt(log, m', n', k, log[n'].stdin.pipe);
      OneStands(log, m, m', n', k, p, log[n'].stdin.pipe);
    }
  }

  /** The other way round: the pipe a command reads with `<n` was made for the two users, and is the
      output of the command that made it, if that command ends with `>n` for the reader. */
  lemma {:induction false} ReceivedWasSent(made: seq<Owner>, log: seq<Event>, n: nat, c: Cmd, from: int, l: nat,
                                           n': nat, c': Cmd, to: int, l': nat, m: int)
    requires Replay(log).Some? && AsSaid(made, log, n, from, l, c) && AsSaid(made, log, n', to, l', c')
    requires c.sink.NoPipe? && LastOut(c.ops) == Some(ToUser(to)) && LastIn(c'.ops) == Some(FromUser(from))
    requires NumberedPipe(made, log[n'].stdin).None?
    requires StandsAt(log, m, n', (from, to), log[n'].stdin.pipe) && m < n && OneCommand(log, m, n)
    ensures log[n].stdout == ToPipe(log[n'].stdin.pipe)
  {
    var k := (from, to);
    var m' :| MadeFor(log, m', n, k, log[n].stdout.pipe);
    OneMade(log, m, m', n, k, log[n'].stdin.pipe, log[n].stdout.pipe);
  }

  /** In every run: what one user's command sends with `>n` is what the other user's command reads with
      `<n`, unless by then the pipe has come to its end or a numbered pipe is due. */
  lemma {:induction false} UserPipesCarry(msock: int, steps: seq<Step>, k: nat, i: nat, k': nat, i': nat)
    returns (n: nat, n': nat, m: int)
    requires Possible(msock, steps) && GoesThrough(msock, steps, k, i) && GoesThrough(msock, steps, k', i')
    requires Said(msock, steps, k, i).sink.NoPipe?
    requires LastOut(Said(msock, steps, k, i).ops) == Some(ToUser(Speaker(msock, steps, k', i').id))
    requires LastIn(Said(msock, steps, k', i').ops) == Some(FromUser(Speaker(msock, steps, k, i).id))
    ensures var w, a, b := Run(msock, steps), Speaker(msock, steps, k, i), Speaker(msock, steps, k', i');
            && AsSaid(w.made, w.log, n, a.id, a.login, Said(msock, steps, k, i))
            && AsSaid(w.made, w.log, n', b.id, b.login, Said(msock, steps, k', i'))
            && w.log[n].stdout.ToPipe? && MadeFor(w.log, m, n, (a.id, b.id), w.log[n].stdout.pipe)
            && (NumberedPipe(w.made, w.log[n'].stdin).None? && m < n' && !Ended(w.log, m, n', (a.id, b.id)) ==>
                  w.log[n'].stdin == FromPipe(w.log[n].stdout.pipe))
  {
    var w, a, b := Run(msock, steps), Speaker(msock, steps, k, i), Speaker(msock, steps, k', i');
    EveryRunIsGood(msock, steps);
    n := RunsAsSaid(msock, steps, k, i);
    n' := RunsAsSaid(msock, steps, k', i');
    m := SentIsReceived(w.made, w.log, n, Said(msock, steps, k, i), a.id, a.login,
                        n', Said(msock, steps, k', i'), b.id, b.login);
  }
}
