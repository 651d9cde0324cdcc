/** A client that uses no user pipes is served as if it were alone. */
module NonInterference {
  import opened ServerSyntax
  import opened ServerModel
  import opened ServerInvariant
  import opened ServerWiring
  import opened ServerRuns
  import PS = PipeSchedule

  ghost predicate OpsUserFree(ops: seq<Op>) { forall i :: 0 <= i < |ops| ==> !IsUserOp(ops[i]) }

  ghost predicate UserFree(cmds: seq<Cmd>) { forall i :: 0 <= i < |cmds| ==> OpsUserFree(cmds[i].ops) }

  /** The file a command's output is sent to, if any. */
  function FileOut(ops: seq<Op>): (h: Handle)
    ensures h.Default? || h.Opened?
  {
    if ops == [] then Default else
      var n := |ops| - 1;
      if ops[n].OutFile? then Opened(ops[n].name) else FileOut(ops[..n])
  }

  function FileIn(ops: seq<Op>): (h: Handle)
    ensures h.Default? || h.Opened?
  {
    if ops == [] then Default else
      var n := |ops| - 1;
      if ops[n].InFile? then Opened(ops[n].name) else FileIn(ops[..n])
  }

  /** The event is this command: its words, its pipe number, and its files where no numbered pipe
      takes their place. */
  ghost predicate Enacts(e: Event, c: Cmd) {
    && e.Ran? && e.args == c.args && e.sink == SinkNumber(c.sink)
    && (e.stdin.FromPipe? || e.stdin == FileIn(c.ops))
    && (if c.sink.NoPipe? then e.stdout == FileOut(c.ops) else e.stdout.ToPipe?)
    && e.stderr == if c.sink.ErrPipe? then e.stdout else Default
  }

  ghost predicate EnactsAll(deeds: seq<Event>, cmds: seq<Cmd>) {
    |deeds| == |cmds| && forall i :: 0 <= i < |deeds| ==> Enacts(deeds[i], cmds[i])
  }

  // ---------- one line ----------

  lemma {:induction false} PlainOps(q: Prep, me: nat, ops: seq<Op>)
    requires me < |q.w.clients| && OpsUserFree(ops) && q == Fresh(q.w)
    ensures ApplyAll(q, me, ops) == q.(stdin := FileIn(ops), stdout := FileOut(ops))
  {
    if ops != [] { PlainOps(q, me, ops[..|ops| - 1]); }
  }

  /** A command without user pipes is never refused, and runs as it is written. */
  lemma {:induction false} PlainRuns(w: World, me: nat, c: Cmd)
    requires me < |w.clients| && SafeCmd(c) && OpsUserFree(c.ops)
    ensures var q := Prepare(w, me, c);
            !q.refused && Enacts(RanEvent(q, me, c.args), c)
  {
    PlainOps(Fresh(w), me, c.ops);
    if !c.sink.NoPipe? { SinkOpens(ApplyAll(Fresh(w), me, c.ops), me, c.sink); }
  }

  /** Nothing has been refused, and the login has run exactly the commands in `done`. */
  ghost predicate Plainly(g: Progress, me: nat, login: nat, done: seq<Cmd>) {
    && me < |g.w.clients| && !g.refused && Inv(g.w)
    && g.w.clients[me].login == login
    && EnactsAll(Deeds(g.w.log, login), done)
  }

  lemma {:induction false} PlainStep(g: Progress, me: nat, c: Cmd) returns (e: Event)
    requires me < |g.w.clients| && SafeCmd(c) && OpsUserFree(c.ops) && !g.refused && Inv(g.w)
    ensures var g', login := Execute(g, me, c), g.w.clients[me].login;
            && !g'.refused && g'.w.clients[me].login == login
            && Enacts(e, c) && Deeds(g'.w.log, login) == Deeds(g.w.log, login) + [e]
  {
    PlainRuns(g.w, me, c);
    PreparedClient(g.w, me, c);
    CommandSteps(g.w, me, c);
    e := RanEvent(Prepare(g.w, me, c), me, c.args);
  }

  lemma {:induction false} PlainExecutes(g: Progress, me: nat, c: Cmd, login: nat, done: seq<Cmd>)
    requires Plainly(g, me, login, done) && SafeCmd(c) && OpsUserFree(c.ops)
    ensures Plainly(Execute(g, me, c), me, login, done + [c])
  {
    var e := PlainStep(g, me, c);
    EnactsPush(Deeds(g.w.log, login), done, e, c);
    KeepsInv(g, me, c);
  }

  lemma {:induction false} EnactsPush(deeds: seq<Event>, cmds: seq<Cmd>, e: Event, c: Cmd)
    requires EnactsAll(deeds, cmds) && Enacts(e, c)
    ensures EnactsAll(deeds + [e], cmds + [c])
  {
  }

  lemma {:induction false} KeepsInv(g: Progress, me: nat, c: Cmd)
    requires me < |g.w.clients| && SafeCmd(c) && Inv(g.w)
    ensures Inv(Execute(g, me, c).w)
  {
    ExecuteKeeps(g, me, c);
  }

  lemma {:induction false} PlainExecutesAll(g: Progress, me: nat, cmds: seq<Cmd>, login: nat, done: seq<Cmd>)
    requires Plainly(g, me, login, done) && UserFree(cmds) && forall i :: 0 <= i < |cmds| ==> SafeCmd(cmds[i])
    ensures Plainly(ExecuteAll(g, me, cmds), me, login, done + cmds)
  {
    if cmds == [] {
      assert done + cmds == done;
    } else {
      var n := |cmds| - 1;
      PlainExecutesAll(g, me, cmds[..n], login, done);
      assert OpsUserFree(cmds[n].ops);
      PlainExecutes(ExecuteAll(g, me, cmds[..n]), me, cmds[n], login, done + cmds[..n]);
      Regroup(done, cmds);
    }
  }

  lemma {:induction false} Regroup(done: seq<Cmd>, cmds: seq<Cmd>)
    requires cmds != []
    ensures done + cmds == done + cmds[..|cmds| - 1] + [cmds[|cmds| - 1]]
  {
  }

  // ---------- other clients' lines ----------

  /** Somebody else is speaking, and the login has run just `deeds`. */
  ghost predicate Apart(g: Progress, me: nat, login: nat, deeds: seq<Event>) {
    me < |g.w.clients| && Inv(g.w) && g.w.clients[me].login != login && Deeds(g.w.log, login) == deeds
  }

  lemma {:induction false} OtherExecutes(g: Progress, me: nat, c: Cmd, login: nat, deeds: seq<Event>)
    requires Apart(g, me, login, deeds) && SafeCmd(c)
    ensures Apart(Execute(g, me, c), me, login, deeds)
  {
    ExecuteKeeps(g, me, c);
    if !g.refused {
      if Prepare(g.w, me, c).refused {
        ApplyAllQuiet(Fresh(g.w), me, c.ops);
      } else {
        PreparedClient(g.w, me, c);
        CommandSteps(g.w, me, c);
      }
    }
  }

  lemma {:induction false} OtherExecutesAll(g: Progress, me: nat, cmds: seq<Cmd>, login: nat, deeds: seq<Event>)
    requires Apart(g, me, login, deeds) && forall i :: 0 <= i < |cmds| ==> SafeCmd(cmds[i])
    ensures Apart(ExecuteAll(g, me, cmds), me, login, deeds)
  {
    if cmds != [] {
      var n := |cmds| - 1;
      OtherExecutesAll(g, me, cmds[..n], login, deeds);
      OtherExecutes(ExecuteAll(g, me, cmds[..n]), me, cmds[n], login, deeds);
    }
  }

  // ---------- whole runs ----------

  /** The commands spelled by the lines of one login, in order. */
  ghost function Spoken(msock: int, steps: seq<Step>, login: nat): seq<Cmd>
    requires Possible(msock, steps)
  {
    if steps == [] then [] else
      var n := |steps| - 1;
      var w, before := Run(msock, steps[..n]), Spoken(msock, steps[..n], login);
      match steps[n]
      case Says(fd, line) =>
        if w.clients[FindFd(w.clients, fd)].login == login then before + CmdsOf(line) else before
      case _ => before
  }

  lemma {:induction false} LineDeeds(w: World, me: nat, line: string, login: nat, done: seq<Cmd>)
    requires me < |w.clients| && SafeLine(line) && Inv(w) && EnactsAll(Deeds(w.log, login), done)
    requires w.clients[me].login == login ==> UserFree(CmdsOf(line))
    ensures EnactsAll(Deeds(RunLine(w, me, line).w.log, login),
                      if w.clients[me].login == login then done + CmdsOf(line) else done)
  {
    var g0 := Progress(LoadEnv(w, me), 0, false);
    LoadKeeps(w, me);
    if w.clients[me].login == login {
      assert Plainly(g0, me, login, done);
      PlainExecutesAll(g0, me, CmdsOf(line), login, done);
    } else {
      assert Apart(g0, me, login, Deeds(w.log, login));
      OtherExecutesAll(g0, me, CmdsOf(line), login, Deeds(w.log, login));
    }
  }

  lemma {:induction false} SayIsLine(w: World, me: nat, line: string, login: nat)
    requires me < |w.clients| && SafeLine(line)
    ensures Deeds(Say(w, me, line).log, login) == Deeds(RunLine(w, me, line).w.log, login)
  {
    var g := RunLine(w, me, line);
    DeedsPush(g.w.log, LoggedOut(g.w.clients[me].id), login);
  }

  lemma {:induction false} OtherStepDeeds(w: World, s: Step, login: nat)
    requires May(w, s) && !s.Says?
    ensures Deeds(Do(w, s).log, login) == Deeds(w.log, login)
  {
    match s
    case Connects(fd) => DeedsPush(w.log, LoggedIn(w.logins, FreeSlot(w.table) + 1), login);
    case HangsUp(fd) => DeedsPush(w.log, LoggedOut(w.clients[FindFd(w.clients, fd)].id), login);
  }

  /** Whatever the others do, a login whose lines use no user pipes has run exactly the commands of
      its own lines, in order and as written. */
  lemma {:induction false} RunsItsOwnLines(msock: int, steps: seq<Step>, login: nat)
    requires Possible(msock, steps) && UserFree(Spoken(msock, steps, login))
    ensures EnactsAll(Deeds(Run(msock, steps).log, login), Spoken(msock, steps, login))
  {
    if steps != [] {
      var n := |steps| - 1;
      var w, before, s := Run(msock, steps[..n]), Spoken(msock, steps[..n], login), steps[n];
      EveryRunIsGood(msock, steps[..n]);
      SpokenGrows(msock, steps, login);
      RunsItsOwnLines(msock, steps[..n], login);
      if s.Says? {
        LineDeeds(w, FindFd(w.clients, s.fd), s.line, login, before);
        SayIsLine(w, FindFd(w.clients, s.fd), s.line, login);
      } else {
        OtherStepDeeds(w, s, login);
      }
    }
  }

  lemma {:induction false} SpokenGrows(msock: int, steps: seq<Step>, login: nat)
    requires Possible(msock, steps) && steps != [] && UserFree(Spoken(msock, steps, login))
    ensures var n := |steps| - 1;
            var w, s := Run(msock, steps[..n]), steps[n];
            UserFree(Spoken(msock, steps[..n], login))
            && (s.Says? && w.clients[FindFd(w.clients, s.fd)].login == login ==> UserFree(CmdsOf(s.line)))
  {
    var n := |steps| - 1;
    var w, s := Run(msock, steps[..n]), steps[n];
    if s.Says? && w.clients[FindFd(w.clients, s.fd)].login == login {
      UserFreeParts(Spoken(msock, steps[..n], login), CmdsOf(s.line));
    }
  }

  lemma {:induction false} UserFreeParts(a: seq<Cmd>, b: seq<Cmd>)
    requires UserFree(a + b)
    ensures UserFree(a) && UserFree(b)
  {
    assert forall i :: 0 <= i < |a| ==> (a + b)[i] == a[i];
    assert forall i :: 0 <= i < |b| ==> (a + b)[|a| + i] == b[i];
  }

  /** In any two runs, two logins that say the same, without user pipes, run the same commands, and
      these are wired alike: both wirings are the same one with other identities for the pipes. In
      one of the runs the login may be alone. */
  lemma {:induction false} SameLinesSameWiring(msock: int, steps: seq<Step>, login: nat,
                                               msock': int, steps': seq<Step>, login': nat)
    requires Possible(msock, steps) && Possible(msock', steps')
    requires Spoken(msock, steps, login) == Spoken(msock', steps', login') && UserFree(Spoken(msock, steps, login))
    ensures var w, w' := Run(msock, steps), Run(msock', steps');
            var d, d' := Deeds(w.log, login), Deeds(w'.log, login');
            var alone := PS.Run(Canonical(JobsOf(d))).wires;
            && EnactsAll(d, Spoken(msock, steps, login)) && EnactsAll(d', Spoken(msock, steps, login))
            && WiresRename(JobsOf(d), alone, WiresOf(w.made, d))
            && WiresRename(JobsOf(d'), alone, WiresOf(w'.made, d'))
  {
    var w, w' := Run(msock, steps), Run(msock', steps');
    var d, d' := Deeds(w.log, login), Deeds(w'.log, login');
    RunsItsOwnLines(msock, steps, login);
    RunsItsOwnLines(msock', steps', login');
    SameNumbers(d, d', Spoken(msock, steps, login));
    OwnWiring(msock, steps, login);
    OwnWiring(msock', steps', login');
  }

  lemma {:induction false} SameNumbers(d: seq<Event>, d': seq<Event>, cmds: seq<Cmd>)
    requires AllRan(d) && AllRan(d') && EnactsAll(d, cmds) && EnactsAll(d', cmds)
    ensures Canonical(JobsOf(d)) == Canonical(JobsOf(d'))
  {
    forall i | 0 <= i < |d| ensures d[i].sink == d'[i].sink {
      assert Enacts(d[i], cmds[i]) && Enacts(d'[i], cmds[i]);
    }
  }

  lemma {:induction false} OwnWiring(msock: int, steps: seq<Step>, login: nat)
    requires Possible(msock, steps)
    ensures var w := Run(msock, steps);
            var d := Deeds(w.log, login);
            WiresRename(JobsOf(d), PS.Run(Canonical(JobsOf(d))).wires, WiresOf(w.made, d))
  {
    EveryRunIsGood(msock, steps);
    var w := Run(msock, steps);
    assert LoginWired(w.log, w.made, login);
    WiringIsOwn(JobsOf(Deeds(w.log, login)));
  }
}
