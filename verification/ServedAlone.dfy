/** For every client that uses no user pipes there is a run in which it is alone and says the same. */
module ServedAlone {
  import opened ServerSyntax
  import opened ServerModel
  import opened ServerInvariant
  import opened ServerLeaving
  import opened ServerWiring
  import PipeOwnership
  import opened ServerRuns
  import opened NonInterference
  import PS = PipeSchedule

  /** The lines of one login, in order. */
  ghost function Lines(msock: int, steps: seq<Step>, login: nat): seq<string>
    requires Possible(msock, steps)
  {
    if steps == [] then [] else
      var n := |steps| - 1;
      var w, before := Run(msock, steps[..n]), Lines(msock, steps[..n], login);
      match steps[n]
      case Says(fd, line) => if w.clients[FindFd(w.clients, fd)].login == login then before + [line] else before
      case _ => before
  }

  ghost predicate AllSafeLines(lines: seq<string>) { forall i :: 0 <= i < |lines| ==> SafeLine(lines[i]) }

  ghost function Commands(lines: seq<string>): seq<Cmd>
    requires AllSafeLines(lines)
  {
    if lines == [] then [] else Commands(lines[..|lines| - 1]) + CmdsOf(lines[|lines| - 1])
  }

  lemma {:induction false} SpokenIsCommands(msock: int, steps: seq<Step>, login: nat)
    requires Possible(msock, steps)
    ensures AllSafeLines(Lines(msock, steps, login))
    ensures Spoken(msock, steps, login) == Commands(Lines(msock, steps, login))
  {
    if steps != [] {
      var n := |steps| - 1;
      SpokenIsCommands(msock, steps[..n], login);
      var before, lines := Lines(msock, steps[..n], login), Lines(msock, steps, login);
      if |lines| > |before| { assert lines[..|before|] == before; }
    }
  }

  /** The line's last command is `exit`. */
  predicate Leaving(line: string) {
    SafeLine(line) && CmdsOf(line) != [] && CmdsOf(line)[|CmdsOf(line)| - 1].args[0] == "exit"
  }

  ghost predicate Here(clients: seq<Client>, login: nat) { exists i :: 0 <= i < |clients| && clients[i].login == login }

  // ---------- when a client leaves ----------

  lemma {:induction false} PlainStatus(g: Progress, me: nat, cmds: seq<Cmd>, login: nat, done: seq<Cmd>)
    requires Plainly(g, me, login, done) && UserFree(cmds) && forall i :: 0 <= i < |cmds| ==> SafeCmd(cmds[i])
    ensures ExecuteAll(g, me, cmds).status
         == if cmds == [] then g.status else if cmds[|cmds| - 1].args[0] == "exit" then -1 else 0
  {
    if cmds != [] {
      var n := |cmds| - 1;
      PlainExecutesAll(g, me, cmds[..n], login, done);
      assert OpsUserFree(cmds[n].ops);
      PlainRuns(ExecuteAll(g, me, cmds[..n]).w, me, cmds[n]);
    }
  }

  /** A line without user pipes ends the connection exactly when its last command is `exit`. */
  lemma {:induction false} LeavesIff(w: World, me: nat, line: string, login: nat, done: seq<Cmd>)
    requires me < |w.clients| && SafeLine(line) && Inv(w) && w.clients[me].login == login
    requires EnactsAll(Deeds(w.log, login), done) && UserFree(CmdsOf(line))
    ensures (RunLine(w, me, line).status == -1) <==> Leaving(line)
  {
    LoadKeeps(w, me);
    assert Plainly(Progress(LoadEnv(w, me), 0, false), me, login, done);
    PlainStatus(Progress(LoadEnv(w, me), 0, false), me, CmdsOf(line), login, done);
  }

  lemma {:induction false} StatusOfAll(g: Progress, me: nat, cmds: seq<Cmd>)
    requires me < |g.w.clients| && !g.refused && g.status == 0 && forall i :: 0 <= i < |cmds| ==> SafeCmd(cmds[i])
    ensures var g' := ExecuteAll(g, me, cmds);
            g'.status == if !g'.refused && cmds != [] && cmds[|cmds| - 1].args[0] == "exit" then -1 else 0
  {
    if cmds != [] { StatusOfAll(g, me, cmds[..|cmds| - 1]); }
  }

  /** Any line ends the connection exactly when none of its commands is refused and its last is `exit`. */
  lemma {:induction false} LeavesUnlessRefused(w: World, me: nat, line: string)
    requires me < |w.clients| && SafeLine(line)
    ensures (RunLine(w, me, line).status == -1) <==> !RunLine(w, me, line).refused && Leaving(line)
  {
    StatusOfAll(Progress(LoadEnv(w, me), 0, false), me, CmdsOf(line));
  }

  /** What a line does to the list of clients: they are the same people, or its speaker has left. */
  lemma {:induction false} SayPeople(w: World, me: nat, line: string)
    requires me < |w.clients| && SafeLine(line) && Inv(w)
    ensures var g, w' := RunLine(w, me, line), Say(w, me, line);
            if g.status == -1 then
              !Here(w'.clients, w.clients[me].login) && (forall l: nat :: Here(w'.clients, l) ==> Here(w.clients, l))
            else SamePeople(w.clients, w'.clients)
    ensures Say(w, me, line).logins == RunLine(w, me, line).w.logins
  {
    var g := RunLine(w, me, line);
    RunLineKeeps(w, me, line);
    if g.status == -1 {
      ExitIsLeft(g.w, me);
      assert IsUserId(g.w.clients[me].id) && |g.w.table| == MAX_CLIENTS;
      LeftPeople(w.clients, g.w.clients, me, g.w.clients[me].id, w.logins);
    }
  }

  lemma {:induction false} LeftPeople(before: seq<Client>, now: seq<Client>, me: nat, id: int, logins: nat)
    requires SamePeople(before, now) && me < |now| && LoginsOk(before, logins)
    ensures var rest := Others(now, me, id);
            !Here(rest, before[me].login) && (forall l: nat :: Here(rest, l) ==> Here(before, l))
  {
    var rest := Others(now, me, id);
    forall i | 0 <= i < |rest|
      ensures rest[i].login == before[if i < me then i else i + 1].login && rest[i].login != before[me].login
    {
      var i' := if i < me then i else i + 1;
      assert rest[i] == Pruned(now[i'], id);
      assert before[if i' < me then i' else me].login != before[if i' < me then me else i'].login;
    }
    forall l: nat | Here(rest, l) ensures Here(before, l) {
      var i :| 0 <= i < |rest| && rest[i].login == l;
      assert before[if i < me then i else i + 1].login == l;
    }
  }

  lemma {:induction false} PeopleHere(a: seq<Client>, b: seq<Client>, login: nat)
    requires SamePeople(a, b)
    ensures Here(a, login) <==> Here(b, login)
  {
    if Here(a, login) {
      var i :| 0 <= i < |a| && a[i].login == login;
      assert b[i].login == login;
    }
    if Here(b, login) {
      var i :| 0 <= i < |b| && b[i].login == login;
      assert a[i].login == login;
    }
  }

  // ---------- the run with the others ----------

  /** As far as one login is concerned: none of its lines has ended the connection, or only the last
      and it has gone for good. */
  ghost predicate Course(w: World, login: nat, lines: seq<string>) {
    && (forall k :: 0 <= k < |lines| - 1 ==> !Leaving(lines[k]))
    && (lines != [] ==> login < w.logins)
    && (lines != [] && Leaving(lines[|lines| - 1]) ==> !Here(w.clients, login))
  }

  /** Nobody comes by speaking, and who has said `exit` last is gone. */
  lemma {:induction false} SayHere(w: World, me: nat, line: string, login: nat)
    requires me < |w.clients| && SafeLine(line) && Inv(w)
    ensures var w' := Say(w, me, line);
            && w'.logins == w.logins
            && (Here(w'.clients, login) ==> Here(w.clients, login))
            && (RunLine(w, me, line).status == -1 ==> !Here(w'.clients, w.clients[me].login))
  {
    SayPeople(w, me, line);
    RunLineLogins(w, me, line);
    if RunLine(w, me, line).status != -1 { PeopleHere(w.clients, Say(w, me, line).clients, login); }
  }

  lemma {:induction false} CourseOfMine(w: World, me: nat, line: string, lines: seq<string>, done: seq<Cmd>)
    requires me < |w.clients| && SafeLine(line) && Inv(w) && Course(w, w.clients[me].login, lines)
    requires EnactsAll(Deeds(w.log, w.clients[me].login), done) && UserFree(CmdsOf(line))
    ensures Course(Say(w, me, line), w.clients[me].login, lines + [line])
  {
    var login := w.clients[me].login;
    assert Here(w.clients, login);
    LeavesIff(w, me, line, login, done);
    SayHere(w, me, line, login);
    LoginIsOld(w, me);
  }

  lemma {:induction false} LoginIsOld(w: World, me: nat)
    requires me < |w.clients| && LoginsOk(w.clients, w.logins)
    ensures w.clients[me].login < w.logins
  {
  }

  lemma {:induction false} CourseOfOthers(w: World, me: nat, line: string, login: nat, lines: seq<string>)
    requires me < |w.clients| && SafeLine(line) && Inv(w) && Course(w, login, lines)
    ensures Course(Say(w, me, line), login, lines)
  {
    SayHere(w, me, line, login);
  }

  lemma {:induction false} ConnectCourse(w: World, fd: int, login: nat, lines: seq<string>)
    requires Course(w, login, lines)
    ensures Course(Accept(w, fd), login, lines)
  {
    var w' := Accept(w, fd);
    if Here(w'.clients, login) && login < w.logins {
      var i :| 0 <= i < |w'.clients| && w'.clients[i].login == login;
      assert w.clients[i].login == login;
    }
  }

  lemma {:induction false} HangUpCourse(w: World, fd: int, login: nat, lines: seq<string>)
    requires Inv(w) && May(w, HangsUp(fd)) && Course(w, login, lines)
    ensures Course(Do(w, HangsUp(fd)), login, lines)
  {
    var k := FindFd(w.clients, fd);
    ExitIsLeft(w, k);
    assert IsUserId(w.clients[k].id) && |w.table| == MAX_CLIENTS;
    LeftPeople(w.clients, w.clients, k, fd, w.logins);
  }

  lemma {:induction false} SpeechCourse(w: World, fd: int, line: string, login: nat, lines: seq<string>, done: seq<Cmd>)
    requires Inv(w) && May(w, Says(fd, line)) && Course(w, login, lines) && EnactsAll(Deeds(w.log, login), done)
    requires IsMine(w, Says(fd, line), login) ==> UserFree(CmdsOf(line))
    ensures Course(Do(w, Says(fd, line)), login, if IsMine(w, Says(fd, line), login) then lines + [line] else lines)
  {
    var me := FindFd(w.clients, fd);
    if w.clients[me].login == login {
      CourseOfMine(w, me, line, lines, done);
    } else {
      CourseOfOthers(w, me, line, login, lines);
    }
  }

  /** Whether the step is a line of this login. */
  ghost predicate IsMine(w: World, s: Step, login: nat)
    requires May(w, s)
  {
    s.Says? && w.clients[FindFd(w.clients, s.fd)].login == login
  }

  lemma {:induction false} StepCourse(w: World, s: Step, login: nat, lines: seq<string>, done: seq<Cmd>)
    requires Inv(w) && May(w, s) && Course(w, login, lines) && EnactsAll(Deeds(w.log, login), done)
    requires IsMine(w, s, login) ==> UserFree(CmdsOf(s.line))
    ensures Course(Do(w, s), login, if IsMine(w, s, login) then lines + [s.line] else lines)
  {
    match s
    case Connects(fd) => ConnectCourse(w, fd, login, lines);
    case Says(fd, line) => SpeechCourse(w, fd, line, login, lines, done);
    case HangsUp(fd) => HangUpCourse(w, fd, login, lines);
  }

  lemma {:induction false} RunCourse(msock: int, steps: seq<Step>, login: nat)
    requires Possible(msock, steps) && UserFree(Spoken(msock, steps, login))
    ensures Course(Run(msock, steps), login, Lines(msock, steps, login))
  {
    if steps != [] {
      var n := |steps| - 1;
      SpokenGrows(msock, steps, login);
      RunCourse(msock, steps[..n], login);
      RunIsInv(msock, steps[..n]);
      RunsItsOwnLines(msock, steps[..n], login);
      StepCourse(Run(msock, steps[..n]), steps[n], login,
                 Lines(msock, steps[..n], login), Spoken(msock, steps[..n], login));
    }
  }

  lemma {:induction false} RunIsInv(msock: int, steps: seq<Step>)
    requires Possible(msock, steps)
    ensures Inv(Run(msock, steps))
  {
    EveryRunIsGood(msock, steps);
  }

  // ---------- the run alone ----------

  ghost function Alone(fd: int, lines: seq<string>): seq<Step> {
    if lines == [] then [Connects(fd)] else Alone(fd, lines[..|lines| - 1]) + [Says(fd, lines[|lines| - 1])]
  }

  /** The only client there has ever been, as yet connected. */
  ghost predicate OnlyClient(w: World, fd: int) {
    |w.clients| == 1 && w.clients[0].fd == fd && w.clients[0].login == 0
  }

  lemma {:induction false} AloneConnects(msock: int, fd: int)
    requires fd != msock
    ensures var steps := Alone(fd, []);
            Possible(msock, steps) && OnlyClient(Run(msock, steps), fd) && Lines(msock, steps, 0) == []
  {
    assert [Connects(fd)][..0] == [];
    assert Possible(msock, []);
    var w := Initial(msock);
    assert w.table[0] == 0;
    assert FreeSlot(w.table) == 0;
  }

  lemma {:induction false} OnlyClientSays(w: World, fd: int, line: string, done: seq<Cmd>)
    requires OnlyClient(w, fd) && SafeLine(line) && Inv(w) && UserFree(CmdsOf(line)) && EnactsAll(Deeds(w.log, 0), done)
    ensures !Leaving(line) ==> OnlyClient(Say(w, 0, line), fd)
  {
    LeavesIff(w, 0, line, 0, done);
    SayPeople(w, 0, line);
  }

  lemma {:induction false} AloneGrows(msock: int, fd: int, lines: seq<string>, line: string)
    requires Possible(msock, Alone(fd, lines)) && SafeLine(line) && OnlyClient(Run(msock, Alone(fd, lines)), fd)
    ensures Possible(msock, Alone(fd, lines + [line]))
    ensures Run(msock, Alone(fd, lines + [line])) == Say(Run(msock, Alone(fd, lines)), 0, line)
    ensures Lines(msock, Alone(fd, lines + [line]), 0) == Lines(msock, Alone(fd, lines), 0) + [line]
  {
    var before, steps := Alone(fd, lines), Alone(fd, lines + [line]);
    assert (lines + [line])[..|lines|] == lines;
    assert steps == before + [Says(fd, line)] && steps[..|before|] == before;
    assert FindFd(Run(msock, before).clients, fd) == 0;
  }

  lemma {:induction false} AloneSays(msock: int, fd: int, lines: seq<string>, line: string)
    requires Possible(msock, Alone(fd, lines)) && SafeLine(line) && UserFree(CmdsOf(line))
    requires OnlyClient(Run(msock, Alone(fd, lines)), fd) && Lines(msock, Alone(fd, lines), 0) == lines
    requires AllSafeLines(lines) && UserFree(Commands(lines))
    ensures Possible(msock, Alone(fd, lines + [line])) && Lines(msock, Alone(fd, lines + [line]), 0) == lines + [line]
    ensures !Leaving(line) ==> OnlyClient(Run(msock, Alone(fd, lines + [line])), fd)
  {
    var before := Alone(fd, lines);
    AloneGrows(msock, fd, lines, line);
    SpokenIsCommands(msock, before, 0);
    RunIsInv(msock, before);
    RunsItsOwnLines(msock, before, 0);
    OnlyClientSays(Run(msock, before), fd, line, Spoken(msock, before, 0));
  }

  lemma {:induction false} LinesButLast(lines: seq<string>)
    requires lines != [] && AllSafeLines(lines) && UserFree(Commands(lines))
    ensures var n := |lines| - 1;
            && lines == lines[..n] + [lines[n]] && AllSafeLines(lines[..n])
            && UserFree(Commands(lines[..n])) && UserFree(CmdsOf(lines[n]))
  {
    UserFreeParts(Commands(lines[..|lines| - 1]), CmdsOf(lines[|lines| - 1]));
  }

  lemma {:induction false} AloneIsPossible(msock: int, fd: int, lines: seq<string>)
    requires fd != msock && AllSafeLines(lines) && UserFree(Commands(lines))
    requires forall k :: 0 <= k < |lines| - 1 ==> !Leaving(lines[k])
    ensures Possible(msock, Alone(fd, lines)) && Lines(msock, Alone(fd, lines), 0) == lines
    ensures lines == [] || !Leaving(lines[|lines| - 1]) ==> OnlyClient(Run(msock, Alone(fd, lines)), fd)
  {
    if lines == [] {
      AloneConnects(msock, fd);
    } else {
      var n := |lines| - 1;
      LinesButLast(lines);
      AloneIsPossible(msock, fd, lines[..n]);
      AloneSays(msock, fd, lines[..n], lines[n]);
    }
  }

  /** A client that uses no user pipes runs, in any run, the commands it would run if it connected
      alone and said the same, and its numbered pipes connect them in the same way. */
  lemma {:induction false} ServedAsIfAlone(msock: int, steps: seq<Step>, login: nat, fd: int)
    requires Possible(msock, steps) && UserFree(Spoken(msock, steps, login)) && fd != msock
    ensures var alone := Alone(fd, Lines(msock, steps, login));
            && Possible(msock, alone)
            && SameService(Run(msock, steps), login, Run(msock, alone), 0, Spoken(msock, steps, login))
  {
    var lines := Lines(msock, steps, login);
    SpokenIsCommands(msock, steps, login);
    RunCourse(msock, steps, login);
    AloneIsPossible(msock, fd, lines);
    SpokenIsCommands(msock, Alone(fd, lines), 0);
    SameLinesSameWiring(msock, steps, login, msock, Alone(fd, lines), 0);
  }

  /** Two logins have run the same commands, wired alike. */
  ghost predicate SameService(w: World, login: nat, w': World, login': nat, cmds: seq<Cmd>) {
    var d, d' := Deeds(w.log, login), Deeds(w'.log, login');
    var wires := PS.Run(Canonical(JobsOf(d))).wires;
    && EnactsAll(d, cmds) && EnactsAll(d', cmds)
    && WiresRename(JobsOf(d), wires, WiresOf(w.made, d))
    && WiresRename(JobsOf(d'), wires, WiresOf(w'.made, d'))
  }

  lemma {:induction false} RunLineLogins(w: World, me: nat, line: string)
    requires me < |w.clients| && SafeLine(line) && Inv(w)
    ensures RunLine(w, me, line).w.logins == w.logins
  {
    ExecuteAllLogins(Progress(LoadEnv(w, me), 0, false), me, CmdsOf(line));
  }

  lemma {:induction false} ExecuteAllLogins(g: Progress, me: nat, cmds: seq<Cmd>)
    requires me < |g.w.clients| && forall i :: 0 <= i < |cmds| ==> SafeCmd(cmds[i])
    ensures ExecuteAll(g, me, cmds).w.logins == g.w.logins
  {
    if cmds != [] {
      var n := |cmds| - 1;
      ExecuteAllLogins(g, me, cmds[..n]);
      ExecuteLogins(ExecuteAll(g, me, cmds[..n]), me, cmds[n]);
    }
  }

  lemma {:induction false} ExecuteLogins(g: Progress, me: nat, c: Cmd)
    requires me < |g.w.clients| && SafeCmd(c)
    ensures Execute(g, me, c).w.logins == g.w.logins
  {
    if !g.refused {
      ApplyAllQuiet(Fresh(g.w), me, c.ops);
      var q := Prepare(g.w, me, c);
      if !q.refused {
        RunsFirst(q, me, c.args);
        SweepAllQuiet(PipeOwnership.Finished(q, me, c.args), q.takes + [q.w.clients[me].id]);
      }
    }
  }
}
