/** Whole runs of the server: any clients, logging in, speaking and leaving in any order. */
module ServerRuns {
  import opened ServerSyntax
  import opened ServerModel
  import opened ServerInvariant
  import opened ServerLeaving
  import opened UserPipes
  import opened PipeOwnership
  import opened ServerWiring
  import opened ServerEnvironment
  import opened UserPipeHistory
  import PS = PipeSchedule

  /** A new connection on `fd`, a line from the client on `fd`, or its end of file. */
  datatype Step = Connects(fd: int) | Says(fd: int, line: string) | HangsUp(fd: int)

  /** What the kernel and the code's own demands allow: a new descriptor is not in use, lines are
      such as the code can take, and a client that hangs up has its descriptor for id. */
  ghost predicate May(w: World, s: Step) {
    match s
    case Connects(fd) => fd !in w.watched
    case Says(fd, line) => FindFd(w.clients, fd) < |w.clients| && SafeLine(line)
    case HangsUp(fd) => FindFd(w.clients, fd) < |w.clients| && w.clients[FindFd(w.clients, fd)].id == fd
  }

  function Do(w: World, s: Step): World
    requires May(w, s)
  {
    match s
    case Connects(fd) => Accept(w, fd)
    case Says(fd, line) => Say(w, FindFd(w.clients, fd), line)
    case HangsUp(fd) =>
      var k := FindFd(w.clients, fd);
      if IsUserId(w.clients[k].id) && |w.table| == MAX_CLIENTS then Leave(w, k, fd) else w
  }

  /** Everything that holds of the server in every reachable state. */
  ghost predicate Good(w: World) {
    Inv(w) && Linked(w) && Isolated(w) && ReadOnce(w) && Scheduled(w) && EnvFollows(w)
  }

  lemma {:induction false} InitialGood(msock: int)
    ensures Good(Initial(msock))
  {
    InitialOk(msock);
    InitialLinked(msock);
    assert forall login: nat :: LoginWired([], [], login);
  }

  lemma {:induction false} ConnectGood(w: World, fd: int)
    requires Good(w) && fd !in w.watched
    ensures Good(Accept(w, fd))
  {
    AcceptKeeps(w, fd);
    AcceptLinked(w, fd);
    AcceptLater(w, fd);
    LaterKeeps(w, Accept(w, fd));
    AcceptScheduled(w, fd);
    AcceptServes(w, fd);
  }

  lemma {:induction false} LeaveGood(w: World, k: nat)
    requires Good(w) && k < |w.clients|
    ensures Occupied(w.table, w.clients[k].id) && Good(Leave(w, k, w.clients[k].id))
  {
    ExitIsLeft(w, k);
    ExitKeeps(w, k);
    LeftLinked(w, k);
    LeftLater(w, k);
    LaterKeeps(w, Left(w, k));
    LeftScheduled(w, k);
    LeftServes(w, k);
  }

  lemma {:induction false} LineGood(w: World, me: nat, line: string)
    requires Good(w) && me < |w.clients| && SafeLine(line)
    ensures Good(RunLine(w, me, line).w)
  {
    RunLineKeeps(w, me, line);
    RunLineLinked(w, me, line);
    RunLineKeepsOwners(w, me, line);
    RunLineScheduled(w, me, line);
    RunLineServes(w, me, line);
  }

  lemma {:induction false} SayGood(w: World, me: nat, line: string)
    requires Good(w) && me < |w.clients| && SafeLine(line)
    ensures Good(Say(w, me, line))
  {
    LineGood(w, me, line);
    LeaveGood(RunLine(w, me, line).w, me);
  }

  lemma {:induction false} HangUpGood(w: World, k: nat)
    requires Good(w) && k < |w.clients| && w.clients[k].id == w.clients[k].fd
    ensures IsUserId(w.clients[k].id) && |w.table| == MAX_CLIENTS && Good(Leave(w, k, w.clients[k].fd))
  {
    LeaveGood(w, k);
    assert IdsOk(w.table, w.clients);
  }

  /** One step of any client keeps everything. */
  lemma {:induction false} StepGood(w: World, s: Step)
    requires Good(w) && May(w, s)
    ensures Good(Do(w, s))
  {
    match s
    case Connects(fd) => ConnectGood(w, fd);
    case Says(fd, line) => SayGood(w, FindFd(w.clients, fd), line);
    case HangsUp(fd) => HangUpGood(w, FindFd(w.clients, fd));
  }

  ghost predicate Possible(msock: int, steps: seq<Step>)
    decreases |steps|, 0
  {
    steps == [] || (Possible(msock, steps[..|steps| - 1]) && May(Run(msock, steps[..|steps| - 1]), steps[|steps| - 1]))
  }

  /** The server after these steps. */
  ghost function Run(msock: int, steps: seq<Step>): World
    requires Possible(msock, steps)
    decreases |steps|, 1
  {
    if steps == [] then Initial(msock) else Do(Run(msock, steps[..|steps| - 1]), steps[|steps| - 1])
  }

  /** Every reachable state is good. */
  lemma {:induction false} EveryRunIsGood(msock: int, steps: seq<Step>)
    requires Possible(msock, steps)
    ensures Good(Run(msock, steps))
  {
    if steps == [] {
      InitialGood(msock);
    } else {
      var n := |steps| - 1;
      EveryRunIsGood(msock, steps[..n]);
      StepGood(Run(msock, steps[..n]), steps[n]);
    }
  }

  /** In every run a pair's user pipes are created and come to their end by turns. */
  lemma {:induction false} UserPipesAlternate(msock: int, steps: seq<Step>, i: int, j: int, k: Pair)
    requires Possible(msock, steps) && i < j
    requires CreatedAt(Run(msock, steps).log, i, k) && CreatedAt(Run(msock, steps).log, j, k)
    ensures UserPipeHistory.Ended(Run(msock, steps).log, i, j, k)
  {
    EveryRunIsGood(msock, steps);
    CreationsAlternate(Run(msock, steps).log, i, j, k);
  }

  /** In every run the vectors hold a pipe for a pair of users exactly when its creation stands. */
  lemma {:induction false} VectorsHoldWhatStands(msock: int, steps: seq<Step>, k: Pair)
    requires Possible(msock, steps)
    ensures var w := Run(msock, steps);
            Kept(w.clients, k) <==> exists i :: Standing(w.log, i, k)
  {
    EveryRunIsGood(msock, steps);
    var w := Run(msock, steps);
    KeptIsLinked(w.clients, Replay(w.log).value, k);
    LinkedIffStanding(w.log, k);
  }

  lemma {:induction false} KeptIsLinked(clients: seq<Client>, l: Links, k: Pair)
    requires Matches(clients, l)
    ensures Kept(clients, k) <==> k in l.pipes
  {
    if Kept(clients, k) {
      var i, j :| 0 <= i < |clients| && 0 <= j < |clients[i].userPipes| && Key(clients[i].userPipes[j]) == k;
      assert EntryMatches(l, clients[i].userPipes[j]);
    }
  }

  /** In every run a pipe in a vector has been taken already, so that taking it closes its write end
      once more, exactly when a taking of it has not been followed by a sweep of its source or by the
      logout of one of its two users. */
  lemma {:induction false} ClosedAgainIff(msock: int, steps: seq<Step>, i: nat, j: nat)
    requires Possible(msock, steps) && i < |Run(msock, steps).clients| && j < |Run(msock, steps).clients[i].userPipes|
    ensures var w := Run(msock, steps);
            var u := w.clients[i].userPipes[j];
            u.used <==> exists t :: TakenSince(w.log, t, Key(u))
  {
    EveryRunIsGood(msock, steps);
    var w := Run(msock, steps);
    assert EntryMatches(Replay(w.log).value, w.clients[i].userPipes[j]);
    MarkedIffTaken(w.log, Key(w.clients[i].userPipes[j]));
  }

  /** In every run a pipe is read by at most one command, and that of the login it was made for. */
  lemma {:induction false} PipesHaveOneReader(msock: int, steps: seq<Step>, m: nat, n: nat, p: nat)
    requires Possible(msock, steps) && m < |Run(msock, steps).log| && n < |Run(msock, steps).log|
    requires Reads(Run(msock, steps).log[m], p) && Reads(Run(msock, steps).log[n], p)
    ensures m == n && MayRead(Run(msock, steps).made, Run(msock, steps).log[m].login, FromPipe(p))
  {
    EveryRunIsGood(msock, steps);
    var log := Run(msock, steps).log;
    assert Lawful(Run(msock, steps).made, log[m]);
    assert SameRead(log[m], log[n]) && SameRead(log[n], log[m]);
  }

  /** In every run the commands of every login are wired as promised, exactly when none of them asked
      for pipe number zero. */
  lemma {:induction false} EveryLoginIsWired(msock: int, steps: seq<Step>, login: nat)
    requires Possible(msock, steps)
    ensures var w := Run(msock, steps);
            var d := Deeds(w.log, login);
            PS.Wired(JobsOf(d), WiresOf(w.made, d)) <==> PS.NoZero(JobsOf(d))
  {
    EveryRunIsGood(msock, steps);
    LoginWiredIffNoZero(Run(msock, steps), login);
  }

  /** In every run, when a client's line starts, the environment is the one that its own `setenv`
      commands have made, and the search path is that environment's PATH. */
  lemma {:induction false} LineFindsItsEnvironment(msock: int, steps: seq<Step>, me: nat)
    requires Possible(msock, steps) && me < |Run(msock, steps).clients|
    ensures var w := Run(msock, steps);
            Serves(LoadEnv(w, me), me) && LoadEnv(w, me).env == EnvOf(Deeds(w.log, w.clients[me].login))
  {
    EveryRunIsGood(msock, steps);
    var w := Run(msock, steps);
    assert ClientOk(w.table, w.clients, w.made, w.clients[me]);
    LoadServes(w, me);
  }
}
