/** The single-process multi-user server as a state machine: logins, lines and exits of any client. */
module ServerModel {
  import opened Sequences
  import opened ServerSyntax
  import opened Environment
  import PS = PipeSchedule

  /** What a command is handed in place of a descriptor. `Opened` is whatever `open` gave. */
  datatype Handle = Default | FromPipe(pipe: nat) | ToPipe(pipe: nat) | Opened(name: string)

  /** A user pipe, kept by its source. */
  datatype UserPipe = UserPipe(pipe: nat, source: int, target: int, used: bool)

  /** A connected client. `login` tells apart the clients that have had the same id. */
  datatype Client = Client(fd: int, id: int, login: nat, name: string, env: seq<Setting>,
                           pipes: seq<PS.Slot>, userPipes: seq<UserPipe>)

  /** Whom a pipe was made for. */
  datatype Owner = Numbered(login: nat) | Shared(source: int, target: int, sourceLogin: nat, targetLogin: nat)

  datatype Event =
    | LoggedIn(login: nat, id: int)
    | LoggedOut(id: int)
    | Created(source: int, target: int, pipe: nat)
    | Taken(source: int, target: int)
    | Swept(source: int)
    | Ran(login: nat, args: seq<string>, stdin: Handle, stdout: Handle, stderr: Handle, sink: Option<int>, spare: nat)

  /** The server: its tables, the sockets it watches, the process environment and search path, the
      owners of all pipes made so far (a pipe is its index), and everything that has happened. */
  datatype World = World(table: seq<int>, clients: seq<Client>, watched: set<int>, msock: int,
                         env: map<string, string>, path: seq<string>,
                         made: seq<Owner>, logins: nat, log: seq<Event>)

  const NO_NAME := "(no name)"
  const START_ENV := [Setting("PATH", "bin:.")]

  // ---------- tables ----------

  function FreeSlot(table: seq<int>): (k: nat)
    ensures k <= |table| && (k < |table| ==> table[k] == 0) && forall i :: 0 <= i < k ==> table[i] != 0
  {
    if table == [] || table[0] == 0 then 0 else 1 + FreeSlot(table[1..])
  }

  function FindId(clients: seq<Client>, id: int): (k: nat)
    ensures k <= |clients| && (k < |clients| ==> clients[k].id == id) && forall i :: 0 <= i < k ==> clients[i].id != id
  {
    if clients == [] || clients[0].id == id then 0 else 1 + FindId(clients[1..], id)
  }

  function FindFd(clients: seq<Client>, fd: int): (k: nat)
    ensures k <= |clients| && (k < |clients| ==> clients[k].fd == fd) && forall i :: 0 <= i < k ==> clients[i].fd != fd
  {
    if clients == [] || clients[0].fd == fd then 0 else 1 + FindFd(clients[1..], fd)
  }

  predicate Occupied(table: seq<int>, id: int) { 1 <= id <= |table| && table[id - 1] != 0 }

  // ---------- logging in and out ----------

  function NewClient(w: World, fd: int, id: int): Client { Client(fd, id, w.logins, NO_NAME, START_ENV, [], []) }

  function Accept(w: World, fd: int): World {
    var k := FreeSlot(w.table);
    if k == |w.table| then w else
      w.(table := w.table[k := 1], clients := w.clients + [NewClient(w, fd, k + 1)], watched := w.watched + {fd},
         logins := w.logins + 1, log := w.log + [LoggedIn(w.logins, k + 1)])
  }

  function Pruned(c: Client, id: int): Client {
    c.(userPipes := Filter((u: UserPipe) => u.target != id, c.userPipes))
  }

  /** The clients with another id, without the user pipes that lead to this one. */
  function EraseClient(clients: seq<Client>, id: int): seq<Client> {
    if clients == [] then [] else
      var n := |clients| - 1;
      var rest := EraseClient(clients[..n], id);
      if clients[n].id == id then rest else rest + [Pruned(clients[n], id)]
  }

  /** Client `i` goes. The code erases by `key`: the id after `exit`, the descriptor at end of file. */
  function Leave(w: World, i: nat, key: int): World
    requires i < |w.clients| && IsUserId(w.clients[i].id) && |w.table| == MAX_CLIENTS
  {
    var c := w.clients[i];
    w.(table := w.table[c.id - 1 := 0], clients := EraseClient(w.clients, key), watched := w.watched - {c.fd},
       log := w.log + [LoggedOut(c.id)])
  }

  // ---------- one command ----------

  /** A command being prepared: its three handles, the sources whose pipes it takes, whether a check
      failed, and its numbered sink with the identity a new pipe would get. */
  datatype Prep = Prep(w: World, stdin: Handle, stdout: Handle, stderr: Handle, takes: seq<int>,
                       refused: bool, sink: Option<int>, spare: nat)

  function Fresh(w: World): Prep { Prep(w, Default, Default, Default, [], false, None, |w.made|) }

  function SetClient(w: World, i: nat, c: Client): World
    requires i < |w.clients|
  {
    w.(clients := w.clients[i := c])
  }

  function OpenNumbered(w: World, me: nat, n: int): (r: (World, nat))
    requires me < |w.clients|
  {
    var c := w.clients[me];
    var p := PS.PipeAt(c.pipes, n);
    if p.Some? then (w, p.value) else
      (SetClient(w, me, c.(pipes := c.pipes + [PS.Slot(|w.made|, n)])).(made := w.made + [Numbered(c.login)]), |w.made|)
  }

  /** The place in a source's vector of its pipe to `target`. */
  function FindTarget(ups: seq<UserPipe>, target: int): (k: nat)
    ensures k <= |ups| && (k < |ups| ==> ups[k].target == target) && forall i :: 0 <= i < k ==> ups[i].target != target
  {
    if ups == [] || ups[0].target == target then 0 else 1 + FindTarget(ups[1..], target)
  }

  function LoginOf(clients: seq<Client>, id: int): nat {
    var k := FindId(clients, id);
    if k < |clients| then clients[k].login else 0
  }

  function OpenShared(w: World, me: nat, target: int): World
    requires me < |w.clients|
  {
    var c := w.clients[me];
    SetClient(w, me, c.(userPipes := c.userPipes + [UserPipe(|w.made|, c.id, target, false)]))
    .(made := w.made + [Shared(c.id, target, c.login, LoginOf(w.clients, target))],
      log := w.log + [Created(c.id, target, |w.made|)])
  }

  function Mark(w: World, s: nat, k: nat): World
    requires s < |w.clients| && k < |w.clients[s].userPipes|
  {
    var c := w.clients[s];
    var u := c.userPipes[k];
    SetClient(w, s, c.(userPipes := c.userPipes[k := u.(used := true)])).(log := w.log + [Taken(u.source, u.target)])
  }

  function Apply(q: Prep, me: nat, op: Op): (r: Prep)
    requires me < |q.w.clients|
    ensures |r.w.clients| == |q.w.clients|
  {
    var w := q.w;
    if q.refused then q else
      match op
      case OutFile(f) => q.(stdout := Opened(f))
      case InFile(f) => q.(stdin := Opened(f))
      case ToUser(t) =>
        if !Occupied(w.table, t) || FindTarget(w.clients[me].userPipes, t) < |w.clients[me].userPipes| then
          q.(refused := true)
        else q.(w := OpenShared(w, me, t), stdout := ToPipe(|w.made|))
      case FromUser(s) =>
        if !Occupied(w.table, s) then q.(refused := true) else
          var i := FindId(w.clients, s);
          if i == |w.clients| then q.(refused := true) else
            var k := FindTarget(w.clients[i].userPipes, w.clients[me].id);
            if k == |w.clients[i].userPipes| then q.(refused := true) else
              q.(w := Mark(w, i, k), stdin := FromPipe(w.clients[i].userPipes[k].pipe), takes := q.takes + [s])
  }

  function ApplyAll(q: Prep, me: nat, ops: seq<Op>): (r: Prep)
    requires me < |q.w.clients|
    ensures |r.w.clients| == |q.w.clients|
  {
    if ops == [] then q else Apply(ApplyAll(q, me, ops[..|ops| - 1]), me, ops[|ops| - 1])
  }

  /** Opens the command's own numbered pipe. */
  function ApplySink(q: Prep, me: nat, sink: Sink): (r: Prep)
    requires me < |q.w.clients|
    ensures |r.w.clients| == |q.w.clients|
  {
    if q.refused || sink.NoPipe? then q else
      var (w', p) := OpenNumbered(q.w, me, sink.n);
      q.(w := w', stdout := ToPipe(p), stderr := if sink.ErrPipe? then ToPipe(p) else q.stderr,
         sink := Some(sink.n), spare := |q.w.made|)
  }

  function Prepare(w: World, me: nat, c: Cmd): (r: Prep)
    requires me < |w.clients|
    ensures |r.w.clients| == |w.clients|
  {
    ApplySink(ApplyAll(Fresh(w), me, c.ops), me, c.sink)
  }

  predicate NameTaken(clients: seq<Client>, name: string) {
    exists i :: 0 <= i < |clients| && clients[i].name == name
  }

  /** The built-in commands that change the server. */
  function BuiltIn(w: World, me: nat, args: seq<string>): (r: World)
    requires me < |w.clients| && SafeArgs(args)
    ensures |r.clients| == |w.clients|
  {
    var c := w.clients[me];
    if args[0] == "setenv" then
      SetClient(w, me, c.(env := Set(c.env, args[1], args[2])))
      .(env := Put(w.env, args[1], args[2]), path := if args[1] == "PATH" then Split(args[2], ':') else w.path)
    else if args[0] == "name" && !NameTaken(w.clients, args[1]) then SetClient(w, me, c.(name := args[1]))
    else w
  }

  const UNUSED: UserPipe -> bool := (u: UserPipe) => !u.used

  /** Removes the used pipes of the client with this id. */
  function Sweep(w: World, id: int): (r: World)
    ensures |r.clients| == |w.clients|
  {
    var i := FindId(w.clients, id);
    if i == |w.clients| then w else
      var c := w.clients[i];
      SetClient(w, i, c.(userPipes := Filter(UNUSED, c.userPipes))).(log := w.log + [Swept(id)])
  }

  function SweepAll(w: World, ids: seq<int>): (r: World)
    ensures |r.clients| == |w.clients|
  {
    if ids == [] then w else Sweep(SweepAll(w, ids[..|ids| - 1]), ids[|ids| - 1])
  }

  /** The first numbered pipe that is due. */
  function FirstDue(slots: seq<PS.Slot>): Option<nat> {
    if slots == [] then None else if slots[0].count == 0 then Some(slots[0].pipe) else FirstDue(slots[1..])
  }

  function StdinOf(q: Prep, me: nat): Handle
    requires me < |q.w.clients|
  {
    var due := FirstDue(q.w.clients[me].pipes);
    if due.Some? then FromPipe(due.value) else q.stdin
  }

  function RanEvent(q: Prep, me: nat, args: seq<string>): Event
    requires me < |q.w.clients|
  {
    Ran(q.w.clients[me].login, args, StdinOf(q, me), q.stdout, q.stderr, q.sink,
        if q.sink.Some? then q.spare else |q.w.made|)
  }

  function MoveOn(w: World, me: nat): World
    requires me < |w.clients|
  {
    var c := w.clients[me];
    SetClient(w, me, c.(pipes := PS.Countdown(Filter(PS.PENDING, c.pipes))))
  }

  /** Runs a prepared command and moves its client's pipes on. */
  function Perform(q: Prep, me: nat, args: seq<string>): (r: World)
    requires me < |q.w.clients| && SafeArgs(args)
    ensures |r.clients| == |q.w.clients|
  {
    var w := BuiltIn(q.w, me, args).(log := q.w.log + [RanEvent(q, me, args)]);
    SweepAll(MoveOn(w, me), q.takes + [w.clients[me].id])
  }

  // ---------- one line ----------

  /** A line in progress; a refused command drops the rest of it. */
  datatype Progress = Progress(w: World, status: int, refused: bool)

  function Execute(g: Progress, me: nat, c: Cmd): (r: Progress)
    requires me < |g.w.clients| && SafeCmd(c)
    ensures |r.w.clients| == |g.w.clients|
  {
    if g.refused then g else
      var q := Prepare(g.w, me, c);
      if q.refused then Progress(q.w, 0, true)
      else Progress(Perform(q, me, c.args), if c.args[0] == "exit" then -1 else 0, false)
  }

  function ExecuteAll(g: Progress, me: nat, cmds: seq<Cmd>): (r: Progress)
    requires me < |g.w.clients| && forall i :: 0 <= i < |cmds| ==> SafeCmd(cmds[i])
    ensures |r.w.clients| == |g.w.clients|
  {
    if cmds == [] then g else Execute(ExecuteAll(g, me, cmds[..|cmds| - 1]), me, cmds[|cmds| - 1])
  }

  /** The last value PATH was set to, split at the colons; `path` if there is none. */
  function PathAfter(path: seq<string>, settings: seq<Setting>): seq<string> {
    if settings == [] then path else
      var n := |settings| - 1;
      if settings[n].key == "PATH" then Split(settings[n].value, ':') else PathAfter(path, settings[..n])
  }

  /** The process environment becomes the client's. */
  function LoadEnv(w: World, me: nat): World
    requires me < |w.clients|
  {
    w.(env := Build(w.clients[me].env), path := PathAfter(w.path, w.clients[me].env))
  }

  function RunLine(w: World, me: nat, line: string): (g: Progress)
    requires me < |w.clients| && SafeLine(line)
    ensures |g.w.clients| == |w.clients|
  {
    ExecuteAll(Progress(LoadEnv(w, me), 0, false), me, CmdsOf(line))
  }

  /** A line of the client on `fd`; the client goes if its last command was `exit`. */
  function Say(w: World, me: nat, line: string): World
    requires me < |w.clients| && SafeLine(line)
  {
    var g := RunLine(w, me, line);
    var c := g.w.clients[me];
    if g.status == -1 && IsUserId(c.id) && |g.w.table| == MAX_CLIENTS then Leave(g.w, me, c.id) else g.w
  }
}
