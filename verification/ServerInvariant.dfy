/** What holds of the server between any two steps, and between the parts of a line: its tables agree
    with one another and every pipe sits where it belongs. */
module ServerInvariant {
  import opened Sequences
  import opened ServerSyntax
  import opened ServerModel
  import opened Environment
  import PS = PipeSchedule

  /** Ids are distinct, and are exactly the occupied slots of the id table. */
  ghost predicate IdsOk(table: seq<int>, clients: seq<Client>) {
    && |table| == MAX_CLIENTS
    && (forall i :: 0 <= i < |clients| ==> Occupied(table, clients[i].id))
    && (forall i, j :: 0 <= i < j < |clients| ==> clients[i].id != clients[j].id)
    && (forall id :: Occupied(table, id) ==> FindId(clients, id) < |clients|)
  }

  /** Descriptors are distinct, and are exactly the watched ones besides the listening socket. */
  ghost predicate FdsOk(watched: set<int>, msock: int, clients: seq<Client>) {
    && msock in watched
    && (forall i :: 0 <= i < |clients| ==> clients[i].fd in watched && clients[i].fd != msock)
    && (forall i, j :: 0 <= i < j < |clients| ==> clients[i].fd != clients[j].fd)
    && (forall f :: f in watched && f != msock ==> FindFd(clients, f) < |clients|)
  }

  ghost predicate LoginsOk(clients: seq<Client>, logins: nat) {
    && (forall i :: 0 <= i < |clients| ==> clients[i].login < logins)
    && (forall i, j :: 0 <= i < j < |clients| ==> clients[i].login != clients[j].login)
  }

  /** Two clients share a name only if neither has chosen one. */
  ghost predicate NamesOk(clients: seq<Client>) {
    forall i, j :: 0 <= i < j < |clients| && clients[i].name == clients[j].name ==> clients[i].name == NO_NAME
  }

  /** A user pipe is kept by its source, leads to a client that is there, and was made for these two
      logins. */
  ghost predicate EntryOk(table: seq<int>, clients: seq<Client>, made: seq<Owner>, c: Client, u: UserPipe) {
    && u.source == c.id
    && Occupied(table, u.target)
    && u.pipe < |made|
    && made[u.pipe] == Shared(c.id, u.target, c.login, LoginOf(clients, u.target))
  }

  ghost predicate SharedOk(table: seq<int>, clients: seq<Client>, made: seq<Owner>, c: Client) {
    && (forall j :: 0 <= j < |c.userPipes| ==> EntryOk(table, clients, made, c, c.userPipes[j]))
    && (forall i, j :: 0 <= i < j < |c.userPipes| ==> c.userPipes[i].target != c.userPipes[j].target)
  }

  /** A client's numbered pipes were made for its login; counts and pipes are distinct. */
  ghost predicate NumberedOk(made: seq<Owner>, c: Client) {
    && (forall j :: 0 <= j < |c.pipes| ==> c.pipes[j].pipe < |made| && made[c.pipes[j].pipe] == Numbered(c.login))
    && (forall i, j :: 0 <= i < j < |c.pipes| ==>
          c.pipes[i].count != c.pipes[j].count && c.pipes[i].pipe != c.pipes[j].pipe)
  }

  ghost predicate EnvOk(c: Client) {
    UniqueKeys(c.env) && exists v :: Setting("PATH", v) in c.env
  }

  ghost predicate ClientOk(table: seq<int>, clients: seq<Client>, made: seq<Owner>, c: Client) {
    EnvOk(c) && SharedOk(table, clients, made, c) && NumberedOk(made, c)
  }

  ghost predicate Inv(w: World) {
    && IdsOk(w.table, w.clients)
    && FdsOk(w.watched, w.msock, w.clients)
    && LoginsOk(w.clients, w.logins)
    && NamesOk(w.clients)
    && AllOk(w.table, w.clients, w.made)
  }

  ghost predicate AllOk(table: seq<int>, clients: seq<Client>, made: seq<Owner>) {
    forall i :: 0 <= i < |clients| ==> ClientOk(table, clients, made, clients[i])
  }

  // ---------- lookups ----------

  lemma {:induction false} FindIdIs(clients: seq<Client>, k: nat)
    requires k < |clients| && forall i, j :: 0 <= i < j < |clients| ==> clients[i].id != clients[j].id
    ensures FindId(clients, clients[k].id) == k && LoginOf(clients, clients[k].id) == clients[k].login
  {
    var f := FindId(clients, clients[k].id);
    assert !(f < k) && !(k < f);
  }

  /** The clients are the same people. */
  ghost predicate SamePeople(a: seq<Client>, b: seq<Client>) {
    |a| == |b| && forall i :: 0 <= i < |a| ==> a[i].id == b[i].id && a[i].fd == b[i].fd && a[i].login == b[i].login
  }

  lemma {:induction false} SamePeopleFound(a: seq<Client>, b: seq<Client>)
    requires SamePeople(a, b)
    ensures forall id :: FindId(a, id) == FindId(b, id) && LoginOf(a, id) == LoginOf(b, id)
    ensures forall fd :: FindFd(a, fd) == FindFd(b, fd)
  {
    forall id ensures FindId(a, id) == FindId(b, id) {
      var x, y := FindId(a, id), FindId(b, id);
      assert !(x < y) && !(y < x);
    }
    forall fd ensures FindFd(a, fd) == FindFd(b, fd) {
      var x, y := FindFd(a, fd), FindFd(b, fd);
      assert !(x < y) && !(y < x);
    }
  }

  lemma {:induction false} ClientOkFrame(w: World, clients: seq<Client>, made: seq<Owner>, c: Client)
    requires SamePeople(w.clients, clients) && w.made <= made
    requires ClientOk(w.table, w.clients, w.made, c)
    ensures ClientOk(w.table, clients, made, c)
  {
    SamePeopleFound(w.clients, clients);
    forall j | 0 <= j < |c.userPipes| ensures EntryOk(w.table, clients, made, c, c.userPipes[j]) {
      assert EntryOk(w.table, w.clients, w.made, c, c.userPipes[j]);
    }
  }

  lemma {:induction false} IdsSame(table: seq<int>, a: seq<Client>, b: seq<Client>)
    requires IdsOk(table, a) && SamePeople(a, b)
    ensures IdsOk(table, b)
  {
    SamePeopleFound(a, b);
    forall id | Occupied(table, id) ensures FindId(b, id) < |b| { assert FindId(a, id) < |a|; }
  }

  lemma {:induction false} FdsSame(watched: set<int>, msock: int, a: seq<Client>, b: seq<Client>)
    requires FdsOk(watched, msock, a) && SamePeople(a, b)
    ensures FdsOk(watched, msock, b)
  {
    SamePeopleFound(a, b);
    forall f | f in watched && f != msock ensures FindFd(b, f) < |b| { assert FindFd(a, f) < |a|; }
  }

  lemma {:induction false} LoginsSame(a: seq<Client>, b: seq<Client>, logins: nat)
    requires LoginsOk(a, logins) && SamePeople(a, b)
    ensures LoginsOk(b, logins)
  {
  }

  lemma {:induction false} NamesSet(clients: seq<Client>, me: nat, c: Client)
    requires NamesOk(clients) && me < |clients| && (c.name == clients[me].name || !NameTaken(clients, c.name))
    ensures NamesOk(clients[me := c])
  {
  }

  lemma {:induction false} AllOkSet(w: World, me: nat, c: Client, made: seq<Owner>)
    requires AllOk(w.table, w.clients, w.made) && w.made <= made && me < |w.clients|
    requires SamePeople(w.clients, w.clients[me := c]) && ClientOk(w.table, w.clients, made, c)
    ensures AllOk(w.table, w.clients[me := c], made)
  {
    var clients := w.clients[me := c];
    forall i | 0 <= i < |clients| ensures ClientOk(w.table, clients, made, clients[i]) {
      if i == me {
        ClientOkFrame(w.(made := made), clients, made, c);
      } else {
        ClientOkFrame(w, clients, made, w.clients[i]);
      }
    }
  }

  ghost predicate SamePerson(a: Client, b: Client) { a.id == b.id && a.fd == b.fd && a.login == b.login }

  /** Changing one client's lists, and perhaps making pipes, keeps everything else in place. */
  lemma {:induction false} SetClientKeeps(w: World, w': World, me: nat, c: Client)
    requires Inv(w) && me < |w.clients|
    requires SamePerson(w.clients[me], c) && (c.name == w.clients[me].name || !NameTaken(w.clients, c.name))
    requires w'.table == w.table && w'.clients == w.clients[me := c] && w'.watched == w.watched
    requires w'.msock == w.msock && w'.logins == w.logins && w.made <= w'.made
    requires ClientOk(w.table, w.clients, w'.made, c)
    ensures Inv(w') && SamePeople(w.clients, w'.clients)
  {
    assert SamePeople(w.clients, w'.clients);
    IdsSame(w.table, w.clients, w'.clients);
    FdsSame(w.watched, w.msock, w.clients, w'.clients);
    LoginsSame(w.clients, w'.clients, w.logins);
    NamesSet(w.clients, me, c);
    AllOkSet(w, me, c, w'.made);
  }

  // ---------- the parts of a command ----------

  lemma {:induction false} NumberedPush(made: seq<Owner>, c: Client, n: int)
    requires NumberedOk(made, c) && forall i :: 0 <= i < |c.pipes| ==> c.pipes[i].count != n
    ensures NumberedOk(made + [Numbered(c.login)], c.(pipes := c.pipes + [PS.Slot(|made|, n)]))
  {
  }

  lemma {:induction false} ClientPush(w: World, me: nat, n: int)
    requires Inv(w) && me < |w.clients| && PS.PipeAt(w.clients[me].pipes, n).None?
    ensures var c := w.clients[me];
            ClientOk(w.table, w.clients, w.made + [Numbered(c.login)], c.(pipes := c.pipes + [PS.Slot(|w.made|, n)]))
  {
    var c := w.clients[me];
    var made, c' := w.made + [Numbered(c.login)], c.(pipes := c.pipes + [PS.Slot(|w.made|, n)]);
    assert ClientOk(w.table, w.clients, w.made, c);
    ClientOkFrame(w, w.clients, made, c);
    NumberedPush(w.made, c, n);
    SharedSame(w.table, w.clients, made, c, c');
  }

  lemma {:induction false} OpenNumberedKeeps(w: World, me: nat, n: int)
    requires Inv(w) && me < |w.clients|
    ensures Inv(OpenNumbered(w, me, n).0) && SamePeople(w.clients, OpenNumbered(w, me, n).0.clients)
  {
    if PS.PipeAt(w.clients[me].pipes, n).None? {
      var c := w.clients[me];
      var c' := c.(pipes := c.pipes + [PS.Slot(|w.made|, n)]);
      ClientPush(w, me, n);
      SetClientKeeps(w, SetClient(w, me, c').(made := w.made + [Numbered(c.login)]), me, c');
    }
  }

  lemma {:induction false} SharedSame(table: seq<int>, clients: seq<Client>, made: seq<Owner>, c: Client, c': Client)
    requires SharedOk(table, clients, made, c) && c'.userPipes == c.userPipes && c'.id == c.id && c'.login == c.login
    ensures SharedOk(table, clients, made, c')
  {
    forall j | 0 <= j < |c.userPipes| ensures EntryOk(table, clients, made, c', c'.userPipes[j]) {
      assert EntryOk(table, clients, made, c, c.userPipes[j]);
    }
  }

  lemma {:induction false} SharedPush(w: World, c: Client, target: int)
    requires SharedOk(w.table, w.clients, w.made, c) && Occupied(w.table, target)
    requires FindTarget(c.userPipes, target) == |c.userPipes|
    ensures var made := w.made + [Shared(c.id, target, c.login, LoginOf(w.clients, target))];
            SharedOk(w.table, w.clients, made, c.(userPipes := c.userPipes + [UserPipe(|w.made|, c.id, target, false)]))
  {
    var made := w.made + [Shared(c.id, target, c.login, LoginOf(w.clients, target))];
    var c' := c.(userPipes := c.userPipes + [UserPipe(|w.made|, c.id, target, false)]);
    forall j | 0 <= j < |c'.userPipes| ensures EntryOk(w.table, w.clients, made, c', c'.userPipes[j]) {
      if j < |c.userPipes| { assert EntryOk(w.table, w.clients, w.made, c, c.userPipes[j]); }
    }
  }

  lemma {:induction false} NumberedGrows(made: seq<Owner>, made': seq<Owner>, c: Client, c': Client)
    requires NumberedOk(made, c) && made <= made' && c'.pipes == c.pipes && c'.login == c.login
    ensures NumberedOk(made', c')
  {
  }

  lemma {:induction false} OpenSharedKeeps(w: World, me: nat, target: int)
    requires Inv(w) && me < |w.clients| && Occupied(w.table, target)
    requires FindTarget(w.clients[me].userPipes, target) == |w.clients[me].userPipes|
    ensures Inv(OpenShared(w, me, target)) && SamePeople(w.clients, OpenShared(w, me, target).clients)
  {
    var c, w' := w.clients[me], OpenShared(w, me, target);
    assert ClientOk(w.table, w.clients, w.made, c);
    SharedPush(w, c, target);
    NumberedGrows(w.made, w'.made, c, w'.clients[me]);
    SetClientKeeps(w, w', me, w'.clients[me]);
  }

  lemma {:induction false} SharedMark(table: seq<int>, clients: seq<Client>, made: seq<Owner>, c: Client, k: nat)
    requires SharedOk(table, clients, made, c) && k < |c.userPipes|
    ensures SharedOk(table, clients, made, c.(userPipes := c.userPipes[k := c.userPipes[k].(used := true)]))
  {
    var c' := c.(userPipes := c.userPipes[k := c.userPipes[k].(used := true)]);
    forall j | 0 <= j < |c'.userPipes| ensures EntryOk(table, clients, made, c', c'.userPipes[j]) {
      assert EntryOk(table, clients, made, c, c.userPipes[j]);
    }
  }

  lemma {:induction false} MarkKeeps(w: World, s: nat, k: nat)
    requires Inv(w) && s < |w.clients| && k < |w.clients[s].userPipes|
    ensures Inv(Mark(w, s, k)) && SamePeople(w.clients, Mark(w, s, k).clients)
  {
    var c, w' := w.clients[s], Mark(w, s, k);
    assert ClientOk(w.table, w.clients, w.made, c);
    SharedMark(w.table, w.clients, w.made, c, k);
    NumberedGrows(w.made, w.made, c, w'.clients[s]);
    SetClientKeeps(w, w', s, w'.clients[s]);
  }

  lemma {:induction false} ApplyKeeps(q: Prep, me: nat, op: Op)
    requires me < |q.w.clients| && Inv(q.w)
    ensures Inv(Apply(q, me, op).w) && SamePeople(q.w.clients, Apply(q, me, op).w.clients)
  {
    var w' := ApplyWorld(q, me, op);
    if w' == q.w {
    } else if op.ToUser? {
      OpenSharedKeeps(q.w, me, op.id);
    } else {
      var i := FindId(q.w.clients, op.id);
      MarkKeeps(q.w, i, FindTarget(q.w.clients[i].userPipes, q.w.clients[me].id));
    }
  }

  /** The four ways an operation can change the world. */
  lemma {:induction false} ApplyWorld(q: Prep, me: nat, op: Op) returns (w': World)
    requires me < |q.w.clients|
    ensures w' == Apply(q, me, op).w
    ensures w' == q.w
         || (op.ToUser? && Occupied(q.w.table, op.id) && w' == OpenShared(q.w, me, op.id)
             && FindTarget(q.w.clients[me].userPipes, op.id) == |q.w.clients[me].userPipes|)
         || (op.FromUser? && (var i := FindId(q.w.clients, op.id);
             i < |q.w.clients| && (var k := FindTarget(q.w.clients[i].userPipes, q.w.clients[me].id);
             k < |q.w.clients[i].userPipes| && w' == Mark(q.w, i, k))))
  {
    w' := Apply(q, me, op).w;
  }

  lemma {:induction false} ApplyAllKeeps(q: Prep, me: nat, ops: seq<Op>)
    requires me < |q.w.clients| && Inv(q.w)
    ensures Inv(ApplyAll(q, me, ops).w) && SamePeople(q.w.clients, ApplyAll(q, me, ops).w.clients)
  {
    if ops != [] {
      var n := |ops| - 1;
      ApplyAllKeeps(q, me, ops[..n]);
      ApplyKeeps(ApplyAll(q, me, ops[..n]), me, ops[n]);
    }
  }

  /** The command has no numbered sink yet. */
  ghost predicate Unsunk(q: Prep) { q.stderr == Default && q.sink == None }

  lemma {:induction false} ApplyAllUnsunk(q: Prep, me: nat, ops: seq<Op>)
    requires me < |q.w.clients| && Unsunk(q)
    ensures Unsunk(ApplyAll(q, me, ops))
  {
    if ops != [] { ApplyAllUnsunk(q, me, ops[..|ops| - 1]); }
  }

  lemma {:induction false} SinkKeeps(q: Prep, me: nat, sink: Sink)
    requires me < |q.w.clients| && Inv(q.w)
    ensures Inv(ApplySink(q, me, sink).w) && SamePeople(q.w.clients, ApplySink(q, me, sink).w.clients)
  {
    if !q.refused && !sink.NoPipe? { OpenNumberedKeeps(q.w, me, sink.n); }
  }

  lemma {:induction false} PrepareKeeps(w: World, me: nat, c: Cmd)
    requires me < |w.clients| && Inv(w)
    ensures Inv(Prepare(w, me, c).w) && SamePeople(w.clients, Prepare(w, me, c).w.clients)
  {
    ApplyAllKeeps(Fresh(w), me, c.ops);
    SinkKeeps(ApplyAll(Fresh(w), me, c.ops), me, c.sink);
  }

  lemma {:induction false} BuiltInKeeps(w: World, me: nat, args: seq<string>)
    requires me < |w.clients| && Inv(w) && SafeArgs(args)
    ensures Inv(BuiltIn(w, me, args)) && SamePeople(w.clients, BuiltIn(w, me, args).clients)
  {
    var c, w' := w.clients[me], BuiltIn(w, me, args);
    if args[0] == "setenv" {
      var c' := w'.clients[me];
      SetKeepsUnique(c.env, args[1], args[2]);
      var v :| Setting("PATH", v) in c.env;
      assert Setting("PATH", if args[1] == "PATH" then args[2] else v) in c'.env;
      SharedSame(w.table, w.clients, w.made, c, c');
      SetClientKeeps(w, w', me, c');
    } else if args[0] == "name" && !NameTaken(w.clients, args[1]) {
      var c' := w'.clients[me];
      assert EnvOk(c');
      SharedSame(w.table, w.clients, w.made, c, c');
      SetClientKeeps(w, w', me, c');
    }
  }

  lemma {:induction false} FilterKeepsShared(table: seq<int>, clients: seq<Client>, made: seq<Owner>,
                                             c: Client, keep: UserPipe -> bool)
    requires SharedOk(table, clients, made, c)
    ensures SharedOk(table, clients, made, c.(userPipes := Filter(keep, c.userPipes)))
  {
    var c' := c.(userPipes := Filter(keep, c.userPipes));
    FilterPairwise((a: UserPipe, b: UserPipe) => a.target != b.target, keep, c.userPipes);
    FilterMembers(keep, c.userPipes);
    forall j | 0 <= j < |c'.userPipes| ensures EntryOk(table, clients, made, c', c'.userPipes[j]) {
      assert c'.userPipes[j] in c.userPipes;
      var i :| 0 <= i < |c.userPipes| && c.userPipes[i] == c'.userPipes[j];
      assert EntryOk(table, clients, made, c, c.userPipes[i]);
    }
  }

  lemma {:induction false} SweepKeeps(w: World, id: int)
    requires Inv(w)
    ensures Inv(Sweep(w, id)) && SamePeople(w.clients, Sweep(w, id).clients)
  {
    var i := FindId(w.clients, id);
    if i < |w.clients| {
      FilterKeepsShared(w.table, w.clients, w.made, w.clients[i], UNUSED);
      SetClientKeeps(w, Sweep(w, id), i, Sweep(w, id).clients[i]);
    }
  }

  lemma {:induction false} SweepAllKeeps(w: World, ids: seq<int>)
    requires Inv(w)
    ensures Inv(SweepAll(w, ids)) && SamePeople(w.clients, SweepAll(w, ids).clients)
  {
    if ids != [] {
      var n := |ids| - 1;
      SweepAllKeeps(w, ids[..n]);
      SweepKeeps(SweepAll(w, ids[..n]), ids[n]);
    }
  }

  lemma {:induction false} NumberedMovesOn(made: seq<Owner>, c: Client)
    requires NumberedOk(made, c)
    ensures NumberedOk(made, c.(pipes := PS.Countdown(Filter(PS.PENDING, c.pipes))))
  {
    var rest := Filter(PS.PENDING, c.pipes);
    FilterPairwise((a: PS.Slot, b: PS.Slot) => a.count != b.count && a.pipe != b.pipe, PS.PENDING, c.pipes);
    FilterMembers(PS.PENDING, c.pipes);
    forall j | 0 <= j < |rest| ensures rest[j].pipe < |made| && made[rest[j].pipe] == Numbered(c.login) {
      assert rest[j] in c.pipes;
    }
  }

  lemma {:induction false} MoveOnKeeps(w: World, me: nat)
    requires me < |w.clients| && Inv(w)
    ensures Inv(MoveOn(w, me)) && SamePeople(w.clients, MoveOn(w, me).clients)
  {
    var c, c' := w.clients[me], MoveOn(w, me).clients[me];
    assert ClientOk(w.table, w.clients, w.made, c);
    NumberedMovesOn(w.made, c);
    SharedSame(w.table, w.clients, w.made, c, c');
    SetClientKeeps(w, MoveOn(w, me), me, c');
  }

  lemma {:induction false} LogKeeps(w: World, log: seq<Event>)
    requires Inv(w)
    ensures Inv(w.(log := log))
  {
  }

  lemma {:induction false} PerformKeeps(q: Prep, me: nat, args: seq<string>)
    requires me < |q.w.clients| && Inv(q.w) && SafeArgs(args)
    ensures Inv(Perform(q, me, args)) && SamePeople(q.w.clients, Perform(q, me, args).clients)
  {
    var w := BuiltIn(q.w, me, args).(log := q.w.log + [RanEvent(q, me, args)]);
    BuiltInKeeps(q.w, me, args);
    LogKeeps(BuiltIn(q.w, me, args), w.log);
    MoveOnKeeps(w, me);
    SweepAllKeeps(MoveOn(w, me), q.takes + [w.clients[me].id]);
  }

  lemma {:induction false} ExecuteKeeps(g: Progress, me: nat, c: Cmd)
    requires me < |g.w.clients| && SafeCmd(c) && Inv(g.w)
    ensures Inv(Execute(g, me, c).w) && SamePeople(g.w.clients, Execute(g, me, c).w.clients)
  {
    if !g.refused {
      PrepareKeeps(g.w, me, c);
      var q := Prepare(g.w, me, c);
      if !q.refused { PerformKeeps(q, me, c.args); }
    }
  }

  lemma {:induction false} ExecuteAllKeeps(g: Progress, me: nat, cmds: seq<Cmd>)
    requires me < |g.w.clients| && Inv(g.w) && forall i :: 0 <= i < |cmds| ==> SafeCmd(cmds[i])
    ensures Inv(ExecuteAll(g, me, cmds).w) && SamePeople(g.w.clients, ExecuteAll(g, me, cmds).w.clients)
  {
    if cmds != [] {
      var n := |cmds| - 1;
      ExecuteAllKeeps(g, me, cmds[..n]);
      ExecuteKeeps(ExecuteAll(g, me, cmds[..n]), me, cmds[n]);
    }
  }

  lemma {:induction false} LoadKeeps(w: World, me: nat)
    requires me < |w.clients| && Inv(w)
    ensures Inv(LoadEnv(w, me))
  {
  }

  lemma {:induction false} RunLineKeeps(w: World, me: nat, line: string)
    requires me < |w.clients| && SafeLine(line) && Inv(w)
    ensures Inv(RunLine(w, me, line).w) && SamePeople(w.clients, RunLine(w, me, line).w.clients)
  {
    LoadKeeps(w, me);
    ExecuteAllKeeps(Progress(LoadEnv(w, me), 0, false), me, CmdsOf(line));
  }

  // ---------- names ----------

  function Names(clients: seq<Client>): (r: seq<string>)
    ensures |r| == |clients|
  {
    seq(|clients|, i requires 0 <= i < |clients| => clients[i].name)
  }

  lemma {:induction false} ApplyAllNames(q: Prep, me: nat, ops: seq<Op>)
    requires me < |q.w.clients|
    ensures Names(ApplyAll(q, me, ops).w.clients) == Names(q.w.clients)
  {
    if ops != [] { ApplyAllNames(q, me, ops[..|ops| - 1]); }
  }

  lemma {:induction false} SweepAllNames(w: World, ids: seq<int>)
    ensures Names(SweepAll(w, ids).clients) == Names(w.clients)
  {
    if ids != [] { SweepAllNames(w, ids[..|ids| - 1]); }
  }

  lemma {:induction false} BuiltInNames(w: World, me: nat, args: seq<string>)
    requires me < |w.clients| && SafeArgs(args)
    ensures var before := Names(w.clients);
            var after := if args[0] == "name" && args[1] !in before then before[me := args[1]] else before;
            Names(BuiltIn(w, me, args).clients) == after
  {
    var before := Names(w.clients);
    if args[0] == "name" {
      assert NameTaken(w.clients, args[1]) <==> args[1] in before by {
        if NameTaken(w.clients, args[1]) {
          var i :| 0 <= i < |w.clients| && w.clients[i].name == args[1];
          assert before[i] == args[1];
        }
      }
    }
  }

  lemma {:induction false} PerformNames(q: Prep, me: nat, args: seq<string>)
    requires me < |q.w.clients| && SafeArgs(args)
    ensures Names(Perform(q, me, args).clients) == Names(BuiltIn(q.w, me, args).clients)
  {
    var w := BuiltIn(q.w, me, args).(log := q.w.log + [RanEvent(q, me, args)]);
    SweepAllNames(MoveOn(w, me), q.takes + [w.clients[me].id]);
  }

  /** `name` gives its client a name that nobody has; nothing else gives or takes a name. */
  lemma {:induction false} ExecuteNames(g: Progress, me: nat, c: Cmd)
    requires me < |g.w.clients| && SafeCmd(c)
    ensures var before, g' := Names(g.w.clients), Execute(g, me, c);
            var given := !g'.refused && c.args[0] == "name" && c.args[1] !in before;
            Names(g'.w.clients) == if given then before[me := c.args[1]] else before
  {
    if !g.refused {
      var q := Prepare(g.w, me, c);
      ApplyAllNames(Fresh(g.w), me, c.ops);
      assert Names(q.w.clients) == Names(ApplyAll(Fresh(g.w), me, c.ops).w.clients);
      if !q.refused {
        BuiltInNames(q.w, me, c.args);
        PerformNames(q, me, c.args);
      }
    }
  }

  // ---------- logging in ----------

  lemma {:induction false} IdsAfterLogin(table: seq<int>, clients: seq<Client>, c: Client)
    requires IdsOk(table, clients) && c.id == FreeSlot(table) + 1 && FreeSlot(table) < |table|
    ensures IdsOk(table[c.id - 1 := 1], clients + [c])
  {
    var table', all := table[c.id - 1 := 1], clients + [c];
    forall i | 0 <= i < |clients| ensures clients[i].id != c.id {
      assert Occupied(table, clients[i].id);
    }
    forall id | Occupied(table', id) ensures FindId(all, id) < |all| {
      assert all[|clients|] == c;
      if id != c.id {
        assert Occupied(table, id);
        FindInLonger(clients, c, id);
      }
    }
  }

  lemma {:induction false} FdsAfterLogin(watched: set<int>, msock: int, clients: seq<Client>, c: Client)
    requires FdsOk(watched, msock, clients) && c.fd !in watched
    ensures FdsOk(watched + {c.fd}, msock, clients + [c])
  {
    var all := clients + [c];
    assert all[|clients|] == c;
    forall f | f in watched + {c.fd} && f != msock ensures FindFd(all, f) < |all| {
      if f != c.fd {
        var k := FindFd(clients, f);
        assert all[k].fd == f;
      }
    }
  }

  lemma {:induction false} AcceptKeeps(w: World, fd: int)
    requires Inv(w) && fd !in w.watched
    ensures Inv(Accept(w, fd))
  {
    var k := FreeSlot(w.table);
    if k < |w.table| {
      var w' := Accept(w, fd);
      var new' := NewClient(w, fd, k + 1);
      assert w'.clients == w.clients + [new'] && w'.clients[..|w.clients|] == w.clients;
      IdsAfterLogin(w.table, w.clients, new');
      FdsAfterLogin(w.watched, w.msock, w.clients, new');
      OthersAfterLogin(w.clients, new', w.logins);
      StillOccupiedAfterLogin(w.table, k);
      NewClientOk(w, w', new');
      AllOkAfterLogin(w, w');
      Assemble(w');
    }
  }

  lemma {:induction false} StillOccupiedAfterLogin(table: seq<int>, k: nat)
    requires k < |table|
    ensures forall id :: Occupied(table, id) ==> Occupied(table[k := 1], id)
  {
  }

  lemma {:induction false} Assemble(w: World)
    requires IdsOk(w.table, w.clients) && FdsOk(w.watched, w.msock, w.clients) && LoginsOk(w.clients, w.logins)
    requires NamesOk(w.clients) && AllOk(w.table, w.clients, w.made)
    ensures Inv(w)
  {
  }

  lemma {:induction false} OthersAfterLogin(clients: seq<Client>, c: Client, logins: nat)
    requires LoginsOk(clients, logins) && NamesOk(clients) && c.login == logins && c.name == NO_NAME
    ensures LoginsOk(clients + [c], logins + 1) && NamesOk(clients + [c])
  {
  }

  lemma {:induction false} NewClientOk(w: World, w': World, c: Client)
    requires c == NewClient(w, c.fd, c.id)
    ensures ClientOk(w'.table, w'.clients, w'.made, c)
  {
    assert Setting("PATH", "bin:.") in START_ENV;
  }

  lemma {:induction false} AllOkAfterLogin(w: World, w': World)
    requires IdsOk(w.table, w.clients) && AllOk(w.table, w.clients, w.made)
    requires |w'.clients| == |w.clients| + 1 && w'.clients[..|w.clients|] == w.clients && w'.made == w.made
    requires forall id :: Occupied(w.table, id) ==> Occupied(w'.table, id)
    requires ClientOk(w'.table, w'.clients, w'.made, w'.clients[|w.clients|])
    ensures AllOk(w'.table, w'.clients, w'.made)
  {
    forall i | 0 <= i < |w.clients| ensures ClientOk(w'.table, w'.clients, w'.made, w'.clients[i]) {
      assert w'.clients[i] == w.clients[i];
      ClientOkAfterLogin(w, w', w.clients[i]);
    }
  }

  lemma {:induction false} FindInLonger(clients: seq<Client>, c: Client, id: int)
    requires FindId(clients, id) < |clients|
    ensures FindId(clients + [c], id) == FindId(clients, id) && LoginOf(clients + [c], id) == LoginOf(clients, id)
  {
    var f, g := FindId(clients, id), FindId(clients + [c], id);
    assert (clients + [c])[f] == clients[f];
    assert !(f < g);
    assert !(g < f);
  }

  lemma {:induction false} ClientOkAfterLogin(w: World, w': World, c: Client)
    requires IdsOk(w.table, w.clients) && ClientOk(w.table, w.clients, w.made, c)
    requires |w'.clients| == |w.clients| + 1 && w'.clients[..|w.clients|] == w.clients && w'.made == w.made
    requires forall id :: Occupied(w.table, id) ==> Occupied(w'.table, id)
    ensures ClientOk(w'.table, w'.clients, w'.made, c)
  {
    assert w'.clients == w.clients + [w'.clients[|w.clients|]];
    forall j | 0 <= j < |c.userPipes| ensures EntryOk(w'.table, w'.clients, w'.made, c, c.userPipes[j]) {
      assert EntryOk(w.table, w.clients, w.made, c, c.userPipes[j]);
      FindInLonger(w.clients, w'.clients[|w.clients|], c.userPipes[j].target);
    }
  }
}
