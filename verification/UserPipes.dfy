/** What the user pipes are to the users: a partial map from pairs (source, target) to pipes. The
    server's log is replayed on that map; the server's vectors hold exactly its entries. */
module UserPipes {
  import opened Sequences
  import opened ServerSyntax
  import opened ServerModel
  import opened ServerInvariant
  import opened ServerLeaving

  type Pair = (int, int)

  /** The pipes there are, and those a command has taken but not yet removed. */
  datatype Links = Links(pipes: map<Pair, nat>, marked: set<Pair>)

  predicate Touches(k: Pair, id: int) { k.0 == id || k.1 == id }

  function Without(l: Links, gone: set<Pair>): Links { Links(l.pipes - gone, l.marked - gone) }

  /** One event, if it is lawful: a pipe is made only where there is none and taken only where there
      is one, a sweep removes the source's taken pipes, nobody logs in to someone else's pipes, and
      whoever logs out takes all pipes from and to him along. */
  ghost function Note(l: Links, e: Event): Option<Links> {
    match e
    case Created(s, t, p) => if (s, t) in l.pipes then None else Some(Links(l.pipes[(s, t) := p], l.marked))
    case Taken(s, t) => if (s, t) !in l.pipes then None else Some(Links(l.pipes, l.marked + {(s, t)}))
    case Swept(s) => Some(Without(l, set k | k in l.marked && k.0 == s))
    case LoggedIn(_, id) => if exists k :: k in l.pipes && Touches(k, id) then None else Some(l)
    case LoggedOut(id) => Some(Without(l, set k | k in l.pipes && Touches(k, id)))
    case Ran(_, _, _, _, _, _, _) => Some(l)
  }

  ghost function Replay(log: seq<Event>): Option<Links> {
    if log == [] then Some(Links(map[], {})) else
      var before := Replay(log[..|log| - 1]);
      if before.None? then None else Note(before.value, log[|log| - 1])
  }

  lemma {:induction false} ReplayPush(log: seq<Event>, e: Event)
    ensures Replay(log + [e]) == if Replay(log).None? then None else Note(Replay(log).value, e)
  {
    assert (log + [e])[..|log|] == log;
  }

  function Key(u: UserPipe): Pair { (u.source, u.target) }

  ghost predicate Kept(clients: seq<Client>, k: Pair) {
    exists i, j :: 0 <= i < |clients| && 0 <= j < |clients[i].userPipes| && Key(clients[i].userPipes[j]) == k
  }

  ghost predicate EntryMatches(l: Links, u: UserPipe) {
    Key(u) in l.pipes && l.pipes[Key(u)] == u.pipe && (Key(u) in l.marked <==> u.used)
  }

  /** The vectors and the map hold the same pipes. */
  ghost predicate Matches(clients: seq<Client>, l: Links) {
    && (forall i, j :: 0 <= i < |clients| && 0 <= j < |clients[i].userPipes| ==>
          EntryMatches(l, clients[i].userPipes[j]))
    && (forall k :: k in l.pipes ==> Kept(clients, k))
    && l.marked <= l.pipes.Keys
  }

  ghost predicate Linked(w: World) {
    Replay(w.log).Some? && Matches(w.clients, Replay(w.log).value)
  }

  lemma {:induction false} InitialLinked(msock: int)
    ensures Linked(Initial(msock))
  {
  }

  // ---------- the vectors and the map ----------

  /** Entries of different clients, or at different places, have different keys. */
  ghost predicate Keyed(clients: seq<Client>) {
    && (forall i, j :: 0 <= i < |clients| && 0 <= j < |clients[i].userPipes| ==>
          clients[i].userPipes[j].source == clients[i].id)
    && (forall i, j :: 0 <= i < j < |clients| ==> clients[i].id != clients[j].id)
    && (forall i :: 0 <= i < |clients| ==> TargetsDiffer(clients[i].userPipes))
  }

  ghost predicate TargetsDiffer(ups: seq<UserPipe>) {
    forall i, j :: 0 <= i < j < |ups| ==> ups[i].target != ups[j].target
  }

  lemma {:induction false} InvIsKeyed(w: World)
    requires IdsOk(w.table, w.clients) && AllOk(w.table, w.clients, w.made)
    ensures Keyed(w.clients)
  {
    forall i | 0 <= i < |w.clients|
      ensures TargetsDiffer(w.clients[i].userPipes)
      ensures forall j :: 0 <= j < |w.clients[i].userPipes| ==> w.clients[i].userPipes[j].source == w.clients[i].id
    {
      assert ClientOk(w.table, w.clients, w.made, w.clients[i]);
      forall j | 0 <= j < |w.clients[i].userPipes| ensures w.clients[i].userPipes[j].source == w.clients[i].id {
        assert EntryOk(w.table, w.clients, w.made, w.clients[i], w.clients[i].userPipes[j]);
      }
    }
  }

  lemma {:induction false} SamePipesMatch(a: seq<Client>, b: seq<Client>, l: Links)
    requires Matches(a, l) && |a| == |b| && forall i :: 0 <= i < |a| ==> b[i].userPipes == a[i].userPipes
    ensures Matches(b, l)
  {
    forall k | k in l.pipes ensures Kept(b, k) {
      var i, j :| 0 <= i < |a| && 0 <= j < |a[i].userPipes| && Key(a[i].userPipes[j]) == k;
      assert Key(b[i].userPipes[j]) == k;
    }
  }

  lemma {:induction false} PushMatches(clients: seq<Client>, me: nat, l: Links, u: UserPipe)
    requires Matches(clients, l) && me < |clients| && Key(u) !in l.pipes && !u.used
    ensures var c := clients[me];
            Matches(clients[me := c.(userPipes := c.userPipes + [u])], Links(l.pipes[Key(u) := u.pipe], l.marked))
  {
    var c := clients[me];
    var all := clients[me := c.(userPipes := c.userPipes + [u])];
    var l' := Links(l.pipes[Key(u) := u.pipe], l.marked);
    forall i, j | 0 <= i < |all| && 0 <= j < |all[i].userPipes| ensures EntryMatches(l', all[i].userPipes[j]) {
      if i == me && j == |c.userPipes| {
      } else {
        assert all[i].userPipes[j] == clients[i].userPipes[j];
        assert EntryMatches(l, clients[i].userPipes[j]);
      }
    }
    forall k | k in l'.pipes ensures Kept(all, k) {
      if k == Key(u) {
        assert all[me].userPipes[|c.userPipes|] == u;
      } else {
        var i, j :| 0 <= i < |clients| && 0 <= j < |clients[i].userPipes| && Key(clients[i].userPipes[j]) == k;
        assert Key(all[i].userPipes[j]) == k;
      }
    }
  }

  function Marked(clients: seq<Client>, s: nat, n: nat): seq<Client>
    requires s < |clients| && n < |clients[s].userPipes|
  {
    var c := clients[s];
    clients[s := c.(userPipes := c.userPipes[n := c.userPipes[n].(used := true)])]
  }

  lemma {:induction false} MarkMatches(clients: seq<Client>, s: nat, n: nat, l: Links)
    requires Keyed(clients) && Matches(clients, l) && s < |clients| && n < |clients[s].userPipes|
    ensures Matches(Marked(clients, s, n), Links(l.pipes, l.marked + {Key(clients[s].userPipes[n])}))
  {
    var all := Marked(clients, s, n);
    var l' := Links(l.pipes, l.marked + {Key(clients[s].userPipes[n])});
    assert EntryMatches(l, clients[s].userPipes[n]);
    forall i, j | 0 <= i < |all| && 0 <= j < |all[i].userPipes| ensures EntryMatches(l', all[i].userPipes[j]) {
      assert EntryMatches(l, clients[i].userPipes[j]);
      KeysDiffer(clients, i, j, s, n);
    }
    forall k | k in l'.pipes ensures Kept(all, k) { MarkKept(clients, s, n, k); }
  }

  lemma {:induction false} MarkKept(clients: seq<Client>, s: nat, n: nat, k: Pair)
    requires s < |clients| && n < |clients[s].userPipes| && Kept(clients, k)
    ensures Kept(Marked(clients, s, n), k)
  {
    var i, j :| 0 <= i < |clients| && 0 <= j < |clients[i].userPipes| && Key(clients[i].userPipes[j]) == k;
    assert Key(Marked(clients, s, n)[i].userPipes[j]) == k;
  }

  lemma {:induction false} KeysDiffer(clients: seq<Client>, i: nat, j: nat, s: nat, n: nat)
    requires Keyed(clients) && i < |clients| && s < |clients|
    requires j < |clients[i].userPipes| && n < |clients[s].userPipes|
    ensures Key(clients[i].userPipes[j]) == Key(clients[s].userPipes[n]) ==> i == s && j == n
  {
    assert TargetsDiffer(clients[s].userPipes);
  }

  /** One of the clients has this user pipe. */
  ghost predicate Holds(clients: seq<Client>, u: UserPipe) {
    exists i, j :: 0 <= i < |clients| && 0 <= j < |clients[i].userPipes| && clients[i].userPipes[j] == u
  }

  /** What is left after dropping the entries with some keys. */
  ghost predicate Dropped(clients: seq<Client>, after: seq<Client>, gone: set<Pair>) {
    forall u :: Holds(after, u) <==> Holds(clients, u) && Key(u) !in gone
  }

  lemma {:induction false} DropMatches(clients: seq<Client>, after: seq<Client>, l: Links, gone: set<Pair>)
    requires Matches(clients, l) && Dropped(clients, after, gone)
    ensures Matches(after, Without(l, gone))
  {
    var l' := Without(l, gone);
    forall i, j | 0 <= i < |after| && 0 <= j < |after[i].userPipes| ensures EntryMatches(l', after[i].userPipes[j]) {
      assert Holds(after, after[i].userPipes[j]);
      HeldMatches(clients, l, after[i].userPipes[j]);
    }
    forall k | k in l'.pipes ensures Kept(after, k) {
      var i, j :| 0 <= i < |clients| && 0 <= j < |clients[i].userPipes| && Key(clients[i].userPipes[j]) == k;
      HeldIsKept(after, clients[i].userPipes[j]);
    }
  }

  lemma {:induction false} HeldMatches(clients: seq<Client>, l: Links, u: UserPipe)
    requires Matches(clients, l) && Holds(clients, u)
    ensures EntryMatches(l, u)
  {
  }

  lemma {:induction false} HeldIsKept(clients: seq<Client>, u: UserPipe)
    requires Holds(clients, u)
    ensures Kept(clients, Key(u))
  {
  }

  ghost predicate DropsFrom(ups: seq<UserPipe>, rest: seq<UserPipe>, gone: set<Pair>) {
    forall u :: u in rest <==> u in ups && Key(u) !in gone
  }

  /** Dropping the same keys from every vector. */
  lemma {:induction false} EachDrops(clients: seq<Client>, after: seq<Client>, gone: set<Pair>)
    requires |after| == |clients|
    requires forall i :: 0 <= i < |clients| ==> DropsFrom(clients[i].userPipes, after[i].userPipes, gone)
    ensures Dropped(clients, after, gone)
  {
    forall u ensures Holds(after, u) <==> Holds(clients, u) && Key(u) !in gone {
      if Holds(after, u) {
        var a, b :| 0 <= a < |after| && 0 <= b < |after[a].userPipes| && after[a].userPipes[b] == u;
        assert DropsFrom(clients[a].userPipes, after[a].userPipes, gone);
        assert u in clients[a].userPipes;
      }
      if Holds(clients, u) && Key(u) !in gone {
        var a, b :| 0 <= a < |clients| && 0 <= b < |clients[a].userPipes| && clients[a].userPipes[b] == u;
        assert u in after[a].userPipes;
      }
    }
  }

  lemma {:induction false} MemberMatches(clients: seq<Client>, i: nat, l: Links, u: UserPipe)
    requires Keyed(clients) && Matches(clients, l) && i < |clients| && u in clients[i].userPipes
    ensures EntryMatches(l, u) && u.source == clients[i].id
  {
  }

  lemma {:induction false} SweepMatches(clients: seq<Client>, i: nat, l: Links)
    requires Keyed(clients) && Matches(clients, l) && i < |clients|
    ensures var c := clients[i];
            Matches(clients[i := c.(userPipes := Filter(UNUSED, c.userPipes))],
                    Without(l, set k | k in l.marked && k.0 == c.id))
  {
    var c := clients[i];
    var after, gone := clients[i := c.(userPipes := Filter(UNUSED, c.userPipes))], set k | k in l.marked && k.0 == c.id;
    FilterMembers(UNUSED, c.userPipes);
    forall a | 0 <= a < |clients| ensures DropsFrom(clients[a].userPipes, after[a].userPipes, gone) {
      forall u ensures u in after[a].userPipes <==> u in clients[a].userPipes && Key(u) !in gone {
        if u in clients[a].userPipes { MemberMatches(clients, a, l, u); }
      }
    }
    EachDrops(clients, after, gone);
    DropMatches(clients, after, l, gone);
  }

  lemma {:induction false} HeldAfterLeave(clients: seq<Client>, k: nat, u: UserPipe)
    requires Keyed(clients) && k < |clients| && Holds(Others(clients, k, clients[k].id), u)
    ensures Holds(clients, u) && !Touches(Key(u), clients[k].id)
  {
    var id := clients[k].id;
    var after := Others(clients, k, id);
    var a, b :| 0 <= a < |after| && 0 <= b < |after[a].userPipes| && after[a].userPipes[b] == u;
    var i := if a < k then a else a + 1;
    PrunedMember(clients[i], id, u);
    assert clients[if i < k then i else k].id != clients[if i < k then k else i].id;
  }

  lemma {:induction false} HeldBeforeLeave(clients: seq<Client>, k: nat, u: UserPipe)
    requires Keyed(clients) && k < |clients| && Holds(clients, u) && !Touches(Key(u), clients[k].id)
    ensures Holds(Others(clients, k, clients[k].id), u)
  {
    var id := clients[k].id;
    var i, b :| 0 <= i < |clients| && 0 <= b < |clients[i].userPipes| && clients[i].userPipes[b] == u;
    PrunedMember(clients[i], id, u);
    assert Others(clients, k, id)[if i < k then i else i - 1] == Pruned(clients[i], id);
  }

  lemma {:induction false} LeaveMatches(clients: seq<Client>, k: nat, l: Links)
    requires Keyed(clients) && Matches(clients, l) && k < |clients|
    ensures var id := clients[k].id;
            Matches(Others(clients, k, id), Without(l, set p | p in l.pipes && Touches(p, id)))
  {
    var id := clients[k].id;
    var after, gone := Others(clients, k, id), set p | p in l.pipes && Touches(p, id);
    forall u ensures Holds(after, u) <==> Holds(clients, u) && Key(u) !in gone {
      if Holds(after, u) { HeldAfterLeave(clients, k, u); }
      if Holds(clients, u) && Key(u) !in gone {
        HeldMatches(clients, l, u);
        HeldBeforeLeave(clients, k, u);
      }
    }
    DropMatches(clients, after, l, gone);
  }

  lemma {:induction false} PrunedMember(c: Client, id: int, u: UserPipe)
    ensures u in Pruned(c, id).userPipes <==> u in c.userPipes && u.target != id
  {
    FilterMembers((u: UserPipe) => u.target != id, c.userPipes);
  }

  // ---------- every part of a step is lawful ----------

  lemma {:induction false} SameLinked(w: World, w': World)
    requires Linked(w) && Replay(w'.log) == Replay(w.log) && |w'.clients| == |w.clients|
    requires forall i :: 0 <= i < |w.clients| ==> w'.clients[i].userPipes == w.clients[i].userPipes
    ensures Linked(w')
  {
    SamePipesMatch(w.clients, w'.clients, Replay(w.log).value);
  }

  /** Where a client has no pipe to a target, the map has none either. */
  lemma {:induction false} NoTargetNoKey(clients: seq<Client>, me: nat, l: Links, target: int)
    requires Keyed(clients) && Matches(clients, l) && me < |clients|
    requires FindTarget(clients[me].userPipes, target) == |clients[me].userPipes|
    ensures (clients[me].id, target) !in l.pipes
  {
  }

  lemma {:induction false} OpenSharedLinked(w: World, me: nat, target: int)
    requires Keyed(w.clients) && Linked(w) && me < |w.clients|
    requires FindTarget(w.clients[me].userPipes, target) == |w.clients[me].userPipes|
    ensures Linked(OpenShared(w, me, target))
  {
    var c, l := w.clients[me], Replay(w.log).value;
    ReplayPush(w.log, Created(c.id, target, |w.made|));
    NoTargetNoKey(w.clients, me, l, target);
    PushMatches(w.clients, me, l, UserPipe(|w.made|, c.id, target, false));
  }

  lemma {:induction false} MarkLinked(w: World, s: nat, n: nat)
    requires Keyed(w.clients) && Linked(w) && s < |w.clients| && n < |w.clients[s].userPipes|
    ensures Linked(Mark(w, s, n))
  {
    var l, u := Replay(w.log).value, w.clients[s].userPipes[n];
    ReplayPush(w.log, Taken(u.source, u.target));
    assert EntryMatches(l, u);
    MarkMatches(w.clients, s, n, l);
  }

  lemma {:induction false} ApplyLinked(q: Prep, me: nat, op: Op)
    requires me < |q.w.clients| && Keyed(q.w.clients) && Linked(q.w)
    ensures Linked(Apply(q, me, op).w)
  {
    var w, w' := q.w, Apply(q, me, op).w;
    if op.ToUser? && w' != w {
      OpenSharedLinked(w, me, op.id);
    } else if op.FromUser? && w' != w {
      var i := FindId(w.clients, op.id);
      MarkLinked(w, i, FindTarget(w.clients[i].userPipes, w.clients[me].id));
    }
  }

  lemma {:induction false} ApplyAllLinked(q: Prep, me: nat, ops: seq<Op>)
    requires me < |q.w.clients| && Inv(q.w) && Linked(q.w)
    ensures Linked(ApplyAll(q, me, ops).w)
  {
    if ops != [] {
      var n := |ops| - 1;
      ApplyAllLinked(q, me, ops[..n]);
      ApplyAllKeeps(q, me, ops[..n]);
      InvIsKeyed(ApplyAll(q, me, ops[..n]).w);
      ApplyLinked(ApplyAll(q, me, ops[..n]), me, ops[n]);
    }
  }

  lemma {:induction false} PrepareLinked(w: World, me: nat, c: Cmd)
    requires me < |w.clients| && Inv(w) && Linked(w)
    ensures Linked(Prepare(w, me, c).w)
  {
    ApplyAllLinked(Fresh(w), me, c.ops);
    SameLinked(ApplyAll(Fresh(w), me, c.ops).w, Prepare(w, me, c).w);
  }

  lemma {:induction false} SweepLinked(w: World, id: int)
    requires Keyed(w.clients) && Linked(w)
    ensures Linked(Sweep(w, id))
  {
    var i := FindId(w.clients, id);
    if i < |w.clients| {
      ReplayPush(w.log, Swept(id));
      SweepMatches(w.clients, i, Replay(w.log).value);
    }
  }

  lemma {:induction false} SweepAllLinked(w: World, ids: seq<int>)
    requires Inv(w) && Linked(w)
    ensures Linked(SweepAll(w, ids))
  {
    if ids != [] {
      var n := |ids| - 1;
      SweepAllLinked(w, ids[..n]);
      SweepAllKeeps(w, ids[..n]);
      InvIsKeyed(SweepAll(w, ids[..n]));
      SweepLinked(SweepAll(w, ids[..n]), ids[n]);
    }
  }

  lemma {:induction false} RanLinked(q: Prep, me: nat, args: seq<string>)
    requires me < |q.w.clients| && SafeArgs(args) && Linked(q.w)
    ensures Linked(MoveOn(BuiltIn(q.w, me, args).(log := q.w.log + [RanEvent(q, me, args)]), me))
  {
    ReplayPush(q.w.log, RanEvent(q, me, args));
    SameLinked(q.w, MoveOn(BuiltIn(q.w, me, args).(log := q.w.log + [RanEvent(q, me, args)]), me));
  }

  lemma {:induction false} PerformLinked(q: Prep, me: nat, args: seq<string>)
    requires me < |q.w.clients| && Inv(q.w) && SafeArgs(args) && Linked(q.w)
    ensures Linked(Perform(q, me, args))
  {
    var w := BuiltIn(q.w, me, args).(log := q.w.log + [RanEvent(q, me, args)]);
    RanLinked(q, me, args);
    BuiltInKeeps(q.w, me, args);
    LoggedKeeps(BuiltIn(q.w, me, args), w);
    MoveOnKeeps(w, me);
    SweepAllLinked(MoveOn(w, me), q.takes + [w.clients[me].id]);
  }

  /** The log is not part of the invariant. */
  lemma {:induction false} LoggedKeeps(w: World, w': World)
    requires Inv(w) && w' == w.(log := w'.log)
    ensures Inv(w')
  {
  }

  lemma {:induction false} ExecuteLinked(g: Progress, me: nat, c: Cmd)
    requires me < |g.w.clients| && SafeCmd(c) && Inv(g.w) && Linked(g.w)
    ensures Linked(Execute(g, me, c).w)
  {
    if !g.refused {
      PrepareLinked(g.w, me, c);
      PrepareKeeps(g.w, me, c);
      var q := Prepare(g.w, me, c);
      if !q.refused { PerformLinked(q, me, c.args); }
    }
  }

  lemma {:induction false} ExecuteAllLinked(g: Progress, me: nat, cmds: seq<Cmd>)
    requires me < |g.w.clients| && Inv(g.w) && Linked(g.w) && forall i :: 0 <= i < |cmds| ==> SafeCmd(cmds[i])
    ensures Linked(ExecuteAll(g, me, cmds).w)
  {
    if cmds != [] {
      var n := |cmds| - 1;
      ExecuteAllLinked(g, me, cmds[..n]);
      ExecuteAllKeeps(g, me, cmds[..n]);
      ExecuteLinked(ExecuteAll(g, me, cmds[..n]), me, cmds[n]);
    }
  }

  lemma {:induction false} RunLineLinked(w: World, me: nat, line: string)
    requires me < |w.clients| && SafeLine(line) && Inv(w) && Linked(w)
    ensures Linked(RunLine(w, me, line).w)
  {
    SameLinked(w, LoadEnv(w, me));
    ExecuteAllLinked(Progress(LoadEnv(w, me), 0, false), me, CmdsOf(line));
  }

  ghost predicate NobodyAt(l: Links, id: int) { forall k :: k in l.pipes ==> !Touches(k, id) }

  /** A new login finds no pipe from or to its id, whoever had that id before. */
  lemma {:induction false} AcceptLinked(w: World, fd: int)
    requires IdsOk(w.table, w.clients) && AllOk(w.table, w.clients, w.made) && Linked(w)
    ensures Linked(Accept(w, fd))
  {
    if FreeSlot(w.table) < |w.table| {
      NobodyTouches(w, FreeSlot(w.table) + 1);
      NewcomerLinked(w, fd);
    }
  }

  lemma {:induction false} NewcomerLinked(w: World, fd: int)
    requires Linked(w) && FreeSlot(w.table) < |w.table| && NobodyAt(Replay(w.log).value, FreeSlot(w.table) + 1)
    ensures Linked(Accept(w, fd))
  {
    var id := FreeSlot(w.table) + 1;
    ReplayPush(w.log, LoggedIn(w.logins, id));
    NewcomerMatches(w.clients, Replay(w.log).value, NewClient(w, fd, id));
  }

  lemma {:induction false} NobodyTouches(w: World, id: int)
    requires IdsOk(w.table, w.clients) && AllOk(w.table, w.clients, w.made) && Linked(w) && !Occupied(w.table, id)
    ensures NobodyAt(Replay(w.log).value, id)
  {
    forall k | k in Replay(w.log).value.pipes ensures !Touches(k, id) {
      assert Kept(w.clients, k);
      EndsAreHere(w, k);
    }
  }

  lemma {:induction false} EndsAreHere(w: World, k: Pair)
    requires IdsOk(w.table, w.clients) && AllOk(w.table, w.clients, w.made) && Kept(w.clients, k)
    ensures Occupied(w.table, k.0) && Occupied(w.table, k.1)
  {
    var i, j :| 0 <= i < |w.clients| && 0 <= j < |w.clients[i].userPipes| && Key(w.clients[i].userPipes[j]) == k;
    assert ClientOk(w.table, w.clients, w.made, w.clients[i]);
    assert EntryOk(w.table, w.clients, w.made, w.clients[i], w.clients[i].userPipes[j]);
  }

  lemma {:induction false} NewcomerMatches(clients: seq<Client>, l: Links, c: Client)
    requires Matches(clients, l) && c.userPipes == []
    ensures Matches(clients + [c], l)
  {
    var all := clients + [c];
    forall k | k in l.pipes ensures Kept(all, k) {
      var i, j :| 0 <= i < |clients| && 0 <= j < |clients[i].userPipes| && Key(clients[i].userPipes[j]) == k;
      assert Key(all[i].userPipes[j]) == k;
    }
  }

  lemma {:induction false} LeftLinked(w: World, k: nat)
    requires Inv(w) && Linked(w) && k < |w.clients|
    ensures Occupied(w.table, w.clients[k].id) && Linked(Left(w, k))
  {
    InvIsKeyed(w);
    ReplayPush(w.log, LoggedOut(w.clients[k].id));
    LeaveMatches(w.clients, k, Replay(w.log).value);
  }
}
