/** Whose pipes a command is handed, and that no pipe is read by two commands. */
module PipeOwnership {
  import opened Sequences
  import opened ServerSyntax
  import opened ServerModel
  import opened ServerInvariant
  import opened ServerLeaving
  import PS = PipeSchedule

  // ---------- ownership ----------

  /** An input pipe is one of the login's own numbered pipes or was made for it to read. */
  ghost predicate MayRead(made: seq<Owner>, login: nat, h: Handle) {
    match h
    case FromPipe(p) => p < |made| && (made[p] == Numbered(login) || (made[p].Shared? && made[p].targetLogin == login))
    case ToPipe(_) => false
    case _ => true
  }

  ghost predicate MayWrite(made: seq<Owner>, login: nat, h: Handle) {
    match h
    case ToPipe(p) => p < |made| && (made[p] == Numbered(login) || (made[p].Shared? && made[p].sourceLogin == login))
    case FromPipe(_) => false
    case _ => true
  }

  ghost predicate Lawful(made: seq<Owner>, e: Event) {
    e.Ran? ==> MayRead(made, e.login, e.stdin) && MayWrite(made, e.login, e.stdout) && MayWrite(made, e.login, e.stderr)
  }

  /** Every command so far was handed only pipes made for its login. */
  ghost predicate Isolated(w: World) {
    forall n :: 0 <= n < |w.log| ==> Lawful(w.made, w.log[n])
  }

  // ---------- single readers ----------

  ghost predicate InSlots(slots: seq<PS.Slot>, p: nat) { exists j :: 0 <= j < |slots| && slots[j].pipe == p }

  ghost predicate InShared(ups: seq<UserPipe>, p: nat) { exists j :: 0 <= j < |ups| && ups[j].pipe == p }

  /** Some client still has the pipe. */
  ghost predicate Held(clients: seq<Client>, p: nat) {
    exists i :: 0 <= i < |clients| && (InSlots(clients[i].pipes, p) || InShared(clients[i].userPipes, p))
  }

  ghost predicate Reads(e: Event, p: nat) { e.Ran? && e.stdin == FromPipe(p) }

  ghost predicate Spent(made: seq<Owner>, clients: seq<Client>, e: Event) {
    e.Ran? && e.stdin.FromPipe? ==> e.stdin.pipe < |made| && !Held(clients, e.stdin.pipe)
  }

  ghost predicate SameRead(a: Event, b: Event) { a.Ran? && b.Ran? && a.stdin.FromPipe? && a.stdin == b.stdin }

  /** A pipe that a command has read is nowhere any more, and no second command has read it. */
  ghost predicate ReadOnce(w: World) {
    && (forall n :: 0 <= n < |w.log| ==> Spent(w.made, w.clients, w.log[n]))
    && (forall m, n :: 0 <= m < n < |w.log| ==> !SameRead(w.log[m], w.log[n]))
  }

  /** Nothing has run, and only new pipes have come. */
  ghost predicate Later(w: World, w': World) {
    && w.made <= w'.made
    && (forall p: nat :: p < |w.made| && Held(w'.clients, p) ==> Held(w.clients, p))
    && w.log <= w'.log
    && (forall n :: |w.log| <= n < |w'.log| ==> !w'.log[n].Ran?)
  }

  lemma {:induction false} LaterTrans(a: World, b: World, c: World)
    requires Later(a, b) && Later(b, c)
    ensures Later(a, c)
  {
    forall n | |a.log| <= n < |c.log| ensures !c.log[n].Ran? {
      if n < |b.log| { assert c.log[n] == b.log[n]; }
    }
  }

  lemma {:induction false} LaterKeeps(w: World, w': World)
    requires Later(w, w') && Isolated(w) && ReadOnce(w)
    ensures Isolated(w') && ReadOnce(w')
  {
    forall n | 0 <= n < |w'.log| ensures Lawful(w'.made, w'.log[n]) {
      if n < |w.log| { assert w'.log[n] == w.log[n] && Lawful(w.made, w.log[n]); }
    }
    forall n | 0 <= n < |w'.log| ensures Spent(w'.made, w'.clients, w'.log[n]) {
      if n < |w.log| { assert w'.log[n] == w.log[n] && Spent(w.made, w.clients, w.log[n]); }
    }
    forall m, n | 0 <= m < n < |w'.log| ensures !SameRead(w'.log[m], w'.log[n]) {
      if n < |w.log| { assert w'.log[m] == w.log[m] && w'.log[n] == w.log[n]; }
    }
  }

  /** Every vector has at most what it had, besides new pipes. */
  lemma {:induction false} SetClientLater(w: World, w': World, me: nat, c: Client)
    requires me < |w.clients| && w'.clients == w.clients[me := c] && w.made <= w'.made
    requires forall p: nat :: p < |w.made| && InSlots(c.pipes, p) ==> InSlots(w.clients[me].pipes, p)
    requires forall p: nat :: p < |w.made| && InShared(c.userPipes, p) ==> InShared(w.clients[me].userPipes, p)
    requires w.log <= w'.log && forall n :: |w.log| <= n < |w'.log| ==> !w'.log[n].Ran?
    ensures Later(w, w')
  {
    forall p: nat | p < |w.made| && Held(w'.clients, p) ensures Held(w.clients, p) {
      var i :| 0 <= i < |w'.clients| && (InSlots(w'.clients[i].pipes, p) || InShared(w'.clients[i].userPipes, p));
      assert InSlots(w.clients[i].pipes, p) || InShared(w.clients[i].userPipes, p);
    }
  }

  lemma {:induction false} OpenNumberedLater(w: World, me: nat, n: int)
    requires me < |w.clients|
    ensures Later(w, OpenNumbered(w, me, n).0)
  {
    if PS.PipeAt(w.clients[me].pipes, n).None? {
      var c := w.clients[me];
      var c' := c.(pipes := c.pipes + [PS.Slot(|w.made|, n)]);
      forall p: nat | p < |w.made| && InSlots(c'.pipes, p) ensures InSlots(c.pipes, p) {
        var j :| 0 <= j < |c'.pipes| && c'.pipes[j].pipe == p;
        assert c.pipes[j].pipe == p;
      }
      SetClientLater(w, OpenNumbered(w, me, n).0, me, c');
    }
  }

  lemma {:induction false} OpenSharedLater(w: World, me: nat, target: int)
    requires me < |w.clients|
    ensures Later(w, OpenShared(w, me, target))
  {
    var c := w.clients[me];
    var c' := c.(userPipes := c.userPipes + [UserPipe(|w.made|, c.id, target, false)]);
    forall p: nat | p < |w.made| && InShared(c'.userPipes, p) ensures InShared(c.userPipes, p) {
      var j :| 0 <= j < |c'.userPipes| && c'.userPipes[j].pipe == p;
      assert c.userPipes[j].pipe == p;
    }
    SetClientLater(w, OpenShared(w, me, target), me, c');
  }

  lemma {:induction false} MarkLater(w: World, s: nat, k: nat)
    requires s < |w.clients| && k < |w.clients[s].userPipes|
    ensures Later(w, Mark(w, s, k))
  {
    var c, c' := w.clients[s], Mark(w, s, k).clients[s];
    forall p: nat | InShared(c'.userPipes, p) ensures InShared(c.userPipes, p) {
      var j :| 0 <= j < |c'.userPipes| && c'.userPipes[j].pipe == p;
      assert c.userPipes[j].pipe == p;
    }
    SetClientLater(w, Mark(w, s, k), s, c');
  }

  lemma {:induction false} FilterInShared(keep: UserPipe -> bool, ups: seq<UserPipe>, p: nat)
    requires InShared(Filter(keep, ups), p)
    ensures InShared(ups, p)
  {
    FilterMembers(keep, ups);
    var j :| 0 <= j < |Filter(keep, ups)| && Filter(keep, ups)[j].pipe == p;
    assert Filter(keep, ups)[j] in ups;
  }

  lemma {:induction false} SweepLater(w: World, id: int)
    ensures Later(w, Sweep(w, id))
  {
    var i := FindId(w.clients, id);
    if i < |w.clients| {
      forall p: nat | InShared(Filter(UNUSED, w.clients[i].userPipes), p) ensures InShared(w.clients[i].userPipes, p) {
        FilterInShared(UNUSED, w.clients[i].userPipes, p);
      }
      SetClientLater(w, Sweep(w, id), i, Sweep(w, id).clients[i]);
    }
  }

  lemma {:induction false} SweepAllLater(w: World, ids: seq<int>)
    ensures Later(w, SweepAll(w, ids))
  {
    if ids != [] {
      var n := |ids| - 1;
      SweepAllLater(w, ids[..n]);
      SweepLater(SweepAll(w, ids[..n]), ids[n]);
      LaterTrans(w, SweepAll(w, ids[..n]), SweepAll(w, ids));
    }
  }

  lemma {:induction false} ApplyLater(q: Prep, me: nat, op: Op)
    requires me < |q.w.clients|
    ensures Later(q.w, Apply(q, me, op).w)
  {
    var w, w' := q.w, Apply(q, me, op).w;
    if op.ToUser? && w' != w {
      OpenSharedLater(w, me, op.id);
    } else if op.FromUser? && w' != w {
      var i := FindId(w.clients, op.id);
      MarkLater(w, i, FindTarget(w.clients[i].userPipes, w.clients[me].id));
    }
  }

  // ---------- preparing a command ----------

  /** The pipe is a taken one, and will be removed after the command. */
  ghost predicate Claimed(clients: seq<Client>, takes: seq<int>, p: nat) {
    exists i, k :: 0 <= i < |clients| && 0 <= k < |clients[i].userPipes|
                && clients[i].userPipes[k].pipe == p && clients[i].userPipes[k].used && clients[i].id in takes
  }

  ghost predicate Prepared(q: Prep, me: nat)
    requires me < |q.w.clients|
  {
    var login := q.w.clients[me].login;
    && MayRead(q.w.made, login, q.stdin)
    && MayWrite(q.w.made, login, q.stdout)
    && MayWrite(q.w.made, login, q.stderr)
    && (q.stdin.FromPipe? ==> q.w.made[q.stdin.pipe].Shared? && Claimed(q.w.clients, q.takes, q.stdin.pipe))
  }

  lemma {:induction false} ToUserPrepared(q: Prep, me: nat, target: int)
    requires me < |q.w.clients| && Prepared(q, me) && !Apply(q, me, ToUser(target)).refused
    ensures Prepared(Apply(q, me, ToUser(target)), me)
  {
    var q' := Apply(q, me, ToUser(target));
    if q.stdin.FromPipe? {
      var i, k :| 0 <= i < |q.w.clients| && 0 <= k < |q.w.clients[i].userPipes|
               && q.w.clients[i].userPipes[k].pipe == q.stdin.pipe && q.w.clients[i].userPipes[k].used
               && q.w.clients[i].id in q.takes;
      assert q'.w.clients[i].userPipes[k] == q.w.clients[i].userPipes[k];
    }
  }

  /** A pipe kept for a client was made for its login to read. */
  lemma {:induction false} EntryForMe(w: World, i: nat, k: nat, me: nat)
    requires Inv(w) && i < |w.clients| && me < |w.clients| && k < |w.clients[i].userPipes|
    requires w.clients[i].userPipes[k].target == w.clients[me].id
    ensures var p := w.clients[i].userPipes[k].pipe;
            p < |w.made| && w.made[p].Shared? && w.made[p].targetLogin == w.clients[me].login
  {
    assert ClientOk(w.table, w.clients, w.made, w.clients[i]);
    assert EntryOk(w.table, w.clients, w.made, w.clients[i], w.clients[i].userPipes[k]);
    FindIdIs(w.clients, me);
  }

  lemma {:induction false} TakePrepared(q: Prep, me: nat, i: nat, k: nat)
    requires me < |q.w.clients| && Prepared(q, me) && i < |q.w.clients| && k < |q.w.clients[i].userPipes|
    requires var p := q.w.clients[i].userPipes[k].pipe;
             p < |q.w.made| && q.w.made[p].Shared? && q.w.made[p].targetLogin == q.w.clients[me].login
    ensures var c := q.w.clients[i];
            Prepared(q.(w := Mark(q.w, i, k), stdin := FromPipe(c.userPipes[k].pipe), takes := q.takes + [c.id]), me)
  {
    var c := q.w.clients[i];
    var q' := q.(w := Mark(q.w, i, k), stdin := FromPipe(c.userPipes[k].pipe), takes := q.takes + [c.id]);
    assert q'.takes[|q.takes|] == c.id;
    assert q'.w.clients[i].userPipes[k].used && q'.w.clients[i].id == c.id;
  }

  lemma {:induction false} ApplyPrepared(q: Prep, me: nat, op: Op)
    requires me < |q.w.clients| && Prepared(q, me) && Inv(q.w)
    ensures Prepared(Apply(q, me, op), me)
  {
    if Apply(q, me, op) == q.(refused := true) {
    } else if op.ToUser? {
      ToUserPrepared(q, me, op.id);
    } else if op.FromUser? {
      var i := FindId(q.w.clients, op.id);
      var k := FindTarget(q.w.clients[i].userPipes, q.w.clients[me].id);
      EntryForMe(q.w, i, k, me);
      TakePrepared(q, me, i, k);
    }
  }

  lemma {:induction false} ApplyAllPrepared(q: Prep, me: nat, ops: seq<Op>)
    requires me < |q.w.clients| && Prepared(q, me) && Inv(q.w)
    ensures Prepared(ApplyAll(q, me, ops), me) && Later(q.w, ApplyAll(q, me, ops).w)
  {
    if ops != [] {
      var n := |ops| - 1;
      ApplyAllPrepared(q, me, ops[..n]);
      ApplyAllKeeps(q, me, ops[..n]);
      ApplyPrepared(ApplyAll(q, me, ops[..n]), me, ops[n]);
      ApplyLater(ApplyAll(q, me, ops[..n]), me, ops[n]);
      LaterTrans(q.w, ApplyAll(q, me, ops[..n]).w, ApplyAll(q, me, ops).w);
    }
  }

  lemma {:induction false} SinkPrepared(q: Prep, me: nat, sink: Sink)
    requires me < |q.w.clients| && Prepared(q, me) && NumberedOk(q.w.made, q.w.clients[me])
    ensures Prepared(ApplySink(q, me, sink), me) && Later(q.w, ApplySink(q, me, sink).w)
  {
    var q' := ApplySink(q, me, sink);
    if !q.refused && !sink.NoPipe? {
      OpenNumberedLater(q.w, me, sink.n);
      if q.stdin.FromPipe? {
        var i, k :| 0 <= i < |q.w.clients| && 0 <= k < |q.w.clients[i].userPipes|
                 && q.w.clients[i].userPipes[k].pipe == q.stdin.pipe && q.w.clients[i].userPipes[k].used
                 && q.w.clients[i].id in q.takes;
        assert q'.w.clients[i].userPipes[k] == q.w.clients[i].userPipes[k];
      }
    }
  }

  /** A command is handed only pipes made for its login, whatever it asks for. */
  lemma {:induction false} PrepareGives(w: World, me: nat, c: Cmd)
    requires me < |w.clients| && Inv(w)
    ensures Prepared(Prepare(w, me, c), me) && Later(w, Prepare(w, me, c).w)
  {
    ApplyAllPrepared(Fresh(w), me, c.ops);
    ApplyAllKeeps(Fresh(w), me, c.ops);
    var q := ApplyAll(Fresh(w), me, c.ops);
    assert ClientOk(q.w.table, q.w.clients, q.w.made, q.w.clients[me]);
    SinkPrepared(q, me, c.sink);
    LaterTrans(w, q.w, Prepare(w, me, c).w);
  }

  // ---------- running a command ----------

  /** The vectors have lost exactly the used pipes of the clients with these ids. */
  ghost predicate Cleaned(before: seq<Client>, after: seq<Client>, ids: seq<int>) {
    |after| == |before| && forall i :: 0 <= i < |before| ==> CleanedOne(before[i], after[i], ids)
  }

  ghost predicate CleanedOne(c: Client, c': Client, ids: seq<int>) {
    && c'.id == c.id && c'.pipes == c.pipes
    && forall u :: u in c'.userPipes <==> u in c.userPipes && (c.id in ids ==> !u.used)
  }

  ghost predicate IdsDiffer(clients: seq<Client>) {
    forall i, j :: 0 <= i < j < |clients| ==> clients[i].id != clients[j].id
  }

  lemma {:induction false} SweepCleans(w: World, id: int)
    requires IdsDiffer(w.clients)
    ensures Cleaned(w.clients, Sweep(w, id).clients, [id])
  {
    var i := FindId(w.clients, id);
    if i < |w.clients| {
      FilterMembers(UNUSED, w.clients[i].userPipes);
    }
  }

  lemma {:induction false} CleanedTwice(a: seq<Client>, b: seq<Client>, c: seq<Client>, ids: seq<int>, more: seq<int>)
    requires Cleaned(a, b, ids) && Cleaned(b, c, more)
    ensures Cleaned(a, c, ids + more)
  {
    forall i | 0 <= i < |a| ensures CleanedOne(a[i], c[i], ids + more) {
      assert CleanedOne(a[i], b[i], ids) && CleanedOne(b[i], c[i], more);
    }
  }

  lemma {:induction false} CleanedIds(a: seq<Client>, b: seq<Client>, ids: seq<int>)
    requires IdsDiffer(a) && Cleaned(a, b, ids)
    ensures IdsDiffer(b)
  {
    forall i, j | 0 <= i < j < |b| ensures b[i].id != b[j].id {
      assert CleanedOne(a[i], b[i], ids) && CleanedOne(a[j], b[j], ids);
    }
  }

  lemma {:induction false} SweepAllCleans(w: World, ids: seq<int>)
    requires IdsDiffer(w.clients)
    ensures Cleaned(w.clients, SweepAll(w, ids).clients, ids)
  {
    if ids != [] {
      var n := |ids| - 1;
      var mid := SweepAll(w, ids[..n]);
      SweepAllCleans(w, ids[..n]);
      CleanedIds(w.clients, mid.clients, ids[..n]);
      SweepCleans(mid, ids[n]);
      CleanedTwice(w.clients, mid.clients, SweepAll(w, ids).clients, ids[..n], [ids[n]]);
      assert ids[..n] + [ids[n]] == ids;
    }
  }

  /** Two entries with one pipe are one entry. */
  lemma {:induction false} OneEntry(w: World, i: nat, u: UserPipe, i': nat, u': UserPipe)
    requires IdsDiffer(w.clients) && AllOk(w.table, w.clients, w.made) && i < |w.clients| && i' < |w.clients|
    requires u in w.clients[i].userPipes && u' in w.clients[i'].userPipes
    ensures u.pipe == u'.pipe ==> i == i' && u == u'
  {
    var k :| 0 <= k < |w.clients[i].userPipes| && w.clients[i].userPipes[k] == u;
    var k' :| 0 <= k' < |w.clients[i'].userPipes| && w.clients[i'].userPipes[k'] == u';
    assert ClientOk(w.table, w.clients, w.made, w.clients[i]) && ClientOk(w.table, w.clients, w.made, w.clients[i']);
    assert EntryOk(w.table, w.clients, w.made, w.clients[i], u);
    assert EntryOk(w.table, w.clients, w.made, w.clients[i'], u');
  }

  lemma {:induction false} SharedGone(w: World, w': World, takes: seq<int>, p: nat)
    requires IdsDiffer(w.clients) && AllOk(w.table, w.clients, w.made) && Cleaned(w.clients, w'.clients, takes)
    requires p < |w.made| && w.made[p].Shared? && Claimed(w.clients, takes, p)
    ensures !Held(w'.clients, p)
  {
    var i, k :| 0 <= i < |w.clients| && 0 <= k < |w.clients[i].userPipes|
             && w.clients[i].userPipes[k].pipe == p && w.clients[i].userPipes[k].used && w.clients[i].id in takes;
    forall a | 0 <= a < |w'.clients| ensures !InSlots(w'.clients[a].pipes, p) && !InShared(w'.clients[a].userPipes, p) {
      assert CleanedOne(w.clients[a], w'.clients[a], takes);
      SlotIsNumbered(w, a, p);
      forall b | 0 <= b < |w'.clients[a].userPipes| ensures w'.clients[a].userPipes[b].pipe != p {
        OneEntry(w, i, w.clients[i].userPipes[k], a, w'.clients[a].userPipes[b]);
      }
    }
  }

  lemma {:induction false} SlotIsNumbered(w: World, a: nat, p: nat)
    requires AllOk(w.table, w.clients, w.made) && a < |w.clients| && p < |w.made|
    ensures InSlots(w.clients[a].pipes, p) ==> w.made[p] == Numbered(w.clients[a].login)
    ensures InShared(w.clients[a].userPipes, p) ==> w.made[p].Shared?
  {
    assert ClientOk(w.table, w.clients, w.made, w.clients[a]);
    if InShared(w.clients[a].userPipes, p) {
      var b :| 0 <= b < |w.clients[a].userPipes| && w.clients[a].userPipes[b].pipe == p;
      assert EntryOk(w.table, w.clients, w.made, w.clients[a], w.clients[a].userPipes[b]);
    }
  }

  lemma {:induction false} NumberedGone(w: World, me: nat, p: nat)
    requires LoginsOk(w.clients, w.logins) && AllOk(w.table, w.clients, w.made) && me < |w.clients|
    requires p < |w.made| && w.made[p] == Numbered(w.clients[me].login) && !InSlots(w.clients[me].pipes, p)
    ensures !Held(w.clients, p)
  {
    forall a | 0 <= a < |w.clients| ensures !InSlots(w.clients[a].pipes, p) && !InShared(w.clients[a].userPipes, p) {
      SlotIsNumbered(w, a, p);
      if a != me { assert w.clients[if a < me then a else me].login != w.clients[if a < me then me else a].login; }
    }
  }

  lemma {:induction false} FirstDueIs(slots: seq<PS.Slot>) returns (j: nat)
    requires FirstDue(slots).Some?
    ensures j < |slots| && slots[j].count == 0 && slots[j].pipe == FirstDue(slots).value
  {
    if slots[0].count == 0 { j := 0; } else {
      j := FirstDueIs(slots[1..]);
      j := j + 1;
    }
  }

  /** The pipe that is due leaves the vector. */
  lemma {:induction false} DueLeaves(made: seq<Owner>, c: Client)
    requires NumberedOk(made, c) && FirstDue(c.pipes).Some?
    ensures var p := FirstDue(c.pipes).value;
            && p < |made| && made[p] == Numbered(c.login) && InSlots(c.pipes, p)
            && !InSlots(PS.Countdown(Filter(PS.PENDING, c.pipes)), p)
  {
    var p := FirstDue(c.pipes).value;
    var j := FirstDueIs(c.pipes);
    var rest := PS.Countdown(Filter(PS.PENDING, c.pipes));
    FilterMembers(PS.PENDING, c.pipes);
    forall k | 0 <= k < |rest| ensures rest[k].pipe != p {
      assert Filter(PS.PENDING, c.pipes)[k] in c.pipes && PS.PENDING(Filter(PS.PENDING, c.pipes)[k]);
      var m :| 0 <= m < |c.pipes| && c.pipes[m] == Filter(PS.PENDING, c.pipes)[k];
      assert c.pipes[if m < j then m else j].pipe != c.pipes[if m < j then j else m].pipe;
    }
  }

  lemma {:induction false} MovedOnHeld(c: Client, p: nat)
    ensures InSlots(PS.Countdown(Filter(PS.PENDING, c.pipes)), p) ==> InSlots(c.pipes, p)
  {
    var rest := PS.Countdown(Filter(PS.PENDING, c.pipes));
    FilterMembers(PS.PENDING, c.pipes);
    if InSlots(rest, p) {
      var k :| 0 <= k < |rest| && rest[k].pipe == p;
      assert Filter(PS.PENDING, c.pipes)[k] in c.pipes;
    }
  }

  /** The world just after the command has run, before the used pipes are swept. */
  function Finished(q: Prep, me: nat, args: seq<string>): World
    requires me < |q.w.clients| && SafeArgs(args)
  {
    MoveOn(BuiltIn(q.w, me, args).(log := q.w.log + [RanEvent(q, me, args)]), me)
  }

  lemma {:induction false} FinishedKeeps(q: Prep, me: nat, args: seq<string>)
    requires me < |q.w.clients| && SafeArgs(args) && Inv(q.w)
    ensures Inv(Finished(q, me, args)) && SamePeople(q.w.clients, Finished(q, me, args).clients)
    ensures Perform(q, me, args) == SweepAll(Finished(q, me, args), q.takes + [q.w.clients[me].id])
  {
    BuiltInKeeps(q.w, me, args);
    MoveOnKeeps(BuiltIn(q.w, me, args).(log := q.w.log + [RanEvent(q, me, args)]), me);
  }

  lemma {:induction false} FinishedShape(q: Prep, me: nat, args: seq<string>)
    requires me < |q.w.clients| && SafeArgs(args)
    ensures var w1 := Finished(q, me, args);
            && Perform(q, me, args) == SweepAll(w1, q.takes + [w1.clients[me].id])
            && |w1.clients| == |q.w.clients|
            && forall i :: 0 <= i < |w1.clients| ==>
                 w1.clients[i].id == q.w.clients[i].id && w1.clients[i].userPipes == q.w.clients[i].userPipes
  {
  }

  lemma {:induction false} FinishedHolds(q: Prep, me: nat, args: seq<string>, p: nat)
    requires me < |q.w.clients| && SafeArgs(args)
    ensures Held(Finished(q, me, args).clients, p) ==> Held(q.w.clients, p)
  {
    var before, after := q.w.clients, Finished(q, me, args).clients;
    MovedOnHeld(before[me], p);
    if Held(after, p) {
      var i :| 0 <= i < |after| && (InSlots(after[i].pipes, p) || InShared(after[i].userPipes, p));
      assert InSlots(before[i].pipes, p) || InShared(before[i].userPipes, p);
    }
  }

  /** What a command reads is still held before it and nowhere after it. */
  lemma {:induction false} ReadIsGone(q: Prep, me: nat, args: seq<string>, p: nat)
    requires me < |q.w.clients| && SafeArgs(args) && Inv(q.w) && Prepared(q, me)
    requires StdinOf(q, me) == FromPipe(p)
    ensures p < |q.w.made| && Held(q.w.clients, p) && !Held(Perform(q, me, args).clients, p)
    ensures MayRead(q.w.made, q.w.clients[me].login, FromPipe(p))
  {
    var w, c := Finished(q, me, args), q.w.clients[me];
    FinishedKeeps(q, me, args);
    assert ClientOk(q.w.table, q.w.clients, q.w.made, c);
    if FirstDue(c.pipes).Some? {
      DueLeaves(q.w.made, c);
      NumberedGone(w, me, p);
      SweepAllLater(w, q.takes + [c.id]);
    } else {
      ClaimedStays(q, me, args, p);
      SweepAllCleans(w, q.takes + [c.id]);
      SharedGone(w, Perform(q, me, args), q.takes + [c.id], p);
    }
  }

  lemma {:induction false} ClaimedStays(q: Prep, me: nat, args: seq<string>, p: nat)
    requires me < |q.w.clients| && SafeArgs(args) && Claimed(q.w.clients, q.takes, p)
    ensures Held(q.w.clients, p) && Claimed(Finished(q, me, args).clients, q.takes + [q.w.clients[me].id], p)
  {
    var i, k :| 0 <= i < |q.w.clients| && 0 <= k < |q.w.clients[i].userPipes|
             && q.w.clients[i].userPipes[k].pipe == p && q.w.clients[i].userPipes[k].used
             && q.w.clients[i].id in q.takes;
    assert InShared(q.w.clients[i].userPipes, p);
    assert Finished(q, me, args).clients[i].userPipes[k].used;
  }

  /** One more command has run. */
  lemma {:induction false} RanKeeps(w: World, e: Event, w1: World, w2: World)
    requires Isolated(w) && ReadOnce(w) && Lawful(w.made, e) && e.Ran?
    requires w1.log == w.log + [e] && w1.made == w.made && Later(w1, w2)
    requires forall p: nat :: Held(w1.clients, p) ==> Held(w.clients, p)
    requires forall p: nat :: Reads(e, p) ==> p < |w.made| && Held(w.clients, p) && !Held(w2.clients, p)
    ensures Isolated(w2) && ReadOnce(w2)
  {
    forall n | 0 <= n < |w2.log| ensures Lawful(w2.made, w2.log[n]) {
      if n < |w.log| { assert w2.log[n] == w.log[n] && Lawful(w.made, w.log[n]); }
      else if n == |w.log| { assert w2.log[n] == e; }
    }
    forall n | 0 <= n < |w2.log| ensures Spent(w2.made, w2.clients, w2.log[n]) {
      if n < |w.log| { assert w2.log[n] == w1.log[n] == w.log[n] && Spent(w.made, w.clients, w.log[n]); }
      else if n == |w.log| && e.stdin.FromPipe? { assert w2.log[n] == w1.log[n] == e && Reads(e, e.stdin.pipe); }
    }
    forall m, n | 0 <= m < n < |w2.log| ensures !SameRead(w2.log[m], w2.log[n]) {
      if n <= |w.log| {
        assert w2.log[n] == w1.log[n] && w2.log[m] == w1.log[m] == w.log[m] && Spent(w.made, w.clients, w.log[m]);
        if n == |w.log| && e.stdin.FromPipe? { assert Reads(e, e.stdin.pipe); }
      }
    }
  }

  lemma {:induction false} PerformKeepsOwners(q: Prep, me: nat, args: seq<string>)
    requires me < |q.w.clients| && SafeArgs(args) && Inv(q.w) && Prepared(q, me) && Isolated(q.w) && ReadOnce(q.w)
    ensures Isolated(Perform(q, me, args)) && ReadOnce(Perform(q, me, args))
  {
    var w1, w2, e := Finished(q, me, args), Perform(q, me, args), RanEvent(q, me, args);
    FinishedKeeps(q, me, args);
    SweepAllLater(w1, q.takes + [q.w.clients[me].id]);
    forall p: nat ensures Held(w1.clients, p) ==> Held(q.w.clients, p) { FinishedHolds(q, me, args, p); }
    forall p: nat | Reads(e, p) ensures p < |q.w.made| && Held(q.w.clients, p) && !Held(w2.clients, p) {
      ReadIsGone(q, me, args, p);
    }
    if e.stdin.FromPipe? { ReadIsGone(q, me, args, e.stdin.pipe); }
    RanKeeps(q.w, e, w1, w2);
  }

  lemma {:induction false} ExecuteKeepsOwners(g: Progress, me: nat, c: Cmd)
    requires me < |g.w.clients| && SafeCmd(c) && Inv(g.w) && Isolated(g.w) && ReadOnce(g.w)
    ensures Isolated(Execute(g, me, c).w) && ReadOnce(Execute(g, me, c).w)
  {
    if !g.refused {
      PrepareGives(g.w, me, c);
      PrepareKeeps(g.w, me, c);
      var q := Prepare(g.w, me, c);
      LaterKeeps(g.w, q.w);
      if !q.refused { PerformKeepsOwners(q, me, c.args); }
    }
  }

  lemma {:induction false} ExecuteAllKeepsOwners(g: Progress, me: nat, cmds: seq<Cmd>)
    requires me < |g.w.clients| && Inv(g.w) && forall i :: 0 <= i < |cmds| ==> SafeCmd(cmds[i])
    requires Isolated(g.w) && ReadOnce(g.w)
    ensures Isolated(ExecuteAll(g, me, cmds).w) && ReadOnce(ExecuteAll(g, me, cmds).w)
  {
    if cmds != [] {
      var n := |cmds| - 1;
      ExecuteAllKeepsOwners(g, me, cmds[..n]);
      ExecuteAllKeeps(g, me, cmds[..n]);
      ExecuteKeepsOwners(ExecuteAll(g, me, cmds[..n]), me, cmds[n]);
    }
  }

  /** Over a whole line: only pipes made for the client's login are used, and none is read twice. */
  lemma {:induction false} RunLineKeepsOwners(w: World, me: nat, line: string)
    requires me < |w.clients| && SafeLine(line) && Inv(w) && Isolated(w) && ReadOnce(w)
    ensures Isolated(RunLine(w, me, line).w) && ReadOnce(RunLine(w, me, line).w)
  {
    assert Later(w, LoadEnv(w, me));
    LaterKeeps(w, LoadEnv(w, me));
    ExecuteAllKeepsOwners(Progress(LoadEnv(w, me), 0, false), me, CmdsOf(line));
  }

  lemma {:induction false} AcceptLater(w: World, fd: int)
    ensures Later(w, Accept(w, fd))
  {
    var w' := Accept(w, fd);
    forall p: nat | Held(w'.clients, p) ensures Held(w.clients, p) {
      var i :| 0 <= i < |w'.clients| && (InSlots(w'.clients[i].pipes, p) || InShared(w'.clients[i].userPipes, p));
      assert w'.clients[i] == w.clients[i];
    }
  }

  lemma {:induction false} LeftLater(w: World, k: nat)
    requires k < |w.clients| && Occupied(w.table, w.clients[k].id)
    ensures Later(w, Left(w, k))
  {
    var id, w' := w.clients[k].id, Left(w, k);
    forall p: nat | Held(w'.clients, p) ensures Held(w.clients, p) {
      var i :| 0 <= i < |w'.clients| && (InSlots(w'.clients[i].pipes, p) || InShared(w'.clients[i].userPipes, p));
      var c := w.clients[if i < k then i else i + 1];
      assert w'.clients[i] == Pruned(c, id);
      if InShared(w'.clients[i].userPipes, p) { FilterInShared((u: UserPipe) => u.target != id, c.userPipes, p); }
    }
  }
}
