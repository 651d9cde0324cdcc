/** When a user pipe that has been taken can outlive the command that took it. */
module PipesAtRest {
  import opened Sequences
  import opened ServerSyntax
  import opened ServerModel
  import opened ServerInvariant
  import opened PipeOwnership
  import opened UserPipes
  import opened UserPipeChecks

  ghost predicate NoneUsed(c: Client) { forall u :: u in c.userPipes ==> !u.used }

  /** No user pipe is marked as taken. */
  ghost predicate AtRest(clients: seq<Client>) {
    forall i :: 0 <= i < |clients| ==> NoneUsed(clients[i])
  }

  /** The sources of the taken pipes are exactly those the command has noted. */
  ghost predicate Noted(clients: seq<Client>, takes: seq<int>) {
    && (forall i :: 0 <= i < |clients| ==> NoneUsed(clients[i]) || clients[i].id in takes)
    && (takes == [] || !AtRest(clients))
  }

  lemma {:induction false} ApplyNotes(q: Prep, me: nat, op: Op)
    requires me < |q.w.clients| && Noted(q.w.clients, q.takes)
    ensures Noted(Apply(q, me, op).w.clients, Apply(q, me, op).takes)
  {
    var q' := Apply(q, me, op);
    var before, after := q.w.clients, q'.w.clients;
    if q' == q || q' == q.(refused := true) {
    } else if op.ToUser? {
      ToUserNotes(before, me, q.takes, UserPipe(|q.w.made|, before[me].id, op.id, false));
    } else if op.FromUser? {
      var i := FindId(before, op.id);
      MarkNotes(before, i, FindTarget(before[i].userPipes, before[me].id), q.takes);
    }
  }

  lemma {:induction false} ToUserNotes(clients: seq<Client>, me: nat, takes: seq<int>, u: UserPipe)
    requires me < |clients| && Noted(clients, takes) && !u.used
    ensures Noted(clients[me := clients[me].(userPipes := clients[me].userPipes + [u])], takes)
  {
    var c := clients[me];
    var c' := c.(userPipes := c.userPipes + [u]);
    var after := clients[me := c'];
    assert NoneUsed(c) ==> NoneUsed(c');
    if takes != [] {
      var i :| 0 <= i < |clients| && !NoneUsed(clients[i]);
      var x :| x in clients[i].userPipes && x.used;
      assert x in after[i].userPipes;
      assert !NoneUsed(after[i]);
    }
  }

  lemma {:induction false} MarkNotes(clients: seq<Client>, i: nat, k: nat, takes: seq<int>)
    requires i < |clients| && k < |clients[i].userPipes| && Noted(clients, takes)
    ensures var c := clients[i];
            Noted(clients[i := c.(userPipes := c.userPipes[k := c.userPipes[k].(used := true)])], takes + [c.id])
  {
    var c := clients[i];
    var c' := c.(userPipes := c.userPipes[k := c.userPipes[k].(used := true)]);
    var after, takes' := clients[i := c'], takes + [c.id];
    assert takes'[|takes|] == c.id;
    assert c'.userPipes[k] in c'.userPipes;
    assert !NoneUsed(after[i]);
  }

  lemma {:induction false} ApplyAllNotes(q: Prep, me: nat, ops: seq<Op>)
    requires me < |q.w.clients| && Noted(q.w.clients, q.takes)
    ensures Noted(ApplyAll(q, me, ops).w.clients, ApplyAll(q, me, ops).takes)
  {
    if ops != [] {
      ApplyAllNotes(q, me, ops[..|ops| - 1]);
      ApplyNotes(ApplyAll(q, me, ops[..|ops| - 1]), me, ops[|ops| - 1]);
    }
  }

  lemma {:induction false} SamePipesNoted(before: seq<Client>, after: seq<Client>, takes: seq<int>)
    requires |after| == |before|
    requires forall i :: 0 <= i < |before| ==> after[i].userPipes == before[i].userPipes && after[i].id == before[i].id
    requires Noted(before, takes)
    ensures Noted(after, takes)
  {
    assert forall i :: 0 <= i < |before| ==> NoneUsed(after[i]) == NoneUsed(before[i]);
  }

  lemma {:induction false} PrepareNotes(w: World, me: nat, c: Cmd)
    requires me < |w.clients| && AtRest(w.clients)
    ensures Noted(Prepare(w, me, c).w.clients, Prepare(w, me, c).takes)
  {
    ApplyAllNotes(Fresh(w), me, c.ops);
    var q := ApplyAll(Fresh(w), me, c.ops);
    SamePipesNoted(q.w.clients, Prepare(w, me, c).w.clients, q.takes);
  }

  lemma {:induction false} PerformRests(q: Prep, me: nat, args: seq<string>)
    requires me < |q.w.clients| && SafeArgs(args) && IdsDiffer(q.w.clients) && Noted(q.w.clients, q.takes)
    ensures AtRest(Perform(q, me, args).clients)
  {
    var w1, ids := Finished(q, me, args), q.takes + [q.w.clients[me].id];
    FinishedShape(q, me, args);
    SweepAllCleans(w1, ids);
    CleanedRests(q.w.clients, w1.clients, Perform(q, me, args).clients, q.takes, ids);
  }

  lemma {:induction false} CleanedRests(before: seq<Client>, mid: seq<Client>, after: seq<Client>,
                                        takes: seq<int>, ids: seq<int>)
    requires Noted(before, takes) && Cleaned(mid, after, ids) && |mid| == |before|
    requires forall i :: 0 <= i < |before| ==> mid[i].userPipes == before[i].userPipes && mid[i].id == before[i].id
    requires forall id :: id in takes ==> id in ids
    ensures AtRest(after)
  {
    forall i | 0 <= i < |after| ensures NoneUsed(after[i]) {
      assert CleanedOne(mid[i], after[i], ids);
      assert NoneUsed(before[i]) || before[i].id in takes;
    }
  }

  // ---------- one command ----------

  /** A command is refused exactly if one of its redirections fails, and has taken a pipe by then
      exactly if a `<n` stands before the first that fails. */
  lemma {:induction false} PrepareRefusedIff(w: World, me: nat, c: Cmd)
    requires Inv(w) && me < |w.clients|
    ensures var q, id, pairs := Prepare(w, me, c), w.clients[me].id, PairsOf(w.clients);
            && (q.refused <==> Refuses(w.table, pairs, id, c.ops))
            && (q.refused ==> (q.takes != [] <==> TakesInVain(w.table, pairs, id, c.ops)))
  {
    ApplyAllTracks(w, me, c.ops);
  }

  lemma {:induction false} VainRefuses(table: seq<int>, pairs: set<Pair>, id: int, ops: seq<Op>)
    ensures TakesInVain(table, pairs, id, ops) ==> Refuses(table, pairs, id, ops)
  {
  }

  /** From tables at rest, a command leaves a taken pipe behind exactly when a `<n` of it stands before
      the first of its redirections that fails. */
  lemma {:induction false} ExecuteRestsIff(g: Progress, me: nat, c: Cmd)
    requires me < |g.w.clients| && SafeCmd(c) && Inv(g.w) && AtRest(g.w.clients) && !g.refused
    ensures AtRest(Execute(g, me, c).w.clients)
       <==> !TakesInVain(g.w.table, PairsOf(g.w.clients), g.w.clients[me].id, c.ops)
  {
    PrepareNotes(g.w, me, c);
    PrepareRefusedIff(g.w, me, c);
    VainRefuses(g.w.table, PairsOf(g.w.clients), g.w.clients[me].id, c.ops);
    var q := Prepare(g.w, me, c);
    if !q.refused {
      PrepareIds(g.w, me, c);
      PerformRests(q, me, c.args);
    }
  }

  lemma {:induction false} PrepareIds(w: World, me: nat, c: Cmd)
    requires me < |w.clients| && Inv(w)
    ensures IdsDiffer(Prepare(w, me, c).w.clients)
  {
    PrepareKeeps(w, me, c);
  }

  // ---------- the tables after a command ----------

  /** The marked pipes are those of the pairs in `got`. */
  ghost predicate MarksAre(clients: seq<Client>, got: set<Pair>) {
    && got <= PairsOf(clients)
    && forall i, j :: 0 <= i < |clients| && 0 <= j < |clients[i].userPipes| ==>
         (clients[i].userPipes[j].used <==> Key(clients[i].userPipes[j]) in got)
  }

  lemma {:induction false} RestMarksNone(clients: seq<Client>)
    requires AtRest(clients)
    ensures MarksAre(clients, {})
  {
    forall i, j | 0 <= i < |clients| && 0 <= j < |clients[i].userPipes| ensures !clients[i].userPipes[j].used {
      assert NoneUsed(clients[i]) && clients[i].userPipes[j] in clients[i].userPipes;
    }
  }

  lemma {:induction false} PushMarks(clients: seq<Client>, me: nat, u: UserPipe, got: set<Pair>)
    requires me < |clients| && MarksAre(clients, got) && Key(u) !in got && !u.used
    ensures MarksAre(clients[me := clients[me].(userPipes := clients[me].userPipes + [u])], got)
  {
    PairsPush(clients, me, u);
  }

  lemma {:induction false} MarkMarks(clients: seq<Client>, s: nat, n: nat, got: set<Pair>)
    requires Keyed(clients) && s < |clients| && n < |clients[s].userPipes| && MarksAre(clients, got)
    ensures MarksAre(Marked(clients, s, n), got + {Key(clients[s].userPipes[n])})
  {
    var after := Marked(clients, s, n);
    SameKeys(clients, after);
    assert Key(clients[s].userPipes[n]) in PairsOf(clients);
    forall i, j | 0 <= i < |after| && 0 <= j < |after[i].userPipes|
      ensures after[i].userPipes[j].used <==> Key(after[i].userPipes[j]) in got + {Key(clients[s].userPipes[n])}
    {
      KeysDiffer(clients, i, j, s, n);
    }
  }

  lemma {:induction false} ApplyMarks(q: Prep, me: nat, op: Op, got: set<Pair>)
    requires me < |q.w.clients| && Keyed(q.w.clients) && MarksAre(q.w.clients, got) && !Apply(q, me, op).refused
    ensures MarksAre(Apply(q, me, op).w.clients, got + (if op.FromUser? then {(op.id, q.w.clients[me].id)} else {}))
  {
    match op
    case ToUser(t) =>
      TargetFound(q.w.clients, me, t);
      PushMarks(q.w.clients, me, UserPipe(|q.w.made|, q.w.clients[me].id, t, false), got);
    case FromUser(s) =>
      var i := FindId(q.w.clients, s);
      MarkMarks(q.w.clients, i, FindTarget(q.w.clients[i].userPipes, q.w.clients[me].id), got);
    case _ =>
  }

  /** A command that is not refused has marked just what its words take. */
  ghost predicate MarkedAs(w: World, me: nat, ops: seq<Op>, q: Prep) {
    && me < |w.clients| && |q.w.clients| == |w.clients| && q.w.clients[me].id == w.clients[me].id
    && MarksAre(q.w.clients, Received(w.clients[me].id, ops))
  }

  lemma {:induction false} NothingMarked(w: World, me: nat)
    requires me < |w.clients| && AtRest(w.clients)
    ensures MarkedAs(w, me, [], ApplyAll(Fresh(w), me, []))
  {
    RestMarksNone(w.clients);
    assert Received(w.clients[me].id, []) == {};
  }

  lemma {:induction false} OneMoreMarked(w: World, me: nat, ops: seq<Op>, q: Prep, op: Op)
    requires MarkedAs(w, me, ops, q) && Keyed(q.w.clients) && !Apply(q, me, op).refused
    ensures MarkedAs(w, me, ops + [op], Apply(q, me, op))
  {
    SentPush(w.clients[me].id, ops, op);
    ApplyMarks(q, me, op, Received(w.clients[me].id, ops));
  }

  lemma {:induction false} ApplyAllMarks(w: World, me: nat, ops: seq<Op>)
    requires Inv(w) && me < |w.clients| && AtRest(w.clients) && !ApplyAll(Fresh(w), me, ops).refused
    ensures MarkedAs(w, me, ops, ApplyAll(Fresh(w), me, ops))
  {
    if ops == [] {
      NothingMarked(w, me);
    } else {
      var n := |ops| - 1;
      ApplyAllMarks(w, me, ops[..n]);
      StillKeyed(w, me, ops[..n]);
      LastApart(ops);
      OneMoreMarked(w, me, ops[..n], ApplyAll(Fresh(w), me, ops[..n]), ops[n]);
    }
  }

  /** The pipe from `s` that a `<s` would take is marked already: its write end is closed again. */
  ghost predicate TakesAgain(q: Prep, me: nat, s: int)
    requires me < |q.w.clients|
  {
    var i := FindId(q.w.clients, s);
    i < |q.w.clients| && (var ups := q.w.clients[i].userPipes;
      var k := FindTarget(ups, q.w.clients[me].id);
      k < |ups| && ups[k].used)
  }

  lemma {:induction false} MarkedAgainIff(q: Prep, me: nat, s: int, got: set<Pair>)
    requires me < |q.w.clients| && Keyed(q.w.clients) && MarksAre(q.w.clients, got)
    requires !q.refused && !Apply(q, me, FromUser(s)).refused
    ensures TakesAgain(q, me, s) <==> (s, q.w.clients[me].id) in got
  {
    var i := FindId(q.w.clients, s);
    var k := FindTarget(q.w.clients[i].userPipes, q.w.clients[me].id);
    assert Key(q.w.clients[i].userPipes[k]) == (s, q.w.clients[me].id);
  }

  /** A `<n` takes a pipe that is marked already, and closes its write end once more, exactly if the
      same word stands before it in the command. */
  lemma {:induction false} TakenAgainIff(w: World, me: nat, ops: seq<Op>, s: int)
    requires Inv(w) && me < |w.clients| && AtRest(w.clients) && !ApplyAll(Fresh(w), me, ops).refused
    requires !Apply(ApplyAll(Fresh(w), me, ops), me, FromUser(s)).refused
    ensures TakesAgain(ApplyAll(Fresh(w), me, ops), me, s) <==> FromUser(s) in ops
  {
    var q, id := ApplyAll(Fresh(w), me, ops), w.clients[me].id;
    ApplyAllMarks(w, me, ops);
    StillKeyed(w, me, ops);
    MarkedAgainIff(q, me, s, Received(id, ops));
    SentHas(id, ops, (s, id));
  }

  /** Sweeping the marked pipes takes their pairs out of the tables. */
  lemma {:induction false} CleanedPairs(mid: seq<Client>, after: seq<Client>, takes: seq<int>, ids: seq<int>,
                                        got: set<Pair>)
    requires Cleaned(mid, after, ids) && Noted(mid, takes) && MarksAre(mid, got)
    requires forall id :: id in takes ==> id in ids
    ensures PairsOf(after) == PairsOf(mid) - got
  {
    forall k | k in PairsOf(after) ensures k in PairsOf(mid) - got {
      var i, j :| 0 <= i < |after| && 0 <= j < |after[i].userPipes| && Key(after[i].userPipes[j]) == k;
      var u := after[i].userPipes[j];
      assert CleanedOne(mid[i], after[i], ids) && u in after[i].userPipes;
      assert NoneUsed(mid[i]) || mid[i].id in ids;
      var b :| 0 <= b < |mid[i].userPipes| && mid[i].userPipes[b] == u;
    }
    forall k | k in PairsOf(mid) - got ensures k in PairsOf(after) {
      var i, j :| 0 <= i < |mid| && 0 <= j < |mid[i].userPipes| && Key(mid[i].userPipes[j]) == k;
      var u := mid[i].userPipes[j];
      assert CleanedOne(mid[i], after[i], ids);
      assert u in after[i].userPipes;
      var b :| 0 <= b < |after[i].userPipes| && after[i].userPipes[b] == u;
    }
  }

  lemma {:induction false} SameMarks(a: seq<Client>, b: seq<Client>, got: set<Pair>)
    requires |a| == |b| && forall i :: 0 <= i < |a| ==> a[i].userPipes == b[i].userPipes
    requires MarksAre(a, got)
    ensures MarksAre(b, got) && PairsOf(b) == PairsOf(a)
  {
    SameKeys(a, b);
  }

  /** The pairs with a pipe after a command that is not refused. */
  ghost function PairsAfter(pairs: set<Pair>, id: int, ops: seq<Op>): set<Pair> {
    pairs + Sent(id, ops) - Received(id, ops)
  }

  lemma {:induction false} AppliedPairs(w: World, me: nat, ops: seq<Op>, q: Prep)
    requires AsTold(w, me, ops, q) && MarkedAs(w, me, ops, q) && !q.refused
    ensures PairsOf(q.w.clients) == PairsOf(w.clients) + Sent(w.clients[me].id, ops)
    ensures MarksAre(q.w.clients, Received(w.clients[me].id, ops))
  {
  }

  /** Opening the numbered pipe of a command moves no user pipe. */
  lemma {:induction false} SinkKeepsMarks(q: Prep, me: nat, sink: Sink, got: set<Pair>)
    requires me < |q.w.clients| && MarksAre(q.w.clients, got)
    ensures var q' := ApplySink(q, me, sink);
            q'.refused == q.refused && MarksAre(q'.w.clients, got) && PairsOf(q'.w.clients) == PairsOf(q.w.clients)
  {
    SameMarks(q.w.clients, ApplySink(q, me, sink).w.clients, got);
  }

  /** A command that is not refused has made the pipes it sends, and marked those it receives. */
  lemma {:induction false} PreparePairs(w: World, me: nat, c: Cmd)
    requires me < |w.clients| && Inv(w) && AtRest(w.clients) && !Prepare(w, me, c).refused
    ensures var q, id := Prepare(w, me, c), w.clients[me].id;
            && PairsOf(q.w.clients) == PairsOf(w.clients) + Sent(id, c.ops)
            && MarksAre(q.w.clients, Received(id, c.ops))
  {
    var q0 := ApplyAll(Fresh(w), me, c.ops);
    ApplyAllTracks(w, me, c.ops);
    ApplyAllMarks(w, me, c.ops);
    AppliedPairs(w, me, c.ops, q0);
    SinkKeepsMarks(q0, me, c.sink, Received(w.clients[me].id, c.ops));
  }

  lemma {:induction false} ExecutePairs(g: Progress, me: nat, c: Cmd)
    requires me < |g.w.clients| && SafeCmd(c) && Inv(g.w) && AtRest(g.w.clients) && !g.refused
    requires !Prepare(g.w, me, c).refused
    ensures PairsOf(Execute(g, me, c).w.clients) == PairsAfter(PairsOf(g.w.clients), g.w.clients[me].id, c.ops)
  {
    PreparePairs(g.w, me, c);
    PrepareNotes(g.w, me, c);
    PrepareIds(g.w, me, c);
    PerformPairs(Prepare(g.w, me, c), me, c.args, Received(g.w.clients[me].id, c.ops));
  }

  lemma {:induction false} PerformPairs(q: Prep, me: nat, args: seq<string>, got: set<Pair>)
    requires me < |q.w.clients| && SafeArgs(args) && IdsDiffer(q.w.clients)
    requires Noted(q.w.clients, q.takes) && MarksAre(q.w.clients, got)
    ensures PairsOf(Perform(q, me, args).clients) == PairsOf(q.w.clients) - got
  {
    var w1, ids := Finished(q, me, args), q.takes + [q.w.clients[me].id];
    FinishedShape(q, me, args);
    SweepAllCleans(w1, ids);
    SameMarks(q.w.clients, w1.clients, got);
    SamePipesNoted(q.w.clients, w1.clients, q.takes);
    CleanedPairs(w1.clients, Perform(q, me, args).clients, q.takes, ids, got);
  }

  // ---------- one line ----------

  /** The pairs with a pipe after these commands, unless one of them is refused. */
  ghost function LinePairs(table: seq<int>, pairs: set<Pair>, id: int, cmds: seq<Cmd>): Option<set<Pair>> {
    if cmds == [] then Some(pairs) else
      var n := |cmds| - 1;
      var before := LinePairs(table, pairs, id, cmds[..n]);
      if before.None? || Refuses(table, before.value, id, cmds[n].ops) then None
      else Some(PairsAfter(before.value, id, cmds[n].ops))
  }

  /** In the first of the commands that is refused, a `<n` stands before the first redirection that
      fails. */
  ghost predicate LineTakesInVain(table: seq<int>, pairs: set<Pair>, id: int, cmds: seq<Cmd>) {
    cmds != [] && (var n := |cmds| - 1;
      var before := LinePairs(table, pairs, id, cmds[..n]);
      LineTakesInVain(table, pairs, id, cmds[..n])
      || (before.Some? && TakesInVain(table, before.value, id, cmds[n].ops)))
  }

  /** The line so far, told from the tables at its start and its words. */
  ghost predicate LineAsTold(g0: Progress, me: nat, cmds: seq<Cmd>, g: Progress) {
    && me < |g0.w.clients| && |g.w.clients| == |g0.w.clients| && Inv(g.w)
    && g.w.table == g0.w.table && g.w.clients[me].id == g0.w.clients[me].id
    && var id, pairs := g0.w.clients[me].id, PairsOf(g0.w.clients);
       var now := LinePairs(g0.w.table, pairs, id, cmds);
       && (g.refused <==> now.None?)
       && (now.Some? ==> AtRest(g.w.clients) && PairsOf(g.w.clients) == now.value)
       && (AtRest(g.w.clients) <==> !LineTakesInVain(g0.w.table, pairs, id, cmds))
  }

  lemma {:induction false} ExecuteTable(g: Progress, me: nat, c: Cmd)
    requires me < |g.w.clients| && SafeCmd(c)
    ensures Execute(g, me, c).w.table == g.w.table
  {
    if !g.refused {
      ApplyAllTable(Fresh(g.w), me, c.ops);
      var q := Prepare(g.w, me, c);
      if !q.refused { SweepAllTable(Finished(q, me, c.args), q.takes + [q.w.clients[me].id]); }
    }
  }

  lemma {:induction false} ExecuteKeepsPlace(g: Progress, me: nat, c: Cmd)
    requires me < |g.w.clients| && SafeCmd(c) && Inv(g.w)
    ensures Inv(Execute(g, me, c).w) && Execute(g, me, c).w.clients[me].id == g.w.clients[me].id
  {
    ExecuteKeeps(g, me, c);
  }

  lemma {:induction false} ApplyAllTable(q: Prep, me: nat, ops: seq<Op>)
    requires me < |q.w.clients|
    ensures ApplyAll(q, me, ops).w.table == q.w.table
  {
    if ops != [] { ApplyAllTable(q, me, ops[..|ops| - 1]); }
  }

  lemma {:induction false} SweepAllTable(w: World, ids: seq<int>)
    ensures SweepAll(w, ids).table == w.table
  {
    if ids != [] { SweepAllTable(w, ids[..|ids| - 1]); }
  }

  lemma {:induction false} OneMoreCommand(g0: Progress, me: nat, cmds: seq<Cmd>, g: Progress, c: Cmd)
    requires LineAsTold(g0, me, cmds, g) && SafeCmd(c)
    ensures LineAsTold(g0, me, cmds + [c], Execute(g, me, c))
  {
    assert (cmds + [c])[..|cmds|] == cmds;
    ExecuteTable(g, me, c);
    ExecuteKeepsPlace(g, me, c);
    if !g.refused {
      var id, pairs := g0.w.clients[me].id, PairsOf(g.w.clients);
      PrepareRefusedIff(g.w, me, c);
      ExecuteRestsIff(g, me, c);
      VainRefuses(g.w.table, pairs, id, c.ops);
      if !Prepare(g.w, me, c).refused { ExecutePairs(g, me, c); }
    }
  }

  lemma {:induction false} ExecuteAllAsTold(g: Progress, me: nat, cmds: seq<Cmd>)
    requires me < |g.w.clients| && Inv(g.w) && AtRest(g.w.clients) && !g.refused
    requires forall i :: 0 <= i < |cmds| ==> SafeCmd(cmds[i])
    ensures LineAsTold(g, me, cmds, ExecuteAll(g, me, cmds))
  {
    if cmds != [] {
      var n := |cmds| - 1;
      ExecuteAllAsTold(g, me, cmds[..n]);
      LastApart(cmds);
      OneMoreCommand(g, me, cmds[..n], ExecuteAll(g, me, cmds[..n]), cmds[n]);
    }
  }

  /** From tables at rest, a line leaves a taken pipe behind exactly when, in its first command that is
      refused, a `<n` stands before the first redirection that fails. If no command is refused, the
      pairs with a pipe after it are those its words tell. */
  lemma {:induction false} LineRestsIff(w: World, me: nat, line: string)
    requires me < |w.clients| && SafeLine(line) && Inv(w) && AtRest(w.clients)
    ensures var id, pairs := w.clients[me].id, PairsOf(w.clients);
            var w', now := RunLine(w, me, line).w, LinePairs(w.table, pairs, id, CmdsOf(line));
            && (AtRest(w'.clients) <==> !LineTakesInVain(w.table, pairs, id, CmdsOf(line)))
            && (now.Some? ==> PairsOf(w'.clients) == now.value)
            && w'.table == w.table
  {
    var g := Progress(LoadEnv(w, me), 0, false);
    LoadKeeps(w, me);
    ExecuteAllAsTold(g, me, CmdsOf(line));
  }
}
