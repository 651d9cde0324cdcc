/** What a command is handed for its input and output, told from its words and the tables before it. */
module Handover {
  import opened Sequences
  import opened ServerSyntax
  import opened ServerModel
  import opened ServerInvariant
  import opened PipeOwnership
  import opened ServerWiring
  import opened UserPipes
  import opened UserPipeChecks
  import opened UserPipeHistory

  predicate IsOut(op: Op) { op.OutFile? || op.ToUser? }

  /** The last redirection of the output. */
  function LastOut(ops: seq<Op>): (r: Option<Op>)
    ensures r.Some? ==> IsOut(r.value)
  {
    if ops == [] then None else
      var n := |ops| - 1;
      if IsOut(ops[n]) then Some(ops[n]) else LastOut(ops[..n])
  }

  /** The last redirection of the input. */
  function LastIn(ops: seq<Op>): (r: Option<Op>)
    ensures r.Some? ==> !IsOut(r.value)
  {
    if ops == [] then None else
      var n := |ops| - 1;
      if !IsOut(ops[n]) then Some(ops[n]) else LastIn(ops[..n])
  }

  lemma {:induction false} LastPush(ops: seq<Op>, op: Op)
    ensures LastOut(ops + [op]) == if IsOut(op) then Some(op) else LastOut(ops)
    ensures LastIn(ops + [op]) == if IsOut(op) then LastIn(ops) else Some(op)
  {
    assert (ops + [op])[..|ops|] == ops;
  }

  // ---------- one command ----------

  /** The vectors have this pipe for the pair. */
  ghost predicate HasPipe(clients: seq<Client>, k: Pair, p: nat) {
    exists i, j :: 0 <= i < |clients| && 0 <= j < |clients[i].userPipes|
                && Key(clients[i].userPipes[j]) == k && clients[i].userPipes[j].pipe == p
  }

  /** The pipe was made for the pair since the log had `from` events. */
  ghost predicate MadeSince(log: seq<Event>, from: nat, k: Pair, p: nat) {
    exists m :: from <= m < |log| && log[m] == Created(k.0, k.1, p)
  }

  /** Only user pipes have been made and taken since. */
  ghost predicate OnlyPipesSince(log: seq<Event>, from: nat) {
    from <= |log| && forall n :: from <= n < |log| ==> log[n].Created? || log[n].Taken?
  }

  /** The output is what the last redirection of it says: for `>n`, a pipe made for it just now. */
  ghost predicate OutAs(h: Handle, log: seq<Event>, from: nat, id: int, last: Option<Op>) {
    match last
    case None => h == Default
    case Some(OutFile(f)) => h == Opened(f)
    case Some(ToUser(t)) => h.ToPipe? && MadeSince(log, from, (id, t), h.pipe)
    case _ => false
  }

  /** The input is what the last redirection of it says: for `<n`, the pipe there was from that user,
      unless the command itself has made it, to its own client. */
  ghost predicate InAs(h: Handle, w: World, now: World, id: int, last: Option<Op>) {
    match last
    case None => h == Default
    case Some(InFile(f)) => h == Opened(f)
    case Some(FromUser(s)) =>
      h.FromPipe? && HasPipe(now.clients, (s, id), h.pipe)
      && (HasPipe(w.clients, (s, id), h.pipe) || (s == id && MadeSince(now.log, |w.log|, (s, id), h.pipe)))
    case _ => false
  }

  /** The command has made this pipe, for its own client to write. */
  ghost predicate MadeByMe(w: World, now: World, me: nat, k: Pair, p: nat)
    requires me < |w.clients|
  {
    k.0 == w.clients[me].id && MadeSince(now.log, |w.log|, k, p)
  }

  /** Every pipe of the vectors was there before the command, or is its own. */
  ghost predicate NoneFromElsewhere(w: World, now: World, me: nat)
    requires me < |w.clients|
  {
    forall k, p :: HasPipe(now.clients, k, p) ==> HasPipe(w.clients, k, p) || MadeByMe(w, now, me, k, p)
  }

  /** The command is being prepared: nothing has happened but its own making and taking of pipes. */
  ghost predicate Preparing(w: World, now: World, me: nat) {
    && me < |w.clients| && |now.clients| == |w.clients| && now.clients[me].id == w.clients[me].id
    && w.log <= now.log && OnlyPipesSince(now.log, |w.log|)
    && NoneFromElsewhere(w, now, me)
  }

  /** The command being prepared has been handed what its words so far say. */
  ghost predicate Handed(w: World, q: Prep, me: nat, ops: seq<Op>) {
    && Preparing(w, q.w, me)
    && OutAs(q.stdout, q.w.log, |w.log|, w.clients[me].id, LastOut(ops))
    && InAs(q.stdin, w, q.w, w.clients[me].id, LastIn(ops))
  }

  lemma {:induction false} PushHas(clients: seq<Client>, me: nat, u: UserPipe, k: Pair, p: nat)
    requires me < |clients|
    ensures HasPipe(clients[me := clients[me].(userPipes := clients[me].userPipes + [u])], k, p)
       <==> HasPipe(clients, k, p) || (Key(u) == k && u.pipe == p)
  {
    var c := clients[me];
    var after := clients[me := c.(userPipes := c.userPipes + [u])];
    assert after[me].userPipes[|c.userPipes|] == u;
    if HasPipe(clients, k, p) {
      var i, j :| 0 <= i < |clients| && 0 <= j < |clients[i].userPipes|
               && Key(clients[i].userPipes[j]) == k && clients[i].userPipes[j].pipe == p;
      assert after[i].userPipes[j] == clients[i].userPipes[j];
    }
    if HasPipe(after, k, p) && !(Key(u) == k && u.pipe == p) {
      var i, j :| 0 <= i < |after| && 0 <= j < |after[i].userPipes|
               && Key(after[i].userPipes[j]) == k && after[i].userPipes[j].pipe == p;
      assert after[i].userPipes[j] == clients[i].userPipes[j];
    }
  }

  /** Nothing but marks has changed in the vectors. */
  ghost predicate SamePipes(a: seq<Client>, b: seq<Client>) {
    && |a| == |b|
    && (forall i :: 0 <= i < |a| ==> |a[i].userPipes| == |b[i].userPipes|)
    && (forall i, j :: 0 <= i < |a| && 0 <= j < |a[i].userPipes| ==>
          Key(a[i].userPipes[j]) == Key(b[i].userPipes[j]) && a[i].userPipes[j].pipe == b[i].userPipes[j].pipe)
  }

  lemma {:induction false} SameHas(a: seq<Client>, b: seq<Client>, k: Pair, p: nat)
    requires SamePipes(a, b)
    ensures HasPipe(a, k, p) <==> HasPipe(b, k, p)
  {
    if HasPipe(a, k, p) {
      var i, j :| 0 <= i < |a| && 0 <= j < |a[i].userPipes|
               && Key(a[i].userPipes[j]) == k && a[i].userPipes[j].pipe == p;
      assert Key(b[i].userPipes[j]) == k;
    }
    if HasPipe(b, k, p) {
      var i, j :| 0 <= i < |b| && 0 <= j < |b[i].userPipes|
               && Key(b[i].userPipes[j]) == k && b[i].userPipes[j].pipe == p;
      assert Key(a[i].userPipes[j]) == k;
    }
  }

  // ---------- one redirection ----------

  /** Preparing goes on: pipes that were there stay, and those that come are made now. */
  ghost predicate GoesOn(now: World, next: World, me: nat) {
    && me < |now.clients| && |next.clients| == |now.clients| && next.clients[me].id == now.clients[me].id
    && now.log <= next.log && OnlyPipesSince(next.log, |now.log|)
    && (forall k, p :: HasPipe(now.clients, k, p) ==> HasPipe(next.clients, k, p))
    && NoneFromElsewhere(now, next, me)
  }

  lemma {:induction false} MadeStays(log: seq<Event>, log': seq<Event>, from: nat, k: Pair, p: nat)
    requires MadeSince(log, from, k, p) && log <= log'
    ensures MadeSince(log', from, k, p)
  {
    var m :| from <= m < |log| && log[m] == Created(k.0, k.1, p);
    assert log'[m] == log[m];
  }

  lemma {:induction false} NoneFromElsewhereTrans(w: World, now: World, next: World, me: nat)
    requires me < |w.clients| && me < |now.clients| && now.clients[me].id == w.clients[me].id
    requires w.log <= now.log <= next.log && NoneFromElsewhere(w, now, me) && NoneFromElsewhere(now, next, me)
    ensures NoneFromElsewhere(w, next, me)
  {
    forall k, p | HasPipe(next.clients, k, p) ensures HasPipe(w.clients, k, p) || MadeByMe(w, next, me, k, p) {
      if HasPipe(now.clients, k, p) && !HasPipe(w.clients, k, p) {
        MadeStays(now.log, next.log, |w.log|, k, p);
      }
    }
  }

  lemma {:induction false} PreparingOn(w: World, now: World, next: World, me: nat)
    requires Preparing(w, now, me) && GoesOn(now, next, me)
    ensures Preparing(w, next, me)
  {
    NoneFromElsewhereTrans(w, now, next, me);
    forall n | |w.log| <= n < |next.log| ensures next.log[n].Created? || next.log[n].Taken? {
      if n < |now.log| { assert next.log[n] == now.log[n]; }
    }
  }

  lemma {:induction false} OutStays(h: Handle, log: seq<Event>, log': seq<Event>, from: nat, id: int, last: Option<Op>)
    requires OutAs(h, log, from, id, last) && log <= log'
    ensures OutAs(h, log', from, id, last)
  {
    if last.Some? && last.value.ToUser? { MadeStays(log, log', from, (id, last.value.id), h.pipe); }
  }

  lemma {:induction false} InStays(h: Handle, w: World, now: World, next: World, me: nat, id: int, last: Option<Op>)
    requires InAs(h, w, now, id, last) && GoesOn(now, next, me)
    ensures InAs(h, w, next, id, last)
  {
    if last.Some? && last.value.FromUser? {
      var k: Pair := (last.value.id, id);
      if !HasPipe(w.clients, k, h.pipe) { MadeStays(now.log, next.log, |w.log|, k, h.pipe); }
    }
  }

  lemma {:induction false} SameGoesOn(now: World, next: World, me: nat)
    requires me < |now.clients| && SamePipes(now.clients, next.clients) && next.clients[me].id == now.clients[me].id
    requires now.log <= next.log && OnlyPipesSince(next.log, |now.log|)
    ensures GoesOn(now, next, me)
  {
    forall k, p ensures HasPipe(now.clients, k, p) <==> HasPipe(next.clients, k, p) {
      SameHas(now.clients, next.clients, k, p);
    }
  }

  lemma {:induction false} OpenGoesOn(now: World, me: nat, t: int)
    requires me < |now.clients|
    ensures GoesOn(now, OpenShared(now, me, t), me)
    ensures MadeSince(OpenShared(now, me, t).log, |now.log|, (now.clients[me].id, t), |now.made|)
  {
    var next, c := OpenShared(now, me, t), now.clients[me];
    var u := UserPipe(|now.made|, c.id, t, false);
    assert next.log[|now.log|] == Created(c.id, t, |now.made|);
    forall k, p ensures HasPipe(next.clients, k, p) <==> HasPipe(now.clients, k, p) || (Key(u) == k && u.pipe == p) {
      PushHas(now.clients, me, u, k, p);
    }
  }

  lemma {:induction false} MarkGoesOn(now: World, me: nat, i: nat, j: nat)
    requires me < |now.clients| && i < |now.clients| && j < |now.clients[i].userPipes|
    ensures GoesOn(now, Mark(now, i, j), me)
  {
    SameGoesOn(now, Mark(now, i, j), me);
  }

  /** What a redirection hands over, and that it lets the rest stay. */
  lemma {:induction false} ApplyHands(w: World, q: Prep, me: nat, ops: seq<Op>, op: Op)
    requires Handed(w, q, me, ops) && Keyed(q.w.clients) && !q.refused && !Apply(q, me, op).refused
    ensures Handed(w, Apply(q, me, op), me, ops + [op])
  {
    LastPush(ops, op);
    match op
    case OutFile(_) =>
    case InFile(_) =>
    case ToUser(t) => SendHands(w, q, me, ops, t);
    case FromUser(s) =>
      var i := FindId(q.w.clients, s);
      var j := FindTarget(q.w.clients[i].userPipes, q.w.clients[me].id);
      ReceiveHands(w, q, me, ops, i, j);
  }

  lemma {:induction false} SendHands(w: World, q: Prep, me: nat, ops: seq<Op>, t: int)
    requires Handed(w, q, me, ops)
    ensures Handed(w, q.(w := OpenShared(q.w, me, t), stdout := ToPipe(|q.w.made|)), me, ops + [ToUser(t)])
  {
    var next, id := OpenShared(q.w, me, t), w.clients[me].id;
    LastPush(ops, ToUser(t));
    OpenGoesOn(q.w, me, t);
    PreparingOn(w, q.w, next, me);
    InStays(q.stdin, w, q.w, next, me, id, LastIn(ops));
  }

  lemma {:induction false} ReceiveHands(w: World, q: Prep, me: nat, ops: seq<Op>, i: nat, j: nat)
    requires Handed(w, q, me, ops) && Keyed(q.w.clients) && i < |q.w.clients| && j < |q.w.clients[i].userPipes|
    requires q.w.clients[i].userPipes[j].target == q.w.clients[me].id
    ensures var c := q.w.clients[i];
            Handed(w, q.(w := Mark(q.w, i, j), stdin := FromPipe(c.userPipes[j].pipe), takes := q.takes + [c.id]),
                   me, ops + [FromUser(c.id)])
  {
    var c, id := q.w.clients[i], w.clients[me].id;
    var next, p, k := Mark(q.w, i, j), c.userPipes[j].pipe, (c.id, id);
    LastPush(ops, FromUser(c.id));
    MarkGoesOn(q.w, me, i, j);
    PreparingOn(w, q.w, next, me);
    OutStays(q.stdout, q.w.log, next.log, |w.log|, id, LastOut(ops));
    assert HasPipe(q.w.clients, k, p);
    assert HasPipe(next.clients, k, p);
    assert HasPipe(w.clients, k, p) || MadeByMe(w, next, me, k, p);
  }

  // ---------- one command ----------

  lemma {:induction false} NothingHanded(w: World, me: nat)
    requires me < |w.clients|
    ensures Handed(w, Fresh(w), me, [])
  {
  }

  lemma {:induction false} ApplyAllHands(w: World, me: nat, ops: seq<Op>)
    requires me < |w.clients| && Inv(w) && !ApplyAll(Fresh(w), me, ops).refused
    ensures Handed(w, ApplyAll(Fresh(w), me, ops), me, ops)
  {
    if ops == [] {
      NothingHanded(w, me);
    } else {
      var n := |ops| - 1;
      ApplyAllHands(w, me, ops[..n]);
      StillKeyed(w, me, ops[..n]);
      ApplyHands(w, ApplyAll(Fresh(w), me, ops[..n]), me, ops[..n], ops[n]);
      LastApart(ops);
    }
  }

  /** A command that is not refused is handed what its words say: without a numbered sink its last
      output redirection is its output, and its last input redirection is its input. */
  lemma {:induction false} PrepareHands(w: World, me: nat, c: Cmd)
    requires me < |w.clients| && Inv(w) && !Prepare(w, me, c).refused
    ensures var q, id := Prepare(w, me, c), w.clients[me].id;
            && Preparing(w, q.w, me)
            && (c.sink.NoPipe? ==> OutAs(q.stdout, q.w.log, |w.log|, id, LastOut(c.ops)))
            && (if c.sink.NoPipe? then q.sink == None else q.sink == Some(c.sink.n))
            && q.stderr == (if c.sink.ErrPipe? then q.stdout else Default)
            && InAs(q.stdin, w, q.w, id, LastIn(c.ops))
  {
    var q0, q := ApplyAll(Fresh(w), me, c.ops), Prepare(w, me, c);
    ApplyAllHands(w, me, c.ops);
    ApplyAllUnsunk(Fresh(w), me, c.ops);
    SinkHands(w, q0, me, c.ops, c.sink);
  }

  lemma {:induction false} SinkHands(w: World, q: Prep, me: nat, ops: seq<Op>, sink: Sink)
    requires Handed(w, q, me, ops) && !q.refused
    ensures var q' := ApplySink(q, me, sink);
            Preparing(w, q'.w, me) && InAs(q'.stdin, w, q'.w, w.clients[me].id, LastIn(ops))
  {
    var q' := ApplySink(q, me, sink);
    SameGoesOn(q.w, q'.w, me);
    PreparingOn(w, q.w, q'.w, me);
    InStays(q.stdin, w, q.w, q'.w, me, w.clients[me].id, LastIn(ops));
  }

  // ---------- what has run ----------

  /** Events `m` up to `n` are one command making and taking its user pipes. */
  ghost predicate OneCommand(log: seq<Event>, m: int, n: int) {
    0 <= m <= n <= |log| && forall x :: m <= x < n ==> log[x].Created? || log[x].Taken?
  }

  /** The command that ran at `n` had made the pipe for the pair at `m`. */
  ghost predicate MadeFor(log: seq<Event>, m: int, n: int, k: Pair, p: nat) {
    0 <= m < n <= |log| && log[m] == Created(k.0, k.1, p) && OneCommand(log, m, n)
  }

  /** The pipe made for the pair at `m` had not come to its end at `n`. */
  ghost predicate StandsAt(log: seq<Event>, m: int, n: int, k: Pair, p: nat) {
    0 <= m < n <= |log| && log[m] == Created(k.0, k.1, p) && !Ended(log, m, n, k)
  }

  ghost predicate WritesAs(log: seq<Event>, n: nat, id: int, last: Option<Op>)
    requires n < |log| && log[n].Ran?
  {
    var h := log[n].stdout;
    match last
    case None => h == Default
    case Some(OutFile(f)) => h == Opened(f)
    case Some(ToUser(t)) => h.ToPipe? && exists m :: MadeFor(log, m, n, (id, t), h.pipe)
    case _ => false
  }

  ghost predicate ReadsAs(log: seq<Event>, n: nat, id: int, last: Option<Op>)
    requires n < |log| && log[n].Ran?
  {
    var h := log[n].stdin;
    match last
    case None => h == Default
    case Some(InFile(f)) => h == Opened(f)
    case Some(FromUser(s)) => h.FromPipe? && exists m :: StandsAt(log, m, n, (s, id), h.pipe)
    case _ => false
  }

  /** What ran at `n` is this command of this user: its words and sink; for output what its last
      output redirection says, unless a numbered sink takes its place; for input what its last input
      redirection says, unless a numbered pipe was due. */
  ghost predicate AsSaid(made: seq<Owner>, log: seq<Event>, n: nat, id: int, login: nat, c: Cmd) {
    && n < |log| && log[n].Ran? && log[n].login == login && log[n].args == c.args && log[n].sink == SinkNumber(c.sink)
    && Below(made, log[n].stdin)
    && log[n].stderr == (if c.sink.ErrPipe? then log[n].stdout else Default)
    && (c.sink.NoPipe? ==> WritesAs(log, n, id, LastOut(c.ops)))
    && (NumberedPipe(made, log[n].stdin).None? ==> ReadsAs(log, n, id, LastIn(c.ops)))
  }

  lemma {:induction false} SameEnd(log: seq<Event>, log': seq<Event>, m: int, n: int, k: Pair, p: nat)
    requires StandsAt(log, m, n, k, p) && log <= log'
    ensures StandsAt(log', m, n, k, p)
  {
    PrefixStanding(log, m, n, k);
    PrefixStanding(log', m, n, k);
    assert log[..n] == log'[..n];
  }

  lemma {:induction false} WritesLater(log: seq<Event>, log': seq<Event>, n: nat, id: int, last: Option<Op>)
    requires n < |log| && log[n].Ran? && WritesAs(log, n, id, last) && log <= log'
    ensures WritesAs(log', n, id, last)
  {
    if last.Some? && last.value.ToUser? {
      var m :| MadeFor(log, m, n, (id, last.value.id), log[n].stdout.pipe);
      assert MadeFor(log', m, n, (id, last.value.id), log[n].stdout.pipe);
    }
  }

  lemma {:induction false} ReadsLater(log: seq<Event>, log': seq<Event>, n: nat, id: int, last: Option<Op>)
    requires n < |log| && log[n].Ran? && ReadsAs(log, n, id, last) && log <= log'
    ensures ReadsAs(log', n, id, last)
  {
    if last.Some? && last.value.FromUser? {
      var m :| StandsAt(log, m, n, (last.value.id, id), log[n].stdin.pipe);
      SameEnd(log, log', m, n, (last.value.id, id), log[n].stdin.pipe);
    }
  }

  /** What was said and done stays so. */
  lemma {:induction false} AsSaidLater(made: seq<Owner>, log: seq<Event>, made': seq<Owner>, log': seq<Event>,
                                       n: nat, id: int, login: nat, c: Cmd)
    requires AsSaid(made, log, n, id, login, c) && made <= made' && log <= log'
    ensures AsSaid(made', log', n, id, login, c)
  {
    if c.sink.NoPipe? { WritesLater(log, log', n, id, LastOut(c.ops)); }
    if NumberedPipe(made, log[n].stdin).None? { ReadsLater(log, log', n, id, LastIn(c.ops)); }
  }

  /** A pipe of the vectors was made for its pair and has not come to its end. */
  lemma {:induction false} HasOrigin(w: World, k: Pair, p: nat) returns (m: int)
    requires Linked(w) && HasPipe(w.clients, k, p)
    ensures StandsAt(w.log, m, |w.log|, k, p)
  {
    var i, j :| 0 <= i < |w.clients| && 0 <= j < |w.clients[i].userPipes|
             && Key(w.clients[i].userPipes[j]) == k && w.clients[i].userPipes[j].pipe == p;
    assert EntryMatches(Replay(w.log).value, w.clients[i].userPipes[j]);
    m := LinkedHasOrigin(w.log, k);
  }

  lemma {:induction false} WritesNow(log: seq<Event>, from: nat, e: Event, id: int, last: Option<Op>)
    requires e.Ran? && OnlyPipesSince(log, from) && OutAs(e.stdout, log, from, id, last)
    ensures WritesAs(log + [e], |log|, id, last)
  {
    if last.Some? && last.value.ToUser? {
      var k: Pair := (id, last.value.id);
      var m :| from <= m < |log| && log[m] == Created(k.0, k.1, e.stdout.pipe);
      assert MadeFor(log + [e], m, |log|, k, e.stdout.pipe);
    }
  }

  lemma {:induction false} ReadsNow(w: World, now: World, e: Event, id: int, last: Option<Op>)
    requires e.Ran? && Linked(now) && InAs(e.stdin, w, now, id, last)
    ensures ReadsAs(now.log + [e], |now.log|, id, last)
  {
    if last.Some? && last.value.FromUser? {
      var m := HasOrigin(now, (last.value.id, id), e.stdin.pipe);
      SameEnd(now.log, now.log + [e], m, |now.log|, (last.value.id, id), e.stdin.pipe);
    }
  }

  /** A command that is not refused runs as it was said. */
  lemma {:induction false} CommandAsSaid(w: World, me: nat, c: Cmd)
    requires me < |w.clients| && Inv(w) && Linked(w) && SafeCmd(c) && !Prepare(w, me, c).refused
    ensures var q := Prepare(w, me, c);
            AsSaid(q.w.made, q.w.log + [RanEvent(q, me, c.args)], |q.w.log|, w.clients[me].id, w.clients[me].login, c)
  {
    var q := Prepare(w, me, c);
    PrepareHands(w, me, c);
    PrepareLinked(w, me, c);
    PrepareKeeps(w, me, c);
    PreparedClient(w, me, c);
    RanAsPrepared(w, q, me, c);
  }

  lemma {:induction false} RanAsPrepared(w: World, q: Prep, me: nat, c: Cmd)
    requires Preparing(w, q.w, me) && Linked(q.w) && Prepared(q, me) && NumberedOk(q.w.made, q.w.clients[me])
    requires q.w.clients[me].login == w.clients[me].login
    requires c.sink.NoPipe? ==> OutAs(q.stdout, q.w.log, |w.log|, w.clients[me].id, LastOut(c.ops))
    requires q.sink == SinkNumber(c.sink) && q.stderr == (if c.sink.ErrPipe? then q.stdout else Default)
    requires InAs(q.stdin, w, q.w, w.clients[me].id, LastIn(c.ops))
    ensures AsSaid(q.w.made, q.w.log + [RanEvent(q, me, c.args)], |q.w.log|, w.clients[me].id, w.clients[me].login, c)
  {
    var e, id := RanEvent(q, me, c.args), w.clients[me].id;
    var due := FirstDue(q.w.clients[me].pipes);
    if c.sink.NoPipe? { WritesNow(q.w.log, |w.log|, e, id, LastOut(c.ops)); }
    if due.Some? {
      var j := FirstDueIs(q.w.clients[me].pipes);
    } else {
      ReadsNow(w, q.w, e, id, LastIn(c.ops));
    }
  }

  // ---------- one line ----------

  /** Nothing that was made or has happened is forgotten. */
  ghost predicate Grows(w: World, w': World) { w.made <= w'.made && w.log <= w'.log }

  lemma {:induction false} PerformGrows(q: Prep, me: nat, args: seq<string>)
    requires me < |q.w.clients| && SafeArgs(args)
    ensures q.w.made <= Perform(q, me, args).made && q.w.log + [RanEvent(q, me, args)] <= Perform(q, me, args).log
  {
    RunsFirst(q, me, args);
    SweepAllLater(Finished(q, me, args), q.takes + [q.w.clients[me].id]);
  }

  lemma {:induction false} ExecuteGrows(g: Progress, me: nat, c: Cmd)
    requires me < |g.w.clients| && SafeCmd(c) && Inv(g.w)
    ensures Grows(g.w, Execute(g, me, c).w)
  {
    if !g.refused {
      PrepareGives(g.w, me, c);
      if !Prepare(g.w, me, c).refused { PerformGrows(Prepare(g.w, me, c), me, c.args); }
    }
  }

  /** A line, its client, and how far it has got. */
  ghost predicate Underway(g: Progress, me: nat, id: int, login: nat) {
    me < |g.w.clients| && Inv(g.w) && Linked(g.w) && g.w.clients[me].id == id && g.w.clients[me].login == login
  }

  lemma {:induction false} ExecuteUnderway(g: Progress, me: nat, c: Cmd, id: int, login: nat)
    requires Underway(g, me, id, login) && SafeCmd(c)
    ensures Underway(Execute(g, me, c), me, id, login)
  {
    ExecuteKeeps(g, me, c);
    ExecuteLinked(g, me, c);
  }

  lemma {:induction false} RefusedStays(g: Progress, me: nat, c: Cmd)
    requires me < |g.w.clients| && SafeCmd(c) && !Execute(g, me, c).refused
    ensures !g.refused && !Prepare(g.w, me, c).refused
    ensures Execute(g, me, c).w == Perform(Prepare(g.w, me, c), me, c.args)
  {
  }

  /** Every command of the line so far has run as it was said, command i at `at[i]`. */
  ghost predicate AllAsSaid(w: World, id: int, login: nat, cmds: seq<Cmd>, at: seq<nat>) {
    |at| == |cmds| && forall i :: 0 <= i < |cmds| ==> AsSaid(w.made, w.log, at[i], id, login, cmds[i])
  }

  lemma {:induction false} AllAsSaidLater(w: World, w': World, id: int, login: nat, cmds: seq<Cmd>, at: seq<nat>)
    requires AllAsSaid(w, id, login, cmds, at) && Grows(w, w')
    ensures AllAsSaid(w', id, login, cmds, at)
  {
    forall i | 0 <= i < |cmds| { AsSaidLater(w.made, w.log, w'.made, w'.log, at[i], id, login, cmds[i]); }
  }

  lemma {:induction false} SaidNow(g: Progress, me: nat, id: int, login: nat, c: Cmd) returns (n: nat)
    requires Underway(g, me, id, login) && SafeCmd(c) && !Execute(g, me, c).refused
    ensures AsSaid(Execute(g, me, c).w.made, Execute(g, me, c).w.log, n, id, login, c)
  {
    var q, w' := Prepare(g.w, me, c), Execute(g, me, c).w;
    var e := RanEvent(q, me, c.args);
    n := |q.w.log|;
    RefusedStays(g, me, c);
    CommandAsSaid(g.w, me, c);
    PerformGrows(q, me, c.args);
    AsSaidLater(q.w.made, q.w.log + [e], w'.made, w'.log, n, id, login, c);
  }

  lemma {:induction false} AllAsSaidPush(w: World, id: int, login: nat, cmds: seq<Cmd>, at: seq<nat>, c: Cmd, n: nat)
    requires AllAsSaid(w, id, login, cmds, at) && AsSaid(w.made, w.log, n, id, login, c)
    ensures AllAsSaid(w, id, login, cmds + [c], at + [n])
  {
  }

  lemma {:induction false} OneMoreSaid(g: Progress, me: nat, id: int, login: nat, cmds: seq<Cmd>, at: seq<nat>, c: Cmd)
    returns (at': seq<nat>)
    requires Underway(g, me, id, login) && AllAsSaid(g.w, id, login, cmds, at)
    requires SafeCmd(c) && !Execute(g, me, c).refused
    ensures AllAsSaid(Execute(g, me, c).w, id, login, cmds + [c], at') && Underway(Execute(g, me, c), me, id, login)
  {
    var w' := Execute(g, me, c).w;
    var n := SaidNow(g, me, id, login, c);
    ExecuteGrows(g, me, c);
    AllAsSaidLater(g.w, w', id, login, cmds, at);
    AllAsSaidPush(w', id, login, cmds, at, c, n);
    ExecuteUnderway(g, me, c, id, login);
    at' := at + [n];
  }

  /** The commands of a line that are not refused run as they were said, in order. */
  lemma {:induction false} ExecuteAllAsSaid(g: Progress, me: nat, id: int, login: nat, cmds: seq<Cmd>)
    returns (at: seq<nat>)
    requires Underway(g, me, id, login) && forall i :: 0 <= i < |cmds| ==> SafeCmd(cmds[i])
    requires !ExecuteAll(g, me, cmds).refused
    ensures AllAsSaid(ExecuteAll(g, me, cmds).w, id, login, cmds, at)
    ensures Underway(ExecuteAll(g, me, cmds), me, id, login)
  {
    if cmds == [] {
      at := [];
    } else {
      var n := |cmds| - 1;
      var g1 := ExecuteAll(g, me, cmds[..n]);
      RefusedStays(g1, me, cmds[n]);
      at := ExecuteAllAsSaid(g, me, id, login, cmds[..n]);
      at := OneMoreSaid(g1, me, id, login, cmds[..n], at, cmds[n]);
      LastApart(cmds);
    }
  }
}
