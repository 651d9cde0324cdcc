/** The numbered pipes of every login follow the schedule of that login's own commands, whatever the
    other clients do in between. */
module ServerWiring {
  import opened Sequences
  import opened ServerSyntax
  import opened ServerModel
  import opened ServerInvariant
  import opened ServerLeaving
  import opened PipeOwnership
  import PS = PipeSchedule

  /** The commands a login has run, in order. */
  function Deeds(log: seq<Event>, login: nat): (r: seq<Event>)
    ensures forall i :: 0 <= i < |r| ==> r[i].Ran?
  {
    if log == [] then [] else
      var n := |log| - 1;
      var before := Deeds(log[..n], login);
      if log[n].Ran? && log[n].login == login then before + [log[n]] else before
  }

  lemma {:induction false} DeedsPush(log: seq<Event>, e: Event, login: nat)
    ensures Deeds(log + [e], login) == if e.Ran? && e.login == login then Deeds(log, login) + [e] else Deeds(log, login)
  {
    assert (log + [e])[..|log|] == log;
  }

  predicate AllRan(deeds: seq<Event>) { forall i :: 0 <= i < |deeds| ==> deeds[i].Ran? }

  function JobOf(e: Event): PS.Job
    requires e.Ran?
  {
    PS.Job(e.sink, e.spare)
  }

  function JobsOf(deeds: seq<Event>): (r: seq<PS.Job>)
    requires AllRan(deeds)
    ensures |r| == |deeds|
  {
    seq(|deeds|, i requires 0 <= i < |deeds| => JobOf(deeds[i]))
  }

  /** The numbered pipe behind a handle. */
  function NumberedPipe(made: seq<Owner>, h: Handle): Option<nat> {
    if (h.FromPipe? || h.ToPipe?) && h.pipe < |made| && made[h.pipe].Numbered? then Some(h.pipe) else None
  }

  function WireOf(made: seq<Owner>, e: Event): PS.Wire
    requires e.Ran?
  {
    PS.Wire(NumberedPipe(made, e.stdin), NumberedPipe(made, e.stdout))
  }

  function WiresOf(made: seq<Owner>, deeds: seq<Event>): (r: seq<PS.Wire>)
    requires AllRan(deeds)
    ensures |r| == |deeds|
  {
    seq(|deeds|, i requires 0 <= i < |deeds| => WireOf(made, deeds[i]))
  }

  predicate Below(made: seq<Owner>, h: Handle) { h.FromPipe? || h.ToPipe? ==> h.pipe < |made| }

  ghost predicate Within(made: seq<Owner>, deeds: seq<Event>) {
    forall i :: 0 <= i < |deeds| ==> deeds[i].Ran? && Below(made, deeds[i].stdin) && Below(made, deeds[i].stdout)
  }

  /** What a login has run is wired by the schedule, with a new identity for every new pipe. */
  ghost predicate LoginWired(log: seq<Event>, made: seq<Owner>, login: nat) {
    var d := Deeds(log, login);
    && Within(made, d)
    && WiresOf(made, d) == PS.Run(JobsOf(d)).wires
    && PS.Fresh(JobsOf(d), WiresOf(made, d))
  }

  /** A client's vector is what the schedule's countdown says. */
  ghost predicate SlotsFollow(log: seq<Event>, c: Client) {
    c.pipes == PS.Run(JobsOf(Deeds(log, c.login))).slots
  }

  ghost predicate Scheduled(w: World) {
    && (forall i :: 0 <= i < |w.clients| ==> SlotsFollow(w.log, w.clients[i]))
    && (forall login: nat :: LoginWired(w.log, w.made, login))
    && (forall login: nat :: login >= w.logins ==> Deeds(w.log, login) == [])
  }

  // ---------- steps that run nothing ----------

  ghost predicate SamePlace(c: Client, c': Client) {
    c'.login == c.login && c'.pipes == c.pipes && c'.env == c.env
  }

  ghost predicate SamePlaces(a: seq<Client>, b: seq<Client>) {
    |a| == |b| && forall i :: 0 <= i < |a| ==> SamePlace(a[i], b[i])
  }

  ghost predicate SameDeeds(a: seq<Event>, b: seq<Event>) {
    forall login: nat :: Deeds(b, login) == Deeds(a, login)
  }

  /** Nothing has run, and vectors, settings and process environment are as they were. */
  ghost predicate Quiet(w: World, w': World) {
    && SamePlaces(w.clients, w'.clients)
    && SameDeeds(w.log, w'.log)
    && w.made <= w'.made && w'.logins == w.logins && w'.env == w.env && w'.path == w.path
  }

  lemma {:induction false} WiresGrow(made: seq<Owner>, made': seq<Owner>, deeds: seq<Event>)
    requires Within(made, deeds) && made <= made'
    ensures Within(made', deeds) && WiresOf(made', deeds) == WiresOf(made, deeds)
  {
  }

  lemma {:induction false} LoginStays(w: World, log': seq<Event>, made': seq<Owner>, login: nat)
    requires LoginWired(w.log, w.made, login) && Deeds(log', login) == Deeds(w.log, login) && w.made <= made'
    ensures LoginWired(log', made', login)
  {
    WiresGrow(w.made, made', Deeds(w.log, login));
  }

  lemma {:induction false} QuietScheduled(w: World, w': World)
    requires Scheduled(w) && Quiet(w, w')
    ensures Scheduled(w')
  {
    forall i | 0 <= i < |w'.clients| ensures SlotsFollow(w'.log, w'.clients[i]) {
      assert SlotsFollow(w.log, w.clients[i]) && SamePlace(w.clients[i], w'.clients[i]);
    }
    forall login: nat ensures LoginWired(w'.log, w'.made, login) {
      LoginStays(w, w'.log, w'.made, login);
    }
  }

  lemma {:induction false} SameDeedsPush(log: seq<Event>, e: Event)
    requires !e.Ran?
    ensures SameDeeds(log, log + [e])
  {
    forall login: nat ensures Deeds(log + [e], login) == Deeds(log, login) { DeedsPush(log, e, login); }
  }

  lemma {:induction false} ApplyQuiet(q: Prep, me: nat, op: Op)
    requires me < |q.w.clients|
    ensures Quiet(q.w, Apply(q, me, op).w)
  {
    var w := q.w;
    if op.ToUser? {
      SameDeedsPush(w.log, Created(w.clients[me].id, op.id, |w.made|));
    } else if op.FromUser? {
      var i := FindId(w.clients, op.id);
      if i < |w.clients| {
        var k := FindTarget(w.clients[i].userPipes, w.clients[me].id);
        if k < |w.clients[i].userPipes| {
          SameDeedsPush(w.log, Taken(w.clients[i].userPipes[k].source, w.clients[i].userPipes[k].target));
        }
      }
    }
  }

  lemma {:induction false} QuietTrans(a: World, b: World, c: World)
    requires Quiet(a, b) && Quiet(b, c)
    ensures Quiet(a, c)
  {
    forall i | 0 <= i < |a.clients| ensures SamePlace(a.clients[i], c.clients[i]) {
      assert SamePlace(a.clients[i], b.clients[i]) && SamePlace(b.clients[i], c.clients[i]);
    }
  }

  /** So far the output is not a numbered pipe. */
  ghost predicate NoSinkYet(q: Prep) {
    q.sink == None && (q.stdout.ToPipe? ==> q.stdout.pipe < |q.w.made| && q.w.made[q.stdout.pipe].Shared?)
  }

  lemma {:induction false} ApplyAllQuiet(q: Prep, me: nat, ops: seq<Op>)
    requires me < |q.w.clients| && NoSinkYet(q)
    ensures Quiet(q.w, ApplyAll(q, me, ops).w) && NoSinkYet(ApplyAll(q, me, ops))
  {
    if ops != [] {
      var n := |ops| - 1;
      var mid := ApplyAll(q, me, ops[..n]);
      ApplyAllQuiet(q, me, ops[..n]);
      ApplyQuiet(mid, me, ops[n]);
      QuietTrans(q.w, mid.w, Apply(mid, me, ops[n]).w);
    }
  }

  lemma {:induction false} SweepQuiet(w: World, id: int)
    ensures Quiet(w, Sweep(w, id))
  {
    SameDeedsPush(w.log, Swept(id));
  }

  lemma {:induction false} SweepAllQuiet(w: World, ids: seq<int>)
    ensures Quiet(w, SweepAll(w, ids))
  {
    if ids != [] {
      var n := |ids| - 1;
      SweepAllQuiet(w, ids[..n]);
      SweepQuiet(SweepAll(w, ids[..n]), ids[n]);
      QuietTrans(w, SweepAll(w, ids[..n]), SweepAll(w, ids));
    }
  }

  // ---------- one command ----------

  /** With distinct counts the first pipe that is due is the only one. */
  lemma {:induction false} FirstDueIsPipeAt(slots: seq<PS.Slot>)
    requires PS.DistinctCounts(slots)
    ensures FirstDue(slots) == PS.PipeAt(slots, 0)
  {
    if FirstDue(slots).Some? {
      var j := FirstDueIs(slots);
      var p := PS.PipeAt(slots, 0);
      assert p.Some? by { assert slots[j].count == 0; }
      var k :| 0 <= k < |slots| && slots[k] == PS.Slot(p.value, 0);
      assert !(j < k) && !(k < j);
    } else {
      NoneDue(slots);
    }
  }

  lemma {:induction false} NoneDue(slots: seq<PS.Slot>)
    requires FirstDue(slots).None?
    ensures forall i :: 0 <= i < |slots| ==> slots[i].count != 0
  {
    if slots != [] {
      NoneDue(slots[1..]);
      forall i | 0 <= i < |slots| ensures slots[i].count != 0 {
        if i > 0 { assert slots[i] == slots[1..][i - 1]; }
      }
    }
  }

  /** The vector and the handles once the command's own pipe is open. */
  lemma {:induction false} SinkOpens(q: Prep, me: nat, sink: Sink)
    requires me < |q.w.clients| && !q.refused && NoSinkYet(q)
    ensures var q', slots := ApplySink(q, me, sink), q.w.clients[me].pipes;
            var job := PS.Job(SinkNumber(sink), if sink.NoPipe? then |q'.w.made| else |q.w.made|);
            && q'.sink == job.sink && (if q'.sink.Some? then q'.spare else |q'.w.made|) == job.spare
            && q'.w.clients == q.w.clients[me := q.w.clients[me].(pipes := PS.WithSink(slots, job))]
            && |q.w.made| <= job.spare && q'.w.log == q.w.log && q.w.made <= q'.w.made
            && (job.sink.Some? ==> PS.PipeAt(PS.WithSink(slots, job), sink.n).Some?
                                   && q'.stdout == ToPipe(PS.PipeAt(PS.WithSink(slots, job), sink.n).value))
            && (job.sink.None? ==> q'.stdout == q.stdout)
  {
    var c := q.w.clients[me];
    if !sink.NoPipe? && PS.PipeAt(c.pipes, sink.n).None? {
      var slot := PS.Slot(|q.w.made|, sink.n);
      assert (c.pipes + [slot])[..|c.pipes|] == c.pipes;
    }
  }

  /** What one executed command does to its client: the vector steps on as the schedule's does, and
      the command is wired as the schedule wires it. */
  ghost predicate Stepped(w: World, w': World, me: nat, e: Event)
    requires me < |w.clients| && e.Ran?
  {
    && |w'.clients| == |w.clients|
    && w'.clients[me].login == w.clients[me].login == e.login
    && w'.clients[me].pipes == PS.After(w.clients[me].pipes, JobOf(e))
    && (forall i :: 0 <= i < |w.clients| && i != me ==> SamePlace(w.clients[i], w'.clients[i]))
    && WireOf(w'.made, e) == PS.WireOf(w.clients[me].pipes, JobOf(e))
    && Below(w'.made, e.stdin) && Below(w'.made, e.stdout)
    && |w.made| <= e.spare && w.made <= w'.made && w'.logins == w.logins
    && (forall login: nat :: Deeds(w'.log, login)
          == if login == e.login then Deeds(w.log, login) + [e] else Deeds(w.log, login))
  }

  /** The vector after one more command. */
  function Onward(v: PS.Vector, job: PS.Job): PS.Vector {
    PS.Vector(PS.After(v.slots, job), v.wires + [PS.WireOf(v.slots, job)])
  }

  lemma {:induction false} RunPush(jobs: seq<PS.Job>, job: PS.Job)
    ensures var v := PS.Run(jobs);
            PS.Run(jobs + [job]) == Onward(v, job)
  {
    assert (jobs + [job])[..|jobs|] == jobs;
  }

  lemma {:induction false} DeedsSnoc(made: seq<Owner>, d: seq<Event>, e: Event)
    requires AllRan(d) && e.Ran?
    ensures JobsOf(d + [e]) == JobsOf(d) + [JobOf(e)] && WiresOf(made, d + [e]) == WiresOf(made, d) + [WireOf(made, e)]
  {
  }

  lemma {:induction false} RunsOneMore(made: seq<Owner>, d: seq<Event>, e: Event, slots: seq<PS.Slot>)
    requires AllRan(d) && e.Ran?
    requires WiresOf(made, d) == PS.Run(JobsOf(d)).wires && slots == PS.Run(JobsOf(d)).slots
    requires WireOf(made, e) == PS.WireOf(slots, JobOf(e))
    ensures WiresOf(made, d + [e]) == PS.Run(JobsOf(d + [e])).wires
    ensures PS.After(slots, JobOf(e)) == PS.Run(JobsOf(d + [e])).slots
  {
    DeedsSnoc(made, d, e);
    RunPush(JobsOf(d), JobOf(e));
  }

  lemma {:induction false} FreshOneMore(made: seq<Owner>, made': seq<Owner>, d: seq<Event>, e: Event)
    requires AllRan(d) && e.Ran? && made <= made' && |made| <= e.spare
    requires Within(made, d) && PS.Fresh(JobsOf(d), WiresOf(made, d))
    ensures PS.Fresh(JobsOf(d + [e]), WiresOf(made', d + [e]))
  {
    var jobs, wires := JobsOf(d + [e]), WiresOf(made', d + [e]);
    forall i, j | 0 <= i < j < |jobs| && wires[i].stdout.Some? ensures wires[i].stdout.value < jobs[j].spare {
      assert wires[i] == WireOf(made', d[i]) == WiresOf(made, d)[i];
      if j < |d| { assert jobs[j] == JobsOf(d)[j]; }
    }
  }

  lemma {:induction false} GrowsWired(w: World, w': World, me: nat, e: Event)
    requires me < |w.clients| && e.Ran? && Stepped(w, w', me, e)
    requires LoginWired(w.log, w.made, e.login) && SlotsFollow(w.log, w.clients[me])
    ensures LoginWired(w'.log, w'.made, e.login) && SlotsFollow(w'.log, w'.clients[me])
  {
    var d := Deeds(w.log, e.login);
    assert Deeds(w'.log, e.login) == d + [e];
    FreshOneMore(w.made, w'.made, d, e);
    WiresGrow(w.made, w'.made, d);
    RunsOneMore(w'.made, d, e, w.clients[me].pipes);
  }

  lemma {:induction false} SteppedScheduled(w: World, w': World, me: nat, e: Event)
    requires me < |w.clients| && e.Ran? && Scheduled(w) && LoginsOk(w.clients, w.logins) && Stepped(w, w', me, e)
    ensures Scheduled(w')
  {
    assert SlotsFollow(w.log, w.clients[me]);
    GrowsWired(w, w', me, e);
    forall i | 0 <= i < |w'.clients| ensures SlotsFollow(w'.log, w'.clients[i]) {
      if i != me {
        assert SlotsFollow(w.log, w.clients[i]) && SamePlace(w.clients[i], w'.clients[i]);
        assert w.clients[if i < me then i else me].login != w.clients[if i < me then me else i].login;
      }
    }
    forall login: nat ensures LoginWired(w'.log, w'.made, login) {
      if login != e.login { LoginStays(w, w'.log, w'.made, login); }
    }
  }

  lemma {:induction false} RunsFirst(q: Prep, me: nat, args: seq<string>)
    requires me < |q.w.clients| && SafeArgs(args)
    ensures var w1, e := Finished(q, me, args), RanEvent(q, me, args);
            && |w1.clients| == |q.w.clients|
            && w1.clients[me].login == q.w.clients[me].login
            && w1.clients[me].pipes == PS.Countdown(Filter(PS.PENDING, q.w.clients[me].pipes))
            && (forall i :: 0 <= i < |w1.clients| && i != me ==> w1.clients[i] == q.w.clients[i])
            && w1.made == q.w.made && w1.logins == q.w.logins && w1.log == q.w.log + [e]
  {
  }

  /** The handles of a command are those of its job in the schedule. */
  lemma {:induction false} HandlesAreWired(q: Prep, me: nat, args: seq<string>, slots: seq<PS.Slot>, job: PS.Job)
    requires me < |q.w.clients| && SafeArgs(args) && Prepared(q, me) && NumberedOk(q.w.made, q.w.clients[me])
    requires q.w.clients[me].pipes == PS.WithSink(slots, job)
    requires job.sink.Some? ==> PS.PipeAt(PS.WithSink(slots, job), job.sink.value).Some?
    requires job.sink.Some? ==> q.stdout == ToPipe(PS.PipeAt(PS.WithSink(slots, job), job.sink.value).value)
    requires job.sink.None? ==> NumberedPipe(q.w.made, q.stdout).None?
    ensures var e := RanEvent(q, me, args);
            WireOf(q.w.made, e) == PS.WireOf(slots, job) && Below(q.w.made, e.stdin) && Below(q.w.made, e.stdout)
  {
    var open := PS.WithSink(slots, job);
    FirstDueIsPipeAt(open);
    if job.sink.Some? {
      var k :| 0 <= k < |open| && open[k] == PS.Slot(PS.PipeAt(open, job.sink.value).value, job.sink.value);
      assert q.w.made[open[k].pipe] == Numbered(q.w.clients[me].login);
    }
    if PS.PipeAt(open, 0).Some? {
      var j :| 0 <= j < |open| && open[j] == PS.Slot(PS.PipeAt(open, 0).value, 0);
      assert q.w.made[open[j].pipe] == Numbered(q.w.clients[me].login);
    }
  }

  lemma {:induction false} PreparedClient(w: World, me: nat, c: Cmd)
    requires me < |w.clients| && Inv(w)
    ensures var q := Prepare(w, me, c);
            Prepared(q, me) && NumberedOk(q.w.made, q.w.clients[me])
  {
    PrepareGives(w, me, c);
    PrepareKeeps(w, me, c);
    var q := Prepare(w, me, c);
    assert ClientOk(q.w.table, q.w.clients, q.w.made, q.w.clients[me]);
  }

  lemma {:induction false} CommandSteps(w: World, me: nat, c: Cmd)
    requires me < |w.clients| && SafeCmd(c) && !Prepare(w, me, c).refused
    requires Prepared(Prepare(w, me, c), me)
    requires NumberedOk(Prepare(w, me, c).w.made, Prepare(w, me, c).w.clients[me])
    ensures var q := Prepare(w, me, c);
            Stepped(w, Perform(q, me, c.args), me, RanEvent(q, me, c.args))
  {
    var q0 := ApplyAll(Fresh(w), me, c.ops);
    ApplyAllQuiet(Fresh(w), me, c.ops);
    assert SamePlace(w.clients[me], q0.w.clients[me]);
    SinkSteps(w, q0, me, c.sink, c.args);
  }

  lemma {:induction false} SinkSteps(w: World, q0: Prep, me: nat, sink: Sink, args: seq<string>)
    requires me < |w.clients| && SafeArgs(args) && Quiet(w, q0.w) && NoSinkYet(q0)
    requires !q0.refused && q0.w.clients[me].pipes == w.clients[me].pipes
    requires Prepared(ApplySink(q0, me, sink), me)
    requires NumberedOk(ApplySink(q0, me, sink).w.made, ApplySink(q0, me, sink).w.clients[me])
    ensures var q := ApplySink(q0, me, sink);
            Stepped(w, Perform(q, me, args), me, RanEvent(q, me, args))
  {
    var q := ApplySink(q0, me, sink);
    var e := RanEvent(q, me, args);
    SinkOpens(q0, me, sink);
    HandlesAreWired(q, me, args, w.clients[me].pipes, JobOf(e));
    RunsFirst(q, me, args);
    SweepAllQuiet(Finished(q, me, args), q.takes + [q.w.clients[me].id]);
    Together(w, q0, q, Finished(q, me, args), Perform(q, me, args), me, e);
  }

  lemma {:induction false} Together(w: World, q0: Prep, q: Prep, w1: World, w2: World, me: nat, e: Event)
    requires me < |w.clients| && e.Ran?
    requires Quiet(w, q0.w) && |q0.w.clients| == |q.w.clients| == |w1.clients|
    requires q.w.clients == q0.w.clients[me := q0.w.clients[me].(pipes := PS.WithSink(w.clients[me].pipes, JobOf(e)))]
    requires q.w.log == q0.w.log && q0.w.made <= q.w.made && |q0.w.made| <= e.spare && q.w.logins == q0.w.logins
    requires e.login == q.w.clients[me].login
    requires w1.clients[me].login == q.w.clients[me].login
    requires w1.clients[me].pipes == PS.Countdown(Filter(PS.PENDING, q.w.clients[me].pipes))
    requires forall i :: 0 <= i < |w1.clients| && i != me ==> w1.clients[i] == q.w.clients[i]
    requires w1.made == q.w.made && w1.logins == q.w.logins && w1.log == q.w.log + [e]
    requires WireOf(w1.made, e) == PS.WireOf(w.clients[me].pipes, JobOf(e))
    requires Below(w1.made, e.stdin) && Below(w1.made, e.stdout)
    requires Quiet(w1, w2)
    ensures Stepped(w, w2, me, e)
  {
    assert SamePlace(w.clients[me], q0.w.clients[me]) && SamePlace(w1.clients[me], w2.clients[me]);
    forall i | 0 <= i < |w.clients| && i != me ensures SamePlace(w.clients[i], w2.clients[i]) {
      assert SamePlace(w.clients[i], q0.w.clients[i]) && SamePlace(w1.clients[i], w2.clients[i]);
    }
    forall login: nat ensures Deeds(w2.log, login)
         == if login == e.login then Deeds(w.log, login) + [e] else Deeds(w.log, login)
    {
      DeedsPush(q.w.log, e, login);
    }
  }

  lemma {:induction false} ExecuteScheduled(g: Progress, me: nat, c: Cmd)
    requires me < |g.w.clients| && SafeCmd(c) && Inv(g.w) && Scheduled(g.w)
    ensures Scheduled(Execute(g, me, c).w)
  {
    if !g.refused {
      var q := Prepare(g.w, me, c);
      if q.refused {
        ApplyAllQuiet(Fresh(g.w), me, c.ops);
        QuietScheduled(g.w, q.w);
      } else {
        PreparedClient(g.w, me, c);
        CommandSteps(g.w, me, c);
        SteppedScheduled(g.w, Perform(q, me, c.args), me, RanEvent(q, me, c.args));
      }
    }
  }

  lemma {:induction false} ExecuteAllScheduled(g: Progress, me: nat, cmds: seq<Cmd>)
    requires me < |g.w.clients| && Inv(g.w) && Scheduled(g.w) && forall i :: 0 <= i < |cmds| ==> SafeCmd(cmds[i])
    ensures Scheduled(ExecuteAll(g, me, cmds).w)
  {
    if cmds != [] {
      var n := |cmds| - 1;
      ExecuteAllScheduled(g, me, cmds[..n]);
      ExecuteAllKeeps(g, me, cmds[..n]);
      ExecuteScheduled(ExecuteAll(g, me, cmds[..n]), me, cmds[n]);
    }
  }

  lemma {:induction false} RunLineScheduled(w: World, me: nat, line: string)
    requires me < |w.clients| && SafeLine(line) && Inv(w) && Scheduled(w)
    ensures Scheduled(RunLine(w, me, line).w)
  {
    var w' := LoadEnv(w, me);
    forall i | 0 <= i < |w'.clients| ensures SlotsFollow(w'.log, w'.clients[i]) {
      assert SlotsFollow(w.log, w.clients[i]);
    }
    ExecuteAllScheduled(Progress(w', 0, false), me, CmdsOf(line));
  }

  lemma {:induction false} AcceptScheduled(w: World, fd: int)
    requires Inv(w) && Scheduled(w)
    ensures Scheduled(Accept(w, fd))
  {
    var k, w' := FreeSlot(w.table), Accept(w, fd);
    if k < |w.table| {
      SameDeedsPush(w.log, LoggedIn(w.logins, k + 1));
      forall i | 0 <= i < |w'.clients| ensures SlotsFollow(w'.log, w'.clients[i]) {
        if i < |w.clients| { assert SlotsFollow(w.log, w.clients[i]) && w'.clients[i] == w.clients[i]; }
      }
      forall login: nat ensures LoginWired(w'.log, w'.made, login) { LoginStays(w, w'.log, w'.made, login); }
    }
  }

  lemma {:induction false} LeftScheduled(w: World, k: nat)
    requires k < |w.clients| && Occupied(w.table, w.clients[k].id) && Scheduled(w)
    ensures Scheduled(Left(w, k))
  {
    var w' := Left(w, k);
    SameDeedsPush(w.log, LoggedOut(w.clients[k].id));
    forall i | 0 <= i < |w'.clients| ensures SlotsFollow(w'.log, w'.clients[i]) {
      assert SlotsFollow(w.log, w.clients[if i < k then i else i + 1]);
    }
    forall login: nat ensures LoginWired(w'.log, w'.made, login) { LoginStays(w, w'.log, w'.made, login); }
  }

  /** In a reachable state the commands of a login are wired as promised, exactly when none of them
      asked for pipe number zero. */
  lemma {:induction false} LoginWiredIffNoZero(w: World, login: nat)
    requires Scheduled(w)
    ensures var d := Deeds(w.log, login);
            PS.Wired(JobsOf(d), WiresOf(w.made, d)) <==> PS.NoZero(JobsOf(d))
  {
    assert LoginWired(w.log, w.made, login);
    PS.WiredIffNoZero(JobsOf(Deeds(w.log, login)));
  }

  // ---------- only a login's own commands matter ----------

  /** The same numbers, with positions for identities. */
  function Canonical(jobs: seq<PS.Job>): (r: seq<PS.Job>)
    ensures |r| == |jobs|
  {
    seq(|jobs|, i requires 0 <= i < |jobs| => PS.Job(jobs[i].sink, i))
  }

  /** An identity in terms of the commands that got it. */
  function Renamed(jobs: seq<PS.Job>, p: Option<nat>): Option<nat> {
    if p.Some? && p.value < |jobs| then Some(jobs[p.value].spare) else None
  }

  ghost predicate SlotRenames(jobs: seq<PS.Job>, a: PS.Slot, b: PS.Slot) {
    a.pipe < |jobs| && b == PS.Slot(jobs[a.pipe].spare, a.count)
  }

  ghost predicate SlotsRename(jobs: seq<PS.Job>, a: seq<PS.Slot>, b: seq<PS.Slot>) {
    |a| == |b| && forall i :: 0 <= i < |a| ==> SlotRenames(jobs, a[i], b[i])
  }

  ghost predicate WireRenames(jobs: seq<PS.Job>, a: PS.Wire, b: PS.Wire) {
    b == PS.Wire(Renamed(jobs, a.stdin), Renamed(jobs, a.stdout)) && (a.stdin.Some? ==> a.stdin.value < |jobs|)
    && (a.stdout.Some? ==> a.stdout.value < |jobs|)
  }

  lemma {:induction false} PipeAtRenames(jobs: seq<PS.Job>, a: seq<PS.Slot>, b: seq<PS.Slot>, count: int)
    requires SlotsRename(jobs, a, b)
    ensures PS.PipeAt(b, count) == Renamed(jobs, PS.PipeAt(a, count))
    ensures PS.PipeAt(a, count).Some? ==> PS.PipeAt(a, count).value < |jobs|
  {
    if a != [] {
      var n := |a| - 1;
      assert SlotRenames(jobs, a[n], b[n]);
      PipeAtRenames(jobs, a[..n], b[..n], count);
    }
  }

  lemma {:induction false} PendingRenames(jobs: seq<PS.Job>, a: seq<PS.Slot>, b: seq<PS.Slot>)
    requires SlotsRename(jobs, a, b)
    ensures SlotsRename(jobs, PS.Countdown(Filter(PS.PENDING, a)), PS.Countdown(Filter(PS.PENDING, b)))
  {
    if a != [] {
      var n := |a| - 1;
      assert SlotRenames(jobs, a[n], b[n]);
      PendingRenames(jobs, a[..n], b[..n]);
      var x, y := PS.Countdown(Filter(PS.PENDING, a[..n])), PS.Countdown(Filter(PS.PENDING, b[..n]));
      if PS.PENDING(a[n]) {
        assert PS.Countdown(Filter(PS.PENDING, a)) == x + [PS.Slot(a[n].pipe, a[n].count - 1)];
        assert PS.Countdown(Filter(PS.PENDING, b)) == y + [PS.Slot(b[n].pipe, b[n].count - 1)];
      }
    }
  }

  lemma {:induction false} StepRenames(jobs: seq<PS.Job>, a: seq<PS.Slot>, b: seq<PS.Slot>, n: nat)
    requires SlotsRename(jobs, a, b) && n < |jobs|
    ensures var x, y := PS.Job(jobs[n].sink, n), jobs[n];
            SlotsRename(jobs, PS.After(a, x), PS.After(b, y)) && WireRenames(jobs, PS.WireOf(a, x), PS.WireOf(b, y))
  {
    var x, y := PS.Job(jobs[n].sink, n), jobs[n];
    if y.sink.Some? { PipeAtRenames(jobs, a, b, y.sink.value); }
    var a', b' := PS.WithSink(a, x), PS.WithSink(b, y);
    assert SlotsRename(jobs, a', b');
    PipeAtRenames(jobs, a', b', 0);
    if y.sink.Some? { PipeAtRenames(jobs, a', b', y.sink.value); }
    PendingRenames(jobs, a', b');
  }

  ghost predicate WiresRename(jobs: seq<PS.Job>, a: seq<PS.Wire>, b: seq<PS.Wire>) {
    |a| == |b| && forall i :: 0 <= i < |a| ==> WireRenames(jobs, a[i], b[i])
  }

  ghost predicate VectorRenames(jobs: seq<PS.Job>, a: PS.Vector, b: PS.Vector) {
    SlotsRename(jobs, a.slots, b.slots) && WiresRename(jobs, a.wires, b.wires)
  }

  lemma {:induction false} OnwardRenames(jobs: seq<PS.Job>, a: PS.Vector, b: PS.Vector, n: nat)
    requires VectorRenames(jobs, a, b) && n < |jobs|
    ensures VectorRenames(jobs, Onward(a, PS.Job(jobs[n].sink, n)), Onward(b, jobs[n]))
  {
    StepRenames(jobs, a.slots, b.slots, n);
  }

  lemma {:induction false} CanonicalPush(jobs: seq<PS.Job>, job: PS.Job)
    ensures Canonical(jobs + [job]) == Canonical(jobs) + [PS.Job(job.sink, |jobs|)]
  {
  }

  /** The run of `jobs`, the beginning of `all`, is a renaming. */
  ghost predicate RunRenames(all: seq<PS.Job>, jobs: seq<PS.Job>) {
    VectorRenames(all, PS.Run(Canonical(jobs)), PS.Run(jobs))
  }

  lemma {:induction false} NothingRenames(all: seq<PS.Job>)
    ensures RunRenames(all, [])
  {
  }

  lemma {:induction false} PushRenames(all: seq<PS.Job>, before: seq<PS.Job>, job: PS.Job)
    requires |before| < |all| && all[|before|] == job && RunRenames(all, before)
    ensures RunRenames(all, before + [job])
  {
    OnwardRenames(all, PS.Run(Canonical(before)), PS.Run(before), |before|);
    CanonicalPush(before, job);
    RunPush(before, job);
    RunPush(Canonical(before), PS.Job(job.sink, |before|));
  }

  lemma {:induction false} PrefixPush(all: seq<PS.Job>, n: nat)
    requires n < |all|
    ensures all[..n + 1] == all[..n] + [all[n]]
  {
  }

  lemma {:induction false} NextRenames(all: seq<PS.Job>, n: nat)
    requires n < |all| && RunRenames(all, all[..n])
    ensures RunRenames(all, all[..n + 1])
  {
    PrefixPush(all, n);
    PushRenames(all, all[..n], all[n]);
  }

  /** A run's wiring is the wiring with positions for identities, renamed; and the latter depends on
      the numbers after the pipe signs alone. */
  lemma {:induction false} WiringIsOwn(jobs: seq<PS.Job>)
    ensures VectorRenames(jobs, PS.Run(Canonical(jobs)), PS.Run(jobs))
  {
    NothingRenames(jobs);
    for n := 0 to |jobs|
      invariant RunRenames(jobs, jobs[..n])
    {
      NextRenames(jobs, n);
    }
    assert jobs[..|jobs|] == jobs;
  }
}
