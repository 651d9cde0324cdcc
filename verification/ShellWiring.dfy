/** What every command of a run is connected to: numbered pipes follow the absolute schedule, and
    the child's descriptors 0, 1 and 2 are the files it was promised. */
module ShellWiring {
  import opened Sequences
  import opened Kernel
  import opened ShellSyntax
  import opened ShellModel
  import opened ShellDescriptors
  import PS = PipeSchedule

  function SinkNumber(s: Sink): Option<int> {
    if IsPipeSink(s) then Some(s.n) else None
  }

  /** The vector with pipes in place of descriptors. */
  ghost function Slots(t: Table, pipes: seq<PipeFd>): seq<PS.Slot> {
    seq(|pipes|, i requires 0 <= i < |pipes| => PS.Slot(PipeOf(t, pipes[i]), pipes[i].count))
  }

  ghost function JobOf(s: State, c: Cmd): PS.Job { PS.Job(SinkNumber(c.sink), s.k.pipes) }

  /** The jobs of a run from `s`, each with the identity its pipe would get. */
  ghost function JobsOf(s: State, cmds: seq<Cmd>): (r: seq<PS.Job>)
    ensures |r| == |cmds|
    ensures forall i :: 0 <= i < |cmds| ==> r[i].sink == SinkNumber(cmds[i].sink)
  {
    if cmds == [] then [] else
      var n := |cmds| - 1;
      JobsOf(s, cmds[..n]) + [JobOf(ExecAll(s, cmds[..n]), cmds[n])]
  }

  /** The numbered pipes among the files a command was given. */
  function FileWire(e: Event): PS.Wire {
    PS.Wire(if e.stdin.Some? && e.stdin.value.PipeRead? then Some(e.stdin.value.pipe) else None,
            if e.stdout.Some? && e.stdout.value.PipeWrite? then Some(e.stdout.value.pipe) else None)
  }

  function FileWires(log: seq<Event>): (r: seq<PS.Wire>)
    ensures |r| == |log|
  {
    seq(|log|, i requires 0 <= i < |log| => FileWire(log[i]))
  }

  lemma {:induction false} WriteEndIsPipeAt(t: Table, pipes: seq<PipeFd>, made: nat, n: int)
    requires AllBacked(t, pipes, made)
    ensures var w, p := WriteEnd(pipes, n), PS.PipeAt(Slots(t, pipes), n);
            && (w.Some? <==> p.Some?)
            && (w.Some? ==> w.value in t && t[w.value] == PipeWrite(p.value) && p.value < made)
  {
    if pipes != [] {
      var m := |pipes| - 1;
      assert Slots(t, pipes)[..m] == Slots(t, pipes[..m]);
      WriteEndIsPipeAt(t, pipes[..m], made, n);
      assert Backed(t, pipes[m]);
    }
  }

  lemma {:induction false} SlotsSame(t: Table, t': Table, pipes: seq<PipeFd>)
    requires forall i :: 0 <= i < |pipes| ==> PipeOf(t', pipes[i]) == PipeOf(t, pipes[i])
    ensures Slots(t', pipes) == Slots(t, pipes)
  {
  }

  lemma {:induction false} SlotsPush(t: Table, pipes: seq<PipeFd>, p: PipeFd)
    ensures Slots(t, pipes + [p]) == Slots(t, pipes) + [PS.Slot(PipeOf(t, p), p.count)]
  {
  }

  lemma {:induction false} CreateFollows(s: State, n: int)
    requires Inv(s)
    ensures var (s1, fd) := CreatePipe(s, n);
            var job := PS.Job(Some(n), s.k.pipes);
            var w := PS.WireOf(Slots(s.k.table, s.pipes), job).stdout;
            && Slots(s1.k.table, s1.pipes) == PS.WithSink(Slots(s.k.table, s.pipes), job)
            && s1.k.pipes >= s.k.pipes
            && w.Some? && w.value < s1.k.pipes && fd in s1.k.table && s1.k.table[fd] == PipeWrite(w.value)
  {
    var (s1, fd) := CreatePipe(s, n);
    var t, t1 := s.k.table, s1.k.table;
    CreatePipeKeeps(s, n);
    BackedInLarger(t, t1, s.pipes, s.k.pipes);
    SlotsSame(t, t1, s.pipes);
    WriteEndIsPipeAt(t, s.pipes, s.k.pipes, n);
    WriteEndIsPipeAt(t1, s1.pipes, s1.k.pipes, n);
    if WriteEnd(s.pipes, n).None? {
      var p := s1.pipes[|s.pipes|];
      assert s1.pipes == s.pipes + [p] && PipeOf(t1, p) == s.k.pipes;
      SlotsPush(t1, s.pipes, p);
    }
  }

  /** The file a sink denotes when the schedule gives its pipe: none if `open` failed. */
  ghost function SinkFile(s: State, sink: Sink, pipe: Option<nat>): Option<File>
    requires IsPipeSink(sink) ==> pipe.Some?
  {
    var failed := s.k.opens in s.k.denied;
    match sink
    case NoSink => Look(s.k.table, 1)
    case PipeTo(n) => Some(PipeWrite(pipe.value))
    case ErrPipeTo(n) => Some(PipeWrite(pipe.value))
    case Into(f) => if failed then None else Some(Disk(f, Truncate))
    case Onto(f) => if failed then None else Some(Disk(f, Append))
    case BothInto(f) => if failed then None else Some(Disk(f, Truncate))
  }

  /** The sink opens the pipe the schedule says. */
  lemma {:induction false} SinkFollows(s: State, c: Cmd)
    requires Inv(s)
    ensures var (s1, outFd, errFd) := OpenSink(s, c.sink);
            var w := PS.WireOf(Slots(s.k.table, s.pipes), JobOf(s, c)).stdout;
            && Slots(s1.k.table, s1.pipes) == PS.WithSink(Slots(s.k.table, s.pipes), JobOf(s, c))
            && s1.k.pipes >= s.k.pipes
            && (IsPipeSink(c.sink) ==> w.Some? && w.value < s1.k.pipes)
            && Look(s1.k.table, outFd) == SinkFile(s, c.sink, w)
            && errFd == (if c.sink.ErrPipeTo? || c.sink.BothInto? then outFd else 2)
  {
    match c.sink
    case NoSink =>
    case PipeTo(n) => CreateFollows(s, n);
    case ErrPipeTo(n) => CreateFollows(s, n);
    case Into(f) => RedirectFollows(s, f, Truncate);
    case Onto(f) => RedirectFollows(s, f, Append);
    case BothInto(f) => RedirectFollows(s, f, Truncate);
  }

  lemma {:induction false} RedirectFollows(s: State, name: string, mode: Mode)
    requires Inv(s)
    ensures var (s1, fd) := OpenRedirect(s, name, mode);
            && s1.pipes == s.pipes && s1.k.pipes == s.k.pipes
            && Slots(s1.k.table, s1.pipes) == Slots(s.k.table, s.pipes)
            && Look(s1.k.table, fd) == (if s.k.opens in s.k.denied then None else Some(Disk(name, mode)))
  {
    OpenRedirectKeeps(s, name, mode);
    var t1 := OpenRedirect(s, name, mode).0.k.table;
    BackedInLarger(s.k.table, t1, s.pipes, s.k.pipes);
    SlotsSame(s.k.table, t1, s.pipes);
  }

  lemma {:induction false} SlotsWithout(t: Table, t': Table, pipes: seq<PipeFd>, k: nat)
    requires k < |pipes|
    requires forall i :: 0 <= i < |pipes| && i != k ==> PipeOf(t', pipes[i]) == PipeOf(t, pipes[i])
    ensures var slots := Slots(t, pipes);
            Slots(t', Countdown(Without(pipes, k))) == PS.Countdown(slots[..k] + slots[k + 1..])
  {
  }

  lemma {:induction false} SlotsCountdown(t: Table, pipes: seq<PipeFd>)
    ensures Slots(t, Countdown(pipes)) == PS.Countdown(Slots(t, pipes))
  {
    forall i | 0 <= i < |pipes| ensures PipeOf(t, Countdown(pipes)[i]) == PipeOf(t, pipes[i]) {
    }
  }

  /** A state's slots once the due pipe is claimed and gone. */
  lemma {:induction false} SlotsMoveOn(s1: State)
    requires Inv(s1)
    ensures var t1 := s1.k.table;
            var t := CloseDue(s1.pipes, Claim(s1.pipes, t1).0);
            Slots(t, Countdown(Filter(WAITING, s1.pipes))) == PS.Countdown(Filter(PS.PENDING, Slots(t1, s1.pipes)))
  {
    var pipes, t1 := s1.pipes, s1.k.table;
    var slots := Slots(t1, pipes);
    if k :| 0 <= k < |pipes| && pipes[k].count == 0 {
      assert forall i :: 0 <= i < |pipes| && i != k ==> pipes[i].count != 0;
      ClaimOne(pipes, t1, k);
      DueIsClosedOnce(pipes, t1, k);
      FilterDropsOne(PS.PENDING, slots, k);
      var t := t1 - {pipes[k].inFd} - {pipes[k].outFd};
      forall i: nat | i < |pipes| && i != k ensures PipeOf(t, pipes[i]) == PipeOf(t1, pipes[i]) {
        BackedElsewhere(t1, pipes, s1.k.pipes, i, k);
      }
      SlotsWithout(t1, t, pipes, k);
    } else {
      ClaimNone(pipes, t1);
      FilterKeepsAll(PS.PENDING, slots);
      SlotsCountdown(t1, pipes);
    }
  }

  /** The write end of the claimed pipe is shut; its read end is open once, on the input. */
  ghost predicate Sealed(t: Table, p: nat, inFd: int) {
    && inFd in t && t[inFd] == PipeRead(p)
    && (forall fd :: fd in t ==> t[fd] != PipeWrite(p))
    && (forall fd :: fd in t && fd != inFd ==> t[fd] != PipeRead(p))
  }

  lemma {:induction false} ClaimSeals(s: State, k: nat)
    requires Inv(s) && k < |s.pipes|
    ensures Sealed(s.k.table - {s.pipes[k].inFd}, PipeOf(s.k.table, s.pipes[k]), s.pipes[k].outFd)
  {
    var t := s.k.table;
    var p := PipeOf(t, s.pipes[k]);
    assert Backed(t, s.pipes[k]);
    forall fd | fd in t && IsPipeEnd(t[fd]) && t[fd].pipe == p
      ensures fd == if t[fd].PipeWrite? then s.pipes[k].inFd else s.pipes[k].outFd
    {
      assert IsEnd(s.pipes, fd);
      var i: nat :| i < |s.pipes| && (s.pipes[i].inFd == fd || s.pipes[i].outFd == fd);
      assert Backed(t, s.pipes[i]);
      if i != k { EndsApart(t, s.pipes, s.k.pipes, i, k); }
    }
  }

  /** All of `t1` but the write end of pipe `p`. */
  ghost predicate Shut(t1: Table, t: Table, p: Option<nat>) {
    && (forall fd :: fd in t ==> fd in t1 && t[fd] == t1[fd])
    && (forall fd :: fd in t1 && fd !in t ==> p.Some? && t1[fd] == PipeWrite(p.value))
  }

  lemma {:induction false} DuePipe(slots: seq<PS.Slot>, k: nat)
    requires k < |slots| && slots[k].count == 0
    requires forall i :: 0 <= i < |slots| && i != k ==> slots[i].count != 0
    ensures PS.PipeAt(slots, 0) == Some(slots[k].pipe)
  {
    var p := PS.PipeAt(slots, 0);
    var k' :| 0 <= k' < |slots| && slots[k'] == PS.Slot(p.value, 0);
  }

  lemma {:induction false} InputDue(s1: State, k: nat)
    requires Inv(s1) && k < |s1.pipes| && s1.pipes[k].count == 0
    ensures var t1, p := s1.k.table, PipeOf(s1.k.table, s1.pipes[k]);
            && Claim(s1.pipes, t1) == (t1 - {s1.pipes[k].inFd}, s1.pipes[k].outFd)
            && PS.PipeAt(Slots(t1, s1.pipes), 0) == Some(p)
            && Shut(t1, t1 - {s1.pipes[k].inFd}, Some(p))
            && Sealed(t1 - {s1.pipes[k].inFd}, p, s1.pipes[k].outFd)
            && s1.pipes[k].outFd > 2
  {
    var pipes, t1 := s1.pipes, s1.k.table;
    assert forall i :: 0 <= i < |pipes| && i != k ==> pipes[i].count != 0;
    assert Backed(t1, pipes[k]);
    ClaimOne(pipes, t1, k);
    ClaimSeals(s1, k);
    DuePipe(Slots(t1, pipes), k);
  }

  /** A command's input is the due pipe, if there is one, and its write end is shut. */
  lemma {:induction false} InputFollows(s1: State)
    requires Inv(s1)
    ensures var (t, inFd) := Claim(s1.pipes, s1.k.table);
            var p := PS.PipeAt(Slots(s1.k.table, s1.pipes), 0);
            && Usable(inFd, 0) && Shut(s1.k.table, t, p)
            && (p.None? ==> inFd == 0)
            && (p.Some? ==> Sealed(t, p.value, inFd))
  {
    if k: nat :| k < |s1.pipes| && s1.pipes[k].count == 0 {
      InputDue(s1, k);
    } else {
      ClaimNone(s1.pipes, s1.k.table);
      assert forall i :: 0 <= i < |s1.pipes| ==> Slots(s1.k.table, s1.pipes)[i].count != 0;
    }
  }

  // ---------- one command ----------

  /** The files a command is promised: the due pipe or the shell's own input, the sink (but `|0` and
      `!0` get nothing), and the shell's own error output or, for `!n` and `&>`, the sink again. */
  ghost predicate Promised(s: State, c: Cmd, e: Event, w: PS.Wire) {
    && (IsPipeSink(c.sink) ==> w.stdout.Some?)
    && e.args == c.args
    && e.stdin == (if w.stdin.Some? then Some(PipeRead(w.stdin.value)) else Look(s.k.table, 0))
    && e.stdout == (if SinkNumber(c.sink) == Some(0) then None else SinkFile(s, c.sink, w.stdout))
    && e.stderr == (if c.sink.ErrPipeTo? || c.sink.BothInto? then e.stdout else Look(s.k.table, 2))
  }

  /** A forked child: 0, 1 and 2 are what was promised (where that was closed, the shell's own),
      every other descriptor is the shell's, and its input pipe can reach end of file. */
  ghost predicate ChildConnected(t: Table, e: Event) {
    e.run.Forked? ==>
      var child := e.run.table;
      && Look(child, 0) == (if e.stdin.Some? then e.stdin else Look(t, 0))
      && Look(child, 1) == (if e.stdout.Some? then e.stdout else Look(t, 1))
      && Look(child, 2) == (if e.stderr.Some? then e.stderr else Look(t, 2))
      && (forall fd :: fd in child && fd > 2 ==> fd in t && child[fd] == t[fd])
      && (e.stdin.Some? && e.stdin.value.PipeRead? ==> Sealed(child, e.stdin.value.pipe, 0))
  }

  /** Entries with different counts are different pipes. */
  lemma {:induction false} PipesDiffer(t: Table, pipes: seq<PipeFd>, m: int, n: int)
    requires Separate(t, pipes) && m != n
    ensures PS.PipeAt(Slots(t, pipes), m).Some? ==> PS.PipeAt(Slots(t, pipes), m) != PS.PipeAt(Slots(t, pipes), n)
  {
    var slots := Slots(t, pipes);
    var p, q := PS.PipeAt(slots, m), PS.PipeAt(slots, n);
    if p.Some? && q.Some? {
      var i: nat :| i < |slots| && slots[i] == PS.Slot(p.value, m);
      var j: nat :| j < |slots| && slots[j] == PS.Slot(q.value, n);
      assert PipeOf(t, pipes[if i < j then i else j]) != PipeOf(t, pipes[if i < j then j else i]);
    }
  }

  /** The output survives the shutting of the input's write end, unless they are one pipe. */
  lemma {:induction false} OutputFollows(s1: State, n: Option<int>, outFd: int)
    requires Inv(s1)
    requires var file := Look(s1.k.table, outFd);
             if n.Some? then
               var p := PS.PipeAt(Slots(s1.k.table, s1.pipes), n.value);
               p.Some? && file == Some(PipeWrite(p.value))
             else
               file.Some? ==> !IsPipeEnd(file.value)
    ensures Look(Claim(s1.pipes, s1.k.table).0, outFd) == (if n == Some(0) then None else Look(s1.k.table, outFd))
  {
    InputFollows(s1);
    if n.Some? && n.value != 0 { PipesDiffer(s1.k.table, s1.pipes, 0, n.value); }
  }

  lemma {:induction false} InputGiven(s: State, c: Cmd, s1: State, t: Table, inFd: int)
    requires Inv(s) && s1 == OpenSink(s, c.sink).0 && (t, inFd) == Claim(s1.pipes, s1.k.table)
    ensures var w := PS.WireOf(Slots(s.k.table, s.pipes), JobOf(s, c));
            && Usable(inFd, 0) && Shut(s1.k.table, t, w.stdin)
            && (w.stdin.None? ==> inFd == 0)
            && (w.stdin.Some? ==> Sealed(t, w.stdin.value, inFd))
  {
    OpenSinkKeeps(s, c.sink);
    SinkFollows(s, c);
    InputFollows(s1);
  }

  lemma {:induction false} SinkFileIs(s: State, sink: Sink, pipe: Option<nat>)
    requires Inv(s) && (pipe.Some? <==> IsPipeSink(sink))
    ensures SinkNumber(sink).Some? <==> IsPipeSink(sink)
    ensures var file := SinkFile(s, sink, pipe);
            if IsPipeSink(sink) then file == Some(PipeWrite(pipe.value)) else file.Some? ==> !IsPipeEnd(file.value)
  {
    assert !IsPipeEnd(s.k.table[1]);
  }

  /** The output once the sink is open: what `OutputFollows` asks for. */
  lemma {:induction false} OutputOpened(s: State, c: Cmd)
    requires Inv(s)
    ensures var (s1, outFd, _) := OpenSink(s, c.sink);
            var w := PS.WireOf(Slots(s.k.table, s.pipes), JobOf(s, c)).stdout;
            var file, n := Look(s1.k.table, outFd), SinkNumber(c.sink);
            && (w.Some? <==> IsPipeSink(c.sink)) && file == SinkFile(s, c.sink, w)
            && (n.Some? ==> w == PS.PipeAt(Slots(s1.k.table, s1.pipes), n.value) && w.Some?
                            && file == Some(PipeWrite(w.value)))
            && (n.None? ==> file.Some? ==> !IsPipeEnd(file.value))
  {
    SinkFollows(s, c);
    SinkFileIs(s, c.sink, PS.WireOf(Slots(s.k.table, s.pipes), JobOf(s, c)).stdout);
  }

  lemma {:induction false} OutputGiven(s: State, c: Cmd, s1: State, outFd: int, t: Table)
    requires Inv(s) && s1 == OpenSink(s, c.sink).0 && outFd == OpenSink(s, c.sink).1
    requires t == Claim(s1.pipes, s1.k.table).0
    ensures var w := PS.WireOf(Slots(s.k.table, s.pipes), JobOf(s, c)).stdout;
            && (IsPipeSink(c.sink) ==> w.Some?)
            && Look(t, outFd) == (if SinkNumber(c.sink) == Some(0) then None else SinkFile(s, c.sink, w))
  {
    OpenSinkKeeps(s, c.sink);
    OutputOpened(s, c);
    OutputFollows(s1, SinkNumber(c.sink), outFd);
  }

  /** The files behind the three descriptors of a command about to run. */
  lemma {:induction false} FilesGiven(s: State, c: Cmd, s1: State, outFd: int, errFd: int, t: Table, inFd: int)
    requires Inv(s) && (s1, outFd, errFd) == OpenSink(s, c.sink) && (t, inFd) == Claim(s1.pipes, s1.k.table)
    ensures var w := PS.WireOf(Slots(s.k.table, s.pipes), JobOf(s, c));
            && (IsPipeSink(c.sink) ==> w.stdout.Some?)
            && Look(t, inFd) == (if w.stdin.Some? then Some(PipeRead(w.stdin.value)) else Look(s.k.table, 0))
            && Look(t, outFd) == (if SinkNumber(c.sink) == Some(0) then None else SinkFile(s, c.sink, w.stdout))
            && Look(t, errFd) == (if c.sink.ErrPipeTo? || c.sink.BothInto? then Look(t, outFd) else Look(s.k.table, 2))
  {
    InputGiven(s, c, s1, t, inFd);
    OutputGiven(s, c, s1, outFd, t);
    StandardStays(s, c);
  }

  lemma {:induction false} StandardStays(s: State, c: Cmd)
    requires Inv(s)
    ensures var (s1, outFd, errFd) := OpenSink(s, c.sink);
            && errFd == (if c.sink.ErrPipeTo? || c.sink.BothInto? then outFd else 2)
            && (forall fd :: fd == 0 || fd == 2 ==>
                  fd in s.k.table && fd in s1.k.table && s1.k.table[fd] == s.k.table[fd] && !IsPipeEnd(s.k.table[fd]))
  {
    SinkFollows(s, c);
    OpenSinkKeeps(s, c.sink);
  }

  lemma {:induction false} StartedIs(s: State, c: Cmd, s1: State, outFd: int, errFd: int, t: Table, inFd: int)
    requires (s1, outFd, errFd) == OpenSink(s, c.sink) && (t, inFd) == Claim(s1.pipes, s1.k.table)
    ensures Started(s, c).k.table == t
    ensures Started(s, c).log ==
              s.log + [Event(c.args, Look(t, inFd), Look(t, outFd), Look(t, errFd), RunOf(c, t, inFd, outFd, errFd))]
  {
  }

  lemma {:induction false} ExecPromised(s: State, c: Cmd)
    requires Inv(s)
    ensures var e := Started(s, c).log[|s.log|];
            var w := PS.WireOf(Slots(s.k.table, s.pipes), JobOf(s, c));
            && |Started(s, c).log| == |s.log| + 1 && Started(s, c).log[..|s.log|] == s.log
            && Promised(s, c, e, w)
  {
    var (s1, outFd, errFd) := OpenSink(s, c.sink);
    var (t, inFd) := Claim(s1.pipes, s1.k.table);
    StartedIs(s, c, s1, outFd, errFd, t, inFd);
    FilesGiven(s, c, s1, outFd, errFd, t, inFd);
  }

  /** `ConnectPipeFd` on any table: 0, 1 and 2 take the given files, nothing else is disturbed. */
  lemma {:induction false} ConnectedGives(t: Table, inFd: int, outFd: int, errFd: int)
    requires Standard(t) && Usable(inFd, 0) && Usable(outFd, 1) && Usable(errFd, 2)
    ensures var child := Connected(t, inFd, outFd, errFd);
            && Look(child, 0) == Look(t, if inFd in t then inFd else 0)
            && Look(child, 1) == Look(t, if outFd in t then outFd else 1)
            && Look(child, 2) == Look(t, if errFd in t then errFd else 2)
            && (forall fd :: fd in child && fd > 2 <==> fd in t && fd > 2 && fd !in {inFd, outFd, errFd})
            && (forall fd :: fd in child && fd > 2 ==> child[fd] == t[fd])
  {
  }

  lemma {:induction false} ConnectedKeepsPromise(t: Table, p: Option<nat>, inFd: int, outFd: int, errFd: int, e: Event)
    requires Standard(t) && Usable(inFd, 0) && Usable(outFd, 1) && Usable(errFd, 2) && (errFd == 2 || errFd == outFd)
    requires if p.Some? then Sealed(t, p.value, inFd) && outFd != inFd else inFd == 0
    requires e.run.Forked? ==> e.run.table == Connected(t, inFd, outFd, errFd)
    requires e.stdin == Look(t, inFd) && e.stdout == Look(t, outFd) && e.stderr == Look(t, errFd)
    ensures ChildConnected(t, e)
  {
    ConnectedGives(t, inFd, outFd, errFd);
    if p.Some? { ChildSealed(t, p.value, inFd, outFd, errFd); }
  }

  lemma {:induction false} ReadyToConnect(s1: State, outFd: int)
    requires Inv(s1)
    requires var file := Look(s1.k.table, outFd); file.Some? ==> !file.value.PipeRead?
    ensures var (t, inFd) := Claim(s1.pipes, s1.k.table);
            var p := PS.PipeAt(Slots(s1.k.table, s1.pipes), 0);
            && Standard(t) && Usable(inFd, 0)
            && (if p.Some? then Sealed(t, p.value, inFd) && outFd != inFd else inFd == 0)
  {
    InputFollows(s1);
  }

  lemma {:induction false} ReadyAfterSink(s: State, c: Cmd, s1: State, outFd: int, errFd: int, t: Table, inFd: int)
    requires Inv(s) && (s1, outFd, errFd) == OpenSink(s, c.sink) && (t, inFd) == Claim(s1.pipes, s1.k.table)
    ensures var p := PS.PipeAt(Slots(s1.k.table, s1.pipes), 0);
            && Standard(t) && Usable(inFd, 0) && Usable(outFd, 1) && Usable(errFd, 2) && (errFd == 2 || errFd == outFd)
            && (if p.Some? then Sealed(t, p.value, inFd) && outFd != inFd else inFd == 0)
  {
    OpenSinkKeeps(s, c.sink);
    OutputOpened(s, c);
    ReadyToConnect(s1, outFd);
  }

  /** The child of a command gets what was promised, whatever the numbers and files involved. */
  lemma {:induction false} ExecConnects(s: State, c: Cmd)
    requires Inv(s)
    ensures ChildConnected(Started(s, c).k.table, Started(s, c).log[|s.log|])
  {
    var (s1, outFd, errFd) := OpenSink(s, c.sink);
    var (t, inFd) := Claim(s1.pipes, s1.k.table);
    StartedIs(s, c, s1, outFd, errFd, t, inFd);
    ReadyAfterSink(s, c, s1, outFd, errFd, t, inFd);
    var e := Event(c.args, Look(t, inFd), Look(t, outFd), Look(t, errFd), RunOf(c, t, inFd, outFd, errFd));
    assert Started(s, c).log[|s.log|] == e;
    ConnectedKeepsPromise(t, PS.PipeAt(Slots(s1.k.table, s1.pipes), 0), inFd, outFd, errFd, e);
  }

  lemma {:induction false} ChildSealed(t: Table, p: nat, inFd: int, outFd: int, errFd: int)
    requires Standard(t) && Usable(inFd, 0) && Usable(outFd, 1) && Usable(errFd, 2) && (errFd == 2 || errFd == outFd)
    requires Sealed(t, p, inFd) && outFd != inFd
    ensures Sealed(Connected(t, inFd, outFd, errFd), p, 0)
  {
    assert t[inFd] == PipeRead(p) && !IsPipeEnd(t[0]);
    ConnectedGives(t, inFd, outFd, errFd);
    var child := Connected(t, inFd, outFd, errFd);
    forall fd | fd in child && fd != 0 ensures child[fd] != PipeRead(p) && child[fd] != PipeWrite(p) {
      if fd == 1 {
        assert Look(child, 1) == Some(child[1]);
      } else if fd == 2 {
        assert Look(child, 2) == Some(child[2]);
      } else {
        assert fd in t;
      }
    }
    assert Look(child, 0) == Some(child[0]);
  }

  // ---------- whole runs ----------

  /** A shell that has run nothing yet. */
  ghost predicate Initial(s: State) {
    Inv(s) && s.pipes == [] && s.log == [] && s.alive
  }

  /** No command but the last has ended the shell. */
  ghost predicate AllStarted(s0: State, cmds: seq<Cmd>) {
    cmds == [] || ExecAll(s0, cmds[..|cmds| - 1]).alive
  }

  /** The scheduled wire of a command, except that `|0` gets no output. */
  function Given(w: PS.Wire, sink: Sink): PS.Wire {
    if SinkNumber(sink) == Some(0) then PS.Wire(w.stdin, None) else w
  }

  /** After `cmds`, which are the scheduled `jobs`: the vector is the abstract one and every command was
      wired by it. */
  ghost predicate Followed(cmds: seq<Cmd>, jobs: seq<PS.Job>, s: State, v: PS.Vector) {
    && |s.log| == |cmds| == |v.wires| == |jobs|
    && (s.alive ==> Inv(s) && v.slots == Slots(s.k.table, s.pipes))
    && (forall i :: 0 <= i < |cmds| && v.wires[i].stdout.Some? ==> v.wires[i].stdout.value < s.k.pipes)
    && (forall i :: 0 <= i < |cmds| ==> FileWire(s.log[i]) == Given(v.wires[i], cmds[i].sink))
    && PS.Fresh(jobs, v.wires)
  }

  lemma {:induction false} OneMoreJob(s0: State, cmds: seq<Cmd>, c: Cmd)
    ensures var s, jobs := ExecAll(s0, cmds), JobsOf(s0, cmds);
            var job, v := JobOf(s, c), PS.Run(jobs);
            && ExecAll(s0, cmds + [c]) == Exec(s, c)
            && JobsOf(s0, cmds + [c]) == jobs + [job]
            && PS.Run(jobs + [job]) == PS.Vector(PS.After(v.slots, job), v.wires + [PS.WireOf(v.slots, job)])
  {
    var jobs := JobsOf(s0, cmds);
    assert (cmds + [c])[..|cmds|] == cmds;
    assert (jobs + [JobOf(ExecAll(s0, cmds), c)])[..|jobs|] == jobs;
  }

  lemma {:induction false} NothingFollowed(s0: State)
    requires Initial(s0)
    ensures Followed([], JobsOf(s0, []), ExecAll(s0, []), PS.Run(JobsOf(s0, [])))
  {
  }

  lemma {:induction false} RunFollows(s0: State, cmds: seq<Cmd>)
    requires Initial(s0) && AllStarted(s0, cmds)
    ensures Followed(cmds, JobsOf(s0, cmds), ExecAll(s0, cmds), PS.Run(JobsOf(s0, cmds)))
  {
    if cmds == [] {
      NothingFollowed(s0);
    } else {
      var n := |cmds| - 1;
      var before, c := cmds[..n], cmds[n];
      assert before + [c] == cmds;
      AllStartedBefore(s0, cmds);
      RunFollows(s0, before);
      OneMoreJob(s0, before, c);
      StepFollows(before, JobsOf(s0, before), ExecAll(s0, before), PS.Run(JobsOf(s0, before)), c);
    }
  }

  lemma {:induction false} AllStartedBefore(s0: State, cmds: seq<Cmd>)
    requires cmds != [] && AllStarted(s0, cmds)
    ensures AllStarted(s0, cmds[..|cmds| - 1])
  {
  }

  lemma {:induction false} FreshGrows(jobs: seq<PS.Job>, v: PS.Vector, job: PS.Job)
    requires |jobs| == |v.wires| && PS.Fresh(jobs, v.wires)
    requires forall i :: 0 <= i < |jobs| && v.wires[i].stdout.Some? ==> v.wires[i].stdout.value < job.spare
    ensures PS.Fresh(jobs + [job], v.wires + [PS.WireOf(v.slots, job)])
  {
  }

  lemma {:induction false} StepWire(s: State, c: Cmd)
    requires s.alive && Inv(s)
    ensures var s', w := Exec(s, c), PS.WireOf(Slots(s.k.table, s.pipes), JobOf(s, c));
            && |s'.log| == |s.log| + 1 && s'.log[..|s.log|] == s.log
            && FileWire(s'.log[|s.log|]) == Given(w, c.sink)
            && s'.k.pipes >= s.k.pipes
            && (w.stdout.Some? ==> w.stdout.value < s'.k.pipes)
  {
    ExecPromised(s, c);
    SinkFollows(s, c);
    assert !IsPipeEnd(s.k.table[0]) && !IsPipeEnd(s.k.table[1]);
  }

  lemma {:induction false} StepSlots(s: State, c: Cmd)
    requires s.alive && Inv(s) && Exec(s, c).alive
    ensures Slots(Exec(s, c).k.table, Exec(s, c).pipes) == PS.After(Slots(s.k.table, s.pipes), JobOf(s, c))
  {
    var s1 := OpenSink(s, c.sink).0;
    OpenSinkKeeps(s, c.sink);
    SinkFollows(s, c);
    SlotsMoveOn(s1);
  }

  lemma {:induction false} StepFollows(cmds: seq<Cmd>, jobs: seq<PS.Job>, s: State, v: PS.Vector, c: Cmd)
    requires s.alive && Followed(cmds, jobs, s, v)
    ensures var job := JobOf(s, c);
            var v' := PS.Vector(PS.After(v.slots, job), v.wires + [PS.WireOf(v.slots, job)]);
            Followed(cmds + [c], jobs + [job], Exec(s, c), v')
  {
    StepWire(s, c);
    ExecKeepsInv(s, c);
    if Exec(s, c).alive { StepSlots(s, c); }
    FreshGrows(jobs, v, JobOf(s, c));
    var s' := Exec(s, c);
    assert forall i :: 0 <= i < |cmds| ==> s'.log[i] == s'.log[..|s.log|][i] == s.log[i];
  }

  lemma {:induction false} OneMoreEvent(s0: State, before: seq<Cmd>, c: Cmd)
    requires Initial(s0) && ExecAll(s0, before).alive
    ensures |Exec(ExecAll(s0, before), c).log| == |ExecAll(s0, before).log| + 1
  {
    DescriptorsConserved(s0, before);
    StepWire(ExecAll(s0, before), c);
  }

  /** The commands that ran: all of them, or those up to the first `exit`. */
  lemma {:induction false} RanPrefix(s0: State, cmds: seq<Cmd>)
    requires Initial(s0)
    ensures var s := ExecAll(s0, cmds);
            && |s.log| <= |cmds| && (s.alive ==> |s.log| == |cmds|)
            && AllStarted(s0, cmds[..|s.log|]) && ExecAll(s0, cmds[..|s.log|]) == s
  {
    if cmds != [] {
      var n := |cmds| - 1;
      var before := cmds[..n];
      RanPrefix(s0, before);
      if ExecAll(s0, before).alive {
        OneMoreEvent(s0, before, cmds[n]);
        assert before[..n] == before && cmds[..n + 1] == cmds;
      } else {
        assert cmds[..|ExecAll(s0, before).log|] == before[..|ExecAll(s0, before).log|];
      }
    }
  }

  ghost predicate NoZeroSink(cmds: seq<Cmd>) {
    forall i :: 0 <= i < |cmds| ==> SinkNumber(cmds[i].sink) != Some(0)
  }

  ghost function Ran(s0: State, cmds: seq<Cmd>): seq<Cmd> {
    var m := |ExecAll(s0, cmds).log|;
    if m <= |cmds| then cmds[..m] else cmds
  }

  /** Without number zero the files are those of the abstract vector; with it they are not wired. */
  lemma {:induction false} FilesFollow(cmds: seq<Cmd>, jobs: seq<PS.Job>, s: State, v: PS.Vector)
    requires Followed(cmds, jobs, s, v)
    requires forall i :: 0 <= i < |jobs| ==> jobs[i].sink == SinkNumber(cmds[i].sink)
    ensures if NoZeroSink(cmds) then FileWires(s.log) == v.wires else !PS.Wired(jobs, FileWires(s.log))
    ensures NoZeroSink(cmds) <==> PS.NoZero(jobs)
  {
    if !NoZeroSink(cmds) {
      var k: nat :| k < |cmds| && SinkNumber(cmds[k].sink) == Some(0);
      assert FileWires(s.log)[k] == FileWire(s.log[k]);
    }
  }

  /** Over any run, built-in, unknown and external commands alike: the files the commands were given
      follow the absolute schedule exactly when none of them said `|0` or `!0`. */
  lemma {:induction false} NumberedPipesFollowSchedule(s0: State, cmds: seq<Cmd>)
    requires Initial(s0)
    ensures var ran := Ran(s0, cmds);
            PS.Wired(JobsOf(s0, ran), FileWires(ExecAll(s0, cmds).log)) <==> NoZeroSink(ran)
  {
    RanPrefix(s0, cmds);
    var s := ExecAll(s0, cmds);
    var ran := cmds[..|s.log|];
    var jobs := JobsOf(s0, ran);
    RunFollows(s0, ran);
    FilesFollow(ran, jobs, s, PS.Run(jobs));
    PS.WiredIffNoZero(jobs);
  }

  /** Command `i` writes the pipe that command `j` reads. */
  ghost predicate FeedsInto(log: seq<Event>, i: nat, j: nat) {
    && i < |log| && j < |log|
    && log[i].stdout.Some? && log[i].stdout.value.PipeWrite?
    && log[j].stdin == Some(PipeRead(log[i].stdout.value.pipe))
  }

  lemma {:induction false} WiredFeeds(jobs: seq<PS.Job>, log: seq<Event>, i: nat, n: nat)
    requires PS.Wired(jobs, FileWires(log)) && n >= 1 && i + n < |log| && jobs[i].sink == Some(n)
    ensures FeedsInto(log, i, i + n)
  {
    var wires := FileWires(log);
    assert PS.Piped(jobs, i) && PS.Target(jobs, i) == i + n;
    assert PS.ReaderWired(jobs, wires, i + n);
    assert wires[i] == FileWire(log[i]) && wires[i + n] == FileWire(log[i + n]);
  }

  /** A command ending in `|n` or `!n` feeds the n-th command after it. */
  lemma {:induction false} NumberFeeds(s0: State, cmds: seq<Cmd>, i: nat, n: nat)
    requires Initial(s0) && NoZeroSink(Ran(s0, cmds))
    requires i + n < |ExecAll(s0, cmds).log| && i < |cmds| && SinkNumber(cmds[i].sink) == Some(n)
    ensures FeedsInto(ExecAll(s0, cmds).log, i, i + n)
  {
    RanPrefix(s0, cmds);
    NumberedPipesFollowSchedule(s0, cmds);
    JobOfRan(s0, cmds, i);
    NumberIsPositive(Ran(s0, cmds), i, n);
    WiredFeeds(JobsOf(s0, Ran(s0, cmds)), ExecAll(s0, cmds).log, i, n);
  }

  lemma {:induction false} JobOfRan(s0: State, cmds: seq<Cmd>, i: nat)
    requires i < |ExecAll(s0, cmds).log| <= |cmds|
    ensures i < |Ran(s0, cmds)| && Ran(s0, cmds)[i] == cmds[i]
    ensures JobsOf(s0, Ran(s0, cmds))[i].sink == SinkNumber(cmds[i].sink)
  {
  }

  lemma {:induction false} NumberIsPositive(cmds: seq<Cmd>, i: nat, n: nat)
    requires NoZeroSink(cmds) && i < |cmds| && SinkNumber(cmds[i].sink) == Some(n)
    ensures n >= 1
  {
  }

  /** A sign alone is number one: a command ending in a lone `|` feeds the next one. */
  lemma {:induction false} LonePipeFeedsNext(s0: State, cmds: seq<Cmd>, ends: seq<seq<string>>, i: nat)
    requires Initial(s0) && WritableLine(cmds, ends) && NoZeroSink(cmds)
    requires i < |cmds| && ends[i] == ["|"] && i + 1 < |ExecAll(s0, cmds).log|
    ensures Safe(true, Render(cmds, ends))
    ensures FeedsInto(ExecAll(s0, Parse([], Render(cmds, ends))).log, i, i + 1)
  {
    ParseOfRender(cmds, ends);
    assert Writable(cmds[i], ends[i]);
    assert cmds[i].sink == PipeTo(1);
    NumberFeeds(s0, cmds, i, 1);
  }

  /** Event `i` is that of command `i`, started where the commands before it have led. */
  ghost predicate EventIs(s0: State, cmds: seq<Cmd>, i: nat, log: seq<Event>) {
    && i < |cmds| && i < |log|
    && var s := ExecAll(s0, cmds[..i]);
       s.alive && Inv(s) && |s.log| == i && |Started(s, cmds[i]).log| == i + 1 && log[i] == Started(s, cmds[i]).log[i]
  }

  lemma {:induction false} LastEvent(s0: State, before: seq<Cmd>, c: Cmd)
    requires Initial(s0) && ExecAll(s0, before).alive
    ensures EventIs(s0, before + [c], |before|, Exec(ExecAll(s0, before), c).log)
    ensures ExecAll(s0, before).log <= Exec(ExecAll(s0, before), c).log
    ensures |Exec(ExecAll(s0, before), c).log| == |before| + 1
  {
    RanPrefix(s0, before);
    DescriptorsConserved(s0, before);
    assert (before + [c])[..|before|] == before;
    ExecPromised(ExecAll(s0, before), c);
  }

  lemma {:induction false} EventKept(s0: State, before: seq<Cmd>, c: Cmd, i: nat, log: seq<Event>, log': seq<Event>)
    requires EventIs(s0, before, i, log) && log <= log'
    ensures EventIs(s0, before + [c], i, log')
  {
    assert (before + [c])[..i] == before[..i];
  }

  lemma {:induction false} EventPush(s0: State, before: seq<Cmd>, c: Cmd, i: nat)
    requires Initial(s0) && i < |Exec(ExecAll(s0, before), c).log|
    requires i < |ExecAll(s0, before).log| ==> EventIs(s0, before, i, ExecAll(s0, before).log)
    ensures EventIs(s0, before + [c], i, Exec(ExecAll(s0, before), c).log)
  {
    var s := ExecAll(s0, before);
    if s.alive {
      LastEvent(s0, before, c);
      RanPrefix(s0, before);
    }
    if i < |s.log| { EventKept(s0, before, c, i, s.log, Exec(s, c).log); }
  }

  lemma {:induction false} EventOfCommand(s0: State, cmds: seq<Cmd>, i: nat)
    requires Initial(s0) && i < |ExecAll(s0, cmds).log|
    ensures EventIs(s0, cmds, i, ExecAll(s0, cmds).log)
  {
    if cmds != [] {
      var n := |cmds| - 1;
      if i < |ExecAll(s0, cmds[..n]).log| { EventOfCommand(s0, cmds[..n], i); }
      EventPush(s0, cmds[..n], cmds[n], i);
      LastApart(cmds);
    }
  }

  /** What a command that has run shows of what was written: its words, whether it ran in the shell, in
      a child, or ended the shell, and whether it was waited for. */
  ghost predicate RanAs(e: Event, c: Cmd, last: bool) {
    && e.args == c.args && c.args != []
    && (e.run.Exited? <==> c.args[0] == "exit")
    && (e.run.BuiltIn? <==> c.args[0] == "setenv" || c.args[0] == "printenv")
    && (e.run.Forked? ==> (e.run.waits <==> last && !c.sink.PipeTo? && !c.sink.ErrPipeTo?))
  }

  lemma {:induction false} StartedAs(s: State, c: Cmd, last: bool)
    requires Inv(s) && c.args != [] && (c.lineEnds <==> last)
    ensures |Started(s, c).log| == |s.log| + 1 && RanAs(Started(s, c).log[|s.log|], c, last)
  {
  }

  /** Every command of a line, however it is written down, runs as it is written, with the files it
      names; only the last is waited for, and only if it does not write to a pipe. */
  lemma {:induction false} RunsAsWritten(s0: State, cmds: seq<Cmd>, ends: seq<seq<string>>, i: nat)
    requires Initial(s0) && WritableLine(cmds, ends) && i < |ExecAll(s0, cmds).log|
    ensures Safe(true, Render(cmds, ends)) && Parse([], Render(cmds, ends)) == cmds && i < |cmds|
    ensures var s, e := ExecAll(s0, cmds[..i]), ExecAll(s0, cmds).log[i];
            && RanAs(e, cmds[i], i == |cmds| - 1)
            && Promised(s, cmds[i], e, PS.WireOf(Slots(s.k.table, s.pipes), JobOf(s, cmds[i])))
  {
    ParseOfRender(cmds, ends);
    EventOfCommand(s0, cmds, i);
    assert Writable(cmds[i], ends[i]);
    StartedAs(ExecAll(s0, cmds[..i]), cmds[i], i == |cmds| - 1);
    ExecPromised(ExecAll(s0, cmds[..i]), cmds[i]);
  }

  /** Between commands no more pipes are pending than the largest number used so far. */
  lemma {:induction false} PendingPipesBounded(s0: State, cmds: seq<Cmd>, most: nat)
    requires Initial(s0) && ExecAll(s0, cmds).alive
    requires forall i :: 0 <= i < |cmds| && IsPipeSink(cmds[i].sink) ==> 1 <= cmds[i].sink.n <= most
    ensures var pipes := ExecAll(s0, cmds).pipes;
            && |pipes| <= most
            && (forall i :: 0 <= i < |pipes| ==> 0 <= pipes[i].count < most)
            && (forall i, j :: 0 <= i < j < |pipes| ==> pipes[i].count != pipes[j].count)
  {
    var s := ExecAll(s0, cmds);
    AllRan(s0, cmds);
    PS.PendingBound(JobsOf(s0, cmds), most);
    PipesBounded(s.k.table, s.pipes, most);
  }

  lemma {:induction false} AllRan(s0: State, cmds: seq<Cmd>)
    requires Initial(s0) && ExecAll(s0, cmds).alive
    ensures var s := ExecAll(s0, cmds);
            Slots(s.k.table, s.pipes) == PS.Run(JobsOf(s0, cmds)).slots
  {
    RanPrefix(s0, cmds);
    assert cmds[..|ExecAll(s0, cmds).log|] == cmds;
    RunFollows(s0, cmds);
  }

  lemma {:induction false} PipesBounded(t: Table, pipes: seq<PipeFd>, most: nat)
    requires var slots := Slots(t, pipes);
             && |slots| <= most && PS.DistinctCounts(slots)
             && forall i :: 0 <= i < |slots| ==> 0 <= slots[i].count < most
    ensures |pipes| <= most
    ensures forall i :: 0 <= i < |pipes| ==> 0 <= pipes[i].count < most
    ensures forall i, j :: 0 <= i < j < |pipes| ==> pipes[i].count != pipes[j].count
  {
    var slots := Slots(t, pipes);
    assert forall i :: 0 <= i < |pipes| ==> slots[i].count == pipes[i].count;
  }

  // ---------- lines ----------

  /** Which of a line's commands ends it does not matter to a command that writes to a pipe. */
  lemma {:induction false} LineEndIsInvisible(s: State, c: Cmd)
    requires IsPipeSink(c.sink)
    ensures Exec(s, c.(lineEnds := false)) == Exec(s, c)
  {
  }

  /** Running two lists of words as one line or as two gives the same commands, the same wiring, the
      same waiting and the same pending pipes, if the first ends with a pipe. */
  lemma {:induction false} SplittingALine(s: State, a: seq<string>, b: seq<string>)
    requires Safe(true, a) && Safe(true, b) && b != []
    requires Parse([], a) != [] && IsPipeSink(Parse([], a)[|Parse([], a)| - 1].sink)
    ensures Safe(true, a + b)
    ensures ExecAll(s, Parse([], a + b)) == ExecAll(ExecAll(s, Parse([], a)), Parse([], b))
  {
    var first := Parse([], a);
    var n := |first| - 1;
    ClosedBySink([], a);
    ParseConcat([], a, b);
    ExecAllConcat(s, Continued(first), Parse([], b));
    assert Continued(first)[..n] == first[..n];
    LineEndIsInvisible(ExecAll(s, first[..n]), first[n]);
  }
}
