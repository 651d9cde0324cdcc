/** How a pipe of the multi-process server becomes readable, and what each process finds afterwards. */
module FifoDelivery {
  import opened Sequences
  import opened FifoCells

  /** The FIFO is made and its reader has not opened it. */
  ghost predicate Unopened(s: Shared, k: Key) {
    k in s.cells && s.cells[k].name != "" && s.cells[k].outFd == -1
  }

  /** The reader has opened it, with this descriptor. */
  ghost predicate OpenAs(s: Shared, k: Key, fd: int) {
    k in s.cells && s.cells[k].name != "" && s.cells[k].outFd == fd && fd != -1
  }

  // ---------- the handler ----------

  /** The handler gives every FIFO of its column that is not open what `open` gave for it, and changes
      nothing else. */
  lemma {:induction false} SignalOpens(s: Shared, me: int, fds: seq<int>)
    requires Inv(s) && May(s, Signal(me, fds))
    ensures var s' := Do(s, Signal(me, fds));
            && s'.files == s.files && s'.phases == s.phases && s'.cells.Keys == s.cells.Keys
            && (forall k :: k in s.cells && k.1 == me && Unopened(s, k) ==>
                  s'.cells[k] == s.cells[k].(outFd := fds[k.0]))
            && (forall k :: k in s.cells && !(k.1 == me && Unopened(s, k)) ==> s'.cells[k] == s.cells[k])
  {
    assert forall k: Key :: k in s.cells ==> IsKey(k);
  }

  // ---------- what a step does to a cell ----------

  /** The step opens the cell's FIFO for its reader. */
  ghost predicate OpensCell(e: Step, k: Key) {
    e.Signal? && e.me == k.1 && 0 <= k.0 < |e.fds| && e.fds[k.0] != -1
  }

  /** The step clears the cell: its reader leaves, or erases the pipe it has read. */
  ghost predicate ClearsCell(s: Shared, e: Step, k: Key) {
    || e == LogOut(k.1)
    || (e == Erase(k.1) && 0 <= k.1 < |s.phases| && s.phases[k.1].Here? && s.phases[k.1].reading == Some(k.0))
  }

  /** A FIFO that is made is not made again, and nobody erases it before it is opened. */
  lemma {:induction false} StaysUnopened(s: Shared, e: Step, k: Key)
    requires Inv(s) && May(s, e) && Unopened(s, k) && !OpensCell(e, k)
    ensures Unopened(Do(s, e), k)
  {
    assert IsKey(k) && CellOk(k, s.cells[k]);
    match e
    case Create(me) => CreateElsewhere(s, me, k);
    case Erase(me) => assert PhaseOk(s.cells, me, s.phases[me]) && PhaseShaped(s.phases[me]);
    case Take(me) => assert PhaseOk(s.cells, me, s.phases[me]) && PhaseShaped(s.phases[me]);
    case _ =>
  }

  lemma {:induction false} CreateElsewhere(s: Shared, me: int, k: Key)
    requires Inv(s) && May(s, Create(me)) && k in s.cells && s.cells[k].name != ""
    ensures k in Do(s, Create(me)).cells && Do(s, Create(me)).cells[k] == s.cells[k]
  {
    CreateFailsIff(s, me);
    assert PhaseShaped(s.phases[me]);
  }

  lemma {:induction false} BecomesOpen(s: Shared, e: Step, k: Key)
    requires Inv(s) && May(s, e) && Unopened(s, k) && OpensCell(e, k)
    ensures OpenAs(Do(s, e), k, e.fds[k.0])
  {
    SignalOpens(s, e.me, e.fds);
  }

  lemma {:induction false} StaysOpen(s: Shared, e: Step, k: Key, fd: int)
    requires Inv(s) && May(s, e) && OpenAs(s, k, fd) && !ClearsCell(s, e, k)
    ensures OpenAs(Do(s, e), k, fd)
  {
    assert IsKey(k) && CellOk(k, s.cells[k]);
    match e
    case Create(me) => CreateElsewhere(s, me, k);
    case Erase(me) => assert PhaseShaped(s.phases[me]);
    case Take(me) => assert PhaseShaped(s.phases[me]);
    case _ =>
  }

  /** A FIFO has been made by this step. */
  lemma {:induction false} CreatedIsUnopened(s: Shared, me: int)
    requires Inv(s) && May(s, Create(me)) && Do(s, Create(me)).phases[me].Here?
    ensures Unopened(Do(s, Create(me)), (me, s.phases[me].check.target))
  {
    CreateFailsIff(s, me);
    var k := (me, s.phases[me].check.target);
    assert PhaseShaped(s.phases[me]) && IsKey(k) && CellOk(k, s.cells[k]);
    PathIsText(k);
  }

  lemma {:induction false} PathIsText(k: Key)
    requires IsKey(k)
    ensures Path(k) != ""
  {
  }

  // ---------- over schedules ----------

  ghost predicate StepTo(s: Shared, e: Step, s': Shared) {
    Inv(s) && May(s, e) && s' == Do(s, e) && Inv(s')
  }

  /** The states a schedule goes through. */
  ghost predicate Trace(t: seq<Shared>, steps: seq<Step>) {
    |t| == |steps| + 1 && forall x {:trigger steps[x]} :: 0 <= x < |steps| ==> StepTo(t[x], steps[x], t[x + 1])
  }

  /** Every schedule goes through such states, from the empty memory to where it ends. */
  lemma {:induction false} TraceOf(steps: seq<Step>) returns (t: seq<Shared>)
    requires Possible(steps)
    ensures Trace(t, steps) && t[0] == Start() && t[|steps|] == After(steps)
  {
    if steps == [] {
      t := [Start()];
    } else {
      var n := |steps| - 1;
      var before := TraceOf(steps[..n]);
      LastStep(steps);
      t := before + [After(steps)];
      TracePush(before, steps[..n], steps[n], After(steps));
      LastApart(steps);
    }
  }

  lemma {:induction false} LastStep(steps: seq<Step>)
    requires Possible(steps) && steps != []
    ensures Possible(steps[..|steps| - 1])
    ensures StepTo(After(steps[..|steps| - 1]), steps[|steps| - 1], After(steps))
  {
    EveryScheduleKeeps(steps[..|steps| - 1]);
    EveryScheduleKeeps(steps);
  }

  lemma {:induction false} TracePush(t: seq<Shared>, steps: seq<Step>, e: Step, s: Shared)
    requires Trace(t, steps) && StepTo(t[|steps|], e, s)
    ensures Trace(t + [s], steps + [e])
  {
    var t', steps' := t + [s], steps + [e];
    forall x | 0 <= x < |steps'| ensures StepTo(t'[x], steps'[x], t'[x + 1]) {
      if x < |steps| { assert StepTo(t[x], steps[x], t[x + 1]); }
    }
  }

  /** Step `c` has made the FIFO of cell `k`. */
  ghost predicate MakesCell(s: Shared, e: Step, s': Shared, k: Key) {
    && StepTo(s, e, s') && e == Create(k.0)
    && s.phases[k.0].check == MayWrite(k.1) && s'.phases[k.0].Here?
  }

  lemma {:induction false} MadeIsUnopened(s: Shared, e: Step, s': Shared, k: Key)
    requires MakesCell(s, e, s', k)
    ensures Unopened(s', k)
  {
    CreatedIsUnopened(s, k.0);
    assert (k.0, k.1) == k;
  }

  /** What a step does to one cell. */
  ghost predicate CellStep(s: Shared, e: Step, s': Shared, k: Key) {
    && (Unopened(s, k) ==> if OpensCell(e, k) then OpenAs(s', k, e.fds[k.0]) else Unopened(s', k))
    && (forall fd :: OpenAs(s, k, fd) && !ClearsCell(s, e, k) ==> OpenAs(s', k, fd))
  }

  lemma {:induction false} StepToCell(s: Shared, e: Step, s': Shared, k: Key)
    requires StepTo(s, e, s')
    ensures CellStep(s, e, s', k)
  {
    if Unopened(s, k) {
      if OpensCell(e, k) { BecomesOpen(s, e, k); } else { StaysUnopened(s, e, k); }
    }
    forall fd | OpenAs(s, k, fd) && !ClearsCell(s, e, k) { StaysOpen(s, e, k, fd); }
  }

  ghost predicate CellTrace(t: seq<Shared>, steps: seq<Step>, k: Key) {
    |t| == |steps| + 1 && forall x {:trigger steps[x]} :: 0 <= x < |steps| ==> CellStep(t[x], steps[x], t[x + 1], k)
  }

  lemma {:induction false} TraceOfCell(t: seq<Shared>, steps: seq<Step>, k: Key)
    requires Trace(t, steps)
    ensures CellTrace(t, steps, k)
  {
    forall x | 0 <= x < |steps| { StepToCell(t[x], steps[x], t[x + 1], k); }
  }

  lemma {:induction false} UnopenedAt(t: seq<Shared>, steps: seq<Step>, c: nat, x: nat, k: Key)
    requires CellTrace(t, steps, k) && c <= x <= |steps| && Unopened(t[c], k)
    requires forall y :: c <= y < x ==> !OpensCell(steps[y], k)
    ensures Unopened(t[x], k)
  {
    if x > c {
      UnopenedAt(t, steps, c, x - 1, k);
      assert CellStep(t[x - 1], steps[x - 1], t[x - 1 + 1], k);
    }
  }

  lemma {:induction false} OpenAt(t: seq<Shared>, steps: seq<Step>, g: nat, x: nat, k: Key, fd: int)
    requires CellTrace(t, steps, k) && g <= x <= |steps| && OpenAs(t[g], k, fd)
    requires forall y :: g <= y < x ==> !ClearsCell(t[y], steps[y], k)
    ensures OpenAs(t[x], k, fd)
  {
    if x > g {
      OpenAt(t, steps, g, x - 1, k, fd);
      assert CellStep(t[x - 1], steps[x - 1], t[x - 1 + 1], k);
    }
  }

  /** The pipe of cell `k` is made at `c`, and of the reader's signals after that the one at `g` is the
      first whose `open` succeeds; and until `x` the reader does not clear it. */
  ghost predicate Delivered(t: seq<Shared>, steps: seq<Step>, c: nat, g: nat, x: nat, k: Key) {
    && Trace(t, steps) && c < g < x <= |steps| && MakesCell(t[c], steps[c], t[c + 1], k)
    && OpensCell(steps[g], k) && (forall y :: c < y < g ==> !OpensCell(steps[y], k))
    && (forall y :: g < y < x ==> !ClearsCell(t[y], steps[y], k))
  }

  lemma {:induction false} OpenOnceSignalled(t: seq<Shared>, steps: seq<Step>, c: nat, g: nat, x: nat, k: Key)
    requires CellTrace(t, steps, k) && c < g < x <= |steps| && Unopened(t[c + 1], k)
    requires OpensCell(steps[g], k) && forall y :: c < y < g ==> !OpensCell(steps[y], k)
    requires forall y :: g < y < x ==> !ClearsCell(t[y], steps[y], k)
    ensures OpenAs(t[x], k, steps[g].fds[k.0])
  {
    UnopenedAt(t, steps, c + 1, g, k);
    assert CellStep(t[g], steps[g], t[g + 1], k);
    OpenAt(t, steps, g + 1, x, k, steps[g].fds[k.0]);
  }

  /** One process makes a pipe for another. The first of the reader's signals whose `open` succeeds
      makes it readable with that descriptor, and so it stays until its reader clears it, whatever else
      anybody does in between and afterwards. */
  lemma {:induction false} SignalMakesReadable(t: seq<Shared>, steps: seq<Step>, c: nat, g: nat, x: nat, k: Key)
    requires Delivered(t, steps, c, g, x, k)
    ensures OpenAs(t[x], k, steps[g].fds[k.0])
  {
    TraceOfCell(t, steps, k);
    MadeIsUnopened(t[c], steps[c], t[c + 1], k);
    OpenOnceSignalled(t, steps, c, g, x, k);
  }

  // ---------- what the reader finds ----------

  /** The descriptor that `GetUserPipeFd` hands out. */
  ghost function HandedOut(s: Shared, me: int): int
    requires Inv(s) && May(s, Take(me))
  {
    assert PhaseOk(s.cells, me, s.phases[me]);
    s.cells[(s.phases[me].check.source, me)].outFd
  }

  /** The reader's check passes, and `GetUserPipeFd` then hands out this descriptor. */
  ghost predicate HandsOut(s: Shared, k: Key, fd: int) {
    && Inv(s) && May(s, CheckIn(k.1, k.0))
    && var s1 := Do(s, CheckIn(k.1, k.0));
       Inv(s1) && May(s1, Take(k.1)) && HandedOut(s1, k.1) == fd
  }

  /** The check of `<n` passes exactly if the pipe is open. */
  lemma {:induction false} ReadableIff(s: Shared, me: int, i: int)
    requires Inv(s) && May(s, CheckIn(me, i))
    ensures (i, me) in s.cells && Inv(Do(s, CheckIn(me, i)))
    ensures May(Do(s, CheckIn(me, i)), Take(me)) <==> s.cells[(i, me)].outFd != -1
  {
    StepKeeps(s, CheckIn(me, i));
  }

  /** What is handed out then is the descriptor it was opened with, and the pipe is marked as being
      read. */
  lemma {:induction false} ReadGives(s: Shared, me: int, i: int)
    requires Inv(s) && May(s, CheckIn(me, i)) && s.cells[(i, me)].outFd != -1
    ensures var s1 := Do(s, CheckIn(me, i));
            && Inv(s1) && May(s1, Take(me)) && HandedOut(s1, me) == s.cells[(i, me)].outFd
            && Do(s1, Take(me)).phases[me] == Here(NoCheck, Some(i)) && Do(s1, Take(me)).cells[(i, me)].used
  {
    ReadableIff(s, me, i);
  }

  /** After the signal the reader's check passes, and it is handed the descriptor that `open` gave. */
  lemma {:induction false} SentIsHandedOut(t: seq<Shared>, steps: seq<Step>, c: nat, g: nat, x: nat, k: Key)
    requires Delivered(t, steps, c, g, x, k) && Inv(t[x]) && May(t[x], CheckIn(k.1, k.0))
    ensures HandsOut(t[x], k, steps[g].fds[k.0])
  {
    SignalMakesReadable(t, steps, c, g, x, k);
    OpenIsHandedOut(t[x], k, steps[g].fds[k.0]);
  }

  lemma {:induction false} OpenIsHandedOut(s: Shared, k: Key, fd: int)
    requires Inv(s) && May(s, CheckIn(k.1, k.0)) && OpenAs(s, k, fd)
    ensures HandsOut(s, k, fd)
  {
    assert (k.0, k.1) == k;
    ReadGives(s, k.1, k.0);
  }

  // ---------- what the writer finds ----------

  /** The check of `>n` passes exactly if the writer has no descriptor recorded. */
  lemma {:induction false} WritableIff(s: Shared, me: int, t: int)
    requires Inv(s) && May(s, CheckOut(me, t))
    ensures (me, t) in s.cells && Inv(Do(s, CheckOut(me, t)))
    ensures May(Do(s, CheckOut(me, t)), Create(me)) <==> s.cells[(me, t)].inFd == -1
  {
    StepKeeps(s, CheckOut(me, t));
  }

  /** Once its child has opened the FIFO, and only then, the writer's second `>n` is refused. */
  lemma {:induction false} RefusedOnceOpened(s: Shared, me: int, t: int, fd: int) returns (s1: Shared)
    requires Inv(s) && May(s, OpenOut(me, t, fd)) && Free(s.phases[me])
    ensures s1 == Do(s, OpenOut(me, t, fd)) && Inv(s1) && May(s1, CheckOut(me, t))
    ensures Inv(Do(s1, CheckOut(me, t))) && (May(Do(s1, CheckOut(me, t)), Create(me)) <==> fd == -1)
  {
    StepKeeps(s, OpenOut(me, t, fd));
    s1 := Do(s, OpenOut(me, t, fd));
    WritableIff(s1, me, t);
  }

  /** Process `i` says `>n` for `t`: the check passes, and `mkfifo` ends the process. */
  ghost predicate EndsItself(s: Shared, i: int, t: int) {
    && Inv(s) && May(s, CheckOut(i, t))
    && var s1 := Do(s, CheckOut(i, t));
       Shaped(s1) && May(s1, Create(i)) && Do(s1, Create(i)).phases[i] == Gone
  }

  lemma {:induction false} NamedEndsItself(s: Shared, i: int, t: int)
    requires Inv(s) && IsSlot(i) && IsSlot(t) && Free(s.phases[i])
    requires (i, t) in s.cells && s.cells[(i, t)].inFd == -1 && s.cells[(i, t)].name != ""
    ensures EndsItself(s, i, t)
  {
    CreatedTwice(s, i, t);
  }

  /** While a pipe is being read its writer's descriptor is no longer recorded: if the writer now says
      `>n` for the same reader, that passes the check and ends its process. */
  lemma {:induction false} CreatedWhileRead(s: Shared, me: int, i: int)
    requires Inv(s) && May(s, Take(me)) && s.phases[me].check == MayRead(i)
    ensures var s1 := Do(s, Take(me));
            Inv(s1) && IsSlot(i) && (Free(s1.phases[i]) ==> EndsItself(s1, i, me))
  {
    StepKeeps(s, Take(me));
    TakenIsNamed(s, me, i);
    var s1 := Do(s, Take(me));
    if Free(s1.phases[i]) { NamedEndsItself(s1, i, me); }
  }

  lemma {:induction false} TakenIsNamed(s: Shared, me: int, i: int)
    requires Inv(s) && May(s, Take(me)) && s.phases[me].check == MayRead(i)
    ensures IsSlot(i) && IsSlot(me) && (i, me) in Do(s, Take(me)).cells
    ensures Do(s, Take(me)).cells[(i, me)].name != "" && Do(s, Take(me)).cells[(i, me)].inFd == -1
  {
    assert PhaseOk(s.cells, me, s.phases[me]) && CellOk((i, me), s.cells[(i, me)]);
  }

  // ---------- leaving ----------

  /** Who leaves clears the pipes it could read, with their FIFOs, and nothing else: the next client in
      the slot is told that there is no pipe, whoever it asks for one. */
  lemma {:induction false} LeavesNothing(s: Shared, me: int, i: int)
    requires Inv(s) && May(s, LogOut(me)) && IsSlot(i)
    ensures var s1 := Do(s, LogOut(me));
            && Inv(s1) && May(s1, LogIn(me))
            && var s2 := Do(s1, LogIn(me));
               Inv(s2) && May(s2, CheckIn(me, i)) && !May(Do(s2, CheckIn(me, i)), Take(me))
    ensures var s1 := Do(s, LogOut(me));
            forall k :: k in s.cells ==>
              k in s1.cells && s1.cells[k] == if k.1 == me && s.cells[k].outFd != -1 then EMPTY else s.cells[k]
  {
    var s1 := Do(s, LogOut(me));
    StepKeeps(s, LogOut(me));
    StepKeeps(s1, LogIn(me));
    ReadableIff(Do(s1, LogIn(me)), me, i);
  }

  // ---------- a run from the start ----------

  lemma {:induction false} FirstPipe(start: seq<Step>, s: Shared) returns (s': Shared)
    requires EndsIn(start, s) && s.phases[0] == Here(MayWrite(1), None) && s.phases[1] == IDLE
    requires (0, 1) in s.cells && s.cells[(0, 1)] == EMPTY && s.files == {}
    ensures EndsIn(start + [Create(0)], s') && s'.phases[1] == IDLE && Unopened(s', (0, 1))
    ensures s'.cells == s.cells[(0, 1) := EMPTY.(name := Path((0, 1)))]
  {
    Extend(start, s, Create(0));
    s' := Do(s, Create(0));
    PathIsText((0, 1));
  }

  lemma {:induction false} FirstSignal(start: seq<Step>, s: Shared, fds: seq<int>) returns (s': Shared)
    requires EndsIn(start, s) && s.phases[1] == IDLE && Unopened(s, (0, 1))
    requires |fds| == |s.phases| && fds[0] == 7 && forall i :: 0 <= i < |fds| ==> fds[i] >= -1
    ensures EndsIn(start + [Signal(1, fds)], s') && s'.phases[1] == IDLE && OpenAs(s', (0, 1), 7)
    ensures forall k :: k in s.cells && s.cells[k].name == "" ==> k in s'.cells && s'.cells[k] == s.cells[k]
  {
    Extend(start, s, Signal(1, fds));
    s' := Do(s, Signal(1, fds));
    BecomesOpen(s, Signal(1, fds), (0, 1));
    SignalOpens(s, 1, fds);
  }

  lemma {:induction false} SignalledFromTheStart(fds: seq<int>) returns (steps: seq<Step>, s: Shared)
    requires |fds| == |Start().phases| && fds[0] == 7 && forall i :: 0 <= i < |fds| ==> fds[i] >= -1
    ensures steps == [LogIn(0), LogIn(1), CheckOut(0, 1), Create(0), Signal(1, fds)] && EndsIn(steps, s)
    ensures s.phases[1] == IDLE && OpenAs(s, (0, 1), 7) && (1, 2) in s.cells && s.cells[(1, 2)] == EMPTY
  {
    var s0 := FirstCheck();
    steps := [LogIn(0)] + [LogIn(1)] + [CheckOut(0, 1)];
    var s1 := FirstPipe(steps, s0);
    steps := steps + [Create(0)];
    s := FirstSignal(steps, s1, fds);
    steps := steps + [Signal(1, fds)];
    FiveSteps(fds);
    StartCell((1, 2));
  }

  lemma {:induction false} FiveSteps(fds: seq<int>)
    ensures [LogIn(0)] + [LogIn(1)] + [CheckOut(0, 1)] + [Create(0)] + [Signal(1, fds)]
         == [LogIn(0), LogIn(1), CheckOut(0, 1), Create(0), Signal(1, fds)]
  {
  }

  lemma {:induction false} StartCell(k: Key)
    requires IsKey(k)
    ensures k in Start().cells && Start().cells[k] == EMPTY
  {
    assert k == (k.0, k.1);
  }

  lemma {:induction false} ReadsAndLeavesOwn(steps: seq<Step>, s: Shared) returns (all: seq<Step>, s': Shared)
    requires EndsIn(steps, s) && s.phases[1] == IDLE && OpenAs(s, (0, 1), 7)
    requires (1, 2) in s.cells && s.cells[(1, 2)] == EMPTY
    ensures all == steps + [CheckIn(1, 0)] + [Take(1)] + [CheckOut(1, 2)] + [Create(1)] + [Erase(1)] && EndsIn(all, s')
    ensures (0, 1) in s'.cells && s'.cells[(0, 1)] == EMPTY && Unopened(s', (1, 2))
  {
    all, s' := ReadsAndWrites(steps, s, 1, 0, 2);
    PathIsText((1, 2));
  }

  /** From the start: client 0 says `ls >2`, client 1 is signalled and `open` gives 7. Then client 1's
      `cat <1 >3` is handed 7, and leaves its own pipe behind in place of the one it has read. */
  lemma {:induction false} ReadFromTheStart(fds: seq<int>)
    returns (steps: seq<Step>, s: Shared, all: seq<Step>, s': Shared)
    requires |fds| == |Start().phases| && fds[0] == 7 && forall i :: 0 <= i < |fds| ==> fds[i] >= -1
    ensures steps == [LogIn(0), LogIn(1), CheckOut(0, 1), Create(0), Signal(1, fds)] && EndsIn(steps, s)
    ensures HandsOut(s, (0, 1), 7)
    ensures all == steps + [CheckIn(1, 0)] + [Take(1)] + [CheckOut(1, 2)] + [Create(1)] + [Erase(1)] && EndsIn(all, s')
    ensures (0, 1) in s'.cells && s'.cells[(0, 1)] == EMPTY && Unopened(s', (1, 2))
  {
    steps, s := SignalledFromTheStart(fds);
    OpenIsHandedOut(s, (0, 1), 7);
    all, s' := ReadsAndLeavesOwn(steps, s);
  }
}
