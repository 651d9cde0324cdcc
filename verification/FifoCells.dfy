/** The shared-memory table of the multi-process server's user pipes. Every client is a process of its
    own; the functions it calls, and its signal handler, are the atomic steps of any schedule. */
module FifoCells {
  import opened Sequences
  import opened Decimal
  import opened ServerSyntax

  /** The cell of a pipe: the path of its FIFO, and the two descriptors once they are open. */
  datatype Cell = Cell(name: string, used: bool, inFd: int, outFd: int)

  const EMPTY := Cell("", false, -1, -1)

  /** The writer's slot and the reader's slot. */
  type Key = (int, int)

  predicate IsSlot(i: int) { 0 <= i < MAX_CLIENTS }

  predicate IsKey(k: Key) { IsSlot(k.0) && IsSlot(k.1) }

  function Path(k: Key): string
    requires IsKey(k)
  {
    "user_pipe/" + "user_pipe_" + Print(k.0 + 1) + "_" + Print(k.1 + 1)
  }

  /** A check that a command has made and not yet acted on. */
  datatype Check = NoCheck | MayWrite(target: int) | MayRead(source: int)

  /** A client's process: the pending check of its command, and the source whose pipe the command
      reads and has still to erase. One command may do both, as `cat <2 >3` does. */
  datatype Phase = Gone | Here(check: Check, reading: Option<int>)

  const IDLE := Here(NoCheck, None)

  /** The cells, the FIFOs on disk, and each client's process. */
  datatype Shared = Shared(cells: map<Key, Cell>, files: set<string>, phases: seq<Phase>)

  ghost predicate Shaped(s: Shared) {
    && |s.phases| == MAX_CLIENTS
    && (forall k: Key :: k in s.cells <==> IsKey(k))
    && (forall i :: 0 <= i < |s.phases| ==> PhaseShaped(s.phases[i]))
  }

  predicate PhaseShaped(p: Phase) {
    p.Here? ==>
      && (p.check.MayWrite? ==> IsSlot(p.check.target))
      && (p.check.MayRead? ==> IsSlot(p.check.source))
      && (p.reading.Some? ==> IsSlot(p.reading.value))
  }

  // ---------- steps ----------

  /** The steps of client `me`. `CheckOut` and `CheckIn` are the checks of `>n` and `<n`; `Create`,
      `OpenOut`, `Take` and `Erase` are `CreateUserPipe`, `SetUserPipeOut` (in a child, at any time),
      `GetUserPipeFd` and `EraseUserPipe`; `Signal` is the handler of SIGUSR2, with what its calls of
      `open` give; `GiveUp` is any early return from the line. */
  datatype Step =
    | LogIn(me: int)
    | CheckOut(me: int, target: int)
    | Create(me: int)
    | OpenOut(me: int, target: int, fd: int)
    | Signal(me: int, fds: seq<int>)
    | CheckIn(me: int, source: int)
    | Take(me: int)
    | Erase(me: int)
    | GiveUp(me: int)
    | LogOut(me: int)

  /** No check is pending: the command may go on to its next word. */
  predicate Free(p: Phase) { p.Here? && p.check == NoCheck }

  /** What a process's own program allows it to do next. A process erases the pipe it has read unless
      it is about to read that pipe again. */
  ghost predicate May(s: Shared, e: Step)
    requires Shaped(s)
  {
    && IsSlot(e.me)
    && var p := s.phases[e.me];
       match e
       case LogIn(_) => p == Gone
       case CheckOut(_, t) => Free(p) && IsSlot(t)
       case Create(_) => p.Here? && p.check.MayWrite?
       case OpenOut(_, t, fd) => IsSlot(t) && fd >= -1
       case Signal(_, fds) => p != Gone && |fds| == MAX_CLIENTS && forall i :: 0 <= i < |fds| ==> fds[i] >= -1
       case CheckIn(_, i) => Free(p) && IsSlot(i)
       case Take(_) => p.Here? && p.check.MayRead?
       case Erase(_) => p.Here? && p.reading.Some? && p.check != MayRead(p.reading.value)
       case GiveUp(_) => p != Gone
       case LogOut(_) => Free(p)
  }

  function SetCell(s: Shared, k: Key, c: Cell): Shared { s.(cells := s.cells[k := c]) }

  function Enter(s: Shared, me: int, p: Phase): Shared
    requires 0 <= me < |s.phases|
  {
    s.(phases := s.phases[me := p])
  }

  /** What the handler makes of a cell of its column. */
  function Opened(c: Cell, fd: int): Cell {
    if c.outFd == -1 && c.name != "" then c.(outFd := fd) else c
  }

  function OpenColumn(cells: map<Key, Cell>, me: int, fds: seq<int>): map<Key, Cell> {
    map k <- cells :: if k.1 == me && 0 <= k.0 < |fds| then Opened(cells[k], fds[k.0]) else cells[k]
  }

  /** The cells that logging out clears. */
  predicate Leaving(me: int, k: Key, c: Cell) { k.1 == me && c.outFd != -1 }

  function ClearColumn(cells: map<Key, Cell>, me: int): map<Key, Cell> {
    map k <- cells :: if Leaving(me, k, cells[k]) then EMPTY else cells[k]
  }

  function LeavingNames(cells: map<Key, Cell>, me: int): set<string> {
    set k | k in cells && Leaving(me, k, cells[k]) :: cells[k].name
  }

  ghost function Do(s: Shared, e: Step): Shared
    requires Shaped(s) && May(s, e)
  {
    match e
    case LogIn(me) => Enter(s, me, IDLE)
    case CheckOut(me, t) =>
      if s.cells[(me, t)].inFd != -1 then Enter(s, me, IDLE) else Enter(s, me, s.phases[me].(check := MayWrite(t)))
    case Create(me) =>
      var p := s.phases[me];
      var k := (me, p.check.target);
      if Path(k) in s.files then Enter(s, me, Gone)
      else Enter(SetCell(s, k, s.cells[k].(name := Path(k))).(files := s.files + {Path(k)}), me, p.(check := NoCheck))
    case OpenOut(me, t, fd) => SetCell(s, (me, t), s.cells[(me, t)].(inFd := fd))
    case Signal(me, fds) => s.(cells := OpenColumn(s.cells, me, fds))
    case CheckIn(me, i) =>
      if s.cells[(i, me)].outFd == -1 then Enter(s, me, IDLE) else Enter(s, me, s.phases[me].(check := MayRead(i)))
    case Take(me) =>
      var k := (s.phases[me].check.source, me);
      Enter(SetCell(s, k, s.cells[k].(inFd := -1, used := true)), me, Here(NoCheck, Some(k.0)))
    case Erase(me) =>
      var p := s.phases[me];
      var k := (p.reading.value, me);
      var s' := if s.cells[k].used then SetCell(s, k, EMPTY).(files := s.files - {s.cells[k].name}) else s;
      Enter(s', me, p.(reading := None))
    case GiveUp(me) => Enter(s, me, IDLE)
    case LogOut(me) =>
      Enter(s.(cells := ClearColumn(s.cells, me), files := s.files - LeavingNames(s.cells, me)), me, Gone)
  }

  // ---------- the invariant ----------

  /** An open read descriptor has a recorded name, a used pipe an open read descriptor, and the name
      is the cell's own path. */
  ghost predicate CellOk(k: Key, c: Cell)
    requires IsKey(k)
  {
    && (c.name == "" || c.name == Path(k))
    && (c.outFd != -1 ==> c.name != "")
    && (c.used ==> c.outFd != -1)
  }

  ghost predicate CellsOk(cells: map<Key, Cell>) {
    forall k :: k in cells ==> IsKey(k) && CellOk(k, cells[k])
  }

  /** The FIFOs on disk are exactly those recorded. */
  ghost predicate FilesOk(cells: map<Key, Cell>, files: set<string>) {
    && (forall k :: k in cells && cells[k].name != "" ==> cells[k].name in files)
    && (forall f :: f in files ==> Recorded(cells, f))
  }

  ghost predicate Recorded(cells: map<Key, Cell>, f: string) {
    f != "" && exists k :: k in cells && cells[k].name == f
  }

  /** A process that has seen a pipe to read still finds it open, however long it takes. */
  ghost predicate PhaseOk(cells: map<Key, Cell>, me: int, p: Phase) {
    p.Here? ==>
      && (p.check.MayRead? ==> (p.check.source, me) in cells && cells[(p.check.source, me)].outFd != -1)
      && (p.reading.Some? ==> (p.reading.value, me) in cells && cells[(p.reading.value, me)].used)
  }

  ghost predicate PhasesOk(cells: map<Key, Cell>, phases: seq<Phase>) {
    forall i :: 0 <= i < |phases| ==> PhaseOk(cells, i, phases[i])
  }

  ghost predicate Inv(s: Shared) {
    Shaped(s) && CellsOk(s.cells) && FilesOk(s.cells, s.files) && PhasesOk(s.cells, s.phases)
  }

  // ---------- paths ----------

  /** What is left and right of the first underscore. */
  lemma {:induction false} SplitOnce(a: string, b: string, c: string, d: string)
    requires '_' !in a && '_' !in c && a + "_" + b == c + "_" + d
    ensures a == c && b == d
  {
    var x := a + "_" + b;
    assert x[..|a|] == a && x[..|c|] == c;
    IndexIs(x, '_', |a|);
    IndexIs(x, '_', |c|);
    assert b == x[|a| + 1..];
    assert d == x[|c| + 1..];
  }

  lemma {:induction false} SameTail(head: string, x: string, y: string)
    requires head + x == head + y
    ensures x == y
  {
    assert x == (head + x)[|head|..] && y == (head + y)[|head|..];
  }

  lemma {:induction false} PartsOfPath(a: string, b: string, c: string, d: string)
    requires '_' !in a && '_' !in c
    requires "user_pipe/" + "user_pipe_" + a + "_" + b == "user_pipe/" + "user_pipe_" + c + "_" + d
    ensures a == c && b == d
  {
    var head := "user_pipe/" + "user_pipe_";
    assert head + a + "_" + b == head + (a + "_" + b);
    assert head + c + "_" + d == head + (c + "_" + d);
    SameTail(head, a + "_" + b, c + "_" + d);
    SplitOnce(a, b, c, d);
  }

  /** Different cells have different paths. */
  lemma {:induction false} PathInjective(j: Key, k: Key)
    requires IsKey(j) && IsKey(k) && Path(j) == Path(k)
    ensures j == k
  {
    PrintThenRead(j.0 + 1);
    PrintThenRead(k.0 + 1);
    PartsOfPath(Print(j.0 + 1), Print(j.1 + 1), Print(k.0 + 1), Print(k.1 + 1));
    PrintInjective(j.0 + 1, k.0 + 1);
    PrintInjective(j.1 + 1, k.1 + 1);
  }

  // ---------- every step keeps the invariant ----------

  /** A change to one cell that keeps its name. */
  lemma {:induction false} SameNames(cells: map<Key, Cell>, cells': map<Key, Cell>, files: set<string>)
    requires FilesOk(cells, files) && cells'.Keys == cells.Keys
    requires forall k :: k in cells ==> cells'[k].name == cells[k].name
    ensures FilesOk(cells', files)
  {
    forall f | f in files ensures Recorded(cells', f) {
      var k :| k in cells && cells[k].name == f;
      assert cells'[k].name == f;
    }
  }

  lemma {:induction false} CreateFiles(cells: map<Key, Cell>, files: set<string>, k: Key)
    requires CellsOk(cells) && FilesOk(cells, files) && k in cells && Path(k) !in files
    ensures cells[k].name == ""
    ensures FilesOk(cells[k := cells[k].(name := Path(k))], files + {Path(k)})
  {
    var cells' := cells[k := cells[k].(name := Path(k))];
    assert CellOk(k, cells[k]);
    forall f | f in files + {Path(k)} ensures Recorded(cells', f) {
      if f in files {
        var j :| j in cells && cells[j].name == f;
        assert cells'[j].name == f;
      } else {
        assert cells'[k].name == f;
      }
    }
  }

  /** Clearing cells together with their FIFOs. */
  lemma {:induction false} ClearFiles(cells: map<Key, Cell>, files: set<string>, gone: set<Key>,
                                      cells': map<Key, Cell>, files': set<string>)
    requires CellsOk(cells) && FilesOk(cells, files) && gone <= cells.Keys && cells'.Keys == cells.Keys
    requires forall k :: k in cells ==> cells'[k] == if k in gone then EMPTY else cells[k]
    requires files' == files - (set k | k in gone :: cells[k].name)
    ensures FilesOk(cells', files')
  {
    forall k | k in cells' && cells'[k].name != "" ensures cells'[k].name in files' {
      assert k !in gone && CellOk(k, cells[k]);
      forall j | j in gone ensures cells[j].name != cells[k].name {
        assert CellOk(j, cells[j]);
        if cells[j].name == cells[k].name { PathInjective(j, k); }
      }
    }
    forall f | f in files' ensures Recorded(cells', f) {
      var k :| k in cells && cells[k].name == f;
      assert k !in gone;
      assert cells'[k].name == f;
    }
  }

  /** Changing cells so that no open or used pipe of a waiting process is lost. */
  lemma {:induction false} PhasesStay(cells: map<Key, Cell>, cells': map<Key, Cell>,
                                      phases: seq<Phase>, me: int, p: Phase)
    requires PhasesOk(cells, phases) && 0 <= me < |phases| && cells'.Keys == cells.Keys
    requires forall k :: k in cells && k.1 != me ==>
               (cells[k].outFd != -1 ==> cells'[k].outFd != -1) && (cells[k].used ==> cells'[k].used)
    requires PhaseOk(cells', me, p)
    ensures PhasesOk(cells', phases[me := p])
  {
    var phases' := phases[me := p];
    forall i | 0 <= i < |phases'| ensures PhaseOk(cells', i, phases'[i]) {
      if i != me { assert PhaseOk(cells, i, phases[i]); }
    }
  }

  /** The phases that matter to a cell besides its own process's are untouched. */
  lemma {:induction false} Assemble(s: Shared)
    requires Shaped(s) && CellsOk(s.cells) && FilesOk(s.cells, s.files) && PhasesOk(s.cells, s.phases)
    ensures Inv(s)
  {
  }

  lemma {:induction false} ShapedAfter(s: Shared, e: Step)
    requires Shaped(s) && May(s, e)
    ensures Shaped(Do(s, e))
  {
    assert PhaseShaped(s.phases[e.me]);
  }

  lemma {:induction false} CreateKeeps(s: Shared, me: int)
    requires Inv(s) && May(s, Create(me))
    ensures Inv(Do(s, Create(me)))
  {
    var s' := Do(s, Create(me));
    assert PhaseShaped(s.phases[me]);
    var k := (me, s.phases[me].check.target);
    assert PhaseOk(s.cells, me, s.phases[me]);
    ShapedAfter(s, Create(me));
    if Path(k) !in s.files { CreateFiles(s.cells, s.files, k); }
    PhasesStay(s.cells, s'.cells, s.phases, me, s'.phases[me]);
    Assemble(s');
  }

  lemma {:induction false} OpenOutKeeps(s: Shared, me: int, t: int, fd: int)
    requires Inv(s) && May(s, OpenOut(me, t, fd))
    ensures Inv(Do(s, OpenOut(me, t, fd)))
  {
    var s' := Do(s, OpenOut(me, t, fd));
    ShapedAfter(s, OpenOut(me, t, fd));
    SameNames(s.cells, s'.cells, s.files);
    forall i | 0 <= i < |s.phases| ensures PhaseOk(s'.cells, i, s'.phases[i]) {
      assert PhaseOk(s.cells, i, s.phases[i]);
    }
    Assemble(s');
  }

  lemma {:induction false} SignalKeeps(s: Shared, me: int, fds: seq<int>)
    requires Inv(s) && May(s, Signal(me, fds))
    ensures Inv(Do(s, Signal(me, fds)))
  {
    var s' := Do(s, Signal(me, fds));
    ShapedAfter(s, Signal(me, fds));
    SameNames(s.cells, s'.cells, s.files);
    forall i | 0 <= i < |s.phases| ensures PhaseOk(s'.cells, i, s'.phases[i]) {
      assert PhaseOk(s.cells, i, s.phases[i]);
    }
    forall k | k in s'.cells ensures IsKey(k) && CellOk(k, s'.cells[k]) { assert CellOk(k, s.cells[k]); }
    Assemble(s');
  }

  lemma {:induction false} TakeKeeps(s: Shared, me: int)
    requires Inv(s) && May(s, Take(me))
    ensures Inv(Do(s, Take(me)))
  {
    var s' := Do(s, Take(me));
    assert PhaseOk(s.cells, me, s.phases[me]);
    ShapedAfter(s, Take(me));
    SameNames(s.cells, s'.cells, s.files);
    PhasesStay(s.cells, s'.cells, s.phases, me, s'.phases[me]);
    forall k | k in s'.cells ensures IsKey(k) && CellOk(k, s'.cells[k]) { assert CellOk(k, s.cells[k]); }
    Assemble(s');
  }

  lemma {:induction false} EraseKeeps(s: Shared, me: int)
    requires Inv(s) && May(s, Erase(me))
    ensures Inv(Do(s, Erase(me)))
  {
    var s' := Do(s, Erase(me));
    assert PhaseShaped(s.phases[me]);
    assert PhaseOk(s.cells, me, s.phases[me]);
    var k := (s.phases[me].reading.value, me);
    ShapedAfter(s, Erase(me));
    if s.cells[k].used {
      var gone := {k};
      assert (set j | j in gone :: s.cells[j].name) == {s.cells[k].name};
      ClearFiles(s.cells, s.files, gone, s'.cells, s'.files);
    }
    PhasesStay(s.cells, s'.cells, s.phases, me, s'.phases[me]);
    Assemble(s');
  }

  lemma {:induction false} LogOutKeeps(s: Shared, me: int)
    requires Inv(s) && May(s, LogOut(me))
    ensures Inv(Do(s, LogOut(me)))
  {
    var s' := Do(s, LogOut(me));
    ShapedAfter(s, LogOut(me));
    var gone := set k | k in s.cells && Leaving(me, k, s.cells[k]);
    ClearFiles(s.cells, s.files, gone, s'.cells, s'.files);
    PhasesStay(s.cells, s'.cells, s.phases, me, Gone);
    Assemble(s');
  }

  lemma {:induction false} PhaseKeeps(s: Shared, me: int, p: Phase)
    requires Inv(s) && IsSlot(me) && PhaseShaped(p) && PhaseOk(s.cells, me, p)
    ensures Inv(Enter(s, me, p))
  {
    PhasesStay(s.cells, s.cells, s.phases, me, p);
    Assemble(Enter(s, me, p));
  }

  lemma {:induction false} StepKeeps(s: Shared, e: Step)
    requires Inv(s) && May(s, e)
    ensures Inv(Do(s, e))
  {
    assert PhaseOk(s.cells, e.me, s.phases[e.me]) && PhaseShaped(s.phases[e.me]);
    match e
    case LogIn(me) => PhaseKeeps(s, me, IDLE);
    case CheckOut(me, t) =>
      PhaseKeeps(s, me, if s.cells[(me, t)].inFd != -1 then IDLE else s.phases[me].(check := MayWrite(t)));
    case Create(me) => CreateKeeps(s, me);
    case OpenOut(me, t, fd) => OpenOutKeeps(s, me, t, fd);
    case Signal(me, fds) => SignalKeeps(s, me, fds);
    case CheckIn(me, i) =>
      PhaseKeeps(s, me, if s.cells[(i, me)].outFd == -1 then IDLE else s.phases[me].(check := MayRead(i)));
    case Take(me) => TakeKeeps(s, me);
    case Erase(me) => EraseKeeps(s, me);
    case GiveUp(me) => PhaseKeeps(s, me, IDLE);
    case LogOut(me) => LogOutKeeps(s, me);
  }

  // ---------- any schedule ----------

  ghost function Start(): Shared {
    Shared(map i: int, j: int | 0 <= i < MAX_CLIENTS && 0 <= j < MAX_CLIENTS :: (i, j) := EMPTY, {},
           seq(MAX_CLIENTS, _ => Gone))
  }

  ghost predicate Possible(steps: seq<Step>)
    decreases |steps|, 0
  {
    steps == [] || (Possible(steps[..|steps| - 1])
      && (var s := After(steps[..|steps| - 1]); Shaped(s) && May(s, steps[|steps| - 1])))
  }

  ghost function After(steps: seq<Step>): Shared
    requires Possible(steps)
    decreases |steps|, 1
  {
    if steps == [] then Start() else Do(After(steps[..|steps| - 1]), steps[|steps| - 1])
  }

  lemma {:induction false} StartOk()
    ensures Inv(Start())
  {
    forall k: Key | IsKey(k) ensures k in Start().cells {
      assert k == (k.0, k.1);
    }
  }

  /** Under any schedule of all clients' steps: an open read descriptor has a recorded name, a used
      pipe has an open read descriptor, and the FIFOs on disk are exactly the recorded ones. */
  lemma {:induction false} EveryScheduleKeeps(steps: seq<Step>)
    requires Possible(steps)
    ensures Inv(After(steps))
  {
    if steps == [] {
      StartOk();
    } else {
      EveryScheduleKeeps(steps[..|steps| - 1]);
      StepKeeps(After(steps[..|steps| - 1]), steps[|steps| - 1]);
    }
  }

  /** Whatever happens between the check of a pipe and its use, the descriptor used is open; and a pipe
      that is being read stays marked until its reader erases it. */
  lemma {:induction false} TakenIsOpen(steps: seq<Step>, me: int)
    requires Possible(steps) && IsSlot(me) && After(steps).phases[me].Here?
    ensures var s := After(steps);
            var p := s.phases[me];
            && (p.check.MayRead? ==> ReadyToRead(s, (p.check.source, me)))
            && (p.reading.Some? ==> ReadyToRead(s, (p.reading.value, me)) && s.cells[(p.reading.value, me)].used)
  {
    EveryScheduleKeeps(steps);
    var s := After(steps);
    var p := s.phases[me];
    assert PhaseOk(s.cells, me, p);
    if p.check.MayRead? { assert CellOk((p.check.source, me), s.cells[(p.check.source, me)]); }
    if p.reading.Some? { assert CellOk((p.reading.value, me), s.cells[(p.reading.value, me)]); }
  }

  ghost predicate ReadyToRead(s: Shared, k: Key) {
    IsKey(k) && k in s.cells && s.cells[k].outFd != -1 && s.cells[k].name == Path(k) && Path(k) in s.files
  }

  /** `mkfifo` fails, and ends the process, exactly when the cell still has a name. */
  lemma {:induction false} CreateFailsIff(s: Shared, me: int)
    requires Inv(s) && May(s, Create(me))
    ensures var k := (me, s.phases[me].check.target);
            k in s.cells && (Do(s, Create(me)).phases[me] == Gone <==> s.cells[k].name != "")
  {
    assert PhaseShaped(s.phases[me]);
    var k := (me, s.phases[me].check.target);
    assert CellOk(k, s.cells[k]);
    if Path(k) in s.files {
      var j :| j in s.cells && s.cells[j].name == Path(k);
      assert CellOk(j, s.cells[j]);
      PathInjective(j, k);
    }
  }

  /** The check looks at the write descriptor, which a child opens later. So a second `>n` that comes
      before that passes the check, and its `mkfifo` ends the process. */
  lemma {:induction false} CreatedTwice(s: Shared, me: int, t: int)
    requires Inv(s) && May(s, CheckOut(me, t)) && s.cells[(me, t)].inFd == -1 && s.cells[(me, t)].name != ""
    ensures var s' := Do(s, CheckOut(me, t));
            Inv(s') && May(s', Create(me)) && Do(s', Create(me)).phases[me] == Gone
  {
    var s' := Do(s, CheckOut(me, t));
    StepKeeps(s, CheckOut(me, t));
    assert s'.phases[me] == s.phases[me].(check := MayWrite(t));
    CreateFailsIff(s', me);
  }

  /** The schedule `steps` is possible and ends in `s`. */
  ghost predicate EndsIn(steps: seq<Step>, s: Shared) {
    Possible(steps) && After(steps) == s && Inv(s)
  }

  /** One more step of a schedule. */
  lemma {:induction false} Extend(steps: seq<Step>, s: Shared, e: Step)
    requires EndsIn(steps, s) && May(s, e)
    ensures EndsIn(steps + [e], Do(s, e))
  {
    assert (steps + [e])[..|steps|] == steps;
    StepKeeps(s, e);
  }

  lemma {:induction false} StartIsEmpty()
    ensures EndsIn([], Start()) && (0, 1) in Start().cells && Start().cells[(0, 1)] == EMPTY && Start().files == {}
  {
    StartOk();
  }

  /** Client 0 and client 1 log in, and client 0 finds no pipe to client 1. */
  lemma {:induction false} FirstCheck() returns (s: Shared)
    ensures EndsIn([LogIn(0)] + [LogIn(1)] + [CheckOut(0, 1)], s)
    ensures s.phases[0] == Here(MayWrite(1), None) && s.phases[1] == IDLE
    ensures (0, 1) in s.cells && s.cells == Start().cells && s.cells[(0, 1)] == EMPTY && s.files == {}
  {
    StartIsEmpty();
    Extend([], Start(), LogIn(0));
    assert [] + [LogIn(0)] == [LogIn(0)];
    var s1 := Do(Start(), LogIn(0));
    Extend([LogIn(0)], s1, LogIn(1));
    var s2 := Do(s1, LogIn(1));
    Extend([LogIn(0)] + [LogIn(1)], s2, CheckOut(0, 1));
    s := Do(s2, CheckOut(0, 1));
  }

  lemma {:induction false} SecondCreate(start: seq<Step>, s: Shared) returns (s': Shared)
    requires EndsIn(start, s) && s.phases[0] == Here(MayWrite(1), None)
    requires (0, 1) in s.cells && s.cells[(0, 1)] == EMPTY && s.files == {}
    ensures EndsIn(start + [Create(0)] + [CheckOut(0, 1)] + [Create(0)], s') && s'.phases[0] == Gone
  {
    Extend(start, s, Create(0));
    var s1 := Do(s, Create(0));
    CreatedTwice(s1, 0, 1);
    Extend(start + [Create(0)], s1, CheckOut(0, 1));
    var s2 := Do(s1, CheckOut(0, 1));
    Extend(start + [Create(0)] + [CheckOut(0, 1)], s2, Create(0));
    s' := Do(s2, Create(0));
  }

  /** From the start: client 0 says `>2` twice, both checks pass, and its process ends. */
  lemma {:induction false} CreatedTwiceFromTheStart()
    ensures var steps := [LogIn(0), LogIn(1), CheckOut(0, 1), Create(0), CheckOut(0, 1), Create(0)];
            Possible(steps) && After(steps).phases[0] == Gone
  {
    var s := FirstCheck();
    var s' := SecondCreate([LogIn(0)] + [LogIn(1)] + [CheckOut(0, 1)], s);
    assert [LogIn(0)] + [LogIn(1)] + [CheckOut(0, 1)] + [Create(0)] + [CheckOut(0, 1)] + [Create(0)]
        == [LogIn(0), LogIn(1), CheckOut(0, 1), Create(0), CheckOut(0, 1), Create(0)];
  }

  function Read(s: Shared, me: int, i: int): Shared
    requires 0 <= me < |s.phases| && (i, me) in s.cells
  {
    Enter(SetCell(s, (i, me), s.cells[(i, me)].(inFd := -1, used := true)), me, Here(NoCheck, Some(i)))
  }

  function Made(s: Shared, k: Key): Shared
    requires IsKey(k) && k in s.cells
  {
    SetCell(s, k, s.cells[k].(name := Path(k))).(files := s.files + {Path(k)})
  }

  function Erased(s: Shared, k: Key): Shared
    requires IsKey(k)
  {
    SetCell(s, k, EMPTY).(files := s.files - {Path(k)})
  }

  lemma {:induction false} TakeOpen(steps: seq<Step>, s: Shared, me: int, i: int)
    requires EndsIn(steps, s) && IsSlot(me) && IsSlot(i) && s.phases[me] == IDLE && s.cells[(i, me)].outFd != -1
    ensures EndsIn(steps + [CheckIn(me, i)] + [Take(me)], Read(s, me, i))
  {
    Extend(steps, s, CheckIn(me, i));
    var s1 := Do(s, CheckIn(me, i));
    Extend(steps + [CheckIn(me, i)], s1, Take(me));
    assert Do(s1, Take(me)).phases == s.phases[me := Here(NoCheck, Some(i))];
  }

  lemma {:induction false} MakeFree(steps: seq<Step>, s: Shared, me: int, t: int)
    requires EndsIn(steps, s) && IsSlot(me) && IsSlot(t) && Free(s.phases[me])
    requires s.cells[(me, t)].inFd == -1 && s.cells[(me, t)].name == ""
    ensures EndsIn(steps + [CheckOut(me, t)] + [Create(me)], Made(s, (me, t)))
  {
    Extend(steps, s, CheckOut(me, t));
    var s1 := Do(s, CheckOut(me, t));
    CreateFailsIff(s1, me);
    Extend(steps + [CheckOut(me, t)], s1, Create(me));
    assert Do(s1, Create(me)).phases == s.phases;
  }

  lemma {:induction false} EraseRead(steps: seq<Step>, s: Shared, me: int, i: int)
    requires EndsIn(steps, s) && IsSlot(me) && IsSlot(i) && s.phases[me] == Here(NoCheck, Some(i))
    ensures EndsIn(steps + [Erase(me)], Enter(Erased(s, (i, me)), me, IDLE))
  {
    assert PhaseOk(s.cells, me, s.phases[me]);
    assert CellOk((i, me), s.cells[(i, me)]);
    Extend(steps, s, Erase(me));
  }

  lemma {:induction false} AllThree(s: Shared, me: int, i: int, t: int)
    requires IsSlot(me) && IsSlot(i) && IsSlot(t) && (i, me) != (me, t) && (i, me) in s.cells && (me, t) in s.cells
    requires me < |s.phases| && s.phases[me] == IDLE
    ensures Enter(Erased(Made(Read(s, me, i), (me, t)), (i, me)), me, IDLE)
         == Made(SetCell(s, (i, me), EMPTY), (me, t)).(files := s.files + {Path((me, t))} - {Path((i, me))})
  {
    assert s.phases[me := Here(NoCheck, Some(i))][me := IDLE] == s.phases;
  }

  lemma {:induction false} OpenIsNamed(s: Shared, k: Key)
    requires Inv(s) && IsKey(k) && s.cells[k].outFd != -1
    ensures s.cells[k].name != ""
  {
    assert CellOk(k, s.cells[k]);
  }

  lemma {:induction false} TakeThenMake(steps: seq<Step>, s: Shared, me: int, i: int, t: int)
    returns (all: seq<Step>, s': Shared)
    requires EndsIn(steps, s) && IsSlot(me) && IsSlot(i) && IsSlot(t) && s.phases[me] == IDLE && (i, me) != (me, t)
    requires s.cells[(i, me)].outFd != -1 && s.cells[(me, t)].inFd == -1 && s.cells[(me, t)].name == ""
    ensures all == steps + [CheckIn(me, i)] + [Take(me)] + [CheckOut(me, t)] + [Create(me)]
    ensures EndsIn(all, s') && s' == Made(Read(s, me, i), (me, t))
  {
    all := steps + [CheckIn(me, i)] + [Take(me)];
    TakeOpen(steps, s, me, i);
    MakeFree(all, Read(s, me, i), me, t);
    all := all + [CheckOut(me, t)] + [Create(me)];
    s' := Made(Read(s, me, i), (me, t));
  }

  /** One command may read one pipe and write another, as `cat <2 >3` does: if there is a pipe to read,
      and none where it writes, afterwards the first is gone and the second is there. */
  lemma {:induction false} ReadsAndWrites(steps: seq<Step>, s: Shared, me: int, i: int, t: int)
    returns (all: seq<Step>, s': Shared)
    requires EndsIn(steps, s) && IsSlot(me) && IsSlot(i) && IsSlot(t) && s.phases[me] == IDLE
    requires s.cells[(i, me)].outFd != -1 && s.cells[(me, t)].inFd == -1 && s.cells[(me, t)].name == ""
    ensures all == steps + [CheckIn(me, i)] + [Take(me)] + [CheckOut(me, t)] + [Create(me)] + [Erase(me)]
    ensures EndsIn(all, s')
    ensures s' == Made(SetCell(s, (i, me), EMPTY), (me, t)).(files := s.files + {Path((me, t))} - {Path((i, me))})
  {
    OpenIsNamed(s, (i, me));
    all, s' := TakeThenMake(steps, s, me, i, t);
    EraseRead(all, s', me, i);
    AllThree(s, me, i, t);
    all, s' := all + [Erase(me)], Enter(Erased(s', (i, me)), me, IDLE);
  }

  // ---------- the code ----------

  /** The shared memory, and the directory of FIFOs. */
  class Memory {
    const fifo: array2<Cell>
    var files: set<string>
    var phases: seq<Phase>

    ghost function Cells(): map<Key, Cell>
      reads this, fifo
      requires fifo.Length0 == fifo.Length1 == MAX_CLIENTS
    {
      map i: int, j: int | 0 <= i < MAX_CLIENTS && 0 <= j < MAX_CLIENTS :: (i, j) := fifo[i, j]
    }

    ghost function View(): Shared
      reads this, fifo
      requires fifo.Length0 == fifo.Length1 == MAX_CLIENTS
    {
      Shared(Cells(), files, phases)
    }

    constructor ()
      ensures fresh(fifo) && fifo.Length0 == fifo.Length1 == MAX_CLIENTS && View() == Start()
    {
      fifo := new Cell[MAX_CLIENTS, MAX_CLIENTS]((_, _) => EMPTY);
      files, phases := {}, seq(MAX_CLIENTS, _ => Gone);
    }

    /** Makes the FIFO and records its path; the process ends if it is there already. */
    method CreateUserPipe(me: int)
      requires fifo.Length0 == fifo.Length1 == MAX_CLIENTS && Shaped(View()) && May(View(), Create(me))
      modifies this, fifo
      ensures View() == Do(old(View()), Create(me))
    {
      assert PhaseShaped(phases[me]);
      var t := phases[me].check.target;
      var path := Path((me, t));
      if path in files {
        phases := phases[me := Gone];
        return;
      }
      ghost var cells := Cells();
      files := files + {path};
      fifo[me, t] := fifo[me, t].(name := path);
      phases := phases[me := phases[me].(check := NoCheck)];
      assert Cells() == cells[(me, t) := cells[(me, t)].(name := path)];
    }

    method SetUserPipeOut(me: int, target: int, fd: int)
      requires fifo.Length0 == fifo.Length1 == MAX_CLIENTS && Shaped(View()) && May(View(), OpenOut(me, target, fd))
      modifies fifo
      ensures View() == Do(old(View()), OpenOut(me, target, fd))
    {
      ghost var cells := Cells();
      fifo[me, target] := fifo[me, target].(inFd := fd);
      assert Cells() == cells[(me, target) := cells[(me, target)].(inFd := fd)];
    }

    /** Opens what has been made for this client. */
    method OpenFifos(me: int, fds: seq<int>)
      requires fifo.Length0 == fifo.Length1 == MAX_CLIENTS && IsSlot(me) && |fds| == MAX_CLIENTS
      modifies fifo
      ensures forall a, b :: 0 <= a < MAX_CLIENTS && 0 <= b < MAX_CLIENTS ==>
                fifo[a, b] == if b == me then Opened(old(fifo[a, b]), fds[a]) else old(fifo[a, b])
    {
      var i := 0;
      while i < MAX_CLIENTS
        invariant 0 <= i <= MAX_CLIENTS
        invariant forall a, b :: 0 <= a < MAX_CLIENTS && 0 <= b < MAX_CLIENTS ==>
                    fifo[a, b] == if b == me && a < i then Opened(old(fifo[a, b]), fds[a]) else old(fifo[a, b])
      {
        if fifo[i, me].outFd == -1 && fifo[i, me].name != "" {
          fifo[i, me] := fifo[i, me].(outFd := fds[i]);
        }
        i := i + 1;
      }
    }

    /** The handler of SIGUSR2. */
    method SigHandler(me: int, fds: seq<int>)
      requires fifo.Length0 == fifo.Length1 == MAX_CLIENTS && Shaped(View()) && May(View(), Signal(me, fds))
      modifies fifo
      ensures View() == Do(old(View()), Signal(me, fds))
    {
      ghost var cells := Cells();
      OpenFifos(me, fds);
      assert Cells() == OpenColumn(cells, me, fds);
    }

    method GetUserPipeFd(me: int) returns (inFd: int)
      requires fifo.Length0 == fifo.Length1 == MAX_CLIENTS && Inv(View()) && May(View(), Take(me))
      modifies this, fifo
      ensures View() == Do(old(View()), Take(me)) && inFd != -1
    {
      assert PhaseShaped(phases[me]) && PhaseOk(Cells(), me, phases[me]);
      ghost var cells := Cells();
      var i := phases[me].check.source;
      fifo[i, me] := fifo[i, me].(inFd := -1);
      inFd := fifo[i, me].outFd;
      fifo[i, me] := fifo[i, me].(used := true);
      phases := phases[me := Here(NoCheck, Some(i))];
      assert Cells() == cells[(i, me) := cells[(i, me)].(inFd := -1, used := true)];
    }

    method EraseUserPipe(me: int)
      requires fifo.Length0 == fifo.Length1 == MAX_CLIENTS && Shaped(View()) && May(View(), Erase(me))
      modifies this, fifo
      ensures View() == Do(old(View()), Erase(me))
    {
      assert PhaseShaped(phases[me]);
      ghost var cells := Cells();
      var i := phases[me].reading.value;
      phases := phases[me := phases[me].(reading := None)];
      if fifo[i, me].used {
        files := files - {fifo[i, me].name};
        fifo[i, me] := EMPTY;
        assert Cells() == cells[(i, me) := EMPTY];
      }
    }

    /** Clears the pipes this client could read. */
    method ClearFifos(me: int, ghost cells: map<Key, Cell>)
      requires fifo.Length0 == fifo.Length1 == MAX_CLIENTS && IsSlot(me)
      requires forall a, b :: 0 <= a < MAX_CLIENTS && 0 <= b < MAX_CLIENTS ==>
                 (a, b) in cells && cells[(a, b)] == fifo[a, b]
      requires forall k :: k in cells ==> IsKey(k)
      modifies fifo, this`files
      ensures forall a, b :: 0 <= a < MAX_CLIENTS && 0 <= b < MAX_CLIENTS ==>
                fifo[a, b] == if Leaving(me, (a, b), old(fifo[a, b])) then EMPTY else old(fifo[a, b])
      ensures files == old(files) - NamesBelow(cells, me, MAX_CLIENTS)
    {
      var i := 0;
      while i < MAX_CLIENTS
        invariant 0 <= i <= MAX_CLIENTS
        invariant forall a, b :: 0 <= a < MAX_CLIENTS && 0 <= b < MAX_CLIENTS ==>
                    fifo[a, b] == if a < i && Leaving(me, (a, b), old(fifo[a, b])) then EMPTY else old(fifo[a, b])
        invariant files == old(files) - NamesBelow(cells, me, i)
      {
        OneMoreRow(cells, me, i);
        if fifo[i, me].outFd != -1 {
          files := files - {fifo[i, me].name};
          fifo[i, me] := EMPTY;
        }
        i := i + 1;
      }
    }

    /** A client that exits. */
    method ClientExit(me: int)
      requires fifo.Length0 == fifo.Length1 == MAX_CLIENTS && Shaped(View()) && May(View(), LogOut(me))
      modifies this, fifo
      ensures View() == Do(old(View()), LogOut(me))
    {
      ghost var cells := Cells();
      ClearFifos(me, cells);
      phases := phases[me := Gone];
      CellsCleared(cells, Cells(), me);
      AllRows(cells, me);
    }
  }

  lemma {:induction false} CellsCleared(before: map<Key, Cell>, after: map<Key, Cell>, me: int)
    requires forall k :: (k in before <==> IsKey(k)) && (k in after <==> IsKey(k))
    requires forall a, b :: IsKey((a, b)) ==>
               after[(a, b)] == if Leaving(me, (a, b), before[(a, b)]) then EMPTY else before[(a, b)]
    ensures after == ClearColumn(before, me)
  {
    forall k: Key | IsKey(k) ensures after[k] == if Leaving(me, k, before[k]) then EMPTY else before[k] {
      assert k == (k.0, k.1);
    }
  }

  /** The names that leaving clears in the first `i` rows. */
  ghost function NamesBelow(cells: map<Key, Cell>, me: int, i: int): set<string> {
    set k | k in cells && k.0 < i && Leaving(me, k, cells[k]) :: cells[k].name
  }

  lemma {:induction false} AllRows(cells: map<Key, Cell>, me: int)
    requires forall k :: k in cells ==> IsKey(k)
    ensures NamesBelow(cells, me, MAX_CLIENTS) == LeavingNames(cells, me)
  {
  }

  lemma {:induction false} OneMoreRow(cells: map<Key, Cell>, me: int, i: int)
    requires (i, me) in cells
    ensures NamesBelow(cells, me, i + 1)
         == NamesBelow(cells, me, i) + (if cells[(i, me)].outFd != -1 then {cells[(i, me)].name} else {})
  {
    var now, more := NamesBelow(cells, me, i), NamesBelow(cells, me, i + 1);
    forall f | f in more ensures f in now || (cells[(i, me)].outFd != -1 && f == cells[(i, me)].name) {
      var k :| k in cells && k.0 < i + 1 && Leaving(me, k, cells[k]) && cells[k].name == f;
      if k.0 == i { assert k == (i, me); }
    }
    if cells[(i, me)].outFd != -1 { assert Leaving(me, (i, me), cells[(i, me)]); }
  }
}
