/** What one command does to a shell: its pipe vector, its descriptors, and the child it starts. */
module ShellModel {
  import opened Sequences
  import opened Kernel
  import opened ShellSyntax

  /** A pending numbered pipe: write end, read end, commands to go. */
  datatype PipeFd = PipeFd(inFd: int, outFd: int, count: int)

  /** How a command ran. A forked command has a descriptor table of its own. */
  datatype Outcome = BuiltIn | Exited | Forked(table: Table, waits: bool)

  /** One executed command, with the files behind the descriptors it was given; none if closed. */
  datatype Event = Event(args: seq<string>, stdin: Option<File>, stdout: Option<File>, stderr: Option<File>,
                         run: Outcome)

  datatype State = State(pipes: seq<PipeFd>, k: Kernel, log: seq<Event>, alive: bool)

  const WAITING: PipeFd -> bool := (p: PipeFd) => p.count != 0

  /** The write end of the pipe with the given count; a later entry hides an earlier one. */
  function WriteEnd(pipes: seq<PipeFd>, count: int): Option<int> {
    if pipes == [] then None else
      var n := |pipes| - 1;
      if pipes[n].count == count then Some(pipes[n].inFd) else WriteEnd(pipes[..n], count)
  }

  function CreatePipe(s: State, n: int): (State, int) {
    var w := WriteEnd(s.pipes, n);
    if w.Some? then (s, w.value) else
      var (k, rd, wr) := OpenPipe(s.k);
      (s.(pipes := s.pipes + [PipeFd(wr, rd, n)], k := k), wr)
  }

  function OpenRedirect(s: State, name: string, mode: Mode): (State, int) {
    var (k, fd) := OpenFile(s.k, name, mode);
    (s.(k := k), fd)
  }

  /** Opens a command's sink: the state, its output and its error descriptor. */
  function OpenSink(s: State, sink: Sink): (State, int, int) {
    match sink
    case NoSink => (s, 1, 2)
    case PipeTo(n) => var (s', fd) := CreatePipe(s, n); (s', fd, 2)
    case ErrPipeTo(n) => var (s', fd) := CreatePipe(s, n); (s', fd, fd)
    case Into(f) => var (s', fd) := OpenRedirect(s, f, Truncate); (s', fd, 2)
    case Onto(f) => var (s', fd) := OpenRedirect(s, f, Append); (s', fd, 2)
    case BothInto(f) => var (s', fd) := OpenRedirect(s, f, Truncate); (s', fd, fd)
  }

  /** Closes the write ends of the pipes that are due; the last one's read end becomes the input. */
  function Claim(pipes: seq<PipeFd>, t: Table): (Table, int) {
    if pipes == [] then (t, 0) else
      var n := |pipes| - 1;
      var (t', fd) := Claim(pipes[..n], t);
      if pipes[n].count == 0 then (Close(t', pipes[n].inFd), pipes[n].outFd) else (t', fd)
  }

  /** Closes both ends of the pipes that are due. */
  function CloseDue(pipes: seq<PipeFd>, t: Table): Table {
    if pipes == [] then t else
      var n := |pipes| - 1;
      var t' := CloseDue(pipes[..n], t);
      if pipes[n].count == 0 then Close(Close(t', pipes[n].inFd), pipes[n].outFd) else t'
  }

  function Countdown(pipes: seq<PipeFd>): seq<PipeFd> {
    seq(|pipes|, i requires 0 <= i < |pipes| => pipes[i].(count := pipes[i].count - 1))
  }

  /** A child's table once its three descriptors are connected: 0, 1 and 2 are the given files and
      the descriptors they came from are gone. */
  function Connected(t: Table, inFd: int, outFd: int, errFd: int): Table {
    t + Moved(t, inFd, 0) + Moved(t, outFd, 1) + Moved(t, errFd, 2) - ({inFd, outFd, errFd} - {0, 1, 2})
  }

  function Moved(t: Table, from: int, to: int): Table {
    if from in t then map[to := t[from]] else map[]
  }

  function Program(args: seq<string>): string { if args == [] then "" else args[0] }

  predicate IsBuiltIn(prog: string) { prog == "printenv" || prog == "setenv" }

  function RunOf(c: Cmd, t: Table, inFd: int, outFd: int, errFd: int): Outcome {
    var prog := Program(c.args);
    if prog == "exit" then Exited
    else if IsBuiltIn(prog) then BuiltIn
    else Forked(Connected(t, inFd, outFd, errFd), c.lineEnds && !IsPipeSink(c.sink))
  }

  /** The command with everything it has been given; the pipes are as before it. */
  function Started(s: State, c: Cmd): State {
    var (s1, outFd, errFd) := OpenSink(s, c.sink);
    var (t, inFd) := Claim(s1.pipes, s1.k.table);
    var run := RunOf(c, t, inFd, outFd, errFd);
    s1.(k := s1.k.(table := t),
        log := s1.log + [Event(c.args, Look(t, inFd), Look(t, outFd), Look(t, errFd), run)],
        alive := !run.Exited?)
  }

  /** Executes one command and moves the vector on. */
  function Exec(s: State, c: Cmd): State {
    if !s.alive then s else
      var s1 := Started(s, c);
      if !s1.alive then s1 else
        s1.(pipes := Countdown(Filter(WAITING, s1.pipes)), k := s1.k.(table := CloseDue(s1.pipes, s1.k.table)))
  }

  function ExecAll(s: State, cmds: seq<Cmd>): State {
    if cmds == [] then s else Exec(ExecAll(s, cmds[..|cmds| - 1]), cmds[|cmds| - 1])
  }

  lemma {:induction false} ExecAllConcat(s: State, a: seq<Cmd>, b: seq<Cmd>)
    ensures ExecAll(s, a + b) == ExecAll(ExecAll(s, a), b)
  {
    if b == [] {
      assert a + b == a;
    } else {
      var n := |b| - 1;
      ExecAllConcat(s, a, b[..n]);
      assert (a + b)[..|a + b| - 1] == a + b[..n];
    }
  }

  // ---------- descriptors ----------

  predicate IsPipeEnd(f: File) { f.PipeRead? || f.PipeWrite? }

  /** The standard descriptors are open and none of them is one of the shell's pipes. */
  ghost predicate Standard(t: Table) {
    && (forall fd :: fd in t ==> fd >= 0)
    && (forall fd :: 0 <= fd <= 2 ==> fd in t && !IsPipeEnd(t[fd]))
  }

  /** Both ends of the entry are open, on one pipe. */
  ghost predicate Backed(t: Table, p: PipeFd) {
    p.inFd in t && p.outFd in t && t[p.inFd].PipeWrite? && t[p.outFd] == PipeRead(t[p.inFd].pipe)
  }

  ghost function PipeOf(t: Table, p: PipeFd): nat {
    if p.inFd in t && t[p.inFd].PipeWrite? then t[p.inFd].pipe else 0
  }

  ghost predicate AllBacked(t: Table, pipes: seq<PipeFd>, made: nat) {
    forall i :: 0 <= i < |pipes| ==> Backed(t, pipes[i]) && PipeOf(t, pipes[i]) < made
  }

  /** No two entries share a count or a pipe. */
  ghost predicate Separate(t: Table, pipes: seq<PipeFd>) {
    forall i, j :: 0 <= i < j < |pipes| ==>
      pipes[i].count != pipes[j].count && PipeOf(t, pipes[i]) != PipeOf(t, pipes[j])
  }

  /** Every open pipe descriptor belongs to an entry. */
  ghost predicate Tight(t: Table, pipes: seq<PipeFd>) {
    forall fd {:trigger IsEnd(pipes, fd)} :: fd in t && IsPipeEnd(t[fd]) ==> IsEnd(pipes, fd)
  }

  ghost predicate IsEnd(pipes: seq<PipeFd>, fd: int) {
    exists i :: 0 <= i < |pipes| && (pipes[i].inFd == fd || pipes[i].outFd == fd)
  }

  /** The open pipe descriptors are exactly those of the vector, two for each pipe. */
  ghost predicate Inv(s: State) {
    && Standard(s.k.table)
    && AllBacked(s.k.table, s.pipes, s.k.pipes)
    && Separate(s.k.table, s.pipes)
    && Tight(s.k.table, s.pipes)
  }
}
