/** The command line of the multi-user shell, which adds `<`, `>n` and `<n` to the plain shell's. */
module ServerSyntax {
  import opened Sequences
  import opened Decimal
  import Plain = ShellSyntax

  const MAX_CLIENTS := 30

  /** A redirection of the command being collected: `> f`, `< f`, `>n` and `<n`. */
  datatype Op = OutFile(name: string) | InFile(name: string) | ToUser(id: int) | FromUser(id: int)

  /** How a command ends: with the line or the redirections before it, with `|n`, or with `!n`. */
  datatype Sink = NoPipe | OutPipe(n: int) | ErrPipe(n: int)

  datatype Cmd = Cmd(args: seq<string>, ops: seq<Op>, sink: Sink)

  predicate IsUserOut(t: string) { !Plain.IsPipe(t) && !Plain.IsErrPipe(t) && '>' in t && t != ">" }

  predicate IsUserIn(t: string) { !Plain.IsPipe(t) && !Plain.IsErrPipe(t) && '>' !in t && '<' in t && t != "<" }

  /** The user number in a `>n` or `<n` word. */
  function UserNumber(t: string): int
    requires t != ""
  {
    Atoi(t[1..])
  }

  predicate IsUserId(n: int) { 1 <= n <= MAX_CLIENTS }

  /** `tell` and `yell` take the rest of the line. */
  predicate TakesAll(prog: string) { prog == "tell" || prog == "yell" }

  /** What the code demands of a line: pipe and user words fit their buffers, user numbers are slots
      of the table, and `>` and `<` are followed by a file name. */
  predicate Safe(first: bool, ts: seq<string>)
    decreases |ts|
  {
    if ts == [] then true
    else if first then TakesAll(ts[0]) || Safe(false, ts[1..])
    else if Plain.IsPipe(ts[0]) || Plain.IsErrPipe(ts[0]) then |ts[0]| <= 5 && Safe(true, ts[1..])
    else if ts[0] == ">" || ts[0] == "<" then |ts| >= 2 && Safe(false, ts[2..])
    else if IsUserOut(ts[0]) || IsUserIn(ts[0]) then
      1 <= |ts[0]| <= 3 && IsUserId(UserNumber(ts[0])) && Safe(false, ts[1..])
    else Safe(false, ts[1..])
  }

  /** The commands spelled by `ts` when the current one has `args` and `ops` so far. */
  function Parse(args: seq<string>, ops: seq<Op>, ts: seq<string>): seq<Cmd>
    requires Safe(args == [], ts)
    decreases |ts|
  {
    if ts == [] then (if args == [] then [] else [Cmd(args, ops, NoPipe)])
    else if args == [] then
      (if TakesAll(ts[0]) then [Cmd(ts, [], NoPipe)] else Parse([ts[0]], [], ts[1..]))
    else if Plain.IsPipe(ts[0]) then [Cmd(args, ops, OutPipe(Plain.PipeNumber(ts[0])))] + Parse([], [], ts[1..])
    else if Plain.IsErrPipe(ts[0]) then [Cmd(args, ops, ErrPipe(Plain.PipeNumber(ts[0])))] + Parse([], [], ts[1..])
    else if ts[0] == ">" then Parse(args, ops + [OutFile(ts[1])], ts[2..])
    else if ts[0] == "<" then Parse(args, ops + [InFile(ts[1])], ts[2..])
    else if IsUserOut(ts[0]) then Parse(args, ops + [ToUser(UserNumber(ts[0]))], ts[1..])
    else if IsUserIn(ts[0]) then Parse(args, ops + [FromUser(UserNumber(ts[0]))], ts[1..])
    else Parse(args + [ts[0]], ops, ts[1..])
  }

  /** What a built-in command demands of its arguments. */
  predicate SafeArgs(args: seq<string>) {
    && args != []
    && (args[0] == "setenv" ==> |args| >= 3)
    && (args[0] == "printenv" || args[0] == "name" || args[0] == "yell" ==> |args| >= 2)
    && (args[0] == "tell" ==> |args| >= 3 && IsUserId(Atoi(args[1])))
  }

  predicate SafeOp(op: Op) { op.ToUser? || op.FromUser? ==> IsUserId(op.id) }

  predicate SafeCmd(c: Cmd) {
    SafeArgs(c.args) && forall i :: 0 <= i < |c.ops| ==> SafeOp(c.ops[i])
  }

  predicate SafeLine(line: string) {
    var ts := Plain.Words(line);
    Safe(true, ts) && (var cmds := Parse([], [], ts); forall i :: 0 <= i < |cmds| ==> SafeCmd(cmds[i]))
  }

  function CmdsOf(line: string): seq<Cmd>
    requires SafeLine(line)
  {
    Parse([], [], Plain.Words(line))
  }

  predicate IsUserOp(op: Op) { op.ToUser? || op.FromUser? }

  function SinkNumber(s: Sink): Option<int> {
    if s.NoPipe? then None else Some(s.n)
  }
}
