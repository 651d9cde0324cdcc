/** The first numbered-pipe shell, statement by statement, proved against
    `ShellModel`. */
module Shell {
  import opened Sequences
  import opened Kernel
  import opened ShellSyntax
  import opened ShellModel
  import opened ShellDescriptors
  import Decimal

  /** `ConnectPipeFd`, in the child: moves the three descriptors to 0, 1 and 2. */
  method ConnectPipeFd(t: Table, inFd: int, outFd: int, errFd: int) returns (child: Table)
    requires Usable(inFd, 0) && Usable(outFd, 1) && Usable(errFd, 2)
    ensures child == Connected(t, inFd, outFd, errFd)
  {
    child := t;
    if inFd != 0 { child := Dup2(child, inFd, 0); }
    if outFd != 1 { child := Dup2(child, outFd, 1); }
    if errFd != 2 { child := Dup2(child, errFd, 2); }
    MoveAllThree(t, inFd, outFd, errFd);
    CloseAllThree(child, inFd, outFd, errFd);
    if inFd != 0 { child := Close(child, inFd); }
    if outFd != 1 { child := Close(child, outFd); }
    if errFd != 2 { child := Close(child, errFd); }
  }

  lemma {:induction false} MoveOne(t: Table, now: Table, fd: int, std: int)
    requires (fd in t <==> fd in now) && (fd in t ==> now[fd] == t[fd])
    ensures (if fd != std then Dup2(now, fd, std) else now) == now + Moved(t, fd, std)
  {
  }

  lemma {:induction false} MoveAllThree(t: Table, inFd: int, outFd: int, errFd: int)
    requires Usable(inFd, 0) && Usable(outFd, 1) && Usable(errFd, 2)
    ensures var a := if inFd != 0 then Dup2(t, inFd, 0) else t;
            var b := if outFd != 1 then Dup2(a, outFd, 1) else a;
            var c := if errFd != 2 then Dup2(b, errFd, 2) else b;
            c == t + Moved(t, inFd, 0) + Moved(t, outFd, 1) + Moved(t, errFd, 2)
  {
    var a := t + Moved(t, inFd, 0);
    MoveOne(t, t, inFd, 0);
    MoveOne(t, a, outFd, 1);
    MoveOne(t, a + Moved(t, outFd, 1), errFd, 2);
  }

  lemma {:induction false} CloseOne(t: Table, fd: int, std: int)
    requires Usable(fd, std) && 0 <= std <= 2
    ensures (if fd != std then Close(t, fd) else t) == t - ({fd} - {0, 1, 2})
  {
  }

  lemma {:induction false} CloseAllThree(t: Table, inFd: int, outFd: int, errFd: int)
    requires Usable(inFd, 0) && Usable(outFd, 1) && Usable(errFd, 2)
    ensures var a := if inFd != 0 then Close(t, inFd) else t;
            var b := if outFd != 1 then Close(a, outFd) else a;
            (if errFd != 2 then Close(b, errFd) else b) == t - ({inFd, outFd, errFd} - {0, 1, 2})
  {
    var a, b := t - ({inFd} - {0, 1, 2}), {outFd} - {0, 1, 2};
    CloseOne(t, inFd, 0);
    CloseOne(a, outFd, 1);
    CloseOne(a - b, errFd, 2);
    assert {inFd, outFd, errFd} - {0, 1, 2} == ({inFd} - {0, 1, 2}) + b + ({errFd} - {0, 1, 2});
  }

  /** Splits a line at its white space. */
  method ReadWords(line: string) returns (words: seq<string>)
    ensures words == Words(line)
  {
    words := [];
    var i := 0;
    assert line[0..] == line;
    while i < |line|
      invariant 0 <= i <= |line|
      invariant words + Words(line[i..]) == Words(line)
    {
      if Decimal.IsSpace(line[i]) {
        assert line[i..][1..] == line[i + 1..];
        i := i + 1;
      } else {
        var j := i + 1;
        while j < |line| && !Decimal.IsSpace(line[j])
          invariant i < j <= |line|
          invariant forall x :: i <= x < j ==> !Decimal.IsSpace(line[x])
        {
          j := j + 1;
        }
        WordAt(line, i, j);
        Regroup(words, [line[i..j]], Words(line[j..]));
        words := words + [line[i..j]];
        i := j;
      }
    }
    assert line[i..] == "";
  }

  lemma {:induction false} WordAt(line: string, i: nat, j: nat)
    requires i < j <= |line| && (forall x :: i <= x < j ==> !Decimal.IsSpace(line[x]))
    requires j < |line| ==> Decimal.IsSpace(line[j])
    ensures Words(line[i..]) == [line[i..j]] + Words(line[j..])
  {
    assert line[i..] == line[i..j] + line[j..];
    HeadOfWord(line[i..j], line[j..]);
    assert line[i..][j - i..] == line[j..];
  }

  class Shell {
    var line: string
    var cmds: seq<string>
    var pipes: seq<PipeFd>
    var k: Kernel
    var log: seq<Event>
    var alive: bool

    function View(): State
      reads this
    {
      State(pipes, k, log, alive)
    }

    constructor (k: Kernel)
      ensures View() == State([], k, [], true) && cmds == []
    {
      line, cmds, pipes, log, alive := "", [], [], [], true;
      this.k := k;
    }

    /** Appends the words of the line to the queue. */
    method ParseArgs()
      modifies this`cmds
      ensures cmds == old(cmds) + Words(line)
    {
      var words := ReadWords(line);
      cmds := cmds + words;
    }

    /** The number in a pipe word, by way of a five-character buffer. */
    static method DecodePipe(word: string) returns (n: int)
      requires 1 <= |word| <= 5
      ensures n == PipeNumber(word)
    {
      if |word| == 1 { return 1; }
      var buffer := new char[5](_ => '\0');
      var i := 1;
      while i < |word|
        invariant 1 <= i <= |word|
        invariant buffer[..i - 1] == word[1..i]
      {
        buffer[i - 1] := word[i];
        buffer[i] := '\0';
        i := i + 1;
      }
      assert word[1..] == word[1..i];
      n := Decimal.Atoi(buffer[..i - 1]);
    }

    /** Reuses the pipe with this count, or opens one; its write end becomes the output. */
    method CreatePipe(n: int) returns (fd: int)
      modifies this`pipes, this`k
      ensures (View(), fd) == ShellModel.CreatePipe(old(View()), n)
    {
      var found := false;
      var i := 0;
      fd := 0;
      assert pipes[..|pipes|] == pipes;
      while i < |pipes|
        invariant 0 <= i <= |pipes|
        invariant WriteEnd(pipes[..i], n) == if found then Some(fd) else None
      {
        assert pipes[..i + 1][..i] == pipes[..i];
        if pipes[i].count == n {
          found := true;
          fd := pipes[i].inFd;
        }
        i := i + 1;
      }
      if found { return; }
      var (k', rd, wr) := OpenPipe(k);
      k := k';
      pipes := pipes + [PipeFd(wr, rd, n)];
      fd := wr;
    }

    method CountdownPipeVector()
      modifies this`pipes
      ensures pipes == Countdown(old(pipes))
    {
      var i := 0;
      while i < |pipes|
        invariant 0 <= i <= |pipes| == |old(pipes)|
        invariant forall j :: 0 <= j < i ==> pipes[j] == Countdown(old(pipes))[j]
        invariant forall j :: i <= j < |pipes| ==> pipes[j] == old(pipes)[j]
      {
        pipes := pipes[i := pipes[i].(count := pipes[i].count - 1)];
        i := i + 1;
      }
    }

    /** Closes and removes, in place, the pipes whose time has come. */
    method ErasePipeVector()
      modifies this`pipes, this`k
      ensures pipes == Filter(WAITING, old(pipes))
      ensures k == old(k).(table := CloseDue(old(pipes), old(k).table))
    {
      ghost var all, seen := pipes, 0;
      var i := 0;
      while i < |pipes|
        invariant 0 <= seen <= |all|
        invariant i == |Filter(WAITING, all[..seen])|
        invariant pipes == Filter(WAITING, all[..seen]) + all[seen..]
        invariant k == old(k).(table := CloseDue(all[..seen], old(k).table))
        decreases |all| - seen
      {
        FilterStep(WAITING, all, seen);
        EraseOrPass(Filter(WAITING, all[..seen]), all, seen);
        CloseDueStep(all, old(k).table, seen);
        var p := pipes[i];
        if p.count == 0 {
          k := k.(table := Close(Close(k.table, p.inFd), p.outFd));
          pipes := pipes[..i] + pipes[i + 1..];
        } else {
          i := i + 1;
        }
        seen := seen + 1;
      }
      assert seen == |all| && all[..seen] == all;
      assert pipes == Filter(WAITING, all);
    }

    /** The pipe that is due becomes the input, and its write end is closed. */
    method GetPipeFd() returns (inFd: int)
      modifies this`k
      ensures (k, inFd) == (old(k).(table := Claim(pipes, old(k).table).0), Claim(pipes, old(k).table).1)
    {
      inFd := 0;
      var i := 0;
      assert pipes[..|pipes|] == pipes;
      while i < |pipes|
        invariant 0 <= i <= |pipes|
        invariant k == old(k).(table := Claim(pipes[..i], old(k).table).0)
        invariant inFd == Claim(pipes[..i], old(k).table).1
      {
        assert pipes[..i + 1][..i] == pipes[..i];
        if pipes[i].count == 0 {
          k := k.(table := Close(k.table, pipes[i].inFd));
          inFd := pipes[i].outFd;
        }
        i := i + 1;
      }
    }

    method Open(name: string, mode: Mode) returns (fd: int)
      modifies this`k
      ensures (View(), fd) == ShellModel.OpenRedirect(old(View()), name, mode)
    {
      var (k', f) := OpenFile(k, name, mode);
      k := k';
      fd := f;
    }

    /** Runs one command: in the shell itself, by leaving it, or in a child. */
    method ExecCmd(args: seq<string>, inFd: int, outFd: int, errFd: int, lineEnds: bool, usingPipe: bool)
      requires args != []
      requires Usable(inFd, 0) && Usable(outFd, 1) && Usable(errFd, 2)
      modifies this`log, this`alive
      ensures var t := k.table;
              var prog := args[0];
              var run := if prog == "exit" then Exited else if IsBuiltIn(prog) then BuiltIn
                         else Forked(Connected(t, inFd, outFd, errFd), lineEnds && !usingPipe);
              && log == old(log) + [Event(args, Look(t, inFd), Look(t, outFd), Look(t, errFd), run)]
              && alive == (old(alive) && prog != "exit")
    {
      var prog := args[0];
      var run: Outcome;
      if prog == "printenv" || prog == "setenv" {
        run := BuiltIn;
      } else if prog == "exit" {
        run := Exited;
        alive := false;
      } else {
        var child := ConnectPipeFd(k.table, inFd, outFd, errFd);
        run := Forked(child, lineEnds && !usingPipe);
      }
      log := log + [Event(args, Look(k.table, inFd), Look(k.table, outFd), Look(k.table, errFd), run)];
    }

    /** Runs a command whose sink is open and moves the pipes on. */
    method Execute(args: seq<string>, outFd: int, errFd: int, lineEnds: bool, usingPipe: bool,
                   ghost s0: State, ghost done: seq<Cmd>, ghost sink: Sink)
      requires args != [] && usingPipe == IsPipeSink(sink) && Inv(s0)
      requires ExecAll(s0, done).alive && (View(), outFd, errFd) == OpenSink(ExecAll(s0, done), sink)
      modifies this`pipes, this`k, this`log, this`alive
      ensures View() == ExecAll(s0, done + [Cmd(args, sink, lineEnds)])
    {
      ghost var s, c := ExecAll(s0, done), Cmd(args, sink, lineEnds);
      DescriptorsConserved(s0, done);
      OneMore(s0, done, c);
      OpenSinkKeeps(s, sink);
      InFdUsable(View());
      var inFd := GetPipeFd();
      ExecCmd(args, inFd, outFd, errFd, lineEnds, usingPipe);
      assert View() == Started(s, c);
      if !alive { return; }
      ErasePipeVector();
      CountdownPipeVector();
    }

    /** Opens the sink spelled by the next words and takes them off the queue. */
    method TakeSink() returns (outFd: int, errFd: int, usingPipe: bool, ghost sink: Sink)
      requires alive && cmds != [] && Safe(false, cmds) && !IsArgument(cmds[0])
      modifies this`cmds, this`pipes, this`k
      ensures (View(), outFd, errFd) == OpenSink(old(View()), sink) && usingPipe == IsPipeSink(sink)
      ensures |cmds| < |old(cmds)| && Safe(true, cmds)
      ensures forall args :: args != [] ==>
                Parse(args, old(cmds)) == [Cmd(args, sink, cmds == [])] + Parse([], cmds)
    {
      outFd, errFd, usingPipe := 1, 2, false;
      if IsPipe(cmds[0]) {
        var n := DecodePipe(cmds[0]);
        sink := PipeTo(n);
        outFd := CreatePipe(n);
        usingPipe := true;
        cmds := cmds[1..];
      } else if IsErrPipe(cmds[0]) {
        var n := DecodePipe(cmds[0]);
        sink := ErrPipeTo(n);
        outFd := CreatePipe(n);
        errFd := outFd;
        usingPipe := true;
        cmds := cmds[1..];
      } else if cmds[0] == ">" {
        sink := Into(cmds[1]);
        outFd := Open(cmds[1], Truncate);
        cmds := cmds[2..];
      } else if cmds[0] == ">>" {
        sink := Onto(cmds[1]);
        outFd := Open(cmds[1], Append);
        cmds := cmds[2..];
      } else {
        sink := BothInto(cmds[1]);
        outFd := Open(cmds[1], Truncate);
        errFd := outFd;
        cmds := cmds[2..];
      }
    }

    /** Takes the next word, with its file name if it has one: an argument, or the command's sink. */
    method ReadWord(first: bool, args0: seq<string>, ghost all: seq<Cmd>, ghost done: seq<Cmd>)
      returns (args: seq<string>, isFinal: bool, outFd: int, errFd: int, usingPipe: bool, ghost sink: Sink)
      requires alive && cmds != [] && Collecting(all, done, first, args0, cmds)
      modifies this`cmds, this`pipes, this`k
      ensures |cmds| < |old(cmds)| && args != [] && (isFinal || cmds != [])
      ensures (View(), outFd, errFd) == OpenSink(old(View()), sink) && usingPipe == IsPipeSink(sink)
      ensures if isFinal then Complete(all, done, Cmd(args, sink, cmds == []), cmds)
              else sink == NoSink && Collecting(all, done, false, args, cmds)
    {
      outFd, errFd, usingPipe, sink := 1, 2, false, NoSink;
      if first {
        FirstWord(all, done, args0, cmds);
        args := [cmds[0]];
        cmds := cmds[1..];
        isFinal := cmds == [];
      } else if !IsArgument(cmds[0]) {
        args := args0;
        outFd, errFd, usingPipe, sink := TakeSink();
        isFinal := true;
      } else {
        Argument(all, done, args0, cmds);
        args := args0 + [cmds[0]];
        cmds := cmds[1..];
        isFinal := cmds == [];
      }
    }

    /** Executes the queue of words: exactly the commands they spell, in order. */
    method ExecCmds()
      requires alive && Safe(true, cmds) && Inv(View())
      modifies this
      ensures View() == ExecAll(old(View()), Parse([], old(cmds)))
      ensures alive ==> cmds == []
    {
      ghost var all, done: seq<Cmd> := Parse([], cmds), [];
      ghost var s0 := View();
      var isFirst, isFinal, lineEnds := true, false, false;
      var args: seq<string> := [];
      while cmds != []
        invariant alive && !isFinal && (lineEnds ==> cmds == [])
        invariant View() == ExecAll(s0, done)
        invariant if cmds == [] then done == all else Collecting(all, done, isFirst, args, cmds)
        decreases |cmds|
      {
        ghost var sink;
        var outFd, errFd, usingPipe;
        args, isFinal, outFd, errFd, usingPipe, sink := ReadWord(isFirst, args, all, done);
        isFirst := false;
        if cmds == [] { lineEnds := true; }
        if isFinal {
          ghost var c := Cmd(args, sink, lineEnds);
          Finished(all, done, c, cmds);
          Execute(args, outFd, errFd, lineEnds, usingPipe, s0, done, sink);
          done := done + [c];
          isFirst, isFinal := true, false;
          if !alive {
            DeadRun(s0, done, Parse([], cmds));
            return;
          }
        }
      }
    }
  }

  /** What is left of the line: the command being collected and the words in the queue. */
  ghost predicate Collecting(all: seq<Cmd>, done: seq<Cmd>, isFirst: bool, args: seq<string>, words: seq<string>) {
    && Safe(isFirst, words) && (isFirst || args != [])
    && all == done + Parse(if isFirst then [] else args, words)
  }

  /** A command has been read to its end. */
  ghost predicate Complete(all: seq<Cmd>, done: seq<Cmd>, c: Cmd, words: seq<string>) {
    Safe(true, words) && all == done + ([c] + Parse([], words))
  }

  lemma {:induction false} FirstWord(all: seq<Cmd>, done: seq<Cmd>, args: seq<string>, words: seq<string>)
    requires words != [] && Collecting(all, done, true, args, words)
    ensures if words[1..] == [] then Complete(all, done, Cmd([words[0]], NoSink, true), words[1..])
            else Collecting(all, done, false, [words[0]], words[1..])
  {
    assert Parse([], words) == Parse([words[0]], words[1..]);
    if words[1..] == [] {
      assert [Cmd([words[0]], NoSink, true)] + Parse([], words[1..]) == [Cmd([words[0]], NoSink, true)];
    }
  }

  lemma {:induction false} Argument(all: seq<Cmd>, done: seq<Cmd>, args: seq<string>, words: seq<string>)
    requires words != [] && Collecting(all, done, false, args, words) && IsArgument(words[0])
    ensures if words[1..] == [] then Complete(all, done, Cmd(args + [words[0]], NoSink, true), words[1..])
            else Collecting(all, done, false, args + [words[0]], words[1..])
  {
    var args' := args + [words[0]];
    assert Parse(args, words) == Parse(args', words[1..]);
    if words[1..] == [] { assert [Cmd(args', NoSink, true)] + Parse([], words[1..]) == [Cmd(args', NoSink, true)]; }
  }

  /** A complete command is executed next. */
  lemma {:induction false} Finished(all: seq<Cmd>, done: seq<Cmd>, c: Cmd, words: seq<string>)
    requires Complete(all, done, c, words)
    ensures all == (done + [c]) + Parse([], words)
    ensures if words == [] then done + [c] == all else Collecting(all, done + [c], true, [], words)
  {
  }

  lemma {:induction false} OneMore(s0: State, done: seq<Cmd>, c: Cmd)
    ensures ExecAll(s0, done + [c]) == Exec(ExecAll(s0, done), c)
  {
    assert (done + [c])[..|done|] == done;
  }

  lemma {:induction false} CloseDueStep(pipes: seq<PipeFd>, t: Table, n: nat)
    requires n < |pipes|
    ensures var t' := CloseDue(pipes[..n], t);
            CloseDue(pipes[..n + 1], t) ==
              if pipes[n].count == 0 then Close(Close(t', pipes[n].inFd), pipes[n].outFd) else t'
  {
    assert pipes[..n + 1][..n] == pipes[..n];
  }

  lemma {:induction false} InFdUsable(s1: State)
    requires Inv(s1)
    ensures Usable(Claim(s1.pipes, s1.k.table).1, 0)
  {
    var pipes := s1.pipes;
    if k: nat :| k < |pipes| && pipes[k].count == 0 {
      assert forall i :: 0 <= i < |pipes| && i != k ==> pipes[i].count != 0;
      ClaimOne(pipes, s1.k.table, k);
      assert Backed(s1.k.table, pipes[k]);
    } else {
      ClaimNone(pipes, s1.k.table);
    }
  }

  lemma {:induction false} DeadRun(s: State, done: seq<Cmd>, rest: seq<Cmd>)
    requires !ExecAll(s, done).alive
    ensures ExecAll(s, done + rest) == ExecAll(s, done)
  {
    ExecAllConcat(s, done, rest);
    DeadIsDone(ExecAll(s, done), rest);
  }

  lemma {:induction false} DeadIsDone(s: State, cmds: seq<Cmd>)
    requires !s.alive
    ensures ExecAll(s, cmds) == s
  {
    if cmds != [] { DeadIsDone(s, cmds[..|cmds| - 1]); }
  }
}
