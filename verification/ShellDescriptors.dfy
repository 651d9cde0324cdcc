/** The shell's descriptor discipline: between commands the open pipe descriptors are exactly those
    of the vector, and every child gets the three files it was promised. */
module ShellDescriptors {
  import opened Sequences
  import opened Kernel
  import opened ShellSyntax
  import opened ShellModel

  lemma {:induction false} ClaimNone(pipes: seq<PipeFd>, t: Table)
    requires forall i :: 0 <= i < |pipes| ==> pipes[i].count != 0
    ensures Claim(pipes, t) == (t, 0) && CloseDue(pipes, t) == t && Filter(WAITING, pipes) == pipes
  {
    FilterKeepsAll(WAITING, pipes);
    if pipes != [] { ClaimNone(pipes[..|pipes| - 1], t); }
  }

  /** With one pipe due, that pipe is claimed, closed and dropped. */
  lemma {:induction false} ClaimOne(pipes: seq<PipeFd>, t: Table, k: nat)
    requires k < |pipes| && pipes[k].count == 0
    requires forall i :: 0 <= i < |pipes| && i != k ==> pipes[i].count != 0
    ensures Claim(pipes, t) == (t - {pipes[k].inFd}, pipes[k].outFd)
    ensures CloseDue(pipes, t) == t - {pipes[k].inFd} - {pipes[k].outFd}
    ensures Filter(WAITING, pipes) == pipes[..k] + pipes[k + 1..]
  {
    var n := |pipes| - 1;
    FilterDropsOne(WAITING, pipes, k);
    if k == n { ClaimNone(pipes[..n], t); } else { ClaimOne(pipes[..n], t, k); }
  }

  /** Closing the claimed write end again closes nothing. */
  lemma {:induction false} DueIsClosedOnce(pipes: seq<PipeFd>, t: Table, k: nat)
    requires k < |pipes| && pipes[k].count == 0
    requires forall i :: 0 <= i < |pipes| && i != k ==> pipes[i].count != 0
    ensures CloseDue(pipes, Claim(pipes, t).0) == t - {pipes[k].inFd} - {pipes[k].outFd}
    ensures pipes[k].inFd !in Claim(pipes, t).0
  {
    ClaimOne(pipes, t, k);
    ClaimOne(pipes, Claim(pipes, t).0, k);
    assert t - {pipes[k].inFd} - {pipes[k].inFd} == t - {pipes[k].inFd};
  }

  lemma {:induction false} WriteEndFinds(pipes: seq<PipeFd>, count: int)
    ensures var w := WriteEnd(pipes, count);
            && (w.None? <==> forall i :: 0 <= i < |pipes| ==> pipes[i].count != count)
            && (w.Some? ==> exists i :: 0 <= i < |pipes| && pipes[i].count == count && pipes[i].inFd == w.value)
  {
    if pipes != [] { WriteEndFinds(pipes[..|pipes| - 1], count); }
  }

  /** A descriptor on which a file may be handed to a child. */
  ghost predicate Usable(fd: int, std: int) { fd == std || fd > 2 || fd < 0 }

  ghost predicate Extends(t: Table, t': Table) {
    forall f :: f in t ==> f in t' && t'[f] == t[f]
  }

  lemma {:induction false} BackedInLarger(t: Table, t': Table, pipes: seq<PipeFd>, made: nat)
    requires Extends(t, t') && AllBacked(t, pipes, made)
    ensures AllBacked(t', pipes, made)
    ensures forall i :: 0 <= i < |pipes| ==> PipeOf(t', pipes[i]) == PipeOf(t, pipes[i])
  {
    forall i | 0 <= i < |pipes| ensures Backed(t', pipes[i]) && PipeOf(t', pipes[i]) == PipeOf(t, pipes[i]) {
      assert Backed(t, pipes[i]);
    }
  }

  /** A new pipe on two descriptors that were free. */
  lemma {:induction false} PushKeeps(s: State, p: PipeFd)
    requires Inv(s)
    requires p.inFd > 2 && p.outFd > 2 && p.inFd != p.outFd && p.inFd !in s.k.table && p.outFd !in s.k.table
    requires forall i :: 0 <= i < |s.pipes| ==> s.pipes[i].count != p.count
    ensures var t' := s.k.table[p.outFd := PipeRead(s.k.pipes)][p.inFd := PipeWrite(s.k.pipes)];
            Inv(s.(pipes := s.pipes + [p], k := s.k.(table := t', pipes := s.k.pipes + 1)))
  {
    var t := s.k.table;
    var t' := t[p.outFd := PipeRead(s.k.pipes)][p.inFd := PipeWrite(s.k.pipes)];
    var pipes := s.pipes + [p];
    BackedInLarger(t, t', s.pipes, s.k.pipes);
    assert Backed(t', p) && PipeOf(t', p) == s.k.pipes;
    assert AllBacked(t', pipes, s.k.pipes + 1);
    assert Separate(t', pipes);
    forall fd | fd in t' && IsPipeEnd(t'[fd]) ensures IsEnd(pipes, fd) {
      if fd in t {
        assert IsEnd(s.pipes, fd);
        var i :| 0 <= i < |s.pipes| && (s.pipes[i].inFd == fd || s.pipes[i].outFd == fd);
        assert pipes[i] == s.pipes[i];
      } else {
        assert pipes[|s.pipes|] == p;
      }
    }
  }

  lemma {:induction false} CreatePipeKeeps(s: State, n: int)
    requires Inv(s)
    ensures var (s', fd) := CreatePipe(s, n);
            && Inv(s') && fd > 2
            && s'.log == s.log && s'.alive == s.alive
            && fd in s'.k.table && s'.k.table[fd].PipeWrite?
            && (exists i :: 0 <= i < |s'.pipes| && s'.pipes[i].count == n && s'.pipes[i].inFd == fd)
            && Extends(s.k.table, s'.k.table)
  {
    WriteEndFinds(s.pipes, n);
    var (s', fd) := CreatePipe(s, n);
    if WriteEnd(s.pipes, n).None? {
      var p := s'.pipes[|s.pipes|];
      assert p.inFd > 2 && p.outFd > 2;
      PushKeeps(s, p);
    } else {
      var i :| 0 <= i < |s.pipes| && s.pipes[i].count == n && s.pipes[i].inFd == fd;
      assert Backed(s.k.table, s.pipes[i]);
    }
  }

  lemma {:induction false} OpenRedirectKeeps(s: State, name: string, mode: Mode)
    requires Inv(s)
    ensures var (s', fd) := OpenRedirect(s, name, mode);
            && Inv(s') && (fd > 2 || fd == -1)
            && s'.pipes == s.pipes && s'.log == s.log && s'.alive == s.alive && s'.k.pipes == s.k.pipes
            && (if s.k.opens in s.k.denied then fd !in s'.k.table
                else fd in s'.k.table && s'.k.table[fd] == Disk(name, mode))
            && Extends(s.k.table, s'.k.table)
  {
    var (s', fd) := OpenRedirect(s, name, mode);
    BackedInLarger(s.k.table, s'.k.table, s.pipes, s.k.pipes);
  }

  lemma {:induction false} OpenSinkKeeps(s: State, sink: Sink)
    requires Inv(s)
    ensures var (s1, outFd, errFd) := OpenSink(s, sink);
            && Inv(s1) && s1.log == s.log && s1.alive == s.alive
            && Usable(outFd, 1) && Usable(errFd, 2) && (errFd == 2 || errFd == outFd)
            && Extends(s.k.table, s1.k.table)
            && (IsPipeSink(sink) ==>
                  && outFd > 2 && outFd in s1.k.table && s1.k.table[outFd].PipeWrite?
                  && (exists i :: 0 <= i < |s1.pipes| && s1.pipes[i].count == sink.n && s1.pipes[i].inFd == outFd))
  {
    match sink
    case NoSink =>
    case PipeTo(n) => CreatePipeKeeps(s, n);
    case ErrPipeTo(n) => CreatePipeKeeps(s, n);
    case Into(f) => OpenRedirectKeeps(s, f, Truncate);
    case Onto(f) => OpenRedirectKeeps(s, f, Append);
    case BothInto(f) => OpenRedirectKeeps(s, f, Truncate);
  }

  function Without(pipes: seq<PipeFd>, k: nat): (r: seq<PipeFd>)
    requires k < |pipes|
    ensures |r| == |pipes| - 1
    ensures forall i :: 0 <= i < |r| ==> r[i] == pipes[if i < k then i else i + 1]
  {
    pipes[..k] + pipes[k + 1..]
  }

  /** A pipe's descriptors belong to no other entry. */
  lemma {:induction false} EndsApart(t: Table, pipes: seq<PipeFd>, made: nat, i: nat, k: nat)
    requires AllBacked(t, pipes, made) && Separate(t, pipes)
    requires i < |pipes| && k < |pipes| && i != k
    ensures {pipes[i].inFd, pipes[i].outFd} !! {pipes[k].inFd, pipes[k].outFd}
  {
    assert Backed(t, pipes[i]) && Backed(t, pipes[k]);
    assert PipeOf(t, pipes[if i < k then i else k]) != PipeOf(t, pipes[if i < k then k else i]);
  }

  lemma {:induction false} BackedElsewhere(t: Table, pipes: seq<PipeFd>, made: nat, i: nat, k: nat)
    requires AllBacked(t, pipes, made) && Separate(t, pipes)
    requires i < |pipes| && k < |pipes| && i != k
    ensures var t' := t - {pipes[k].inFd} - {pipes[k].outFd};
            Backed(t', pipes[i]) && PipeOf(t', pipes[i]) == PipeOf(t, pipes[i])
  {
    EndsApart(t, pipes, made, i, k);
    assert Backed(t, pipes[i]);
  }

  lemma {:induction false} DropBacked(t: Table, pipes: seq<PipeFd>, made: nat, k: nat, t': Table)
    requires AllBacked(t, pipes, made) && Separate(t, pipes) && k < |pipes|
    requires t' == t - {pipes[k].inFd} - {pipes[k].outFd}
    ensures AllBacked(t', Without(pipes, k), made) && Separate(t', Without(pipes, k))
  {
    var rest := Without(pipes, k);
    forall i | 0 <= i < |rest|
      ensures Backed(t', rest[i]) && PipeOf(t', rest[i]) == PipeOf(t, rest[i]) && PipeOf(t, rest[i]) < made
    {
      var i' := if i < k then i else i + 1;
      BackedElsewhere(t, pipes, made, i', k);
    }
    forall i, j | 0 <= i < j < |rest|
      ensures rest[i].count != rest[j].count && PipeOf(t', rest[i]) != PipeOf(t', rest[j])
    {
      assert rest[i] == pipes[if i < k then i else i + 1] && rest[j] == pipes[if j < k then j else j + 1];
    }
  }

  lemma {:induction false} DropTight(t: Table, pipes: seq<PipeFd>, k: nat, t': Table)
    requires Tight(t, pipes) && k < |pipes| && t' == t - {pipes[k].inFd} - {pipes[k].outFd}
    ensures Tight(t', Without(pipes, k))
  {
    var rest := Without(pipes, k);
    forall fd | fd in t' && IsPipeEnd(t'[fd]) ensures IsEnd(rest, fd) {
      assert IsEnd(pipes, fd);
      var i :| 0 <= i < |pipes| && (pipes[i].inFd == fd || pipes[i].outFd == fd);
      assert rest[if i < k then i else i - 1] == pipes[i];
    }
  }

  /** Dropping a pipe together with its two descriptors. */
  lemma {:induction false} DropKeeps(s: State, k: nat)
    requires Inv(s) && k < |s.pipes|
    ensures var p := s.pipes[k];
            Inv(s.(pipes := Without(s.pipes, k), k := s.k.(table := s.k.table - {p.inFd} - {p.outFd})))
  {
    var p, t := s.pipes[k], s.k.table;
    var t' := t - {p.inFd} - {p.outFd};
    DropBacked(t, s.pipes, s.k.pipes, k, t');
    DropTight(t, s.pipes, k, t');
    assert Backed(t, p);
  }

  lemma {:induction false} CountdownKeeps(s: State)
    requires Inv(s)
    ensures Inv(s.(pipes := Countdown(s.pipes)))
  {
    var t, after := s.k.table, Countdown(s.pipes);
    forall i | 0 <= i < |after| ensures Backed(t, after[i]) && PipeOf(t, after[i]) == PipeOf(t, s.pipes[i]) {
      assert Backed(t, s.pipes[i]);
    }
    forall fd | fd in t && IsPipeEnd(t[fd]) ensures IsEnd(after, fd) {
      assert IsEnd(s.pipes, fd);
      var i :| 0 <= i < |s.pipes| && (s.pipes[i].inFd == fd || s.pipes[i].outFd == fd);
      assert after[i].inFd == s.pipes[i].inFd && after[i].outFd == s.pipes[i].outFd;
    }
  }

  /** The state a command leaves, given what its sink opened. */
  lemma {:induction false} Finish(s1: State, t: Table, inFd: int)
    requires Inv(s1) && (t, inFd) == Claim(s1.pipes, s1.k.table)
    ensures Inv(s1.(pipes := Countdown(Filter(WAITING, s1.pipes)), k := s1.k.(table := CloseDue(s1.pipes, t))))
  {
    var pipes, t0 := s1.pipes, s1.k.table;
    if k :| 0 <= k < |pipes| && pipes[k].count == 0 {
      assert forall i :: 0 <= i < |pipes| && i != k ==> pipes[i].count != 0;
      ClaimOne(pipes, t0, k);
      DueIsClosedOnce(pipes, t0, k);
      DropKeeps(s1, k);
      CountdownKeeps(s1.(pipes := Without(pipes, k), k := s1.k.(table := t - {pipes[k].outFd})));
    } else {
      ClaimNone(pipes, t0);
      CountdownKeeps(s1);
    }
  }

  /** Every command keeps the pipe descriptors in step with the vector. */
  lemma {:induction false} ExecKeepsInv(s: State, c: Cmd)
    requires s.alive && Inv(s)
    ensures Exec(s, c).alive ==> Inv(Exec(s, c))
  {
    OpenSinkKeeps(s, c.sink);
    var s1 := OpenSink(s, c.sink).0;
    var (t, inFd) := Claim(s1.pipes, s1.k.table);
    Finish(s1.(log := Started(s, c).log), t, inFd);
  }

  /** On every run, as long as the shell is up. */
  lemma {:induction false} DescriptorsConserved(s: State, cmds: seq<Cmd>)
    requires Inv(s)
    ensures ExecAll(s, cmds).alive ==> Inv(ExecAll(s, cmds))
  {
    if cmds != [] {
      var n := |cmds| - 1;
      DescriptorsConserved(s, cmds[..n]);
      if ExecAll(s, cmds[..n]).alive { ExecKeepsInv(ExecAll(s, cmds[..n]), cmds[n]); }
    }
  }
}
