/** A process's descriptor table, with the kernel's rule that a new descriptor is the lowest one
    that is free. */
module Kernel {
  import opened Sequences

  datatype Mode = Truncate | Append

  /** What a descriptor refers to. Pipes are told apart by the order in which they were made. */
  datatype File = Inherited(name: string) | PipeRead(pipe: nat) | PipeWrite(pipe: nat) | Disk(name: string, mode: Mode)

  type Table = map<int, File>

  /** A process and what the outside world holds for it: `denied` are the calls of `open` (counted
      from the start) that will fail. */
  datatype Kernel = Kernel(table: Table, pipes: nat, opens: nat, denied: set<nat>)

  /** The lowest descriptor, at least `from`, that is not in use. */
  function LowestFree(t: Table, from: nat): (fd: nat)
    ensures fd >= from && fd !in t
    ensures forall k :: from <= k < fd ==> k in t
    decreases |t|
  {
    if from in t then
      assert (t - {from}).Keys == t.Keys - {from};
      var fd := LowestFree(t - {from}, from + 1);
      assert forall k {:trigger k in t} :: from < k < fd ==> k in t - {from} && k in t;
      fd
    else from
  }

  /** `open`: the new descriptor, or -1. */
  function OpenFile(k: Kernel, name: string, mode: Mode): (r: (Kernel, int)) {
    var k' := k.(opens := k.opens + 1);
    if k.opens in k.denied then (k', -1 as int) else
      var fd: int := LowestFree(k.table, 0);
      (k'.(table := k.table[fd := Disk(name, mode)]), fd)
  }

  /** `pipe`: the read end, then the write end, on the two lowest free descriptors. */
  function OpenPipe(k: Kernel): (r: (Kernel, nat, nat))
    ensures r.1 !in k.table && r.2 !in k.table && r.1 != r.2
    ensures r.0.table == k.table[r.1 := PipeRead(k.pipes)][r.2 := PipeWrite(k.pipes)]
  {
    var rd := LowestFree(k.table, 0);
    var t := k.table[rd := PipeRead(k.pipes)];
    var wr := LowestFree(t, 0);
    (k.(table := t[wr := PipeWrite(k.pipes)], pipes := k.pipes + 1), rd, wr)
  }

  function Close(t: Table, fd: int): Table { t - {fd} }

  function Dup2(t: Table, from: int, to: int): Table {
    if from in t then t[to := t[from]] else t
  }

  function Look(t: Table, fd: int): Option<File> {
    if fd in t then Some(t[fd]) else None
  }
}
