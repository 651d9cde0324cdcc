/** The countdown vector that a shell keeps for its numbered pipes, and the absolute schedule
    ("command j reads what the commands i with i + n = j wrote") it stands for. */
module PipeSchedule {
  import opened Sequences

  /** An entry of the vector: a pipe and the number of commands still to go before it is read. */
  datatype Slot = Slot(pipe: nat, count: int)

  /** What one command asks of the vector: the number after `|` or `!`, if it has one, and the
      identity a pipe opened for it would get. */
  datatype Job = Job(sink: Option<int>, spare: nat)

  /** The pipes a command reads from and writes to. */
  datatype Wire = Wire(stdin: Option<nat>, stdout: Option<nat>)

  datatype Vector = Vector(slots: seq<Slot>, wires: seq<Wire>)

  /** The pipe with the given count; a later entry hides an earlier one. */
  function PipeAt(slots: seq<Slot>, count: int): (p: Option<nat>)
    ensures p.None? <==> forall i :: 0 <= i < |slots| ==> slots[i].count != count
    ensures p.Some? ==> Slot(p.value, count) in slots
  {
    if slots == [] then None else
      var n := |slots| - 1;
      if slots[n].count == count then Some(slots[n].pipe) else PipeAt(slots[..n], count)
  }

  /** The vector once the command's own pipe is in it. */
  function WithSink(slots: seq<Slot>, job: Job): seq<Slot> {
    if job.sink.Some? && PipeAt(slots, job.sink.value).None?
    then slots + [Slot(job.spare, job.sink.value)]
    else slots
  }

  function Countdown(slots: seq<Slot>): seq<Slot> {
    seq(|slots|, i requires 0 <= i < |slots| => Slot(slots[i].pipe, slots[i].count - 1))
  }

  const PENDING: Slot -> bool := (s: Slot) => s.count != 0

  /** The vector after the command: the pipe it read is gone, the others are one step closer. */
  function After(slots: seq<Slot>, job: Job): seq<Slot> {
    Countdown(Filter(PENDING, WithSink(slots, job)))
  }

  function WireOf(slots: seq<Slot>, job: Job): Wire {
    var open := WithSink(slots, job);
    Wire(PipeAt(open, 0), if job.sink.Some? then PipeAt(open, job.sink.value) else None)
  }

  /** The vector after all of `jobs`, starting from an empty one, and the wiring of each. */
  function Run(jobs: seq<Job>): (v: Vector)
    ensures |v.wires| == |jobs|
  {
    if jobs == [] then Vector([], []) else
      var n := |jobs| - 1;
      var v := Run(jobs[..n]);
      Vector(After(v.slots, jobs[n]), v.wires + [WireOf(v.slots, jobs[n])])
  }

  // ---------- the absolute schedule ----------

  /** Pipes by the index of the command that will read them. */
  datatype Schedule = Schedule(due: map<int, nat>, wires: seq<Wire>)

  function Due(due: map<int, nat>, now: int, job: Job): map<int, nat> {
    if job.sink.Some? && now + job.sink.value !in due then due[now + job.sink.value := job.spare] else due
  }

  function Get(m: map<int, nat>, k: int): Option<nat> {
    if k in m then Some(m[k]) else None
  }

  function DueWire(due: map<int, nat>, now: int, job: Job): Wire {
    var open := Due(due, now, job);
    Wire(Get(open, now), if job.sink.Some? then Get(open, now + job.sink.value) else None)
  }

  function Plan(jobs: seq<Job>): (s: Schedule)
    ensures |s.wires| == |jobs|
  {
    if jobs == [] then Schedule(map[], []) else
      var n := |jobs| - 1;
      var s := Plan(jobs[..n]);
      Schedule(Due(s.due, n, jobs[n]) - {n}, s.wires + [DueWire(s.due, n, jobs[n])])
  }

  /** The schedule a vector stands for when command `now` is about to start. */
  function Absolute(slots: seq<Slot>, now: int): map<int, nat> {
    if slots == [] then map[] else
      var n := |slots| - 1;
      Absolute(slots[..n], now)[now + slots[n].count := slots[n].pipe]
  }

  lemma {:induction false} PipeAtIsGet(slots: seq<Slot>, now: int, count: int)
    ensures PipeAt(slots, count) == Get(Absolute(slots, now), now + count)
  {
    if slots != [] { PipeAtIsGet(slots[..|slots| - 1], now, count); }
  }

  lemma {:induction false} AbsolutePush(slots: seq<Slot>, s: Slot, now: int)
    ensures Absolute(slots + [s], now) == Absolute(slots, now)[now + s.count := s.pipe]
  {
    assert (slots + [s])[..|slots|] == slots;
  }

  lemma {:induction false} SinkRefines(slots: seq<Slot>, now: int, job: Job)
    ensures Absolute(WithSink(slots, job), now) == Due(Absolute(slots, now), now, job)
  {
    if job.sink.Some? {
      PipeAtIsGet(slots, now, job.sink.value);
      if PipeAt(slots, job.sink.value).None? { AbsolutePush(slots, Slot(job.spare, job.sink.value), now); }
    }
  }

  lemma {:induction false} ReadRefines(slots: seq<Slot>, now: int)
    ensures Absolute(Countdown(Filter(PENDING, slots)), now + 1) == Absolute(slots, now) - {now}
  {
    if slots != [] {
      var n := |slots| - 1;
      ReadRefines(slots[..n], now);
      var rest := Countdown(Filter(PENDING, slots[..n]));
      if PENDING(slots[n]) {
        var s := Slot(slots[n].pipe, slots[n].count - 1);
        assert Countdown(Filter(PENDING, slots)) == rest + [s];
        AbsolutePush(rest, s, now + 1);
      }
    }
  }

  lemma {:induction false} WireFromOpen(open: seq<Slot>, due: map<int, nat>, now: int, job: Job)
    requires Absolute(open, now) == due
    ensures PipeAt(open, 0) == Get(due, now)
    ensures job.sink.Some? ==> PipeAt(open, job.sink.value) == Get(due, now + job.sink.value)
  {
    PipeAtIsGet(open, now, 0);
    if job.sink.Some? { PipeAtIsGet(open, now, job.sink.value); }
  }

  lemma {:induction false} WireRefines(slots: seq<Slot>, now: int, job: Job)
    ensures WireOf(slots, job) == DueWire(Absolute(slots, now), now, job)
  {
    SinkRefines(slots, now, job);
    WireFromOpen(WithSink(slots, job), Due(Absolute(slots, now), now, job), now, job);
  }

  lemma {:induction false} StepRefines(slots: seq<Slot>, now: int, job: Job)
    ensures Absolute(After(slots, job), now + 1) == Due(Absolute(slots, now), now, job) - {now}
    ensures WireOf(slots, job) == DueWire(Absolute(slots, now), now, job)
  {
    WireRefines(slots, now, job);
    SinkRefines(slots, now, job);
    ReadRefines(WithSink(slots, job), now);
  }

  /** The relative countdowns refine the absolute schedule, for any sequence of commands. */
  lemma {:induction false} CountdownRefinesSchedule(jobs: seq<Job>)
    ensures Run(jobs).wires == Plan(jobs).wires
    ensures Absolute(Run(jobs).slots, |jobs|) == Plan(jobs).due
  {
    if jobs != [] {
      var n := |jobs| - 1;
      CountdownRefinesSchedule(jobs[..n]);
      StepRefines(Run(jobs[..n]).slots, n, jobs[n]);
    }
  }

  // ---------- what the schedule means ----------

  /** The index of the command that job `i` writes to. */
  function Target(jobs: seq<Job>, i: nat): int
    requires i < |jobs| && jobs[i].sink.Some?
  {
    i + jobs[i].sink.value
  }

  ghost predicate Piped(jobs: seq<Job>, i: int) {
    0 <= i < |jobs| && jobs[i].sink.Some?
  }

  /** Command `i`'s target has not yet run when command `now` starts. */
  ghost predicate Unserved(jobs: seq<Job>, i: nat, now: nat)
    requires Piped(jobs, i)
  {
    !(i < Target(jobs, i) < now)
  }

  /** Each identity is above every pipe handed out before it. */
  ghost predicate Fresh(jobs: seq<Job>, wires: seq<Wire>)
    requires |jobs| == |wires|
  {
    forall i, j :: 0 <= i < j < |jobs| && wires[i].stdout.Some? ==> wires[i].stdout.value < jobs[j].spare
  }

  /** Command j reads exactly what the commands i with i + n = j write, and two commands write to
      one pipe exactly when they name the same reader and it has not run in between. */
  ghost predicate Wired(jobs: seq<Job>, wires: seq<Wire>) {
    && |wires| == |jobs|
    && (forall i :: 0 <= i < |jobs| ==> (wires[i].stdout.Some? <==> jobs[i].sink.Some?))
    && (forall j :: 0 <= j < |jobs| ==> ReaderWired(jobs, wires, j))
    && (forall j :: 0 <= j < |jobs| ==> SharingWired(jobs, wires, j))
  }

  /** Command `j` reads a pipe exactly when some earlier command named it, and then that command's. */
  ghost predicate ReaderWired(jobs: seq<Job>, wires: seq<Wire>, j: nat)
    requires |wires| == |jobs| && j < |jobs|
  {
    && (wires[j].stdin.Some? <==> exists i :: Piped(jobs, i) && i < j && Target(jobs, i) == j)
    && (forall i :: Piped(jobs, i) ==> (wires[j].stdin == wires[i].stdout <==> i < j && Target(jobs, i) == j))
  }

  ghost predicate SharingWired(jobs: seq<Job>, wires: seq<Wire>, j: nat)
    requires |wires| == |jobs| && j < |jobs|
  {
    forall i :: Piped(jobs, i) && Piped(jobs, j) && i < j ==>
      (wires[i].stdout == wires[j].stdout <==> Target(jobs, i) == Target(jobs, j) && Unserved(jobs, i, j))
  }

  ghost predicate NoZero(jobs: seq<Job>) {
    forall i :: 0 <= i < |jobs| ==> jobs[i].sink != Some(0)
  }

  /** What is due when command `now` starts: one pipe per unserved target, none twice, and no pipe
      whose reader has run. */
  ghost predicate Sound(jobs: seq<Job>, due: map<int, nat>, wires: seq<Wire>, now: nat)
    requires |wires| == |jobs|
  {
    && (forall t :: t in due ==> exists i :: Feeds(jobs, wires, i, t, due[t]) && Unserved(jobs, i, now))
    && (forall i :: Piped(jobs, i) && Unserved(jobs, i, now) ==>
          Target(jobs, i) in due && wires[i].stdout == Some(due[Target(jobs, i)]))
    && (forall i, t :: Piped(jobs, i) && t in due && wires[i].stdout == Some(due[t]) ==>
          Unserved(jobs, i, now) && Target(jobs, i) == t)
  }

  ghost predicate Feeds(jobs: seq<Job>, wires: seq<Wire>, i: nat, t: int, pipe: nat)
    requires |wires| == |jobs|
  {
    Piped(jobs, i) && wires[i].stdout == Some(pipe) && Target(jobs, i) == t
  }

  lemma {:induction false} PlanIsSound(jobs: seq<Job>)
    requires NoZero(jobs) && Fresh(jobs, Plan(jobs).wires)
    ensures Sound(jobs, Plan(jobs).due, Plan(jobs).wires, |jobs|)
    ensures Wired(jobs, Plan(jobs).wires)
  {
    if jobs != [] {
      var n := |jobs| - 1;
      var before, s, job := jobs[..n], Plan(jobs[..n]), jobs[n];
      assert Plan(jobs).wires[..n] == s.wires;
      assert Fresh(before, s.wires) by {
        assert forall i :: 0 <= i < n ==> s.wires[i] == Plan(jobs).wires[i];
      }
      PlanIsSound(before);
      assert forall i :: 0 <= i < n ==> s.wires[i] == Plan(jobs).wires[i];
      StepIsSound(before, s, job);
      assert before + [job] == jobs;
    }
  }

  lemma {:induction false} StepIsSound(jobs: seq<Job>, s: Schedule, job: Job)
    requires |s.wires| == |jobs| && job.sink != Some(0)
    requires Sound(jobs, s.due, s.wires, |jobs|) && Wired(jobs, s.wires)
    requires forall i :: 0 <= i < |jobs| && s.wires[i].stdout.Some? ==> s.wires[i].stdout.value < job.spare
    ensures var n := |jobs|;
            var wires := s.wires + [DueWire(s.due, n, job)];
            Sound(jobs + [job], Due(s.due, n, job) - {n}, wires, n + 1) && Wired(jobs + [job], wires)
  {
    var n := |jobs|;
    var jobs' := jobs + [job];
    var open := Due(s.due, n, job);
    var wires := s.wires + [DueWire(s.due, n, job)];
    SinkIsSound(jobs, s, job);
    ReaderLeaves(jobs', open, wires, n);
    assert jobs'[..n] == jobs && wires[..n] == s.wires;
    WiredGrows(jobs', open, wires, n);
  }

  lemma {:induction false} SinkHasFeeder(jobs: seq<Job>, s: Schedule, job: Job, t: int)
    requires |s.wires| == |jobs| && job.sink != Some(0)
    requires Sound(jobs, s.due, s.wires, |jobs|) && t in Due(s.due, |jobs|, job)
    ensures var open, wires := Due(s.due, |jobs|, job), s.wires + [DueWire(s.due, |jobs|, job)];
            exists i :: Feeds(jobs + [job], wires, i, t, open[t]) && Unserved(jobs + [job], i, |jobs|)
  {
    var n := |jobs|;
    var jobs', open, wires := jobs + [job], Due(s.due, n, job), s.wires + [DueWire(s.due, n, job)];
    if t in s.due {
      var i: nat :| Feeds(jobs, s.wires, i, t, s.due[t]) && Unserved(jobs, i, n);
      assert Feeds(jobs', wires, i, t, open[t]) && Unserved(jobs', i, n);
    } else {
      assert Feeds(jobs', wires, n, t, open[t]) && Unserved(jobs', n, n);
    }
  }

  lemma {:induction false} SinkIsDue(jobs: seq<Job>, s: Schedule, job: Job, i: nat)
    requires |s.wires| == |jobs| && Sound(jobs, s.due, s.wires, |jobs|)
    requires Piped(jobs + [job], i) && Unserved(jobs + [job], i, |jobs|)
    ensures var open, wires := Due(s.due, |jobs|, job), s.wires + [DueWire(s.due, |jobs|, job)];
            Target(jobs + [job], i) in open && wires[i].stdout == Some(open[Target(jobs + [job], i)])
  {
    if i < |jobs| {
      assert Piped(jobs, i) && Unserved(jobs, i, |jobs|);
      assert Target(jobs, i) in s.due;
    }
  }

  lemma {:induction false} SinkIsOnlyIts(jobs: seq<Job>, s: Schedule, job: Job, i: nat, t: int)
    requires |s.wires| == |jobs| && job.sink != Some(0) && Sound(jobs, s.due, s.wires, |jobs|)
    requires forall i :: Piped(jobs, i) ==> s.wires[i].stdout.Some? && s.wires[i].stdout.value < job.spare
    requires Piped(jobs + [job], i) && t in Due(s.due, |jobs|, job)
    requires (s.wires + [DueWire(s.due, |jobs|, job)])[i].stdout == Some(Due(s.due, |jobs|, job)[t])
    ensures Unserved(jobs + [job], i, |jobs|) && Target(jobs + [job], i) == t
  {
    if i < |jobs| {
      assert Piped(jobs, i);
    } else if t in s.due {
      var k: nat :| Feeds(jobs, s.wires, k, t, s.due[t]) && Unserved(jobs, k, |jobs|);
      assert Piped(jobs, k);
    }
  }

  lemma {:induction false} SinkIsSound(jobs: seq<Job>, s: Schedule, job: Job)
    requires |s.wires| == |jobs| && job.sink != Some(0)
    requires Sound(jobs, s.due, s.wires, |jobs|)
    requires forall i :: Piped(jobs, i) ==> s.wires[i].stdout.Some? && s.wires[i].stdout.value < job.spare
    ensures Sound(jobs + [job], Due(s.due, |jobs|, job), s.wires + [DueWire(s.due, |jobs|, job)], |jobs|)
  {
    var n := |jobs|;
    var jobs', open, wires := jobs + [job], Due(s.due, n, job), s.wires + [DueWire(s.due, n, job)];
    forall t | t in open ensures exists i :: Feeds(jobs', wires, i, t, open[t]) && Unserved(jobs', i, n) {
      SinkHasFeeder(jobs, s, job, t);
    }
    forall i | Piped(jobs', i) && Unserved(jobs', i, n)
      ensures Target(jobs', i) in open && wires[i].stdout == Some(open[Target(jobs', i)])
    {
      SinkIsDue(jobs, s, job, i);
    }
    forall i, t | Piped(jobs', i) && t in open && wires[i].stdout == Some(open[t])
      ensures Unserved(jobs', i, n) && Target(jobs', i) == t
    {
      SinkIsOnlyIts(jobs, s, job, i, t);
    }
  }

  lemma {:induction false} ReaderLeaves(jobs: seq<Job>, due: map<int, nat>, wires: seq<Wire>, now: nat)
    requires |wires| == |jobs| && |jobs| == now + 1
    requires Sound(jobs, due, wires, now)
    requires jobs[now].sink != Some(0)
    ensures Sound(jobs, due - {now}, wires, now + 1)
  {
    var left := due - {now};
    forall t | t in left ensures exists i :: Feeds(jobs, wires, i, t, left[t]) && Unserved(jobs, i, now + 1) {
      var i :| Feeds(jobs, wires, i, t, due[t]) && Unserved(jobs, i, now);
      assert Feeds(jobs, wires, i, t, left[t]) && Unserved(jobs, i, now + 1);
    }
    forall i | Piped(jobs, i) && Unserved(jobs, i, now + 1)
      ensures Target(jobs, i) in left && wires[i].stdout == Some(left[Target(jobs, i)])
    {
      assert Unserved(jobs, i, now);
    }
    forall i, t | Piped(jobs, i) && t in left && wires[i].stdout == Some(left[t])
      ensures Unserved(jobs, i, now + 1) && Target(jobs, i) == t
    {
      assert Unserved(jobs, i, now);
    }
  }

  /** The clauses of `Wired` that speak of the last command as a reader. */
  lemma {:induction false} NewReader(jobs: seq<Job>, due: map<int, nat>, wires: seq<Wire>, now: nat)
    requires |wires| == |jobs| == now + 1
    requires Sound(jobs, due, wires, now)
    requires jobs[now].sink != Some(0) && wires[now].stdin == Get(due, now)
    requires forall i :: Piped(jobs, i) ==> wires[i].stdout.Some?
    ensures wires[now].stdin.Some? <==> exists i :: Piped(jobs, i) && i < now && Target(jobs, i) == now
    ensures forall i :: Piped(jobs, i) ==>
              (wires[now].stdin == wires[i].stdout <==> i < now && Target(jobs, i) == now)
  {
    if now in due {
      var i: nat :| Feeds(jobs, wires, i, now, due[now]) && Unserved(jobs, i, now);
      assert Piped(jobs, i) && i < now && Target(jobs, i) == now;
    }
    forall i | Piped(jobs, i)
      ensures wires[now].stdin == wires[i].stdout <==> i < now && Target(jobs, i) == now
    {
      if i < now && Target(jobs, i) == now { assert Unserved(jobs, i, now); }
    }
  }

  /** The clauses of `Wired` that speak of the last command as a writer. */
  lemma {:induction false} NewWriter(jobs: seq<Job>, due: map<int, nat>, wires: seq<Wire>, now: nat)
    requires |wires| == |jobs| == now + 1
    requires Sound(jobs, due, wires, now)
    requires Piped(jobs, now) && wires[now].stdout == Get(due, Target(jobs, now)) && wires[now].stdout.Some?
    requires Wired(jobs[..now], wires[..now])
    ensures forall i :: Piped(jobs, i) && i < now ==>
              (wires[i].stdout == wires[now].stdout <==>
               Target(jobs, i) == Target(jobs, now) && Unserved(jobs, i, now))
    ensures forall j :: 0 <= j < now ==> wires[j].stdin != wires[now].stdout
  {
    var before := jobs[..now];
    assert forall i :: Piped(before, i) ==> Piped(jobs, i) && Target(before, i) == Target(jobs, i);
    forall j | 0 <= j < now && wires[..now][j].stdin.Some?
      ensures wires[j].stdin != wires[now].stdout
    {
      assert ReaderWired(before, wires[..now], j);
      var i: nat :| Piped(before, i) && i < j && Target(before, i) == j;
      assert wires[..now][j].stdin == wires[..now][i].stdout;
      assert !Unserved(jobs, i, now);
    }
    forall j | 0 <= j < now ensures wires[j].stdin != wires[now].stdout {
      assert wires[..now][j] == wires[j];
    }
  }

  lemma {:induction false} WiredGrows(jobs: seq<Job>, due: map<int, nat>, wires: seq<Wire>, now: nat)
    requires |wires| == |jobs| == now + 1
    requires Sound(jobs, due, wires, now) && Wired(jobs[..now], wires[..now])
    requires jobs[now].sink != Some(0) && wires[now].stdin == Get(due, now)
    requires forall i :: 0 <= i <= now ==> (wires[i].stdout.Some? <==> jobs[i].sink.Some?)
    requires jobs[now].sink.Some? ==> wires[now].stdout == Get(due, Target(jobs, now))
    ensures Wired(jobs, wires)
  {
    NewReader(jobs, due, wires, now);
    if jobs[now].sink.Some? { NewWriter(jobs, due, wires, now); }
    forall j | 0 <= j < now ensures ReaderWired(jobs, wires, j) {
      ReaderStays(jobs, wires, now, j);
    }
    forall j | 0 <= j < now ensures SharingWired(jobs, wires, j) {
      SharingStays(jobs, wires, now, j);
    }
  }

  lemma {:induction false} ReaderStays(jobs: seq<Job>, wires: seq<Wire>, now: nat, j: nat)
    requires |wires| == |jobs| == now + 1 && j < now
    requires ReaderWired(jobs[..now], wires[..now], j)
    requires jobs[now].sink.Some? ==> wires[j].stdin != wires[now].stdout
    ensures ReaderWired(jobs, wires, j)
  {
    var before := jobs[..now];
    assert forall i :: Piped(before, i) ==> Piped(jobs, i) && Target(before, i) == Target(jobs, i);
    assert forall i :: Piped(jobs, i) && i < now ==> Piped(before, i);
    assert wires[..now][j] == wires[j];
    forall i | Piped(jobs, i) ensures wires[j].stdin == wires[i].stdout <==> i < j && Target(jobs, i) == j {
      if i < now { assert Piped(before, i) && wires[..now][i] == wires[i]; }
    }
  }

  lemma {:induction false} SharingStays(jobs: seq<Job>, wires: seq<Wire>, now: nat, j: nat)
    requires |wires| == |jobs| == now + 1 && j < now
    requires SharingWired(jobs[..now], wires[..now], j)
    ensures SharingWired(jobs, wires, j)
  {
    var before := jobs[..now];
    forall i | Piped(jobs, i) && Piped(jobs, j) && i < j
      ensures wires[i].stdout == wires[j].stdout <==> Target(jobs, i) == Target(jobs, j) && Unserved(jobs, i, j)
    {
      assert Piped(before, i) && Piped(before, j);
      assert wires[..now][i] == wires[i] && wires[..now][j] == wires[j];
    }
  }

  /** A command that names itself as the reader is given the pipe it writes to. */
  lemma {:induction false} ZeroReadsItself(jobs: seq<Job>, k: nat)
    requires k < |jobs| && jobs[k].sink == Some(0)
    ensures Plan(jobs).wires[k].stdin == Plan(jobs).wires[k].stdout
  {
    var n := |jobs| - 1;
    if k < n { ZeroReadsItself(jobs[..n], k); }
  }

  /** The vector wires commands by the schedule exactly when no pipe number is zero. */
  lemma {:induction false} WiredIffNoZero(jobs: seq<Job>)
    requires Fresh(jobs, Run(jobs).wires)
    ensures Wired(jobs, Run(jobs).wires) <==> NoZero(jobs)
  {
    CountdownRefinesSchedule(jobs);
    if NoZero(jobs) {
      PlanIsSound(jobs);
    } else {
      var k :| 0 <= k < |jobs| && jobs[k].sink == Some(0);
      ZeroReadsItself(jobs, k);
      assert Piped(jobs, k);
      assert !ReaderWired(jobs, Run(jobs).wires, k);
    }
  }

  ghost predicate DistinctCounts(slots: seq<Slot>) {
    Pairwise((a: Slot, b: Slot) => a.count != b.count, slots)
  }

  lemma {:induction false} AfterKeepsDistinct(slots: seq<Slot>, job: Job)
    requires DistinctCounts(slots)
    ensures DistinctCounts(WithSink(slots, job)) && DistinctCounts(After(slots, job))
  {
    var open := WithSink(slots, job);
    FilterPairwise((a: Slot, b: Slot) => a.count != b.count, PENDING, open);
  }

  /** Between commands the counts are distinct and below the largest number used, so the vector
      never holds more pipes than that number. */
  lemma {:induction false} PendingBound(jobs: seq<Job>, most: nat)
    requires forall i :: 0 <= i < |jobs| && jobs[i].sink.Some? ==> 1 <= jobs[i].sink.value <= most
    ensures var slots := Run(jobs).slots;
            && (forall i :: 0 <= i < |slots| ==> 0 <= slots[i].count < most)
            && DistinctCounts(slots)
            && |slots| <= most
  {
    var slots := Run(jobs).slots;
    if jobs != [] {
      var n := |jobs| - 1;
      PendingBound(jobs[..n], most);
      CountsStayLow(Run(jobs[..n]).slots, jobs[n], most);
    }
    Pigeonhole(seq(|slots|, i requires 0 <= i < |slots| => slots[i].count), most);
  }

  lemma {:induction false} CountsStayLow(slots: seq<Slot>, job: Job, most: nat)
    requires forall i :: 0 <= i < |slots| ==> 0 <= slots[i].count < most
    requires DistinctCounts(slots) && (job.sink.Some? ==> 1 <= job.sink.value <= most)
    ensures DistinctCounts(After(slots, job))
    ensures forall i :: 0 <= i < |After(slots, job)| ==> 0 <= After(slots, job)[i].count < most
  {
    var open := WithSink(slots, job);
    var rest := Filter(PENDING, open);
    AfterKeepsDistinct(slots, job);
    FilterMembers(PENDING, open);
    forall i | 0 <= i < |rest| ensures 1 <= rest[i].count <= most {
      assert rest[i] in open && PENDING(rest[i]);
    }
  }
}
