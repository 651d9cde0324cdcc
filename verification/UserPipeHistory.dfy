/** What the map of user pipes says about the past: which creations are still standing. */
module UserPipeHistory {
  import opened ServerModel
  import opened UserPipes

  ghost predicate CreatedAt(log: seq<Event>, i: int, k: Pair) {
    0 <= i < |log| && log[i].Created? && (log[i].source, log[i].target) == k
  }

  /** A command has taken the pipe between these two moments. */
  ghost predicate TakenBetween(log: seq<Event>, i: int, j: int, k: Pair) {
    exists t :: i < t < j && 0 <= t < |log| && log[t] == Taken(k.0, k.1)
  }

  /** Event `m` puts an end to the pipe created at `i`: one of its users logs out, or it has been
      taken and its source's taken pipes are removed. */
  ghost predicate Ends(log: seq<Event>, i: int, m: int, k: Pair)
    requires 0 <= m < |log|
  {
    || log[m] == LoggedOut(k.0)
    || log[m] == LoggedOut(k.1)
    || (log[m] == Swept(k.0) && TakenBetween(log, i, m, k))
  }

  ghost predicate Ended(log: seq<Event>, i: int, j: int, k: Pair) {
    exists m :: i < m < j && 0 <= m < |log| && Ends(log, i, m, k)
  }

  /** A creation that nothing has ended. */
  ghost predicate Standing(log: seq<Event>, i: int, k: Pair) {
    CreatedAt(log, i, k) && !Ended(log, i, |log|, k)
  }

  lemma {:induction false} LawfulBefore(log: seq<Event>, n: nat)
    requires Replay(log).Some? && n <= |log|
    ensures Replay(log[..n]).Some?
    decreases |log|
  {
    if n < |log| {
      LawfulBefore(log[..|log| - 1], n);
      assert log[..|log| - 1][..n] == log[..n];
    } else {
      assert log[..n] == log;
    }
  }

  lemma {:induction false} MarkedExist(log: seq<Event>)
    requires Replay(log).Some?
    ensures Replay(log).value.marked <= Replay(log).value.pipes.Keys
  {
    if log != [] { MarkedExist(log[..|log| - 1]); }
  }

  /** Looking at a longer log does not change what happened in its beginning. */
  lemma {:induction false} EndedPush(log: seq<Event>, e: Event, i: int, k: Pair)
    requires 0 <= i < |log|
    ensures TakenBetween(log + [e], i, |log| + 1, k) <==> TakenBetween(log, i, |log|, k) || e == Taken(k.0, k.1)
    ensures Ended(log + [e], i, |log| + 1, k) <==> Ended(log, i, |log|, k) || Ends(log + [e], i, |log|, k)
  {
    var log' := log + [e];
    assert forall m :: 0 <= m < |log| ==> log'[m] == log[m];
    assert log'[|log|] == e;
    forall m | i < m < |log| ensures Ends(log', i, m, k) <==> Ends(log, i, m, k) {
      assert TakenBetween(log', i, m, k) <==> TakenBetween(log, i, m, k);
    }
  }

  /** The pipe of a standing creation is in the map, and marked if it has been taken since. */
  lemma {:induction false} StandingIsLinked(log: seq<Event>, i: int, k: Pair)
    requires Replay(log).Some? && Standing(log, i, k)
    ensures var l := Replay(log).value;
            k in l.pipes && l.pipes[k] == log[i].pipe && (k in l.marked <==> TakenBetween(log, i, |log|, k))
  {
    var n := |log| - 1;
    var before := log[..n];
    assert log == before + [log[n]];
    if i == n {
      MarkedExist(before);
    } else {
      EndedPush(before, log[n], i, k);
      StandingIsLinked(before, i, k);
      assert TakenBetween(log, i, n, k) <==> TakenBetween(before, i, n, k);
    }
  }

  /** What is in the map was created, and that creation is standing. */
  lemma {:induction false} LinkedHasOrigin(log: seq<Event>, k: Pair) returns (i: int)
    requires Replay(log).Some? && k in Replay(log).value.pipes
    ensures Standing(log, i, k) && log[i].pipe == Replay(log).value.pipes[k]
  {
    var n := |log| - 1;
    var before := log[..n];
    assert log == before + [log[n]];
    if CreatedAt(log, n, k) {
      i := n;
    } else {
      i := LinkedHasOrigin(before, k);
      StandingIsLinked(before, i, k);
      EndedPush(before, log[n], i, k);
      assert TakenBetween(log, i, n, k) <==> TakenBetween(before, i, n, k);
    }
  }

  /** The map has a pipe for a pair exactly when a creation of it is standing. */
  lemma {:induction false} LinkedIffStanding(log: seq<Event>, k: Pair)
    requires Replay(log).Some?
    ensures k in Replay(log).value.pipes <==> exists i :: Standing(log, i, k)
  {
    if k in Replay(log).value.pipes {
      var i := LinkedHasOrigin(log, k);
    }
    if i :| Standing(log, i, k) { StandingIsLinked(log, i, k); }
  }

  /** Between two creations for the same pair the first pipe has come to its end. */
  lemma {:induction false} CreationsAlternate(log: seq<Event>, i: int, j: int, k: Pair)
    requires Replay(log).Some? && i < j && CreatedAt(log, i, k) && CreatedAt(log, j, k)
    ensures Ended(log, i, j, k)
  {
    LawfulBefore(log, j);
    LawfulBefore(log, j + 1);
    assert log[..j + 1][..j] == log[..j];
    if !Ended(log, i, j, k) {
      PrefixStanding(log, i, j, k);
      StandingIsLinked(log[..j], i, k);
    }
  }

  lemma {:induction false} PrefixStanding(log: seq<Event>, i: int, j: nat, k: Pair)
    requires i < j <= |log| && CreatedAt(log, i, k)
    ensures Standing(log[..j], i, k) <==> !Ended(log, i, j, k)
  {
    var before := log[..j];
    forall m | i < m < j ensures Ends(log, i, m, k) <==> Ends(before, i, m, k) {
      assert TakenBetween(log, i, m, k) <==> TakenBetween(before, i, m, k);
    }
  }

  /** A pipe that is taken was created, and has not come to its end in between. */
  lemma {:induction false} TakenWasCreated(log: seq<Event>, j: nat, k: Pair) returns (i: int)
    requires Replay(log).Some? && j < |log| && log[j] == Taken(k.0, k.1)
    ensures i < j && CreatedAt(log, i, k) && !Ended(log, i, j, k)
  {
    LawfulBefore(log, j);
    LawfulBefore(log, j + 1);
    assert log[..j + 1][..j] == log[..j];
    i := LinkedHasOrigin(log[..j], k);
    PrefixStanding(log, i, j, k);
  }

  /** A new login starts with no standing pipe from or to its id. */
  lemma {:induction false} LoginStartsAfresh(log: seq<Event>, j: nat, login: nat, id: int, i: int, k: Pair)
    requires Replay(log).Some? && j < |log| && log[j] == LoggedIn(login, id)
    requires i < j && CreatedAt(log, i, k) && Touches(k, id)
    ensures Ended(log, i, j, k)
  {
    LawfulBefore(log, j);
    LawfulBefore(log, j + 1);
    assert log[..j + 1][..j] == log[..j];
    if !Ended(log, i, j, k) {
      PrefixStanding(log, i, j, k);
      StandingIsLinked(log[..j], i, k);
    }
  }

  // ---------- pipes that have been taken ----------

  /** After this event the pipe of `k` is gone, if it had been taken. */
  ghost predicate Removes(e: Event, k: Pair) {
    e == LoggedOut(k.0) || e == LoggedOut(k.1) || e == Swept(k.0)
  }

  /** A pipe was taken at `t`, and nothing has removed it since. */
  ghost predicate TakenSince(log: seq<Event>, t: int, k: Pair) {
    0 <= t < |log| && log[t] == Taken(k.0, k.1) && forall m :: t < m < |log| ==> !Removes(log[m], k)
  }

  lemma {:induction false} TakenSincePush(log: seq<Event>, e: Event, k: Pair)
    ensures (exists t :: TakenSince(log + [e], t, k))
       <==> e == Taken(k.0, k.1) || (!Removes(e, k) && exists t :: TakenSince(log, t, k))
  {
    var all := log + [e];
    assert all[|log|] == e;
    forall t | 0 <= t < |log| ensures TakenSince(all, t, k) <==> TakenSince(log, t, k) && !Removes(e, k) {
      assert forall m :: t < m < |log| ==> all[m] == log[m];
    }
    if e == Taken(k.0, k.1) { assert TakenSince(all, |log|, k); }
    if t :| TakenSince(log, t, k) && !Removes(e, k) { assert TakenSince(all, t, k); }
  }

  /** A pipe is marked, and its write end closed, exactly when it was taken and has not been removed:
      the next to take it closes that end again. */
  lemma {:induction false} MarkedIffTaken(log: seq<Event>, k: Pair)
    requires Replay(log).Some?
    ensures k in Replay(log).value.marked <==> exists t :: TakenSince(log, t, k)
  {
    if log != [] {
      var n := |log| - 1;
      MarkedIffTaken(log[..n], k);
      MarkedExist(log[..n]);
      TakenSincePush(log[..n], log[n], k);
      assert log == log[..n] + [log[n]];
    }
  }
}
