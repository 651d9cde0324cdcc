/** Which redirections of a command fail, told from the tables before it and its words. */
module UserPipeChecks {
  import opened Sequences
  import opened ServerSyntax
  import opened ServerModel
  import opened ServerInvariant
  import opened UserPipes

  /** The pairs that have a user pipe. */
  ghost function PairsOf(clients: seq<Client>): set<Pair> {
    set i, j | 0 <= i < |clients| && 0 <= j < |clients[i].userPipes| :: Key(clients[i].userPipes[j])
  }

  /** Redirection `j` of user `id` fails: the other user is not there; or there is a pipe to him
      already, from before or from an earlier word; or there is none from him. */
  ghost predicate Fails(table: seq<int>, pairs: set<Pair>, id: int, ops: seq<Op>, j: nat)
    requires j < |ops|
  {
    match ops[j]
    case ToUser(t) => !Occupied(table, t) || (id, t) in pairs || ops[j] in ops[..j]
    case FromUser(s) => !Occupied(table, s) || ((s, id) !in pairs && !(s == id && ToUser(id) in ops[..j]))
    case _ => false
  }

  /** Some redirection fails. */
  ghost predicate Refuses(table: seq<int>, pairs: set<Pair>, id: int, ops: seq<Op>) {
    exists j :: 0 <= j < |ops| && Fails(table, pairs, id, ops, j)
  }

  /** Redirection `j` is the first that fails. */
  ghost predicate FailsFirst(table: seq<int>, pairs: set<Pair>, id: int, ops: seq<Op>, j: nat)
    requires j < |ops|
  {
    Fails(table, pairs, id, ops, j) && forall i :: 0 <= i < j ==> !Fails(table, pairs, id, ops, i)
  }

  ghost predicate Receives(ops: seq<Op>) { exists k :: 0 <= k < |ops| && ops[k].FromUser? }

  /** A `<n` stands before the first redirection that fails. */
  ghost predicate TakesInVain(table: seq<int>, pairs: set<Pair>, id: int, ops: seq<Op>) {
    exists j :: 0 <= j < |ops| && FailsFirst(table, pairs, id, ops, j) && Receives(ops[..j])
  }

  ghost function Sent(id: int, ops: seq<Op>): set<Pair> {
    set op | op in ops && op.ToUser? :: (id, op.id)
  }

  ghost function Received(id: int, ops: seq<Op>): set<Pair> {
    set op | op in ops && op.FromUser? :: (op.id, id)
  }

  // ---------- one word more ----------

  lemma {:induction false} FailsBefore(table: seq<int>, pairs: set<Pair>, id: int, ops: seq<Op>, op: Op, j: nat)
    requires j < |ops|
    ensures Fails(table, pairs, id, ops + [op], j) <==> Fails(table, pairs, id, ops, j)
  {
    assert (ops + [op])[..j] == ops[..j];
  }

  lemma {:induction false} RefusesPush(table: seq<int>, pairs: set<Pair>, id: int, ops: seq<Op>, op: Op)
    ensures Refuses(table, pairs, id, ops + [op])
       <==> Refuses(table, pairs, id, ops) || Fails(table, pairs, id, ops + [op], |ops|)
  {
    var all := ops + [op];
    forall j | 0 <= j < |ops| ensures Fails(table, pairs, id, all, j) <==> Fails(table, pairs, id, ops, j) {
      FailsBefore(table, pairs, id, ops, op, j);
    }
    if Refuses(table, pairs, id, ops) {
      var j :| 0 <= j < |ops| && Fails(table, pairs, id, ops, j);
      assert Fails(table, pairs, id, all, j);
    }
  }

  lemma {:induction false} FailsFirstBefore(table: seq<int>, pairs: set<Pair>, id: int, ops: seq<Op>, op: Op, j: nat)
    requires j < |ops|
    ensures FailsFirst(table, pairs, id, ops + [op], j) <==> FailsFirst(table, pairs, id, ops, j)
    ensures Receives((ops + [op])[..j]) <==> Receives(ops[..j])
  {
    forall i | 0 <= i <= j ensures Fails(table, pairs, id, ops + [op], i) <==> Fails(table, pairs, id, ops, i) {
      FailsBefore(table, pairs, id, ops, op, i);
    }
    assert (ops + [op])[..j] == ops[..j];
  }

  lemma {:induction false} VainPushRefused(table: seq<int>, pairs: set<Pair>, id: int, ops: seq<Op>, op: Op)
    requires Refuses(table, pairs, id, ops)
    ensures TakesInVain(table, pairs, id, ops + [op]) <==> TakesInVain(table, pairs, id, ops)
  {
    var all := ops + [op];
    forall j | 0 <= j < |ops|
      ensures FailsFirst(table, pairs, id, all, j) <==> FailsFirst(table, pairs, id, ops, j)
      ensures Receives(all[..j]) <==> Receives(ops[..j])
    {
      FailsFirstBefore(table, pairs, id, ops, op, j);
    }
    var j :| 0 <= j < |ops| && Fails(table, pairs, id, ops, j);
    FailsBefore(table, pairs, id, ops, op, j);
    assert !FailsFirst(table, pairs, id, all, |ops|);
    if TakesInVain(table, pairs, id, ops) {
      var k :| 0 <= k < |ops| && FailsFirst(table, pairs, id, ops, k) && Receives(ops[..k]);
      assert FailsFirst(table, pairs, id, all, k) && Receives(all[..k]);
    }
  }

  lemma {:induction false} VainPush(table: seq<int>, pairs: set<Pair>, id: int, ops: seq<Op>, op: Op)
    requires !Refuses(table, pairs, id, ops)
    ensures TakesInVain(table, pairs, id, ops + [op])
       <==> Fails(table, pairs, id, ops + [op], |ops|) && Receives(ops)
  {
    var all, n := ops + [op], |ops|;
    assert all[..n] == ops;
    forall j | 0 <= j < n ensures !Fails(table, pairs, id, all, j) { FailsBefore(table, pairs, id, ops, op, j); }
    if Fails(table, pairs, id, all, n) { assert FailsFirst(table, pairs, id, all, n); }
  }

  lemma {:induction false} ReceivesPush(ops: seq<Op>, op: Op)
    ensures Receives(ops + [op]) <==> Receives(ops) || op.FromUser?
  {
    var all := ops + [op];
    assert all[|ops|] == op;
    if Receives(ops) {
      var k :| 0 <= k < |ops| && ops[k].FromUser?;
      assert all[k].FromUser?;
    }
  }

  lemma {:induction false} SentPush(id: int, ops: seq<Op>, op: Op)
    ensures Sent(id, ops + [op]) == Sent(id, ops) + (if op.ToUser? then {(id, op.id)} else {})
    ensures Received(id, ops + [op]) == Received(id, ops) + (if op.FromUser? then {(op.id, id)} else {})
  {
    assert forall x :: x in ops + [op] <==> x in ops || x == op;
  }

  lemma {:induction false} SentHas(id: int, ops: seq<Op>, k: Pair)
    ensures k in Sent(id, ops) <==> k.0 == id && ToUser(k.1) in ops
    ensures k in Received(id, ops) <==> k.1 == id && FromUser(k.0) in ops
  {
    if k.0 == id && ToUser(k.1) in ops { assert ToUser(k.1).ToUser? && k == (id, ToUser(k.1).id); }
    if k.1 == id && FromUser(k.0) in ops { assert FromUser(k.0).FromUser? && k == (FromUser(k.0).id, id); }
  }

  // ---------- the tables while redirections are carried out ----------

  /** A source's vector has a pipe to the target exactly when the pair has one. */
  lemma {:induction false} TargetFound(clients: seq<Client>, i: nat, t: int)
    requires Keyed(clients) && i < |clients|
    ensures (clients[i].id, t) in PairsOf(clients) <==> FindTarget(clients[i].userPipes, t) < |clients[i].userPipes|
  {
    var ups := clients[i].userPipes;
    var k := FindTarget(ups, t);
    if k < |ups| { assert Key(ups[k]) == (clients[i].id, t); }
    if (clients[i].id, t) in PairsOf(clients) {
      var a, b :| 0 <= a < |clients| && 0 <= b < |clients[a].userPipes|
                  && Key(clients[a].userPipes[b]) == (clients[i].id, t);
      assert clients[a].id == clients[i].id;
      assert !(a < i) && !(i < a);
    }
  }

  /** What one redirection finds wrong in the tables as they are. */
  ghost predicate Wrong(table: seq<int>, pairs: set<Pair>, id: int, op: Op) {
    match op
    case ToUser(t) => !Occupied(table, t) || (id, t) in pairs
    case FromUser(s) => !Occupied(table, s) || (s, id) !in pairs
    case _ => false
  }

  lemma {:induction false} ApplyRefusedIff(q: Prep, me: nat, op: Op)
    requires me < |q.w.clients| && IdsOk(q.w.table, q.w.clients) && Keyed(q.w.clients) && !q.refused
    ensures Apply(q, me, op).refused <==> Wrong(q.w.table, PairsOf(q.w.clients), q.w.clients[me].id, op)
    ensures Apply(q, me, op).takes == if op.FromUser? && !Apply(q, me, op).refused then q.takes + [op.id] else q.takes
  {
    match op
    case ToUser(t) => TargetFound(q.w.clients, me, t);
    case FromUser(s) =>
      if Occupied(q.w.table, s) {
        var i := FindId(q.w.clients, s);
        TargetFound(q.w.clients, i, q.w.clients[me].id);
      }
    case _ =>
  }

  /** With the earlier words carried out, what fails is what is wrong then. */
  lemma {:induction false} FailsIsWrong(table: seq<int>, pairs: set<Pair>, id: int, ops: seq<Op>, op: Op)
    ensures Fails(table, pairs, id, ops + [op], |ops|) <==> Wrong(table, pairs + Sent(id, ops), id, op)
  {
    assert (ops + [op])[..|ops|] == ops && (ops + [op])[|ops|] == op;
    match op
    case ToUser(t) => SentHas(id, ops, (id, t));
    case FromUser(s) => SentHas(id, ops, (s, id));
    case _ =>
  }

  lemma {:induction false} PairsPush(clients: seq<Client>, me: nat, u: UserPipe)
    requires me < |clients|
    ensures var after := clients[me := clients[me].(userPipes := clients[me].userPipes + [u])];
            PairsOf(after) == PairsOf(clients) + {Key(u)}
  {
    var c := clients[me];
    var after := clients[me := c.(userPipes := c.userPipes + [u])];
    forall k | k in PairsOf(after) ensures k in PairsOf(clients) + {Key(u)} {
      var a, b :| 0 <= a < |after| && 0 <= b < |after[a].userPipes| && Key(after[a].userPipes[b]) == k;
      if !(a == me && b == |c.userPipes|) { assert Key(clients[a].userPipes[b]) == k; }
    }
    forall k | k in PairsOf(clients) ensures k in PairsOf(after) {
      var a, b :| 0 <= a < |clients| && 0 <= b < |clients[a].userPipes| && Key(clients[a].userPipes[b]) == k;
      assert Key(after[a].userPipes[b]) == k;
    }
    assert Key(after[me].userPipes[|c.userPipes|]) == Key(u);
  }

  lemma {:induction false} SameKeys(a: seq<Client>, b: seq<Client>)
    requires |a| == |b| && forall i :: 0 <= i < |a| ==> |a[i].userPipes| == |b[i].userPipes|
    requires forall i, j :: 0 <= i < |a| && 0 <= j < |a[i].userPipes| ==>
               Key(a[i].userPipes[j]) == Key(b[i].userPipes[j])
    ensures PairsOf(a) == PairsOf(b)
  {
    forall k ensures k in PairsOf(a) <==> k in PairsOf(b) {
      if k in PairsOf(a) {
        var i, j :| 0 <= i < |a| && 0 <= j < |a[i].userPipes| && Key(a[i].userPipes[j]) == k;
        assert Key(b[i].userPipes[j]) == k;
      }
      if k in PairsOf(b) {
        var i, j :| 0 <= i < |b| && 0 <= j < |b[i].userPipes| && Key(b[i].userPipes[j]) == k;
        assert Key(a[i].userPipes[j]) == k;
      }
    }
  }

  /** The preparation of `ops`, none of which fails, has come this far: the pipes sent are there, and
      the pipes taken are those marked. */
  ghost predicate Tracks(w: World, q: Prep, me: nat, ops: seq<Op>) {
    && me < |w.clients| && |q.w.clients| == |w.clients|
    && !q.refused && q.w.table == w.table && q.w.clients[me].id == w.clients[me].id
    && PairsOf(q.w.clients) == PairsOf(w.clients) + Sent(w.clients[me].id, ops)
    && (q.takes != [] <==> Receives(ops))
  }

  /** Carrying out one redirection adds its pipe to the tables, if it makes one. */
  lemma {:induction false} PairsAfterApply(q: Prep, me: nat, op: Op)
    requires me < |q.w.clients| && !Apply(q, me, op).refused
    ensures var q', id := Apply(q, me, op), q.w.clients[me].id;
            PairsOf(q'.w.clients) == PairsOf(q.w.clients) + (if op.ToUser? then {(id, op.id)} else {})
    ensures var q' := Apply(q, me, op);
            q'.w.table == q.w.table && q'.w.clients[me].id == q.w.clients[me].id
  {
    match op
    case ToUser(t) => PairsPush(q.w.clients, me, UserPipe(|q.w.made|, q.w.clients[me].id, t, false));
    case FromUser(s) => SameKeys(q.w.clients, Apply(q, me, op).w.clients);
    case _ =>
  }

  lemma {:induction false} ApplyFailsIff(w: World, q: Prep, me: nat, ops: seq<Op>, op: Op)
    requires Tracks(w, q, me, ops) && IdsOk(q.w.table, q.w.clients) && Keyed(q.w.clients)
    ensures Apply(q, me, op).refused <==> Fails(w.table, PairsOf(w.clients), w.clients[me].id, ops + [op], |ops|)
  {
    ApplyRefusedIff(q, me, op);
    FailsIsWrong(w.table, PairsOf(w.clients), w.clients[me].id, ops, op);
  }

  lemma {:induction false} ApplyGoesOn(w: World, q: Prep, me: nat, ops: seq<Op>, op: Op)
    requires Tracks(w, q, me, ops) && !Apply(q, me, op).refused
    ensures Tracks(w, Apply(q, me, op), me, ops + [op])
  {
    SentPush(w.clients[me].id, ops, op);
    ReceivesPush(ops, op);
    PairsAfterApply(q, me, op);
  }

  lemma {:induction false} ApplyTracks(w: World, q: Prep, me: nat, ops: seq<Op>, op: Op)
    requires Tracks(w, q, me, ops) && IdsOk(q.w.table, q.w.clients) && Keyed(q.w.clients)
    ensures var fails := Fails(w.table, PairsOf(w.clients), w.clients[me].id, ops + [op], |ops|);
            && Apply(q, me, op).refused == fails
            && (if fails then Apply(q, me, op).takes == q.takes else Tracks(w, Apply(q, me, op), me, ops + [op]))
  {
    ApplyFailsIff(w, q, me, ops, op);
    if Apply(q, me, op).refused { ApplyRefusedIff(q, me, op); } else { ApplyGoesOn(w, q, me, ops, op); }
  }

  /** The preparation has failed exactly if some redirection does, and has then taken a pipe exactly if
      a `<n` stands before the first that fails. */
  ghost predicate AsTold(w: World, me: nat, ops: seq<Op>, q: Prep) {
    && me < |w.clients|
    && var id, pairs := w.clients[me].id, PairsOf(w.clients);
       if Refuses(w.table, pairs, id, ops) then q.refused && (q.takes != [] <==> TakesInVain(w.table, pairs, id, ops))
       else Tracks(w, q, me, ops)
  }

  lemma {:induction false} NothingTold(w: World, me: nat)
    requires me < |w.clients|
    ensures AsTold(w, me, [], ApplyAll(Fresh(w), me, []))
  {
  }

  lemma {:induction false} ApplyAllTracks(w: World, me: nat, ops: seq<Op>)
    requires Inv(w) && me < |w.clients|
    ensures AsTold(w, me, ops, ApplyAll(Fresh(w), me, ops))
  {
    if ops == [] {
      NothingTold(w, me);
    } else {
      var n := |ops| - 1;
      ApplyAllTracks(w, me, ops[..n]);
      StillKeyed(w, me, ops[..n]);
      LastApart(ops);
      OneMore(w, me, ops[..n], ops[n]);
    }
  }

  lemma {:induction false} StillKeyed(w: World, me: nat, ops: seq<Op>)
    requires Inv(w) && me < |w.clients|
    ensures var q := ApplyAll(Fresh(w), me, ops); IdsOk(q.w.table, q.w.clients) && Keyed(q.w.clients)
  {
    ApplyAllKeeps(Fresh(w), me, ops);
    InvIsKeyed(ApplyAll(Fresh(w), me, ops).w);
  }

  lemma {:induction false} OneMore(w: World, me: nat, ops: seq<Op>, op: Op)
    requires me < |w.clients| && AsTold(w, me, ops, ApplyAll(Fresh(w), me, ops))
    requires var q := ApplyAll(Fresh(w), me, ops); IdsOk(q.w.table, q.w.clients) && Keyed(q.w.clients)
    ensures AsTold(w, me, ops + [op], ApplyAll(Fresh(w), me, ops + [op]))
  {
    var id, pairs := w.clients[me].id, PairsOf(w.clients);
    assert (ops + [op])[..|ops|] == ops;
    RefusesPush(w.table, pairs, id, ops, op);
    if Refuses(w.table, pairs, id, ops) {
      VainPushRefused(w.table, pairs, id, ops, op);
    } else {
      VainPush(w.table, pairs, id, ops, op);
      ApplyTracks(w, ApplyAll(Fresh(w), me, ops), me, ops, op);
    }
  }
}
