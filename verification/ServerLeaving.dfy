/** A client leaving the server, by `exit` or by closing its connection. */
module ServerLeaving {
  import opened Sequences
  import opened ServerSyntax
  import opened ServerModel
  import opened ServerInvariant

  /** The list without its element `k`. */
  function Others(clients: seq<Client>, k: nat, id: int): (r: seq<Client>)
    requires k < |clients|
    ensures |r| == |clients| - 1
    ensures forall i :: 0 <= i < |r| ==> r[i] == Pruned(clients[if i < k then i else i + 1], id)
  {
    seq(|clients| - 1, i requires 0 <= i < |clients| - 1 => Pruned(clients[if i < k then i else i + 1], id))
  }

  lemma {:induction false} EraseNone(clients: seq<Client>, id: int)
    requires forall i :: 0 <= i < |clients| ==> clients[i].id != id
    ensures |EraseClient(clients, id)| == |clients|
    ensures forall i :: 0 <= i < |clients| ==> EraseClient(clients, id)[i] == Pruned(clients[i], id)
  {
    if clients != [] { EraseNone(clients[..|clients| - 1], id); }
  }

  /** The erasing loops drop exactly the client with this id, and from each of the others exactly
      the user pipes that lead to it. */
  lemma {:induction false} EraseOne(clients: seq<Client>, id: int, k: nat)
    requires k < |clients| && clients[k].id == id
    requires forall i :: 0 <= i < |clients| && i != k ==> clients[i].id != id
    ensures EraseClient(clients, id) == Others(clients, k, id)
  {
    var n := |clients| - 1;
    if k == n { EraseNone(clients[..n], id); } else { EraseOne(clients[..n], id, k); }
  }

  lemma {:induction false} EraseLeavesOthers(clients: seq<Client>, key: int, i: nat)
    requires i < |clients| && clients[i].id != key
    ensures Pruned(clients[i], key) in EraseClient(clients, key)
  {
    var n := |clients| - 1;
    if i < n {
      EraseLeavesOthers(clients[..n], key, i);
    }
  }

  lemma {:induction false} OthersDiffer(clients: seq<Client>, k: nat, id: int)
    requires k < |clients| && forall i, j :: 0 <= i < j < |clients| ==> clients[i].id != clients[j].id
    ensures var r := Others(clients, k, id);
            forall i, j :: 0 <= i < j < |r| ==> r[i].id != r[j].id
  {
    var r := Others(clients, k, id);
    forall i, j | 0 <= i < j < |r| ensures r[i].id != r[j].id {
      assert clients[if i < k then i else i + 1].id != clients[if j < k then j else j + 1].id;
    }
  }

  lemma {:induction false} OtherFound(clients: seq<Client>, k: nat, id: int, x: int)
    requires k < |clients| && clients[k].id == id && x != id && FindId(clients, x) < |clients|
    requires var r := Others(clients, k, id); forall i, j :: 0 <= i < j < |r| ==> r[i].id != r[j].id
    ensures var r := Others(clients, k, id);
            FindId(r, x) < |r| && LoginOf(r, x) == LoginOf(clients, x)
  {
    var f := FindId(clients, x);
    FindIdIs(Others(clients, k, id), if f < k then f else f - 1);
  }

  lemma {:induction false} OthersFound(clients: seq<Client>, k: nat, id: int)
    requires k < |clients| && forall i, j :: 0 <= i < j < |clients| ==> clients[i].id != clients[j].id
    requires clients[k].id == id
    ensures var r := Others(clients, k, id);
            && (forall i, j :: 0 <= i < j < |r| ==> r[i].id != r[j].id)
            && (forall x :: x != id && FindId(clients, x) < |clients| ==>
                  FindId(r, x) < |r| && LoginOf(r, x) == LoginOf(clients, x))
  {
    var r := Others(clients, k, id);
    OthersDiffer(clients, k, id);
    forall x | x != id && FindId(clients, x) < |clients|
      ensures FindId(r, x) < |r| && LoginOf(r, x) == LoginOf(clients, x)
    {
      OtherFound(clients, k, id, x);
    }
  }

  lemma {:induction false} IdsAfterLeave(table: seq<int>, clients: seq<Client>, k: nat)
    requires IdsOk(table, clients) && k < |clients|
    ensures var id := clients[k].id;
            IdsOk(table[id - 1 := 0], Others(clients, k, id))
  {
    var id := clients[k].id;
    var r := Others(clients, k, id);
    OneOfItsId(table, clients, k);
    OthersOccupied(table, clients, k);
    OthersFound(clients, k, id);
    StillFound(table, clients, k, r);
    AssembleIds(table[id - 1 := 0], r);
  }

  lemma {:induction false} OthersOccupied(table: seq<int>, clients: seq<Client>, k: nat)
    requires IdsOk(table, clients) && k < |clients| && Occupied(table, clients[k].id)
    ensures var r := Others(clients, k, clients[k].id);
            forall i :: 0 <= i < |r| ==> Occupied(table[clients[k].id - 1 := 0], r[i].id)
  {
    var r := Others(clients, k, clients[k].id);
    forall i | 0 <= i < |r| ensures Occupied(table[clients[k].id - 1 := 0], r[i].id) {
      StillOccupied(table, clients, k, if i < k then i else i + 1);
    }
  }

  lemma {:induction false} AssembleIds(table: seq<int>, clients: seq<Client>)
    requires |table| == MAX_CLIENTS
    requires forall i :: 0 <= i < |clients| ==> Occupied(table, clients[i].id)
    requires forall i, j :: 0 <= i < j < |clients| ==> clients[i].id != clients[j].id
    requires forall id :: Occupied(table, id) ==> FindId(clients, id) < |clients|
    ensures IdsOk(table, clients)
  {
  }

  lemma {:induction false} StillFound(table: seq<int>, clients: seq<Client>, k: nat, r: seq<Client>)
    requires k < |clients| && Occupied(table, clients[k].id)
    requires forall x :: Occupied(table, x) ==> FindId(clients, x) < |clients|
    requires forall x :: x != clients[k].id && FindId(clients, x) < |clients| ==> FindId(r, x) < |r|
    ensures forall x :: Occupied(table[clients[k].id - 1 := 0], x) ==> FindId(r, x) < |r|
  {
    forall x | Occupied(table[clients[k].id - 1 := 0], x) ensures FindId(r, x) < |r| {
      assert x != clients[k].id && Occupied(table, x);
    }
  }

  lemma {:induction false} StillOccupied(table: seq<int>, clients: seq<Client>, k: nat, i: nat)
    requires IdsOk(table, clients) && k < |clients| && i < |clients| && i != k
    ensures Occupied(table[clients[k].id - 1 := 0], clients[i].id)
  {
    assert Occupied(table, clients[i].id) && Occupied(table, clients[k].id);
    assert clients[if i < k then i else k].id != clients[if i < k then k else i].id;
  }

  lemma {:induction false} FdsAfterLeave(watched: set<int>, msock: int, clients: seq<Client>, k: nat, id: int)
    requires FdsOk(watched, msock, clients) && k < |clients|
    ensures FdsOk(watched - {clients[k].fd}, msock, Others(clients, k, id))
  {
    var fd, r := clients[k].fd, Others(clients, k, id);
    forall i | 0 <= i < |r| ensures r[i].fd in watched - {fd} && r[i].fd != msock {
      var i' := if i < k then i else i + 1;
      assert r[i].fd == clients[i'].fd;
      assert clients[if i' < k then i' else k].fd != clients[if i' < k then k else i'].fd;
    }
    forall f | f in watched - {fd} && f != msock ensures FindFd(r, f) < |r| {
      var g := FindFd(clients, f);
      assert r[if g < k then g else g - 1].fd == f;
    }
  }

  lemma {:induction false} PeopleAfterLeave(clients: seq<Client>, k: nat, id: int, logins: nat)
    requires k < |clients| && LoginsOk(clients, logins) && NamesOk(clients)
    ensures LoginsOk(Others(clients, k, id), logins) && NamesOk(Others(clients, k, id))
  {
    var r := Others(clients, k, id);
    forall i, j | 0 <= i < j < |r|
      ensures r[i].login != r[j].login && (r[i].name == r[j].name ==> r[i].name == NO_NAME)
    {
      assert r[i].login == clients[if i < k then i else i + 1].login;
      assert r[j].login == clients[if j < k then j else j + 1].login;
    }
  }

  lemma {:induction false} EntryAfterLeave(w: World, k: nat, c: Client, u: UserPipe)
    requires IdsOk(w.table, w.clients) && k < |w.clients|
    requires u.target != w.clients[k].id && EntryOk(w.table, w.clients, w.made, c, u)
    ensures var id := w.clients[k].id;
            EntryOk(w.table[id - 1 := 0], Others(w.clients, k, id), w.made, c, u)
  {
    OthersFound(w.clients, k, w.clients[k].id);
  }

  lemma {:induction false} EntriesAfterLeave(w: World, k: nat, c: Client)
    requires IdsOk(w.table, w.clients) && k < |w.clients| && ClientOk(w.table, w.clients, w.made, c)
    ensures var id := w.clients[k].id;
            ClientOk(w.table[id - 1 := 0], Others(w.clients, k, id), w.made, Pruned(c, id))
  {
    var id := w.clients[k].id;
    var c' := Pruned(c, id);
    var keep := (u: UserPipe) => u.target != id;
    FilterKeepsShared(w.table, w.clients, w.made, c, keep);
    FilterMembers(keep, c.userPipes);
    forall j | 0 <= j < |c'.userPipes|
      ensures EntryOk(w.table[id - 1 := 0], Others(w.clients, k, id), w.made, c', c'.userPipes[j])
    {
      assert c'.userPipes[j] in c'.userPipes;
      EntryAfterLeave(w, k, c', c'.userPipes[j]);
    }
  }

  /** What leaving by `exit` amounts to. */
  function Left(w: World, k: nat): World
    requires k < |w.clients| && Occupied(w.table, w.clients[k].id)
  {
    var c := w.clients[k];
    w.(table := w.table[c.id - 1 := 0], clients := Others(w.clients, k, c.id), watched := w.watched - {c.fd},
       log := w.log + [LoggedOut(c.id)])
  }

  lemma {:induction false} OneOfItsId(table: seq<int>, clients: seq<Client>, k: nat)
    requires IdsOk(table, clients) && k < |clients|
    ensures Occupied(table, clients[k].id)
    ensures forall i :: 0 <= i < |clients| && i != k ==> clients[i].id != clients[k].id
  {
  }

  lemma {:induction false} ExitIsLeft(w: World, k: nat)
    requires Inv(w) && k < |w.clients|
    ensures Occupied(w.table, w.clients[k].id) && Leave(w, k, w.clients[k].id) == Left(w, k)
  {
    OneOfItsId(w.table, w.clients, k);
    EraseOne(w.clients, w.clients[k].id, k);
  }

  lemma {:induction false} LeftIds(w: World, k: nat)
    requires IdsOk(w.table, w.clients) && k < |w.clients| && Occupied(w.table, w.clients[k].id)
    ensures IdsOk(Left(w, k).table, Left(w, k).clients)
  {
    IdsAfterLeave(w.table, w.clients, k);
  }

  lemma {:induction false} LeftFds(w: World, k: nat)
    requires FdsOk(w.watched, w.msock, w.clients) && k < |w.clients| && Occupied(w.table, w.clients[k].id)
    ensures FdsOk(Left(w, k).watched, Left(w, k).msock, Left(w, k).clients)
  {
    FdsAfterLeave(w.watched, w.msock, w.clients, k, w.clients[k].id);
  }

  lemma {:induction false} LeftPeople(w: World, k: nat)
    requires LoginsOk(w.clients, w.logins) && NamesOk(w.clients)
    requires k < |w.clients| && Occupied(w.table, w.clients[k].id)
    ensures LoginsOk(Left(w, k).clients, Left(w, k).logins) && NamesOk(Left(w, k).clients)
  {
    PeopleAfterLeave(w.clients, k, w.clients[k].id, w.logins);
  }

  lemma {:induction false} LeftAll(w: World, k: nat)
    requires IdsOk(w.table, w.clients) && AllOk(w.table, w.clients, w.made)
    requires k < |w.clients| && Occupied(w.table, w.clients[k].id)
    ensures AllOk(Left(w, k).table, Left(w, k).clients, Left(w, k).made)
  {
    AllAfterLeave(w, k);
  }

  lemma {:induction false} LeftKeeps(w: World, k: nat)
    requires Inv(w) && k < |w.clients| && Occupied(w.table, w.clients[k].id)
    ensures Inv(Left(w, k))
  {
    LeftIds(w, k);
    LeftFds(w, k);
    LeftPeople(w, k);
    LeftAll(w, k);
    Assemble(Left(w, k));
  }

  /** Leaving by `exit` keeps the server's tables in step. */
  lemma {:induction false} ExitKeeps(w: World, k: nat)
    requires Inv(w) && k < |w.clients|
    ensures Inv(Leave(w, k, w.clients[k].id))
  {
    ExitIsLeft(w, k);
    LeftKeeps(w, k);
  }

  lemma {:induction false} OneAfterLeave(w: World, k: nat, i: nat)
    requires IdsOk(w.table, w.clients) && AllOk(w.table, w.clients, w.made) && k < |w.clients| && i < |w.clients| - 1
    ensures var id := w.clients[k].id;
            ClientOk(w.table[id - 1 := 0], Others(w.clients, k, id), w.made, Others(w.clients, k, id)[i])
  {
    var i' := if i < k then i else i + 1;
    assert ClientOk(w.table, w.clients, w.made, w.clients[i']);
    EntriesAfterLeave(w, k, w.clients[i']);
  }

  lemma {:induction false} AllAfterLeave(w: World, k: nat)
    requires IdsOk(w.table, w.clients) && AllOk(w.table, w.clients, w.made) && k < |w.clients|
    ensures var id := w.clients[k].id;
            AllOk(w.table[id - 1 := 0], Others(w.clients, k, id), w.made)
  {
    var id := w.clients[k].id;
    forall i | 0 <= i < |w.clients| - 1 { OneAfterLeave(w, k, i); }
  }

  /** At end of file the code erases by descriptor where it should by id. That keeps the tables in
      step exactly when the two happen to be equal. */
  lemma {:induction false} EndOfFileKeepsIff(w: World, k: nat)
    requires Inv(w) && k < |w.clients|
    ensures Inv(Leave(w, k, w.clients[k].fd)) <==> w.clients[k].fd == w.clients[k].id
  {
    var c := w.clients[k];
    if c.fd == c.id {
      ExitKeeps(w, k);
    } else {
      var w' := Leave(w, k, c.fd);
      EraseLeavesOthers(w.clients, c.fd, k);
      var i :| 0 <= i < |w'.clients| && w'.clients[i] == Pruned(c, c.fd);
      assert w'.clients[i].fd !in w'.watched;
    }
  }

  /** The server before anyone has logged in. */
  function Initial(msock: int): World {
    World(seq(MAX_CLIENTS, _ => 0), [], {msock}, msock, map[], [], [], 0, [])
  }

  lemma {:induction false} InitialOk(msock: int)
    ensures Inv(Initial(msock))
  {
    assert forall id :: !Occupied(Initial(msock).table, id);
  }

  /** The first client to connect, on descriptor 4, gets id 1; when it hangs up it stays in the
      client table, on a descriptor that is no longer watched. */
  lemma {:induction false} EndOfFileExample()
    ensures var w := Accept(Initial(3), 4);
            Inv(w) && |w.clients| == 1 && w.clients[0].id == 1 && !Inv(Leave(w, 0, 4))
  {
    InitialOk(3);
    AcceptKeeps(Initial(3), 4);
    EndOfFileKeepsIff(Accept(Initial(3), 4), 0);
  }
}
