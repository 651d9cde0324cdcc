/** The single-process server statement by statement, proved against `ServerModel`. */
module Server {
  import opened Sequences
  import opened Environment
  import opened ServerSyntax
  import opened ServerModel
  import opened ServerInvariant
  import opened ServerLeaving
  import PS = PipeSchedule
  import Plain = ShellSyntax
  import Decimal
  import FirstShell = Shell

  /** The id table, the client table and the watched descriptors are the server's; the rest belongs
      to the one shell that serves all clients. `made`, `logins` and `log` are what the operating
      system and the onlooker know. */
  class Server {
    const idTable: array<int>
    const msock: int
    var clientTable: seq<Client>
    var afds: set<int>
    var env: map<string, string>
    var path: seq<string>
    var cmds: seq<string>
    var made: seq<Owner>
    var logins: nat
    var log: seq<Event>

    function View(): World
      reads this, idTable
    {
      World(idTable[..], clientTable, afds, msock, env, path, made, logins, log)
    }

    constructor (msock: int)
      ensures fresh(idTable) && View() == Initial(msock) && cmds == []
    {
      idTable := new int[MAX_CLIENTS](_ => 0);
      this.msock := msock;
      clientTable, cmds, path, made, log := [], [], [], [], [];
      afds, env, logins := {msock}, map[], 0;
      new;
      assert idTable[..] == Initial(msock).table;
    }

    // ---------- tables ----------

    /** Takes the first free slot; -1 if there is none. */
    method GetAvaliableID() returns (id: int)
      modifies idTable
      ensures var k := FreeSlot(old(idTable[..]));
              if k == idTable.Length then id == -1 && idTable[..] == old(idTable[..])
              else id == k + 1 && idTable[..] == old(idTable[..])[k := 1]
    {
      var i := 0;
      while i < idTable.Length
        invariant 0 <= i <= idTable.Length && idTable[..] == old(idTable[..])
        invariant forall j :: 0 <= j < i ==> idTable[j] != 0
      {
        if idTable[i] == 0 {
          FirstIs(idTable[..], i);
          idTable[i] := 1;
          return i + 1;
        }
        i := i + 1;
      }
      FirstIs(idTable[..], i);
      return -1;
    }

    method GetClientByFd(fd: int) returns (i: nat)
      ensures i == FindFd(clientTable, fd)
    {
      i := 0;
      while i < |clientTable|
        invariant i <= |clientTable| && forall j :: 0 <= j < i ==> clientTable[j].fd != fd
      {
        if clientTable[i].fd == fd { return; }
        i := i + 1;
      }
    }

    method GetClientByID(id: int) returns (i: nat)
      ensures i == FindId(clientTable, id)
    {
      i := 0;
      while i < |clientTable|
        invariant i <= |clientTable| && forall j :: 0 <= j < i ==> clientTable[j].id != id
      {
        if clientTable[i].id == id { return; }
        i := i + 1;
      }
    }

    /** A connection on a new descriptor. */
    method AcceptClient(ssock: int)
      modifies this, idTable
      ensures View() == Accept(old(View()), ssock) && cmds == old(cmds)
    {
      var id := GetAvaliableID();
      if id < 0 { return; }
      clientTable := clientTable + [Client(ssock, id, logins, NO_NAME, [Setting("PATH", "bin:.")], [], [])];
      afds := afds + {ssock};
      log := log + [LoggedIn(logins, id)];
      logins := logins + 1;
    }

    /** Removes, in place, the user pipes of client `i` that lead to `id`. */
    method EraseUserPipesTo(i: nat, id: int)
      requires i < |clientTable|
      modifies this`clientTable
      ensures clientTable == old(clientTable)[i := Pruned(old(clientTable)[i], id)]
    {
      ghost var keep := (u: UserPipe) => u.target != id;
      ghost var c, ups, seen := clientTable[i], clientTable[i].userPipes, 0;
      var j := 0;
      while j < |clientTable[i].userPipes|
        invariant |clientTable| == |old(clientTable)| && 0 <= seen <= |ups|
        invariant forall x :: 0 <= x < |clientTable| && x != i ==> clientTable[x] == old(clientTable)[x]
        invariant clientTable[i] == c.(userPipes := clientTable[i].userPipes)
        invariant j == |Filter(keep, ups[..seen])|
        invariant clientTable[i].userPipes == Filter(keep, ups[..seen]) + ups[seen..]
        decreases |ups| - seen
      {
        FilterStep(keep, ups, seen);
        EraseOrPass(Filter(keep, ups[..seen]), ups, seen);
        var mine := clientTable[i].userPipes;
        if mine[j].target == id {
          clientTable := clientTable[i := clientTable[i].(userPipes := mine[..j] + mine[j + 1..])];
        } else {
          j := j + 1;
        }
        seen := seen + 1;
      }
      assert seen == |ups| && ups[..seen] == ups;
      assert clientTable[i].userPipes == Filter(keep, ups);
    }

    /** Removes, in place, the clients with this id, and from all others the user pipes that lead to
        it. */
    method EraseClientVector(id: int)
      modifies this`clientTable
      ensures clientTable == EraseClient(old(clientTable), id)
    {
      ghost var all, seen := clientTable, 0;
      var i := 0;
      while i < |clientTable|
        invariant 0 <= seen <= |all|
        invariant i == |EraseClient(all[..seen], id)|
        invariant clientTable == EraseClient(all[..seen], id) + all[seen..]
        decreases |all| - seen
      {
        EraseStep(all, seen, id);
        EraseOrPass(EraseClient(all[..seen], id), all, seen);
        ReplaceThenErase(EraseClient(all[..seen], id), all, seen, Pruned(all[seen], id));
        EraseUserPipesTo(i, id);
        if clientTable[i].id == id {
          clientTable := clientTable[..i] + clientTable[i + 1..];
        } else {
          i := i + 1;
        }
        seen := seen + 1;
      }
      assert all[..seen] == all;
    }

    /** Client `i` leaves; the caller says by which number it is erased. */
    method Logout(i: nat, key: int)
      requires i < |clientTable| && IsUserId(clientTable[i].id) && idTable.Length == MAX_CLIENTS
      modifies this, idTable
      ensures View() == Leave(old(View()), i, key) && cmds == old(cmds)
    {
      var c := clientTable[i];
      log := log + [LoggedOut(c.id)];
      idTable[c.id - 1] := 0;
      EraseClientVector(key);
      afds := afds - {c.fd};
    }

    // ---------- environment ----------

    method SetEnv(key: string, value: string)
      modifies this`env, this`path
      ensures env == Put(old(env), key, value)
      ensures path == if key == "PATH" then Split(value, ':') else old(path)
    {
      if ValidName(key) { env := env[key := value]; }
      if key == "PATH" {
        path := SplitLoop(value, ':');
      }
    }

    method SetAllEnv(me: nat)
      requires me < |clientTable|
      modifies this`env, this`path
      ensures env == Build(clientTable[me].env) && path == PathAfter(old(path), clientTable[me].env)
    {
      env := map[];
      var settings := clientTable[me].env;
      var i := 0;
      while i < |settings|
        invariant 0 <= i <= |settings|
        invariant env == Build(settings[..i]) && path == PathAfter(old(path), settings[..i])
      {
        assert settings[..i + 1][..i] == settings[..i];
        SetEnv(settings[i].key, settings[i].value);
        i := i + 1;
      }
      assert settings[..i] == settings;
    }

    /** Removes the first setting of `key`, in place. */
    method EraseEnv(me: nat, key: string)
      requires me < |clientTable|
      modifies this`clientTable
      ensures var c := old(clientTable)[me];
              clientTable == old(clientTable)[me := c.(env := Drop(c.env, key))]
    {
      var settings := clientTable[me].env;
      var i := 0;
      while i < |settings|
        invariant 0 <= i <= |settings|
        invariant forall j :: 0 <= j < i ==> settings[j].key != key
      {
        if settings[i].key == key {
          DropAt(settings, key, i);
          clientTable := clientTable[me := clientTable[me].(env := settings[..i] + settings[i + 1..])];
          return;
        }
        i := i + 1;
      }
      DropNone(settings, key);
    }

    method Name(me: nat, name: string)
      requires me < |clientTable|
      modifies this`clientTable
      ensures clientTable == if NameTaken(old(clientTable), name) then old(clientTable)
                             else old(clientTable)[me := old(clientTable)[me].(name := name)]
    {
      var i := 0;
      while i < |clientTable|
        invariant 0 <= i <= |clientTable|
        invariant forall j :: 0 <= j < i ==> clientTable[j].name != name
      {
        if clientTable[i].name == name { return; }
        i := i + 1;
      }
      clientTable := clientTable[me := clientTable[me].(name := name)];
    }

    // ---------- numbered pipes ----------

    /** Reuses the client's pipe with this count, or opens one. */
    method CreatePipe(me: nat, n: int) returns (p: nat)
      requires me < |clientTable|
      modifies this`clientTable, this`made
      ensures (View(), p) == OpenNumbered(old(View()), me, n)
    {
      var pipes := clientTable[me].pipes;
      var found := false;
      var i := 0;
      p := 0;
      while i < |pipes|
        invariant 0 <= i <= |pipes|
        invariant PS.PipeAt(pipes[..i], n) == if found then Some(p) else None
      {
        assert pipes[..i + 1][..i] == pipes[..i];
        if pipes[i].count == n {
          found := true;
          p := pipes[i].pipe;
        }
        i := i + 1;
      }
      assert pipes[..i] == pipes;
      if found { return; }
      p := |made|;
      made := made + [Numbered(clientTable[me].login)];
      clientTable := clientTable[me := clientTable[me].(pipes := pipes + [PS.Slot(p, n)])];
    }

    /** The first pipe that is due. */
    method GetPipeFd(me: nat) returns (p: Option<nat>)
      requires me < |clientTable|
      ensures p == FirstDue(clientTable[me].pipes)
    {
      var pipes := clientTable[me].pipes;
      var i := 0;
      while i < |pipes|
        invariant 0 <= i <= |pipes|
        invariant FirstDue(pipes) == FirstDue(pipes[i..])
      {
        if pipes[i].count == 0 { return Some(pipes[i].pipe); }
        i := i + 1;
      }
      p := None;
    }

    /** Removes, in place, the pipes whose time has come. */
    method ErasePipeVector(me: nat)
      requires me < |clientTable|
      modifies this`clientTable
      ensures var c := old(clientTable)[me];
              clientTable == old(clientTable)[me := c.(pipes := Filter(PS.PENDING, c.pipes))]
    {
      ghost var c, all, seen := clientTable[me], clientTable[me].pipes, 0;
      var i := 0;
      while i < |clientTable[me].pipes|
        invariant |clientTable| == |old(clientTable)| && 0 <= seen <= |all|
        invariant forall x :: 0 <= x < |clientTable| && x != me ==> clientTable[x] == old(clientTable)[x]
        invariant clientTable[me] == c.(pipes := clientTable[me].pipes)
        invariant i == |Filter(PS.PENDING, all[..seen])|
        invariant clientTable[me].pipes == Filter(PS.PENDING, all[..seen]) + all[seen..]
        decreases |all| - seen
      {
        FilterStep(PS.PENDING, all, seen);
        EraseOrPass(Filter(PS.PENDING, all[..seen]), all, seen);
        var mine := clientTable[me].pipes;
        if mine[i].count == 0 {
          clientTable := clientTable[me := clientTable[me].(pipes := mine[..i] + mine[i + 1..])];
        } else {
          i := i + 1;
        }
        seen := seen + 1;
      }
      assert seen == |all| && all[..seen] == all;
      assert clientTable[me].pipes == Filter(PS.PENDING, all);
    }

    method CountdownPipeVector(me: nat)
      requires me < |clientTable|
      modifies this`clientTable
      ensures var c := old(clientTable)[me];
              clientTable == old(clientTable)[me := c.(pipes := PS.Countdown(c.pipes))]
    {
      ghost var c := clientTable[me];
      var pipes := clientTable[me].pipes;
      var i := 0;
      while i < |pipes|
        invariant 0 <= i <= |pipes| == |c.pipes|
        invariant forall j :: 0 <= j < i ==> pipes[j] == PS.Slot(c.pipes[j].pipe, c.pipes[j].count - 1)
        invariant forall j :: i <= j < |pipes| ==> pipes[j] == c.pipes[j]
      {
        pipes := pipes[i := pipes[i].(count := pipes[i].count - 1)];
        i := i + 1;
      }
      assert pipes == PS.Countdown(c.pipes);
      clientTable := clientTable[me := clientTable[me].(pipes := pipes)];
    }

    // ---------- user pipes ----------

    method CreateUserPipe(me: nat, target: int) returns (p: nat)
      requires me < |clientTable|
      modifies this`clientTable, this`made, this`log
      ensures View() == OpenShared(old(View()), me, target) && p == |old(made)|
    {
      var c := clientTable[me];
      p := |made|;
      made := made + [Shared(c.id, target, c.login, LoginOf(clientTable, target))];
      log := log + [Created(c.id, target, p)];
      clientTable := clientTable[me := c.(userPipes := c.userPipes + [UserPipe(p, c.id, target, false)])];
    }

    /** Marks the source's pipe to this client as taken. */
    method GetUserPipeFd(s: nat, me: nat) returns (p: Option<nat>)
      requires s < |clientTable| && me < |clientTable|
      requires OwnsAll(clientTable[s])
      modifies this`clientTable, this`log
      ensures var ups := old(clientTable)[s].userPipes;
              var k := FindTarget(ups, old(clientTable)[me].id);
              if k == |ups| then p == None && View() == old(View())
              else p == Some(ups[k].pipe) && View() == Mark(old(View()), s, k)
    {
      var ups := clientTable[s].userPipes;
      var i := 0;
      while i < |ups|
        invariant 0 <= i <= |ups|
        invariant forall j :: 0 <= j < i ==> ups[j].target != clientTable[me].id
      {
        if ups[i].source == clientTable[s].id && ups[i].target == clientTable[me].id {
          TargetIs(ups, clientTable[me].id, i);
          log := log + [Taken(ups[i].source, ups[i].target)];
          clientTable := clientTable[s := clientTable[s].(userPipes := ups[i := ups[i].(used := true)])];
          return Some(ups[i].pipe);
        }
        i := i + 1;
      }
      TargetIs(ups, clientTable[me].id, i);
      p := None;
    }

    /** Removes, in place, the taken pipes of client `i`. */
    method EraseUserPipeVector(i: nat)
      requires i < |clientTable|
      modifies this`clientTable
      ensures var c := old(clientTable)[i];
              clientTable == old(clientTable)[i := c.(userPipes := Filter(UNUSED, c.userPipes))]
    {
      ghost var c, all, seen := clientTable[i], clientTable[i].userPipes, 0;
      var j := 0;
      while j < |clientTable[i].userPipes|
        invariant |clientTable| == |old(clientTable)| && 0 <= seen <= |all|
        invariant forall x :: 0 <= x < |clientTable| && x != i ==> clientTable[x] == old(clientTable)[x]
        invariant clientTable[i] == c.(userPipes := clientTable[i].userPipes)
        invariant j == |Filter(UNUSED, all[..seen])|
        invariant clientTable[i].userPipes == Filter(UNUSED, all[..seen]) + all[seen..]
        decreases |all| - seen
      {
        FilterStep(UNUSED, all, seen);
        EraseOrPass(Filter(UNUSED, all[..seen]), all, seen);
        var mine := clientTable[i].userPipes;
        if mine[j].used {
          clientTable := clientTable[i := clientTable[i].(userPipes := mine[..j] + mine[j + 1..])];
        } else {
          j := j + 1;
        }
        seen := seen + 1;
      }
      assert seen == |all| && all[..seen] == all;
      assert clientTable[i].userPipes == Filter(UNUSED, all);
    }

    /** Removes the taken pipes of the clients with these ids. */
    method SweepSources(ids: seq<int>)
      modifies this`clientTable, this`log
      ensures View() == SweepAll(old(View()), ids)
    {
      var n := 0;
      while n < |ids|
        invariant 0 <= n <= |ids|
        invariant View() == SweepAll(old(View()), ids[..n])
      {
        assert ids[..n + 1][..n] == ids[..n];
        var i := GetClientByID(ids[n]);
        if i < |clientTable| {
          EraseUserPipeVector(i);
          log := log + [Swept(ids[n])];
        }
        n := n + 1;
      }
      assert ids[..n] == ids;
    }

    // ---------- one command ----------

    /** Runs one command; `exit` gives -1. */
    method ExecCmd(me: nat, args: seq<string>, stdin: Handle, stdout: Handle, stderr: Handle,
                   sink: Option<int>, spare: nat)
      returns (status: int)
      requires me < |clientTable| && SafeArgs(args)
      modifies this
      ensures var w := old(View());
              View() == BuiltIn(w, me, args)
                        .(log := w.log + [Ran(w.clients[me].login, args, stdin, stdout, stderr, sink, spare)])
      ensures status == (if args[0] == "exit" then -1 else 0) && cmds == old(cmds)
    {
      log := log + [Ran(clientTable[me].login, args, stdin, stdout, stderr, sink, spare)];
      var prog := args[0];
      if prog == "setenv" {
        EraseEnv(me, args[1]);
        clientTable := clientTable[me := clientTable[me].(env := clientTable[me].env + [Setting(args[1], args[2])])];
        SetEnv(args[1], args[2]);
        return 0;
      } else if prog == "name" {
        Name(me, args[1]);
        return 0;
      } else if prog == "exit" {
        return -1;
      }
      return 0;
    }

    /** Runs a command whose files and pipes are open, and moves the pipes on. */
    method Execute(me: nat, args: seq<string>, stdin: Handle, stdout: Handle, stderr: Handle,
                   sink: Option<int>, spare: nat, takes: seq<int>, ghost q: Prep)
      returns (status: int)
      requires me < |clientTable| && SafeArgs(args)
      requires Armed(q, View(), stdin, stdout, stderr, sink, spare, takes)
      modifies this
      ensures View() == Perform(q, me, args) && status == (if args[0] == "exit" then -1 else 0) && cmds == old(cmds)
    {
      var due := GetPipeFd(me);
      var input := if due.Some? then FromPipe(due.value) else stdin;
      status := ExecCmd(me, args, input, stdout, stderr, sink, if sink.Some? then spare else |made|);
      ghost var w := View();
      ErasePipeVector(me);
      CountdownPipeVector(me);
      assert View() == MoveOn(w, me);
      SweepSources(takes + [clientTable[me].id]);
    }

    /** The number in a `>n` or `<n` word, by way of a three-character buffer. */
    static method DecodeUser(word: string) returns (id: int)
      requires 1 <= |word| <= 3
      ensures id == UserNumber(word)
    {
      var buffer := new char[3](_ => '\0');
      var i := 1;
      while i < |word|
        invariant 1 <= i <= |word|
        invariant buffer[..i - 1] == word[1..i]
      {
        buffer[i - 1] := word[i];
        buffer[i] := '\0';
        i := i + 1;
      }
      assert word[1..] == word[1..i];
      id := Decimal.Atoi(buffer[..i - 1]);
    }

    /** Opens a pipe to another user, unless he is not there or already has one. */
    method SendTo(me: nat, target: int, stdout: Handle, ghost q: Prep) returns (refused: bool, stdout': Handle)
      requires me < |clientTable| && IsUserId(target) && idTable.Length == MAX_CLIENTS
      requires View() == q.w && !q.refused && q.stdout == stdout
      modifies this`clientTable, this`made, this`log
      ensures var q' := Apply(q, me, ToUser(target));
              View() == q'.w && refused == q'.refused && stdout' == q'.stdout
    {
      if idTable[target - 1] == 0 { return true, stdout; }
      var ups := clientTable[me].userPipes;
      var i := 0;
      while i < |ups|
        invariant 0 <= i <= |ups|
        invariant forall j :: 0 <= j < i ==> ups[j].target != target
      {
        if ups[i].target == target {
          TargetIs(ups, target, i);
          return true, stdout;
        }
        i := i + 1;
      }
      TargetIs(ups, target, i);
      var p := CreateUserPipe(me, target);
      return false, ToPipe(p);
    }

    /** Takes the pipe from another user, unless he is not there or there is none. */
    method ReceiveFrom(me: nat, source: int, stdin: Handle, takes: seq<int>, ghost q: Prep)
      returns (refused: bool, stdin': Handle, takes': seq<int>)
      requires me < |clientTable| && IsUserId(source) && idTable.Length == MAX_CLIENTS && Sourced(clientTable)
      requires View() == q.w && !q.refused && q.stdin == stdin && q.takes == takes
      modifies this`clientTable, this`log
      ensures var q' := Apply(q, me, FromUser(source));
              View() == q'.w && refused == q'.refused && stdin' == q'.stdin && takes' == q'.takes
    {
      if idTable[source - 1] == 0 { return true, stdin, takes; }
      var i := GetClientByID(source);
      if i == |clientTable| { return true, stdin, takes; }
      assert OwnsAll(clientTable[i]);
      var p := GetUserPipeFd(i, me);
      if p.None? { return true, stdin, takes; }
      return false, FromPipe(p.value), takes + [source];
    }

    /** Carries out a `>n` or `<n` word. */
    method UserRedirect(me: nat, word: string, stdin: Handle, stdout: Handle, takes: seq<int>, ghost q: Prep)
      returns (refused: bool, stdin': Handle, stdout': Handle, takes': seq<int>)
      requires me < |clientTable| && idTable.Length == MAX_CLIENTS && Sourced(clientTable)
      requires View() == q.w && Holds(q, stdin, stdout, takes) && !q.refused
      requires 1 <= |word| <= 3 && IsUserId(UserNumber(word)) && (IsUserOut(word) || IsUserIn(word))
      modifies this`clientTable, this`made, this`log
      ensures var q' := Apply(q, me, UserOp(word));
              View() == q'.w && Holds(q', stdin', stdout', takes') && refused == q'.refused
    {
      stdin', stdout', takes' := stdin, stdout, takes;
      var id := DecodeUser(word);
      if IsUserOut(word) {
        refused, stdout' := SendTo(me, id, stdout, q);
      } else {
        refused, stdin', takes' := ReceiveFrom(me, id, stdin, takes, q);
      }
    }

    /** Carries out the redirection spelled by the next words; a failed check empties the queue. */
    method Redirect(me: nat, stdin: Handle, stdout: Handle, takes: seq<int>, ghost q: Prep)
      returns (refused: bool, stdin': Handle, stdout': Handle, takes': seq<int>, ghost op: Op, ghost rest: seq<string>)
      requires me < |clientTable| && idTable.Length == MAX_CLIENTS && Sourced(clientTable)
      requires View() == q.w && Holds(q, stdin, stdout, takes) && !q.refused
      requires cmds != [] && Safe(false, cmds) && IsRedirection(cmds[0])
      modifies this`clientTable, this`made, this`log, this`cmds
      ensures var q' := Apply(q, me, op);
              View() == q'.w && Holds(q', stdin', stdout', takes') && refused == q'.refused
      ensures |rest| < |old(cmds)| && Safe(false, rest) && cmds == if refused then [] else rest
      ensures forall args, ops :: args != [] ==> Parse(args, ops, old(cmds)) == Parse(args, ops + [op], rest)
    {
      refused, stdin', stdout', takes' := false, stdin, stdout, takes;
      var word := cmds[0];
      if word == ">" {
        op, rest := OutFile(cmds[1]), cmds[2..];
        stdout' := Opened(cmds[1]);
        cmds := cmds[2..];
      } else if word == "<" {
        op, rest := InFile(cmds[1]), cmds[2..];
        stdin' := Opened(cmds[1]);
        cmds := cmds[2..];
      } else {
        op, rest := UserOp(word), cmds[1..];
        refused, stdin', stdout', takes' := UserRedirect(me, word, stdin, stdout, takes, q);
        cmds := if refused then [] else cmds[1..];
      }
    }

    /** Opens the pipe spelled by the next word and takes the word off the queue. */
    method TakePipe(me: nat, stdout: Handle, ghost q: Prep)
      returns (stdout': Handle, stderr': Handle, sink': Option<int>, spare': nat, ghost sink: Sink)
      requires me < |clientTable| && View() == q.w && !q.refused && q.stdout == stdout && Unsunk(q)
      requires cmds != [] && Safe(false, cmds) && (Plain.IsPipe(cmds[0]) || Plain.IsErrPipe(cmds[0]))
      modifies this`clientTable, this`made, this`cmds
      ensures var q' := ApplySink(q, me, sink);
              View() == q'.w && q'.stdout == stdout' && q'.stderr == stderr' && q'.sink == sink' && q'.spare == spare'
      ensures |cmds| < |old(cmds)| && Safe(true, cmds)
      ensures forall args, ops :: args != [] ==>
                Parse(args, ops, old(cmds)) == [Cmd(args, ops, sink)] + Parse([], [], cmds)
    {
      var n := FirstShell.Shell.DecodePipe(cmds[0]);
      spare' := |made|;
      var p := CreatePipe(me, n);
      stdout', sink' := ToPipe(p), Some(n);
      if Plain.IsPipe(cmds[0]) {
        sink, stderr' := OutPipe(n), Default;
      } else {
        sink, stderr' := ErrPipe(n), ToPipe(p);
      }
      cmds := cmds[1..];
    }

    // ---------- one line ----------

    /** Takes all words off the queue. */
    method TakeRest(first: string) returns (args: seq<string>)
      modifies this`cmds
      ensures args == [first] + old(cmds) && cmds == []
    {
      args := [first];
      while cmds != []
        invariant args + cmds == [first] + old(cmds)
        decreases |cmds|
      {
        args := args + [cmds[0]];
        cmds := cmds[1..];
      }
    }

    /** The next word is a pipe: it is opened, and the command is complete. */
    method ReadPipe(me: nat, f0: Flags, ghost l: Line, ghost ops: seq<Op>) returns (f: Flags, ghost s: Sink)
      requires cmds != [] && l.me == me < |clientTable| && !f0.isFirst && AtWord(l, f0, ops, View(), cmds)
      requires Unsunk(Collected(l, ops)) && (Plain.IsPipe(cmds[0]) || Plain.IsErrPipe(cmds[0]))
      modifies this`clientTable, this`made, this`cmds
      ensures |cmds| < |old(cmds)| && Onward(l, f, ops, s, View(), cmds)
    {
      var stdout, stderr, sink, spare;
      stdout, stderr, sink, spare, s := TakePipe(me, f0.stdout, Collected(l, ops));
      f := f0.(stdout := stdout, stderr := stderr, sink := sink, spare := spare, isFirst := true, isFinal := true);
      assert Armed(ApplySink(Collected(l, ops), me, s), View(), f.stdin, stdout, stderr, sink, spare, f.takes);
      Piped(l, f0, old(cmds), ops, s, cmds);
    }

    /** The next word is a redirection: it is carried out, or the line is refused. */
    method ReadRedirection(me: nat, f0: Flags, ghost l: Line, ghost ops: seq<Op>)
      returns (f: Flags, refused: bool, ghost ops': seq<Op>)
      requires cmds != [] && OnCourse(l) && l.me == me < |clientTable|
      requires !f0.isFirst && AtWord(l, f0, ops, View(), cmds)
      requires Fit(Collected(l, ops)) && IsRedirection(cmds[0])
      modifies this`clientTable, this`made, this`log, this`cmds
      ensures |cmds| < |old(cmds)|
      ensures refused ==> cmds == [] && ExecuteAll(l.g0, l.me, l.all) == Progress(View(), 0, true)
      ensures !refused ==> Onward(l, f, ops', NoPipe, View(), cmds)
    {
      var stdin, stdout, takes;
      ghost var op, rest;
      refused, stdin, stdout, takes, op, rest := Redirect(me, f0.stdin, f0.stdout, f0.takes, Collected(l, ops));
      ops' := ops + [op];
      Redirected(l, f0, old(cmds), ops, op, rest);
      f := f0.(stdin := stdin, stdout := stdout, takes := takes, redirected := true,
               isFirst := cmds == [], isFinal := cmds == []);
      if refused { RefusedLine(l, f.args, ops', rest); }
    }

    /** Takes the next word, with its file name if it has one: it becomes an argument, is carried out
        as a redirection, or opens the pipe that ends the command. */
    method ReadWord(me: nat, f0: Flags, ghost l: Line, ghost ops: seq<Op>)
      returns (f: Flags, refused: bool, ghost ops': seq<Op>, ghost s: Sink)
      requires cmds != [] && OnCourse(l) && l.me == me < |clientTable| && Ready(l, f0, ops, View(), cmds)
      requires Fit(Collected(l, ops))
      modifies this`clientTable, this`made, this`log, this`cmds
      ensures |cmds| < |old(cmds)|
      ensures refused ==> cmds == [] && ExecuteAll(l.g0, l.me, l.all) == Progress(View(), 0, true)
      ensures !refused ==> Onward(l, f, ops', s, View(), cmds)
    {
      f, refused, ops', s := f0, false, ops, NoPipe;
      if !f.redirected { f := f.(stdin := Default, stdout := Default, stderr := Default); }
      assert AtWord(l, f, ops, View(), cmds);
      if f.isFirst {
        var args := [cmds[0]];
        cmds := cmds[1..];
        if TakesAll(args[0]) { args := TakeRest(args[0]); }
        FirstWord(l, f, View(), old(cmds), args, cmds);
        f := f.(args := args, isFirst := false, isFinal := cmds == []);
      } else if Plain.IsPipe(cmds[0]) || Plain.IsErrPipe(cmds[0]) {
        f, s := ReadPipe(me, f, l, ops);
      } else if IsRedirection(cmds[0]) {
        f, refused, ops' := ReadRedirection(me, f, l, ops);
      } else {
        Argument(l, f, View(), cmds, ops);
        f := f.(args := f.args + [cmds[0]], isFinal := cmds[1..] == []);
        cmds := cmds[1..];
      }
    }

    /** Executes the queue of words: the commands they spell, in order, up to the first that is
        refused. The queue is empty however it returns. */
    method ExecCmds(me: nat) returns (status: int)
      requires me < |clientTable| && Inv(View()) && Safe(true, cmds)
      requires AllSafe(Parse([], [], cmds))
      modifies this
      ensures var g := ExecuteAll(Progress(old(View()), 0, false), me, Parse([], [], old(cmds)));
              View() == g.w && status == g.status
      ensures cmds == []
    {
      ghost var l := Line(Progress(View(), 0, false), me, Parse([], [], cmds), Progress(View(), 0, false), []);
      ghost var ops: seq<Op>, s := [], NoPipe;
      var f := START;
      status := 0;
      while cmds != []
        invariant OnCourse(l) && l.me == me && l.g.status == status
        invariant l.g0 == Progress(old(View()), 0, false) && l.all == Parse([], [], old(cmds))
        invariant if cmds == [] then l.done == l.all && View() == l.g.w else Ready(l, f, ops, View(), cmds)
        decreases |cmds|
      {
        var refused;
        CollectedIsFit(l, ops);
        f, refused, ops, s := ReadWord(me, f, l, ops);
        if refused { return 0; }
        if f.isFinal {
          Finished(l, Cmd(f.args, ops, s), cmds);
          status := Execute(me, f.args, f.stdin, f.stdout, f.stderr, f.sink, f.spare, f.takes,
                            ApplySink(Collected(l, ops), me, s));
          l, ops, f := Next(l, Cmd(f.args, ops, s)), [], START;
        }
      }
    }

    /** A line of client `me`: its environment is loaded and its words executed. */
    method ClientExec(me: nat, line: string) returns (status: int)
      requires me < |clientTable| && Inv(View()) && SafeLine(line) && cmds == []
      modifies this
      ensures View() == RunLine(old(View()), me, line).w && status == RunLine(old(View()), me, line).status
      ensures cmds == []
    {
      SetAllEnv(me);
      LoadKeeps(old(View()), me);
      assert View() == LoadEnv(old(View()), me);
      if line == "" {
        assert CmdsOf(line) == [];
        return 0;
      }
      cmds := FirstShell.ReadWords(line);
      status := ExecCmds(me);
    }

    // ---------- the server's loop ----------

    /** The client on `fd` has sent a line, and leaves if the line says so. */
    method Serve(fd: int, line: string)
      requires Inv(View()) && cmds == [] && FindFd(clientTable, fd) < |clientTable| && SafeLine(line)
      modifies this, idTable
      ensures View() == Say(old(View()), FindFd(old(clientTable), fd), line)
      ensures Inv(View()) && cmds == []
    {
      ghost var w := View();
      var i := GetClientByFd(fd);
      var status := ClientExec(i, line);
      RunLineKeeps(w, i, line);
      ghost var w' := View();
      assert idTable[..] == w'.table;
      if status == -1 {
        ExitIsLeft(w', i);
        ExitKeeps(w', i);
        Logout(i, clientTable[i].id);
      }
    }

    /** The client on `fd` has hung up. The tables stay in step exactly if its id is its descriptor. */
    method HangUp(fd: int)
      requires Inv(View()) && cmds == [] && FindFd(clientTable, fd) < |clientTable|
      modifies this, idTable
      ensures View() == Leave(old(View()), FindFd(old(clientTable), fd), fd) && cmds == []
      ensures Inv(View()) <==> old(clientTable)[FindFd(old(clientTable), fd)].id == fd
    {
      var i := GetClientByFd(fd);
      ExitIsLeft(View(), i);
      EndOfFileKeepsIff(View(), i);
      Logout(i, fd);
    }
  }

  /** The local variables of the loop: the flags, and what is known of the command being collected. */
  datatype Flags = Flags(isFirst: bool, isFinal: bool, redirected: bool, args: seq<string>,
                         stdin: Handle, stdout: Handle, stderr: Handle, takes: seq<int>, sink: Option<int>, spare: nat)

  const START := Flags(true, false, false, [], Default, Default, Default, [], None, 0)

  /** The flags agree with the words read so far. */
  ghost predicate Ready(l: Line, f: Flags, ops: seq<Op>, w: World, words: seq<string>) {
    && !f.isFinal && f.sink == None && Collecting(l, f.isFirst, if f.isFirst then [] else f.args, ops, words)
    && w == Collected(l, ops).w && !(f.isFirst && f.redirected)
    && if f.redirected then Holds(Collected(l, ops), f.stdin, f.stdout, f.takes) && f.stderr == Default
       else ops == [] && f.takes == []
  }

  /** The command is complete and everything for it is open. */
  ghost predicate Loaded(l: Line, f: Flags, ops: seq<Op>, s: Sink, w: World, words: seq<string>) {
    && Complete(l, Cmd(f.args, ops, s), words) && l.me < |w.clients|
    && Armed(ApplySink(Collected(l, ops), l.me, s), w, f.stdin, f.stdout, f.stderr, f.sink, f.spare, f.takes)
  }

  ghost predicate Onward(l: Line, f: Flags, ops: seq<Op>, s: Sink, w: World, words: seq<string>) {
    if f.isFinal then Loaded(l, f, ops, s, w, words) else words != [] && Ready(l, f, ops, w, words)
  }

  /** A line being executed: how it began, all its commands, how far it is, and the commands done. */
  datatype Line = Line(g0: Progress, me: nat, all: seq<Cmd>, g: Progress, done: seq<Cmd>)

  ghost predicate OnCourse(l: Line) {
    && l.me < |l.g0.w.clients| && l.me < |l.g.w.clients| && AllSafe(l.all) && AllSafe(l.done)
    && l.g == ExecuteAll(l.g0, l.me, l.done) && !l.g.refused
  }

  /** The command being collected, with its redirections carried out. */
  ghost function Collected(l: Line, ops: seq<Op>): Prep
    requires l.me < |l.g.w.clients|
  {
    ApplyAll(Fresh(l.g.w), l.me, ops)
  }

  /** The command being collected and the words still in the queue. */
  ghost predicate Collecting(l: Line, isFirst: bool, args: seq<string>, ops: seq<Op>, words: seq<string>) {
    && l.me < |l.g.w.clients| && Safe(isFirst, words) && !Collected(l, ops).refused
    && (if isFirst then ops == [] else args != [])
    && l.all == l.done + Parse(if isFirst then [] else args, ops, words)
  }

  /** A command has been read to its end. */
  ghost predicate Complete(l: Line, c: Cmd, words: seq<string>) {
    && l.me < |l.g.w.clients| && Safe(true, words) && !Collected(l, c.ops).refused
    && l.all == l.done + ([c] + Parse([], [], words))
  }

  ghost function Next(l: Line, c: Cmd): Line
    requires OnCourse(l) && SafeCmd(c)
  {
    Line(l.g0, l.me, l.all, ServerModel.Execute(l.g, l.me, c), l.done + [c])
  }

  /** What the next word may rely on. */
  ghost predicate Fit(q: Prep) {
    Sourced(q.w.clients) && |q.w.table| == MAX_CLIENTS && Unsunk(q)
  }

  lemma {:induction false} CollectedIsFit(l: Line, ops: seq<Op>)
    requires OnCourse(l) && Inv(l.g0.w)
    ensures Fit(Collected(l, ops))
  {
    ExecuteAllKeeps(l.g0, l.me, l.done);
    ApplyAllKeeps(Fresh(l.g.w), l.me, ops);
    ApplyAllUnsunk(Fresh(l.g.w), l.me, ops);
    InvSourced(Collected(l, ops).w);
  }

  /** A word is about to be read, with the handles opened so far. */
  ghost predicate AtWord(l: Line, f: Flags, ops: seq<Op>, w: World, words: seq<string>) {
    && !f.isFinal && f.sink == None && Collecting(l, f.isFirst, if f.isFirst then [] else f.args, ops, words)
    && w == Collected(l, ops).w && Holds(Collected(l, ops), f.stdin, f.stdout, f.takes) && f.stderr == Default
  }

  /** Without further words the command being collected is complete. */
  lemma {:induction false} NoMoreWords(l: Line, f: Flags, ops: seq<Op>, w: World)
    requires l.me < |l.g.w.clients| && f.args != [] && f.isFinal && !Collected(l, ops).refused
    requires l.all == l.done + Parse(f.args, ops, [])
    requires Armed(Collected(l, ops), w, f.stdin, f.stdout, f.stderr, f.sink, f.spare, f.takes)
    ensures Onward(l, f, ops, NoPipe, w, [])
  {
    assert [Cmd(f.args, ops, NoPipe)] + Parse([], [], []) == [Cmd(f.args, ops, NoPipe)];
  }

  lemma {:induction false} FirstWord(l: Line, f: Flags, w: World, words: seq<string>,
                                     args: seq<string>, rest: seq<string>)
    requires words != [] && f.isFirst && AtWord(l, f, [], w, words) && Unsunk(Collected(l, []))
    requires if TakesAll(words[0]) then args == words && rest == [] else args == [words[0]] && rest == words[1..]
    requires !f.redirected && f.takes == []
    ensures Onward(l, f.(args := args, isFirst := false, isFinal := rest == []), [], NoPipe, w, rest)
  {
    assert Parse([], [], words) == Parse(args, [], rest);
    if rest == [] { NoMoreWords(l, f.(args := args, isFirst := false, isFinal := true), [], w); }
  }

  lemma {:induction false} Argument(l: Line, f: Flags, w: World, words: seq<string>, ops: seq<Op>)
    requires words != [] && !f.isFirst && AtWord(l, f, ops, w, words) && Unsunk(Collected(l, ops))
    requires !Plain.IsPipe(words[0]) && !Plain.IsErrPipe(words[0]) && !IsRedirection(words[0])
    requires !f.redirected ==> ops == [] && f.takes == []
    ensures Onward(l, f.(args := f.args + [words[0]], isFinal := words[1..] == []), ops, NoPipe, w, words[1..])
  {
    var args, rest := f.args + [words[0]], words[1..];
    assert Parse(f.args, ops, words) == Parse(args, ops, rest);
    if rest == [] { NoMoreWords(l, f.(args := args, isFinal := true), ops, w); }
  }

  lemma {:induction false} Redirected(l: Line, f: Flags, words: seq<string>, ops: seq<Op>, op: Op, rest: seq<string>)
    requires words != [] && Collecting(l, false, f.args, ops, words) && Safe(false, rest)
    requires !f.isFinal && f.sink == None && f.stderr == Default && Unsunk(Collected(l, ops))
    requires Parse(f.args, ops, words) == Parse(f.args, ops + [op], rest)
    ensures var q := Collected(l, ops + [op]);
            var last := rest == [];
            && q == Apply(Collected(l, ops), l.me, op)
            && (!q.refused ==>
                  Onward(l, f.(stdin := q.stdin, stdout := q.stdout, takes := q.takes, redirected := true,
                               isFirst := last, isFinal := last), ops + [op], NoPipe, q.w, rest))
  {
    ApplyAllPush(Fresh(l.g.w), l.me, ops, op);
    var q := Collected(l, ops + [op]);
    if !q.refused && rest == [] {
      NoMoreWords(l, f.(stdin := q.stdin, stdout := q.stdout, takes := q.takes, redirected := true,
                        isFirst := true, isFinal := true), ops + [op], q.w);
    }
  }

  lemma {:induction false} Piped(l: Line, f: Flags, words: seq<string>, ops: seq<Op>, s: Sink, rest: seq<string>)
    requires words != [] && Collecting(l, false, f.args, ops, words) && Safe(true, rest)
    requires Parse(f.args, ops, words) == [Cmd(f.args, ops, s)] + Parse([], [], rest)
    ensures Complete(l, Cmd(f.args, ops, s), rest)
  {
  }

  lemma {:induction false} NextCommand(l: Line, c: Cmd, rest: seq<string>)
    requires AllSafe(l.all) && AllSafe(l.done) && Complete(l, c, rest)
    ensures SafeCmd(c) && AllSafe(l.done + [c]) && l.all == (l.done + [c]) + Parse([], [], rest)
  {
    assert l.all[|l.done|] == c;
  }

  lemma {:induction false} ExecuteAllPush(g: Progress, me: nat, cmds: seq<Cmd>, c: Cmd)
    requires me < |g.w.clients| && AllSafe(cmds) && AllSafe(cmds + [c]) && SafeCmd(c)
    ensures ExecuteAll(g, me, cmds + [c]) == ServerModel.Execute(ExecuteAll(g, me, cmds), me, c)
  {
    assert (cmds + [c])[..|cmds|] == cmds;
  }

  /** A complete command is executed next. */
  lemma {:induction false} Finished(l: Line, c: Cmd, rest: seq<string>)
    requires OnCourse(l) && Complete(l, c, rest)
    ensures SafeCmd(c) && OnCourse(Next(l, c))
    ensures !ApplySink(Collected(l, c.ops), l.me, c.sink).refused
    ensures Next(l, c).g == Progress(Perform(ApplySink(Collected(l, c.ops), l.me, c.sink), l.me, c.args),
                                     if c.args[0] == "exit" then -1 else 0, false)
    ensures if rest == [] then Next(l, c).done == l.all else Collecting(Next(l, c), true, [], [], rest)
  {
    NextCommand(l, c, rest);
    ExecuteAllPush(l.g0, l.me, l.done, c);
  }

  ghost predicate AllSafe(cmds: seq<Cmd>) { forall i :: 0 <= i < |cmds| ==> SafeCmd(cmds[i]) }

  lemma {:induction false} ApplyAllPush(q: Prep, me: nat, ops: seq<Op>, op: Op)
    requires me < |q.w.clients|
    ensures ApplyAll(q, me, ops + [op]) == Apply(ApplyAll(q, me, ops), me, op)
  {
    assert (ops + [op])[..|ops|] == ops;
  }

  /** Once a check has failed, the rest of the line changes nothing. */
  lemma {:induction false} RefusedStays(g: Progress, me: nat, cmds: seq<Cmd>)
    requires me < |g.w.clients| && g.refused && AllSafe(cmds)
    ensures ExecuteAll(g, me, cmds) == g
  {
    if cmds != [] { RefusedStays(g, me, cmds[..|cmds| - 1]); }
  }

  lemma {:induction false} RefusedOps(q: Prep, me: nat, ops: seq<Op>, more: seq<Op>)
    requires me < |q.w.clients| && ops <= more && ApplyAll(q, me, ops).refused
    ensures ApplyAll(q, me, more) == ApplyAll(q, me, ops)
  {
    if ops == more {
    } else {
      assert ops <= more[..|more| - 1];
      RefusedOps(q, me, ops, more[..|more| - 1]);
    }
  }

  /** The command being collected keeps the redirections it has. */
  lemma {:induction false} HeadKeepsOps(args: seq<string>, ops: seq<Op>, ts: seq<string>)
    requires args != [] && Safe(false, ts)
    ensures var cmds := Parse(args, ops, ts);
            cmds != [] && ops <= cmds[0].ops
    decreases |ts|
  {
    if ts == [] || Plain.IsPipe(ts[0]) || Plain.IsErrPipe(ts[0]) {
    } else if ts[0] == ">" {
      HeadKeepsOps(args, ops + [OutFile(ts[1])], ts[2..]);
    } else if ts[0] == "<" {
      HeadKeepsOps(args, ops + [InFile(ts[1])], ts[2..]);
    } else if IsUserOut(ts[0]) {
      HeadKeepsOps(args, ops + [ToUser(UserNumber(ts[0]))], ts[1..]);
    } else if IsUserIn(ts[0]) {
      HeadKeepsOps(args, ops + [FromUser(UserNumber(ts[0]))], ts[1..]);
    } else {
      HeadKeepsOps(args + [ts[0]], ops, ts[1..]);
    }
  }

  lemma {:induction false} ExecuteAllConcat(g: Progress, me: nat, a: seq<Cmd>, b: seq<Cmd>)
    requires me < |g.w.clients| && AllSafe(a) && AllSafe(b) && AllSafe(a + b)
    ensures ExecuteAll(g, me, a + b) == ExecuteAll(ExecuteAll(g, me, a), me, b)
  {
    if b == [] {
      assert a + b == a;
    } else {
      var n := |b| - 1;
      assert (a + b)[..|a + b| - 1] == a + b[..n];
      ExecuteAllConcat(g, me, a, b[..n]);
    }
  }

  /** A refused command at the head of what is left. */
  lemma {:induction false} RefusedHead(g: Progress, me: nat, cmds: seq<Cmd>, ops: seq<Op>)
    requires me < |g.w.clients| && AllSafe(cmds) && cmds != [] && ops <= cmds[0].ops
    requires !g.refused && ApplyAll(Fresh(g.w), me, ops).refused
    ensures ExecuteAll(g, me, cmds) == Progress(ApplyAll(Fresh(g.w), me, ops).w, 0, true)
  {
    RefusedOps(Fresh(g.w), me, ops, cmds[0].ops);
    assert cmds == [cmds[0]] + cmds[1..];
    ExecuteAllConcat(g, me, [cmds[0]], cmds[1..]);
    assert [cmds[0]][..0] == [];
    RefusedStays(ServerModel.Execute(g, me, cmds[0]), me, cmds[1..]);
  }

  lemma {:induction false} AllSafeParts(a: seq<Cmd>, b: seq<Cmd>)
    requires AllSafe(a + b)
    ensures AllSafe(a) && AllSafe(b)
  {
    assert forall i :: 0 <= i < |a| ==> (a + b)[i] == a[i];
    assert forall i :: 0 <= i < |b| ==> (a + b)[|a| + i] == b[i];
  }

  /** A line whose current command is refused ends there. */
  lemma {:induction false} RefusedLine(l: Line, args: seq<string>, ops: seq<Op>, rest: seq<string>)
    requires OnCourse(l) && args != [] && Safe(false, rest)
    requires l.all == l.done + Parse(args, ops, rest) && Collected(l, ops).refused
    ensures ExecuteAll(l.g0, l.me, l.all) == Progress(Collected(l, ops).w, 0, true)
  {
    HeadKeepsOps(args, ops, rest);
    AllSafeParts(l.done, Parse(args, ops, rest));
    ExecuteAllConcat(l.g0, l.me, l.done, Parse(args, ops, rest));
    RefusedHead(l.g, l.me, Parse(args, ops, rest), ops);
  }

  /** The command being prepared has these handles. */
  ghost predicate Holds(q: Prep, stdin: Handle, stdout: Handle, takes: seq<int>) {
    q.stdin == stdin && q.stdout == stdout && q.takes == takes
  }

  /** The command is ready to run with these handles. */
  ghost predicate Armed(q: Prep, w: World, stdin: Handle, stdout: Handle, stderr: Handle,
                        sink: Option<int>, spare: nat, takes: seq<int>) {
    && q.w == w && q.stdin == stdin && q.stdout == stdout && q.stderr == stderr && q.takes == takes
    && q.sink == sink && (sink.Some? ==> q.spare == spare)
  }

  function UserOp(word: string): Op
    requires word != ""
  {
    if IsUserOut(word) then ToUser(UserNumber(word)) else FromUser(UserNumber(word))
  }

  ghost predicate OwnsAll(c: Client) {
    forall j :: 0 <= j < |c.userPipes| ==> c.userPipes[j].source == c.id
  }

  ghost predicate Sourced(clients: seq<Client>) {
    forall i :: 0 <= i < |clients| ==> OwnsAll(clients[i])
  }

  lemma {:induction false} InvSourced(w: World)
    requires Inv(w)
    ensures Sourced(w.clients)
  {
    forall i | 0 <= i < |w.clients| ensures OwnsAll(w.clients[i]) {
      assert ClientOk(w.table, w.clients, w.made, w.clients[i]);
      forall j | 0 <= j < |w.clients[i].userPipes| ensures w.clients[i].userPipes[j].source == w.clients[i].id {
        assert EntryOk(w.table, w.clients, w.made, w.clients[i], w.clients[i].userPipes[j]);
      }
    }
  }

  predicate IsRedirection(t: string) {
    !Plain.IsPipe(t) && !Plain.IsErrPipe(t) && (t == ">" || t == "<" || IsUserOut(t) || IsUserIn(t))
  }

  lemma {:induction false} EraseStep(all: seq<Client>, n: nat, id: int)
    requires n < |all|
    ensures EraseClient(all[..n + 1], id)
         == if all[n].id == id then EraseClient(all[..n], id) else EraseClient(all[..n], id) + [Pruned(all[n], id)]
  {
    assert all[..n + 1][..n] == all[..n];
  }

  lemma {:induction false} FirstIs(table: seq<int>, i: nat)
    requires i <= |table| && (forall j :: 0 <= j < i ==> table[j] != 0) && (i < |table| ==> table[i] == 0)
    ensures FreeSlot(table) == i
  {
    var k := FreeSlot(table);
    assert !(k < i) && !(i < k);
  }

  lemma {:induction false} TargetIs(ups: seq<UserPipe>, target: int, i: nat)
    requires i <= |ups| && (forall j :: 0 <= j < i ==> ups[j].target != target)
    requires i < |ups| ==> ups[i].target == target
    ensures FindTarget(ups, target) == i
  {
    var k := FindTarget(ups, target);
    assert !(k < i) && !(i < k);
  }
}
