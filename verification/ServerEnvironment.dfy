/** One process environment serves all clients, yet every command finds the one that its own client's
    `setenv` commands have made. */
module ServerEnvironment {
  import opened ServerSyntax
  import opened ServerModel
  import opened ServerInvariant
  import opened ServerLeaving
  import opened PipeOwnership
  import opened ServerWiring
  import opened Environment

  predicate IsSetenv(e: Event) { e.Ran? && |e.args| >= 3 && e.args[0] == "setenv" }

  /** What a login's own `setenv` commands make of the environment everyone starts with. */
  function EnvOf(deeds: seq<Event>): map<string, string> {
    if deeds == [] then map["PATH" := "bin:."] else
      var n := |deeds| - 1;
      var e := deeds[n];
      if IsSetenv(e) then Put(EnvOf(deeds[..n]), e.args[1], e.args[2]) else EnvOf(deeds[..n])
  }

  lemma {:induction false} EnvOfPush(deeds: seq<Event>, e: Event)
    ensures EnvOf(deeds + [e]) == if IsSetenv(e) then Put(EnvOf(deeds), e.args[1], e.args[2]) else EnvOf(deeds)
  {
    assert (deeds + [e])[..|deeds|] == deeds;
  }

  ghost predicate SettingsFollow(log: seq<Event>, c: Client) {
    Build(c.env) == EnvOf(Deeds(log, c.login))
  }

  /** Every client's list of settings builds the environment of its own history. */
  ghost predicate EnvFollows(w: World) {
    forall i :: 0 <= i < |w.clients| ==> SettingsFollow(w.log, w.clients[i])
  }

  ghost predicate PathFollows(env: map<string, string>, path: seq<string>) {
    "PATH" in env && path == Split(env["PATH"], ':')
  }

  /** The process environment and search path are those of the client's history. */
  ghost predicate Serves(w: World, me: nat)
    requires me < |w.clients|
  {
    w.env == EnvOf(Deeds(w.log, w.clients[me].login)) && PathFollows(w.env, w.path)
  }

  lemma {:induction false} PathAfterFollows(path: seq<string>, settings: seq<Setting>, v: string)
    requires Setting("PATH", v) in settings
    ensures PathFollows(Build(settings), PathAfter(path, settings))
  {
    var n := |settings| - 1;
    if settings[n].key != "PATH" { PathAfterFollows(path, settings[..n], v); }
  }

  /** Loading a client's settings gives it the environment of its history. */
  lemma {:induction false} LoadServes(w: World, me: nat)
    requires me < |w.clients| && EnvFollows(w) && EnvOk(w.clients[me])
    ensures Serves(LoadEnv(w, me), me) && EnvFollows(LoadEnv(w, me))
  {
    var w' := LoadEnv(w, me);
    var v :| Setting("PATH", v) in w.clients[me].env;
    PathAfterFollows(w.path, w.clients[me].env, v);
    assert SettingsFollow(w.log, w.clients[me]);
    forall i | 0 <= i < |w'.clients| ensures SettingsFollow(w'.log, w'.clients[i]) {
      assert SettingsFollow(w.log, w.clients[i]);
    }
  }

  lemma {:induction false} QuietServes(w: World, w': World, me: nat)
    requires me < |w.clients| && Quiet(w, w')
    ensures EnvFollows(w) ==> EnvFollows(w')
    ensures Serves(w, me) ==> Serves(w', me)
  {
    assert SamePlace(w.clients[me], w'.clients[me]);
    if EnvFollows(w) {
      forall i | 0 <= i < |w'.clients| ensures SettingsFollow(w'.log, w'.clients[i]) {
        assert SettingsFollow(w.log, w.clients[i]) && SamePlace(w.clients[i], w'.clients[i]);
      }
    }
  }

  /** A client's list, the process environment and the search path after one command. */
  ghost predicate SetAside(w: World, w': World, me: nat, args: seq<string>)
    requires me < |w.clients| && me < |w'.clients| && SafeArgs(args)
  {
    if args[0] == "setenv" then
      && w'.clients[me].env == Set(w.clients[me].env, args[1], args[2])
      && w'.env == Put(w.env, args[1], args[2])
      && w'.path == if args[1] == "PATH" then Split(args[2], ':') else w.path
    else w'.clients[me].env == w.clients[me].env && w'.env == w.env && w'.path == w.path
  }

  lemma {:induction false} PerformSets(q: Prep, me: nat, args: seq<string>)
    requires me < |q.w.clients| && SafeArgs(args)
    ensures SetAside(q.w, Perform(q, me, args), me, args)
  {
    var w1 := Finished(q, me, args);
    assert SetAside(q.w, w1, me, args);
    SweepAllQuiet(w1, q.takes + [w1.clients[me].id]);
    assert SamePlace(w1.clients[me], Perform(q, me, args).clients[me]);
  }

  lemma {:induction false} PrepareSetsNothing(w: World, me: nat, c: Cmd)
    requires me < |w.clients|
    ensures var q := Prepare(w, me, c);
            q.w.clients[me].env == w.clients[me].env && q.w.env == w.env && q.w.path == w.path
  {
    ApplyAllQuiet(Fresh(w), me, c.ops);
    assert SamePlace(w.clients[me], ApplyAll(Fresh(w), me, c.ops).w.clients[me]);
  }

  /** A client's settings after one more command of its own. */
  lemma {:induction false} SettingsPush(settings: seq<Setting>, settings': seq<Setting>, deeds: seq<Event>, e: Event)
    requires e.Ran? && SafeArgs(e.args) && Build(settings) == EnvOf(deeds)
    requires settings' == if e.args[0] == "setenv" then Set(settings, e.args[1], e.args[2]) else settings
    ensures Build(settings') == EnvOf(deeds + [e])
  {
    EnvOfPush(deeds, e);
    if e.args[0] == "setenv" { SetIsPut(settings, e.args[1], e.args[2]); }
  }

  lemma {:induction false} PathPut(env: map<string, string>, path: seq<string>, key: string, value: string)
    requires PathFollows(env, path)
    ensures PathFollows(Put(env, key, value), if key == "PATH" then Split(value, ':') else path)
  {
  }

  lemma {:induction false} SelfServes(w: World, w': World, me: nat, e: Event)
    requires me < |w.clients| && e.Ran? && Stepped(w, w', me, e)
    requires SafeArgs(e.args) && SetAside(w, w', me, e.args) && SettingsFollow(w.log, w.clients[me]) && Serves(w, me)
    ensures SettingsFollow(w'.log, w'.clients[me]) && Serves(w', me)
  {
    var deeds := Deeds(w.log, e.login);
    assert Deeds(w'.log, e.login) == deeds + [e];
    SettingsPush(w.clients[me].env, w'.clients[me].env, deeds, e);
    EnvOfPush(deeds, e);
    if e.args[0] == "setenv" { PathPut(w.env, w.path, e.args[1], e.args[2]); }
  }

  lemma {:induction false} StepServes(w: World, w': World, me: nat, e: Event)
    requires me < |w.clients| && e.Ran? && Stepped(w, w', me, e) && LoginsOk(w.clients, w.logins)
    requires SafeArgs(e.args) && SetAside(w, w', me, e.args) && EnvFollows(w) && Serves(w, me)
    ensures EnvFollows(w') && Serves(w', me)
  {
    assert SettingsFollow(w.log, w.clients[me]);
    SelfServes(w, w', me, e);
    forall i | 0 <= i < |w'.clients| ensures SettingsFollow(w'.log, w'.clients[i]) {
      if i != me {
        assert SettingsFollow(w.log, w.clients[i]) && SamePlace(w.clients[i], w'.clients[i]);
        assert w.clients[if i < me then i else me].login != w.clients[if i < me then me else i].login;
      }
    }
  }

  lemma {:induction false} ExecuteServes(g: Progress, me: nat, c: Cmd)
    requires me < |g.w.clients| && SafeCmd(c) && Inv(g.w) && EnvFollows(g.w) && Serves(g.w, me)
    ensures EnvFollows(Execute(g, me, c).w) && Serves(Execute(g, me, c).w, me)
  {
    if !g.refused {
      var q := Prepare(g.w, me, c);
      if q.refused {
        ApplyAllQuiet(Fresh(g.w), me, c.ops);
        QuietServes(g.w, q.w, me);
      } else {
        PreparedClient(g.w, me, c);
        CommandSteps(g.w, me, c);
        PrepareSetsNothing(g.w, me, c);
        PerformSets(q, me, c.args);
        StepServes(g.w, Perform(q, me, c.args), me, RanEvent(q, me, c.args));
      }
    }
  }

  ghost predicate InService(w: World, me: nat)
    requires me < |w.clients|
  {
    Inv(w) && EnvFollows(w) && Serves(w, me)
  }

  lemma {:induction false} ExecuteInService(g: Progress, me: nat, c: Cmd)
    requires me < |g.w.clients| && SafeCmd(c) && InService(g.w, me)
    ensures InService(Execute(g, me, c).w, me)
  {
    ExecuteServes(g, me, c);
    ExecuteKeeps(g, me, c);
  }

  /** Before and after each command of a line, the environment is that of the client's own history. */
  lemma {:induction false} ExecuteAllInService(g: Progress, me: nat, cmds: seq<Cmd>)
    requires me < |g.w.clients| && InService(g.w, me) && forall i :: 0 <= i < |cmds| ==> SafeCmd(cmds[i])
    ensures InService(ExecuteAll(g, me, cmds).w, me)
  {
    if cmds != [] {
      var n := |cmds| - 1;
      ExecuteAllInService(g, me, cmds[..n]);
      ExecuteInService(ExecuteAll(g, me, cmds[..n]), me, cmds[n]);
    }
  }

  lemma {:induction false} RunLineServes(w: World, me: nat, line: string)
    requires me < |w.clients| && SafeLine(line) && Inv(w) && EnvFollows(w)
    ensures EnvFollows(RunLine(w, me, line).w) && Serves(RunLine(w, me, line).w, me)
  {
    assert ClientOk(w.table, w.clients, w.made, w.clients[me]);
    LoadServes(w, me);
    LoadKeeps(w, me);
    ExecuteAllInService(Progress(LoadEnv(w, me), 0, false), me, CmdsOf(line));
  }

  lemma {:induction false} AcceptServes(w: World, fd: int)
    requires Scheduled(w) && EnvFollows(w)
    ensures EnvFollows(Accept(w, fd))
  {
    var k, w' := FreeSlot(w.table), Accept(w, fd);
    if k < |w.table| {
      SameDeedsPush(w.log, LoggedIn(w.logins, k + 1));
      StartingEnv();
      forall i | 0 <= i < |w'.clients| ensures SettingsFollow(w'.log, w'.clients[i]) {
        if i < |w.clients| { assert SettingsFollow(w.log, w.clients[i]) && w'.clients[i] == w.clients[i]; }
      }
    }
  }

  lemma {:induction false} StartingEnv()
    ensures Build(START_ENV) == map["PATH" := "bin:."]
  {
    assert START_ENV[..0] == [];
    assert Build(START_ENV) == Put(map[], "PATH", "bin:.");
  }

  lemma {:induction false} LeftServes(w: World, k: nat)
    requires k < |w.clients| && Occupied(w.table, w.clients[k].id) && EnvFollows(w)
    ensures EnvFollows(Left(w, k))
  {
    var w' := Left(w, k);
    SameDeedsPush(w.log, LoggedOut(w.clients[k].id));
    forall i | 0 <= i < |w'.clients| ensures SettingsFollow(w'.log, w'.clients[i]) {
      assert SettingsFollow(w.log, w.clients[if i < k then i else i + 1]);
    }
  }
}
