/** Environment variables: each client keeps a list of settings, and one process environment is
    rebuilt from it before every line. */
module Environment {

  datatype Setting = Setting(key: string, value: string)

  // ---------- splitting a path ----------

  /** The parts of `s` between the separators. */
  function Split(s: string, sep: char): (r: seq<string>)
    ensures r != []
  {
    if s == "" then [""]
    else if s[0] == sep then [""] + Split(s[1..], sep)
    else
      var rest := Split(s[1..], sep);
      [[s[0]] + rest[0]] + rest[1..]
  }

  function Join(parts: seq<string>, sep: char): string
    requires parts != []
  {
    if |parts| == 1 then parts[0] else parts[0] + [sep] + Join(parts[1..], sep)
  }

  lemma {:induction false} JoinOfSplit(s: string, sep: char)
    ensures Join(Split(s, sep), sep) == s
    ensures forall i :: 0 <= i < |Split(s, sep)| ==> sep !in Split(s, sep)[i]
  {
    if s != "" {
      var rest := Split(s[1..], sep);
      JoinOfSplit(s[1..], sep);
      if s[0] == sep {
        assert ([""] + rest)[1..] == rest;
      } else {
        assert ([[s[0]] + rest[0]] + rest[1..])[1..] == rest[1..];
        assert Join(Split(s, sep), sep) == [s[0]] + Join(rest, sep) by {
          if |rest| > 1 {
            assert [s[0]] + rest[0] + [sep] + Join(rest[1..], sep) == [s[0]] + (rest[0] + [sep] + Join(rest[1..], sep));
          }
        }
      }
    }
  }

  lemma {:induction false} SplitCons(c: char, s: string, sep: char)
    requires c != sep
    ensures Split([c] + s, sep) == [[c] + Split(s, sep)[0]] + Split(s, sep)[1..]
  {
    assert ([c] + s)[1..] == s;
  }

  lemma {:induction false} SplitOfWord(w: string, s: string, sep: char)
    requires sep !in w && (s == "" || s[0] == sep)
    ensures Split(w + s, sep) == [w] + (if s == "" then [] else Split(s[1..], sep))
  {
    if w == "" {
      assert w + s == s;
    } else {
      var c, tail := w[0], w[1..];
      SplitOfWord(tail, s, sep);
      SplitCons(c, tail + s, sep);
      assert w == [c] + tail && w + s == [c] + (tail + s);
    }
  }

  lemma {:induction false} SplitOfJoin(parts: seq<string>, sep: char)
    requires parts != [] && forall i :: 0 <= i < |parts| ==> sep !in parts[i]
    ensures Split(Join(parts, sep), sep) == parts
  {
    var first, rest := parts[0], parts[1..];
    if rest == [] {
      SplitOfWord(first, "", sep);
      assert first + "" == first;
    } else {
      SplitOfJoin(rest, sep);
      SplitOfWord(first, [sep] + Join(rest, sep), sep);
      assert first + [sep] + Join(rest, sep) == first + ([sep] + Join(rest, sep));
    }
  }

  /** The server's `Split`, which cuts PATH at its colons. */
  method SplitLoop(s: string, sep: char) returns (parts: seq<string>)
    ensures parts == Split(s, sep)
  {
    parts := [];
    var start := 0;
    assert s[0..] == s;
    while true
      invariant 0 <= start <= |s|
      invariant parts + Split(s[start..], sep) == Split(s, sep)
      decreases |s| - start
    {
      var end := start;
      while end < |s| && s[end] != sep
        invariant start <= end <= |s|
        invariant sep !in s[start..end]
      {
        end := end + 1;
      }
      SplitAt(s, start, end, sep);
      ghost var before := parts;
      parts := parts + [s[start..end]];
      if end == |s| { return; }
      assert before + ([s[start..end]] + Split(s[end + 1..], sep)) == parts + Split(s[end + 1..], sep);
      start := end + 1;
    }
  }

  lemma {:induction false} SplitAt(s: string, start: nat, end: nat, sep: char)
    requires start <= end <= |s| && sep !in s[start..end] && (end < |s| ==> s[end] == sep)
    ensures Split(s[start..], sep) == [s[start..end]] + (if end == |s| then [] else Split(s[end + 1..], sep))
  {
    SplitOfWord(s[start..end], s[end..], sep);
    assert s[start..] == s[start..end] + s[end..];
    if end < |s| { assert s[end..][1..] == s[end + 1..]; }
  }

  // ---------- settings ----------

  /** `setenv` accepts a name that is not empty and has no equals sign. */
  predicate ValidName(key: string) { key != "" && '=' !in key }

  function Put(env: map<string, string>, key: string, value: string): map<string, string> {
    if ValidName(key) then env[key := value] else env
  }

  /** The environment that a list of settings builds, from nothing. */
  function Build(settings: seq<Setting>): map<string, string> {
    if settings == [] then map[] else
      var n := |settings| - 1;
      Put(Build(settings[..n]), settings[n].key, settings[n].value)
  }

  /** The list without the first setting of `key`. */
  function Drop(settings: seq<Setting>, key: string): (r: seq<Setting>)
    ensures |r| <= |settings|
  {
    if settings == [] then []
    else if settings[0].key == key then settings[1..]
    else [settings[0]] + Drop(settings[1..], key)
  }

  /** What `setenv` does to a client's list. */
  function Set(settings: seq<Setting>, key: string, value: string): seq<Setting> {
    Drop(settings, key) + [Setting(key, value)]
  }

  ghost predicate UniqueKeys(settings: seq<Setting>) {
    forall i, j :: 0 <= i < j < |settings| ==> settings[i].key != settings[j].key
  }

  lemma {:induction false} DropAt(settings: seq<Setting>, key: string, k: nat)
    requires k < |settings| && settings[k].key == key && forall i :: 0 <= i < k ==> settings[i].key != key
    ensures Drop(settings, key) == settings[..k] + settings[k + 1..]
  {
    if k > 0 { DropAt(settings[1..], key, k - 1); }
  }

  lemma {:induction false} DropNone(settings: seq<Setting>, key: string)
    requires forall i :: 0 <= i < |settings| ==> settings[i].key != key
    ensures Drop(settings, key) == settings
  {
    if settings != [] { DropNone(settings[1..], key); }
  }

  lemma {:induction false} UniqueWithout(settings: seq<Setting>, k: nat)
    requires UniqueKeys(settings) && k < |settings|
    ensures UniqueKeys(settings[..k] + settings[k + 1..])
    ensures forall s :: s in settings[..k] + settings[k + 1..] <==> s in settings && s.key != settings[k].key
  {
    var rest := settings[..k] + settings[k + 1..];
    assert forall i :: 0 <= i < |rest| ==> rest[i] == settings[if i < k then i else i + 1];
    forall s | s in settings && s.key != settings[k].key ensures s in rest {
      var i :| 0 <= i < |settings| && settings[i] == s;
      assert rest[if i < k then i else i - 1] == s;
    }
  }

  lemma {:induction false} DropKeepsUnique(settings: seq<Setting>, key: string)
    requires UniqueKeys(settings)
    ensures UniqueKeys(Drop(settings, key))
    ensures forall s :: s in Drop(settings, key) <==> s in settings && s.key != key
  {
    if k: nat :| k < |settings| && settings[k].key == key {
      DropAt(settings, key, k);
      UniqueWithout(settings, k);
    } else {
      DropNone(settings, key);
    }
  }

  /** Setting a variable keeps the keys unique and loses no other key. */
  lemma {:induction false} SetKeepsUnique(settings: seq<Setting>, key: string, value: string)
    requires UniqueKeys(settings)
    ensures UniqueKeys(Set(settings, key, value))
    ensures forall s :: s in Set(settings, key, value) <==> s == Setting(key, value) || (s in settings && s.key != key)
  {
    DropKeepsUnique(settings, key);
    var rest := Drop(settings, key);
    assert forall i :: 0 <= i < |rest| ==> rest[i] in rest;
  }

  lemma {:induction false} PutApart(a: map<string, string>, b: map<string, string>, key: string, k: string, v: string)
    requires a - {key} == b - {key}
    ensures Put(a, k, v) - {key} == Put(b, k, v) - {key}
  {
    if ValidName(k) {
      if k == key {
        assert a[k := v] - {key} == a - {key} && b[k := v] - {key} == b - {key};
      } else {
        assert a[k := v] - {key} == (a - {key})[k := v] && b[k := v] - {key} == (b - {key})[k := v];
      }
    }
  }

  lemma {:induction false} BuildWithout(settings: seq<Setting>, k: nat)
    requires k < |settings|
    ensures Build(settings[..k] + settings[k + 1..]) - {settings[k].key} == Build(settings) - {settings[k].key}
  {
    var n := |settings| - 1;
    var last := settings[n];
    var rest := settings[..k] + settings[k + 1..];
    if k == n {
      assert rest == settings[..n];
      assert Put(Build(settings[..n]), last.key, last.value) - {last.key} == Build(settings[..n]) - {last.key};
    } else {
      BuildWithout(settings[..n], k);
      assert rest[..n - 1] == settings[..n][..k] + settings[..n][k + 1..];
      PutApart(Build(rest[..n - 1]), Build(settings[..n]), settings[k].key, last.key, last.value);
    }
  }

  /** Setting a variable in the list is setting it in the environment the list builds. */
  lemma {:induction false} SetIsPut(settings: seq<Setting>, key: string, value: string)
    ensures Build(Set(settings, key, value)) == Put(Build(settings), key, value)
  {
    var rest := Drop(settings, key);
    assert Set(settings, key, value)[..|rest|] == rest;
    assert Build(rest) - {key} == Build(settings) - {key} by {
      if key in (set i | 0 <= i < |settings| :: settings[i].key) {
        var k := FirstOf(settings, key);
        DropAt(settings, key, k);
        BuildWithout(settings, k);
      } else {
        DropNone(settings, key);
      }
    }
    if ValidName(key) {
      assert Build(rest)[key := value] == (Build(rest) - {key})[key := value];
      assert Build(settings)[key := value] == (Build(settings) - {key})[key := value];
    } else {
      InvalidNeverBuilt(settings, key);
      InvalidNeverBuilt(rest, key);
      assert Build(rest) - {key} == Build(rest) && Build(settings) - {key} == Build(settings);
    }
  }

  ghost function FirstOf(settings: seq<Setting>, key: string): (k: nat)
    requires exists i :: 0 <= i < |settings| && settings[i].key == key
    ensures k < |settings| && settings[k].key == key && forall i :: 0 <= i < k ==> settings[i].key != key
  {
    if settings[0].key == key then 0 else
      assert exists i :: 0 <= i < |settings[1..]| && settings[1..][i].key == key by {
        var i :| 0 <= i < |settings| && settings[i].key == key;
        assert settings[1..][i - 1].key == key;
      }
      1 + FirstOf(settings[1..], key)
  }

  lemma {:induction false} InvalidNeverBuilt(settings: seq<Setting>, key: string)
    requires !ValidName(key)
    ensures key !in Build(settings)
  {
    if settings != [] { InvalidNeverBuilt(settings[..|settings| - 1], key); }
  }

  /** A variable that has been set has its value, if and only if its name is not empty and has no equals
      sign. */
  lemma {:induction false} SetTakesIff(settings: seq<Setting>, key: string, value: string)
    ensures var env := Build(Set(settings, key, value));
            (key in env && env[key] == value) <==> key != "" && '=' !in key
  {
    SetIsPut(settings, key, value);
    if !ValidName(key) { InvalidNeverBuilt(settings, key); }
  }
}
