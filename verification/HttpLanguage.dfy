/** Which texts the HTTP request parser accepts, and where it gives up. */
module HttpLanguage {
  import opened Sequences
  import opened Decimal
  import opened HttpSyntax
  import opened HttpProgress

  /** Where reading a text ends: out of input, a whole message, or a character that cannot be right. */
  datatype Reading = More(place: Place) | Accepted(message: Message, rest: string) | Rejected(rest: string)

  function Read(p: Place, w: string): (r: Reading)
    requires Wf(p)
    ensures r.More? ==> Wf(r.place)
    decreases |w|
  {
    if w == "" then More(p) else
      match Next(p, w[0])
      case To(q) => NextWrites(p, w[0]); Read(q, w[1..])
      case Whole(m) => Accepted(m, w[1..])
      case Stuck => Rejected(w[1..])
  }

  /** What was read is what was written: nothing is lost, changed or read past the end. */
  lemma {:induction false} ReadIsFaithful(p: Place, w: string)
    requires Wf(p)
    ensures match Read(p, w)
            case More(q) => Wf(q) && Written(q) == Written(p) + w
            case Accepted(m, rest) => WfMessage(m) && Render(m) + rest == Written(p) + w && |rest| < |w|
            case Rejected(rest) => |rest| < |w| && rest == w[|w| - |rest|..]
    decreases |w|
  {
    if w == "" {
      assert Written(p) + w == Written(p);
    } else {
      var c, tail := w[0], w[1..];
      NextWrites(p, c);
      assert w == [c] + tail;
      Regroup(Written(p), [c], tail);
      var step := Next(p, c);
      if step.To? { ReadIsFaithful(step.place, tail); }
    }
  }

  lemma {:induction false} ReadConcat(p: Place, a: string, b: string)
    requires Wf(p)
    ensures Read(p, a + b) == match Read(p, a)
                              case More(q) => Read(q, b)
                              case Accepted(m, rest) => Accepted(m, rest + b)
                              case Rejected(rest) => Rejected(rest + b)
    decreases |a|
  {
    if a == "" {
      assert a + b == b;
    } else {
      NextWrites(p, a[0]);
      assert (a + b)[1..] == a[1..] + b;
      if Next(p, a[0]).To? { ReadConcat(Next(p, a[0]).place, a[1..], b); }
    }
  }

  // ---------- every message is read back ----------

  lemma {:induction false} ReadOne(p: Place, c: char, w: string)
    requires Wf(p) && Next(p, c).To?
    ensures Wf(Next(p, c).place) && Read(p, [c] + w) == Read(Next(p, c).place, w)
  {
    NextWrites(p, c);
    assert ([c] + w)[1..] == w;
  }

  /** Characters that only lengthen what is being read. */
  lemma {:induction false} ReadRun(place: string -> Place, start: string, t: string, ok: char -> bool, w: string)
    requires Wf(place(start)) && All(t, ok)
    requires forall s, c :: |start| <= |s| && Wf(place(s)) && ok(c) ==> Next(place(s), c) == To(place(s + [c]))
    ensures Wf(place(start + t)) && Read(place(start), t + w) == Read(place(start + t), w)
    decreases |t|
  {
    if t == "" {
      assert start + t == start && t + w == w;
    } else {
      var c, tail := t[0], t[1..];
      assert t == [c] + tail;
      assert Next(place(start), c) == To(place(start + [c]));
      Regroup([c], tail, w);
      Regroup(start, [c], tail);
      ReadOne(place(start), c, tail + w);
      ReadRun(place, start + [c], tail, ok, w);
    }
  }

  lemma {:induction false} ReadProtocolFrom(m: string, u: string, k: nat, w: string)
    requires k <= 4 && Wf(InName(m, u, k))
    ensures Read(InName(m, u, k), PROTO[k..] + w) == Read(InMajor(m, u, ""), w)
    decreases 4 - k
  {
    assert PROTO[k..] + w == [PROTO[k]] + (PROTO[k + 1..] + w);
    ReadOne(InName(m, u, k), PROTO[k], PROTO[k + 1..] + w);
    if k < 4 { ReadProtocolFrom(m, u, k + 1, w); } else { assert PROTO[5..] + w == w; }
  }

  lemma {:induction false} ReadProtocol(m: string, u: string, w: string)
    requires Wf(InName(m, u, 0))
    ensures Read(InName(m, u, 0), PROTO + w) == Read(InMajor(m, u, ""), w)
  {
    ReadProtocolFrom(m, u, 0, w);
    assert PROTO[0..] == PROTO;
  }

  lemma {:induction false} ReadTarget(m: string, u: string, w: string)
    requires IsToken(m) && All(u, URI_CHAR)
    ensures Read(START, m + " " + u + " " + PROTO + w) == Read(InMajor(m, u, ""), w)
  {
    var a := PROTO + w;
    assert m + " " + u + " " + PROTO + w == m + ([' '] + (u + ([' '] + a)));
    ReadRun(s => InMethod(s), "", m, IsTokenChar, [' '] + (u + ([' '] + a)));
    assert "" + m == m;
    ReadOne(InMethod(m), ' ', u + ([' '] + a));
    ReadRun(s => InUri(m, s), "", u, URI_CHAR, [' '] + a);
    assert "" + u == u;
    ReadOne(InUri(m, u), ' ', a);
    ReadProtocol(m, u, w);
  }

  lemma {:induction false} ReadVersion(l: Line, w: string)
    requires WfLine(l)
    ensures Read(InMajor(l.verb, l.uri, ""), l.major + "." + l.minor + CRLF + w) == Read(AtField(l, []), w)
  {
    var m, u, a, b := l.verb, l.uri, l.major, l.minor;
    assert a + "." + b + CRLF + w == a + (['.'] + (b + (['\r'] + (['\n'] + w))));
    ReadRun(s => InMajor(m, u, s), "", a, IsDigit, ['.'] + (b + (['\r'] + (['\n'] + w))));
    assert "" + a == a;
    ReadOne(InMajor(m, u, a), '.', b + (['\r'] + (['\n'] + w)));
    ReadRun(s => InMinor(m, u, a, s), "", b, IsDigit, ['\r'] + (['\n'] + w));
    assert "" + b == b;
    ReadOne(InMinor(m, u, a, b), '\r', ['\n'] + w);
    ReadOne(LineCr(l), '\n', w);
  }

  lemma {:induction false} ReadLine(l: Line, w: string)
    requires WfLine(l)
    ensures Read(START, RenderVersion(l) + CRLF + w) == Read(AtField(l, []), w)
  {
    var v := l.major + "." + l.minor + CRLF + w;
    assert RenderVersion(l) + CRLF + w == l.verb + " " + l.uri + " " + PROTO + v;
    ReadTarget(l.verb, l.uri, v);
    ReadVersion(l, w);
  }

  lemma {:induction false} WfAddField(l: Line, fs: seq<Field>, n: string, v: string)
    requires Wf(AtField(l, fs)) && IsToken(n) && All(v, TEXT_CHAR)
    ensures Wf(AtField(l, fs + [Field(n, v, [])]))
  {
  }

  lemma {:induction false} ReadFieldName(l: Line, fs: seq<Field>, n: string, w: string)
    requires Wf(AtField(l, fs)) && IsToken(n)
    ensures Read(AtField(l, fs), n + ": " + w) == Read(InValue(l, fs, n, ""), w)
  {
    assert n + ": " + w == [n[0]] + (n[1..] + ([':'] + ([' '] + w)));
    ReadOne(AtField(l, fs), n[0], n[1..] + ([':'] + ([' '] + w)));
    ReadRun(s => InFieldName(l, fs, s), [n[0]], n[1..], IsTokenChar, [':'] + ([' '] + w));
    assert [n[0]] + n[1..] == n;
    ReadOne(InFieldName(l, fs, n), ':', [' '] + w);
    ReadOne(AfterColon(l, fs, n), ' ', w);
  }

  lemma {:induction false} ReadFieldValue(l: Line, fs: seq<Field>, n: string, v: string, w: string)
    requires Wf(AtField(l, fs)) && IsToken(n) && All(v, TEXT_CHAR)
    ensures Read(InValue(l, fs, n, ""), v + CRLF + w) == Read(AtField(l, fs + [Field(n, v, [])]), w)
  {
    var w1 := ['\n'] + w;
    assert v + CRLF + w == v + (['\r'] + w1);
    ReadRun(s => InValue(l, fs, n, s), "", v, TEXT_CHAR, ['\r'] + w1);
    assert "" + v == v;
    ReadOne(InValue(l, fs, n, v), '\r', w1);
    ReadOne(FieldCr(l, fs + [Field(n, v, [])]), '\n', w);
  }

  lemma {:induction false} ReadFieldLine(l: Line, fs: seq<Field>, n: string, v: string, w: string)
    requires Wf(AtField(l, fs)) && IsToken(n) && All(v, TEXT_CHAR)
    ensures Wf(AtField(l, fs + [Field(n, v, [])]))
    ensures Read(AtField(l, fs), n + ": " + v + CRLF + w) == Read(AtField(l, fs + [Field(n, v, [])]), w)
  {
    WfAddField(l, fs, n, v);
    assert n + ": " + v + CRLF + w == n + ": " + (v + CRLF + w);
    ReadFieldName(l, fs, n, v + CRLF + w);
    ReadFieldValue(l, fs, n, v, w);
  }

  lemma {:induction false} ReadPad(l: Line, fs: seq<Field>, pad: string, w: string)
    requires Wf(AtField(l, fs)) && fs != [] && WfPad(pad)
    ensures Read(AtField(l, fs), pad + w) == Read(InPad(l, fs, pad), w)
  {
    assert pad + w == [pad[0]] + (pad[1..] + w);
    ReadOne(AtField(l, fs), pad[0], pad[1..] + w);
    ReadRun(s => InPad(l, fs, s), [pad[0]], pad[1..], IsBlank, w);
    assert [pad[0]] + pad[1..] == pad;
  }

  lemma {:induction false} ReadText(l: Line, fs: seq<Field>, f: Fold, w: string)
    requires Wf(InPad(l, fs, f.pad)) && WfFold(f)
    ensures Wf(FieldCr(l, AddFold(fs, f)))
    ensures Read(InPad(l, fs, f.pad), f.text + (['\r'] + w)) == Read(FieldCr(l, AddFold(fs, f)), w)
  {
    var p, t := f.pad, f.text;
    AddFoldWf(fs, f);
    if t == "" {
      assert t + (['\r'] + w) == ['\r'] + w;
      ReadOne(InPad(l, fs, p), '\r', w);
    } else {
      assert t + (['\r'] + w) == [t[0]] + (t[1..] + (['\r'] + w));
      ReadOne(InPad(l, fs, p), t[0], t[1..] + (['\r'] + w));
      ReadRun(s => InText(l, fs, p, s), [t[0]], t[1..], TEXT_CHAR, ['\r'] + w);
      assert [t[0]] + t[1..] == t;
      ReadOne(InText(l, fs, p, t), '\r', w);
    }
  }

  lemma {:induction false} ReadFold(l: Line, fs: seq<Field>, f: Fold, w: string)
    requires Wf(AtField(l, fs)) && fs != [] && WfFold(f)
    ensures Wf(AtField(l, AddFold(fs, f)))
    ensures Read(AtField(l, fs), f.pad + f.text + CRLF + w) == Read(AtField(l, AddFold(fs, f)), w)
  {
    var end := ['\r'] + (['\n'] + w);
    assert f.pad + f.text + CRLF + w == f.pad + (f.text + end);
    ReadPad(l, fs, f.pad, f.text + end);
    ReadText(l, fs, f, ['\n'] + w);
    ReadOne(FieldCr(l, AddFold(fs, f)), '\n', w);
  }

  lemma {:induction false} ReadFolds(l: Line, fs: seq<Field>, f: Field, w: string)
    requires Wf(AtField(l, fs)) && WfField(f)
    ensures Wf(AtField(l, fs + [f]))
    ensures Read(AtField(l, fs), RenderField(f) + w) == Read(AtField(l, fs + [f]), w)
    decreases |f.folds|
  {
    if f.folds == [] {
      assert RenderField(f) + w == f.name + ": " + f.value + CRLF + w;
      ReadFieldLine(l, fs, f.name, f.value, w);
    } else {
      var n := |f.folds| - 1;
      var g, last := f.(folds := f.folds[..n]), f.folds[n];
      var w1 := last.pad + last.text + CRLF + w;
      assert RenderField(f) + w == RenderField(g) + w1;
      ReadFolds(l, fs, g, w1);
      ReadFold(l, fs + [g], last, w);
      assert f.folds[..n] + [last] == f.folds;
      assert AddFold(fs + [g], last) == fs + [f];
    }
  }

  lemma {:induction false} ReadFields(l: Line, fs: seq<Field>, w: string)
    requires WfLine(l) && WfFields(fs)
    ensures Read(START, RenderHead(l, fs) + w) == Read(AtField(l, fs), w)
    decreases |fs|
  {
    if fs == [] {
      assert RenderHead(l, fs) + w == RenderVersion(l) + CRLF + w;
      ReadLine(l, w);
    } else {
      var n := |fs| - 1;
      var before, f := fs[..n], fs[n];
      assert before + [f] == fs;
      ReadFields(l, before, RenderField(f) + w);
      RenderPushField(l, before, f);
      Regroup(RenderHead(l, before), RenderField(f), w);
      ReadFolds(l, before, f, w);
    }
  }

  /** Every message is accepted as itself, and nothing after it is touched. */
  lemma {:induction false} ReadOfRender(m: Message, rest: string)
    requires WfMessage(m)
    ensures Read(START, Render(m) + rest) == Accepted(m, rest)
  {
    var l, fs := m.line, m.fields;
    var end := ['\r'] + (['\n'] + rest);
    assert Render(m) + rest == RenderHead(l, fs) + end;
    ReadFields(l, fs, end);
    ReadOne(AtField(l, fs), '\r', ['\n'] + rest);
    assert (['\n'] + rest)[1..] == rest;
  }

  // ---------- the language ----------

  /** The text begins with a message. */
  ghost predicate InLanguage(w: string) { exists m, rest :: WfMessage(m) && w == Render(m) + rest }

  lemma {:induction false} AcceptsExactlyTheLanguage(w: string)
    ensures Read(START, w).Accepted? <==> InLanguage(w)
    ensures forall m, rest :: WfMessage(m) ==> (Read(START, w) == Accepted(m, rest) <==> w == Render(m) + rest)
  {
    ReadIsFaithful(START, w);
    assert Written(START) + w == w;
    forall m, rest | WfMessage(m) ensures Read(START, w) == Accepted(m, rest) <==> w == Render(m) + rest {
      ReadOfRender(m, rest);
    }
    if Read(START, w).Accepted? {
      var m, rest := Read(START, w).message, Read(START, w).rest;
      assert WfMessage(m) && w == Render(m) + rest;
    }
  }

  /** The character that leads on from a place towards the end of the message, and the place (if
      the message is not over) it leads to. */
  function Onward(p: Place): (char, Option<Place>)
    requires Wf(p)
  {
    match p
    case InMethod(m) => if m == "" then ('a', Some(InMethod("a"))) else (' ', Some(InUri(m, "")))
    case InUri(m, u) => (' ', Some(InName(m, u, 0)))
    case InName(m, u, k) => (PROTO[k], Some(if k == 4 then InMajor(m, u, "") else InName(m, u, k + 1)))
    case InMajor(m, u, a) => if a == "" then ('0', Some(InMajor(m, u, "0"))) else ('.', Some(InMinor(m, u, a, "")))
    case InMinor(m, u, a, b) =>
      if b == "" then ('0', Some(InMinor(m, u, a, "0"))) else ('\r', Some(LineCr(Line(m, u, a, b))))
    case LineCr(l) => ('\n', Some(AtField(l, [])))
    case AtField(l, fs) => ('\r', Some(EndCr(l, fs)))
    case InFieldName(l, fs, n) => (':', Some(AfterColon(l, fs, n)))
    case AfterColon(l, fs, n) => (' ', Some(InValue(l, fs, n, "")))
    case InValue(l, fs, n, v) => ('\r', Some(FieldCr(l, fs + [Field(n, v, [])])))
    case InPad(l, fs, pad) => ('\r', Some(FieldCr(l, AddFold(fs, Fold(pad, "")))))
    case InText(l, fs, pad, t) => ('\r', Some(FieldCr(l, AddFold(fs, Fold(pad, t)))))
    case FieldCr(l, fs) => ('\n', Some(AtField(l, fs)))
    case EndCr(_, _) => ('\n', None)
  }

  /** A bound on the characters still needed. */
  function Distance(p: Place): nat {
    match p
    case InMethod(m) => if m == "" then 20 else 19
    case InUri(_, _) => 18
    case InName(_, _, k) => if k <= 4 then 17 - k else 0
    case InMajor(_, _, a) => if a == "" then 12 else 11
    case InMinor(_, _, _, b) => if b == "" then 10 else 9
    case LineCr(_) => 8
    case AtField(_, _) => 1
    case InFieldName(_, _, _) => 6
    case AfterColon(_, _, _) => 5
    case InValue(_, _, _, _) => 4
    case InPad(_, _, _) => 4
    case InText(_, _, _, _) => 4
    case FieldCr(_, _) => 3
    case EndCr(_, _) => 0
  }

  /** Onward leads on, and nearer to the end. */
  ghost predicate Advances(p: Place)
    requires Wf(p)
  {
    var (c, q) := Onward(p);
    match Next(p, c)
    case To(q') => q == Some(q') && Wf(q') && Distance(q') < Distance(p)
    case Whole(_) => q == None
    case Stuck => false
  }

  lemma {:induction false} LineAdvances(p: Place)
    requires Wf(p) && (p.InMethod? || p.InUri? || p.InName? || p.InMajor? || p.InMinor? || p.LineCr?)
    ensures Advances(p)
  {
    NextWrites(p, Onward(p).0);
    assert "" + ['a'] == "a" && "" + ['0'] == "0";
  }

  lemma {:induction false} NameAdvances(p: Place)
    requires Wf(p) && (p.AtField? || p.InFieldName? || p.AfterColon? || p.EndCr?)
    ensures Advances(p)
  {
    NextWrites(p, Onward(p).0);
  }

  lemma {:induction false} ValueAdvances(p: Place)
    requires Wf(p) && (p.InValue? || p.FieldCr?)
    ensures Advances(p)
  {
    NextWrites(p, Onward(p).0);
  }

  lemma {:induction false} FoldAdvances(p: Place)
    requires Wf(p) && (p.InPad? || p.InText?)
    ensures Advances(p)
  {
    NextWrites(p, Onward(p).0);
  }

  lemma {:induction false} OnwardAdvances(p: Place)
    requires Wf(p)
    ensures Advances(p)
  {
    if p.InPad? || p.InText? {
      FoldAdvances(p);
    } else if p.InValue? || p.FieldCr? {
      ValueAdvances(p);
    } else if p.AtField? || p.InFieldName? || p.AfterColon? || p.EndCr? {
      NameAdvances(p);
    } else {
      LineAdvances(p);
    }
  }

  /** A text that finishes the message from any place. */
  ghost function Completion(p: Place): string
    requires Wf(p)
    decreases Distance(p)
  {
    OnwardAdvances(p);
    var (c, q) := Onward(p);
    if q.None? then [c] else [c] + Completion(q.value)
  }

  lemma {:induction false} CompletionCompletes(p: Place)
    requires Wf(p)
    ensures Read(p, Completion(p)).Accepted?
    decreases Distance(p)
  {
    OnwardAdvances(p);
    var (c, q) := Onward(p);
    if q.Some? {
      CompletionCompletes(q.value);
      ReadOne(p, c, Completion(q.value));
    }
  }

  /** No text that begins with this one begins with a message. */
  ghost predicate Hopeless(w: string) { forall x :: !InLanguage(w + x) }

  /** The parser rejects exactly the texts that no continuation could save, and an unfinished text can
      always be finished. */
  lemma {:induction false} RejectsExactlyTheHopeless(w: string)
    ensures Read(START, w).Rejected? <==> Hopeless(w)
  {
    if Read(START, w).Rejected? {
      forall x ensures !InLanguage(w + x) {
        ReadConcat(START, w, x);
        AcceptsExactlyTheLanguage(w + x);
      }
    } else {
      ReadIsFaithful(START, w);
      var x := match Read(START, w) case More(q) => Completion(q) case _ => "";
      if Read(START, w).More? { CompletionCompletes(Read(START, w).place); }
      ReadConcat(START, w, x);
      AcceptsExactlyTheLanguage(w + x);
      assert InLanguage(w + x);
    }
  }

  lemma {:induction false} RejectedTakesOne(p: Place, w: string)
    requires Wf(p) && Read(p, w).Rejected?
    ensures |Read(p, w).rest| < |w|
  {
    ReadIsFaithful(p, w);
  }

  lemma {:induction false} ReadStuck(p: Place, c: char, w: string)
    requires Wf(p) && !Next(p, c).To?
    ensures Read(p, [c] + w) == if Next(p, c).Stuck? then Rejected(w) else Accepted(Next(p, c).message, w)
  {
    assert ([c] + w)[1..] == w;
  }

  /** A rejected text is rejected just as far as it has been taken. */
  lemma {:induction false} RejectedFrom(p: Place, w: string, j: nat)
    requires Wf(p) && Read(p, w).Rejected? && j <= |w|
    ensures Read(p, w[..j]).Rejected? <==> |w| - |Read(p, w).rest| <= j
    decreases |w|
  {
    RejectedTakesOne(p, w);
    if j > 0 {
      var c, tail := w[0], w[1..];
      var front := tail[..j - 1];
      assert w == [c] + tail && w[..j] == [c] + front;
      if Next(p, c).To? {
        ReadOne(p, c, tail);
        ReadOne(p, c, front);
        RejectedFrom(Next(p, c).place, tail, j - 1);
      } else {
        ReadStuck(p, c, tail);
        ReadStuck(p, c, front);
      }
    }
  }

  /** The parser gives up at the first character after which nothing can help: of the text it was
      given, what it has taken is hopeless, and so is all that is longer, but nothing shorter is. */
  lemma {:induction false} GivesUpAtOnce(w: string, j: nat)
    requires Read(START, w).Rejected? && j <= |w|
    ensures Hopeless(w[..j]) <==> |w| - |Read(START, w).rest| <= j
  {
    RejectedFrom(START, w, j);
    RejectsExactlyTheHopeless(w[..j]);
  }
}
