/** How far into a request a text has got, character by character, and what the parser must hold at
    each point. */
module HttpProgress {
  import opened Decimal
  import opened HttpSyntax

  /** A place inside a request, with what has been read of it. */
  datatype Place =
    | InMethod(verb: string)
    | InUri(verb: string, uri: string)
    | InName(verb: string, uri: string, seen: nat)
    | InMajor(verb: string, uri: string, major: string)
    | InMinor(verb: string, uri: string, major: string, minor: string)
    | LineCr(line: Line)
    | AtField(line: Line, fields: seq<Field>)
    | InFieldName(line: Line, fields: seq<Field>, name: string)
    | AfterColon(line: Line, fields: seq<Field>, name: string)
    | InValue(line: Line, fields: seq<Field>, name: string, value: string)
    | InPad(line: Line, fields: seq<Field>, pad: string)
    | InText(line: Line, fields: seq<Field>, pad: string, text: string)
    | FieldCr(line: Line, fields: seq<Field>)
    | EndCr(line: Line, fields: seq<Field>)

  const START := InMethod("")
  const PROTO := "HTTP/"

  predicate Wf(p: Place) {
    match p
    case InMethod(m) => All(m, IsTokenChar)
    case InUri(m, u) => IsToken(m) && All(u, URI_CHAR)
    case InName(m, u, k) => IsToken(m) && All(u, URI_CHAR) && k <= 4
    case InMajor(m, u, a) => IsToken(m) && All(u, URI_CHAR) && AllDigits(a)
    case InMinor(m, u, a, b) => IsToken(m) && All(u, URI_CHAR) && a != "" && AllDigits(a) && AllDigits(b)
    case LineCr(l) => WfLine(l)
    case AtField(l, fs) => WfLine(l) && WfFields(fs)
    case InFieldName(l, fs, n) => WfLine(l) && WfFields(fs) && IsToken(n)
    case AfterColon(l, fs, n) => WfLine(l) && WfFields(fs) && IsToken(n)
    case InValue(l, fs, n, v) => WfLine(l) && WfFields(fs) && IsToken(n) && All(v, TEXT_CHAR)
    case InPad(l, fs, pad) => WfLine(l) && WfFields(fs) && fs != [] && WfPad(pad)
    case InText(l, fs, pad, t) => WfLine(l) && WfFields(fs) && fs != [] && WfFold(Fold(pad, t)) && t != ""
    case FieldCr(l, fs) => WfLine(l) && WfFields(fs) && fs != []
    case EndCr(l, fs) => WfLine(l) && WfFields(fs)
  }

  /** The text read so far. */
  function Written(p: Place): string
    requires Wf(p)
  {
    match p
    case InMethod(m) => m
    case InUri(m, u) => m + " " + u
    case InName(m, u, k) => m + " " + u + " " + PROTO[..k]
    case InMajor(m, u, a) => m + " " + u + " HTTP/" + a
    case InMinor(m, u, a, b) => RenderVersion(Line(m, u, a, b))
    case LineCr(l) => RenderVersion(l) + CR
    case AtField(l, fs) => RenderHead(l, fs)
    case InFieldName(l, fs, n) => RenderHead(l, fs) + n
    case AfterColon(l, fs, n) => RenderHead(l, fs) + (n + ":")
    case InValue(l, fs, n, v) => RenderHead(l, fs) + (n + ": " + v)
    case InPad(l, fs, pad) => RenderHead(l, fs) + pad
    case InText(l, fs, pad, t) => RenderHead(l, fs) + (pad + t)
    case FieldCr(l, fs) => RenderHead(l, fs)[..|RenderHead(l, fs)| - 1]
    case EndCr(l, fs) => RenderHead(l, fs) + CR
  }

  /** The last field with one more continuation line. */
  function AddFold(fs: seq<Field>, f: Fold): (r: seq<Field>)
    requires fs != []
    ensures |r| == |fs|
  {
    var n := |fs| - 1;
    fs[n := fs[n].(folds := fs[n].folds + [f])]
  }

  /** One more character: a new place, a whole message, or nothing that could be one. */
  datatype Move = To(place: Place) | Whole(message: Message) | Stuck

  function Next(p: Place, c: char): Move
    requires Wf(p)
  {
    match p
    case InMethod(m) =>
      if m != "" && c == ' ' then To(InUri(m, "")) else if IsTokenChar(c) then To(InMethod(m + [c])) else Stuck
    case InUri(m, u) =>
      if c == ' ' then To(InName(m, u, 0)) else if IsControl(c) then Stuck else To(InUri(m, u + [c]))
    case InName(m, u, k) =>
      if c != PROTO[k] then Stuck else if k == 4 then To(InMajor(m, u, "")) else To(InName(m, u, k + 1))
    case InMajor(m, u, a) =>
      if IsDigit(c) then To(InMajor(m, u, a + [c])) else if a != "" && c == '.' then To(InMinor(m, u, a, "")) else Stuck
    case InMinor(m, u, a, b) =>
      if IsDigit(c) then To(InMinor(m, u, a, b + [c]))
      else if b != "" && c == '\r' then To(LineCr(Line(m, u, a, b))) else Stuck
    case LineCr(l) => if c == '\n' then To(AtField(l, [])) else Stuck
    case AtField(l, fs) =>
      if c == '\r' then To(EndCr(l, fs))
      else if fs != [] && IsBlank(c) then To(InPad(l, fs, [c]))
      else if IsTokenChar(c) then To(InFieldName(l, fs, [c])) else Stuck
    case InFieldName(l, fs, n) =>
      if c == ':' then To(AfterColon(l, fs, n)) else if IsTokenChar(c) then To(InFieldName(l, fs, n + [c])) else Stuck
    case AfterColon(l, fs, n) => if c == ' ' then To(InValue(l, fs, n, "")) else Stuck
    case InValue(l, fs, n, v) =>
      if c == '\r' then To(FieldCr(l, fs + [Field(n, v, [])]))
      else if IsControl(c) then Stuck else To(InValue(l, fs, n, v + [c]))
    case InPad(l, fs, pad) =>
      if c == '\r' then To(FieldCr(l, AddFold(fs, Fold(pad, ""))))
      else if IsBlank(c) then To(InPad(l, fs, pad + [c]))
      else if IsControl(c) then Stuck else To(InText(l, fs, pad, [c]))
    case InText(l, fs, pad, t) =>
      if c == '\r' then To(FieldCr(l, AddFold(fs, Fold(pad, t))))
      else if IsControl(c) then Stuck else To(InText(l, fs, pad, t + [c]))
    case FieldCr(l, fs) => if c == '\n' then To(AtField(l, fs)) else Stuck
    case EndCr(l, fs) => if c == '\n' then Whole(Message(l, fs)) else Stuck
  }

  // ---------- a character lengthens the text by itself ----------

  lemma {:induction false} RenderPushField(l: Line, fs: seq<Field>, f: Field)
    ensures RenderHead(l, fs + [f]) == RenderHead(l, fs) + RenderField(f)
  {
    assert (fs + [f])[..|fs|] == fs;
  }

  lemma {:induction false} RenderPushFold(l: Line, fs: seq<Field>, f: Fold)
    requires fs != []
    ensures RenderHead(l, AddFold(fs, f)) == RenderHead(l, fs) + (f.pad + f.text + CRLF)
  {
    var n := |fs| - 1;
    var last := fs[n];
    assert (last.folds + [f])[..|last.folds|] == last.folds;
    assert AddFold(fs, f)[..n] == fs[..n];
    var more := f.pad + f.text + CRLF;
    assert RenderFolds(last.folds + [f]) == RenderFolds(last.folds) + more;
    assert RenderField(AddFold(fs, f)[n]) == RenderField(last) + more;
  }

  lemma {:induction false} HeadEndsWithNewline(l: Line, fs: seq<Field>)
    ensures var h := RenderHead(l, fs); h != "" && h[|h| - 1] == '\n'
  {
    if fs != [] {
      var f := fs[|fs| - 1];
      if f.folds != [] {
        var g := f.folds[|f.folds| - 1];
        assert (g.pad + g.text + CRLF)[|g.pad + g.text + CRLF| - 1] == '\n';
      }
    }
  }

  /** The move is to a well-formed place, or whole message, one character on. */
  ghost predicate Writes(p: Place, c: char)
    requires Wf(p)
  {
    match Next(p, c)
    case To(q) => Wf(q) && Written(q) == Written(p) + [c]
    case Whole(m) => WfMessage(m) && Render(m) == Written(p) + [c]
    case Stuck => true
  }

  lemma {:induction false} TargetWrites(p: Place, c: char)
    requires Wf(p) && (p.InMethod? || p.InUri? || p.InName?)
    ensures Writes(p, c)
  {
    match p
    case InMethod(m) => assert m + " " + "" == m + [' '];
    case InUri(m, u) =>
      assert m + " " + (u + [c]) == m + " " + u + [c];
      assert PROTO[..0] == "" && m + " " + u + " " + "" == m + " " + u + [' '];
    case InName(m, u, k) =>
      assert PROTO[..k + 1] == PROTO[..k] + [PROTO[k]];
      assert m + " " + u + " " + PROTO[..k + 1] == m + " " + u + " " + PROTO[..k] + [PROTO[k]];
      assert k == 4 ==> m + " " + u + " HTTP/" + "" == m + " " + u + " " + PROTO[..k + 1];
  }

  lemma {:induction false} VersionWrites(p: Place, c: char)
    requires Wf(p) && (p.InMajor? || p.InMinor? || p.LineCr?)
    ensures Writes(p, c)
  {
    match p
    case InMajor(m, u, a) =>
      assert m + " " + u + " HTTP/" + (a + [c]) == m + " " + u + " HTTP/" + a + [c];
      assert RenderVersion(Line(m, u, a, "")) == m + " " + u + " HTTP/" + a + ".";
    case InMinor(m, u, a, b) =>
      assert RenderVersion(Line(m, u, a, b + [c])) == RenderVersion(Line(m, u, a, b)) + [c];
    case LineCr(l) => assert RenderHead(l, []) == RenderVersion(l) + CRLF;
  }

  lemma {:induction false} ValueWrites(l: Line, fs: seq<Field>, n: string, v: string, c: char)
    requires Wf(InValue(l, fs, n, v))
    ensures Writes(InValue(l, fs, n, v), c)
  {
    var h := RenderHead(l, fs);
    if c == '\r' {
      var f := Field(n, v, []);
      RenderPushField(l, fs, f);
      assert RenderField(f) == n + ": " + v + CRLF;
      LastDropped(h, n + ": " + v);
    } else {
      assert h + (n + ": " + (v + [c])) == h + (n + ": " + v) + [c];
    }
  }

  lemma {:induction false} AddFoldWf(fs: seq<Field>, f: Fold)
    requires fs != [] && WfFields(fs) && WfFold(f)
    ensures WfFields(AddFold(fs, f))
  {
    assert WfField(fs[|fs| - 1]);
  }

  lemma {:induction false} FoldEnds(l: Line, fs: seq<Field>, f: Fold)
    requires WfLine(l) && fs != [] && WfFields(fs) && WfFold(f)
    ensures Wf(FieldCr(l, AddFold(fs, f)))
    ensures Written(FieldCr(l, AddFold(fs, f))) == RenderHead(l, fs) + (f.pad + f.text) + CR
  {
    AddFoldWf(fs, f);
    RenderPushFold(l, fs, f);
    LastDropped(RenderHead(l, fs), f.pad + f.text);
  }

  lemma {:induction false} PadWrites(l: Line, fs: seq<Field>, pad: string, c: char)
    requires Wf(InPad(l, fs, pad))
    ensures Writes(InPad(l, fs, pad), c)
  {
    var h := RenderHead(l, fs);
    if c == '\r' {
      FoldEnds(l, fs, Fold(pad, ""));
      assert pad + "" == pad;
    } else {
      assert h + (pad + [c]) == h + pad + [c];
    }
  }

  lemma {:induction false} TextWrites(l: Line, fs: seq<Field>, pad: string, t: string, c: char)
    requires Wf(InText(l, fs, pad, t))
    ensures Writes(InText(l, fs, pad, t), c)
  {
    var h := RenderHead(l, fs);
    if c == '\r' {
      FoldEnds(l, fs, Fold(pad, t));
    } else {
      assert h + (pad + (t + [c])) == h + (pad + t) + [c];
    }
  }

  lemma {:induction false} FieldStartWrites(p: Place, c: char)
    requires Wf(p) && p.AtField?
    ensures Writes(p, c)
  {
  }

  lemma {:induction false} FieldNameWrites(p: Place, c: char)
    requires Wf(p) && (p.InFieldName? || p.AfterColon?)
    ensures Writes(p, c)
  {
    var h := RenderHead(p.line, p.fields);
    match p
    case InFieldName(_, _, n) =>
      assert h + (n + [c]) == h + n + [c];
    case AfterColon(_, _, n) =>
      assert h + (n + ": " + "") == h + (n + ":") + [' '];
  }

  lemma {:induction false} LineEndWrites(p: Place, c: char)
    requires Wf(p) && (p.FieldCr? || p.EndCr?)
    ensures Writes(p, c)
  {
    HeadEndsWithNewline(p.line, p.fields);
  }

  lemma {:induction false} LastDropped(h: string, s: string)
    ensures var all := h + (s + CRLF); all[..|all| - 1] == h + s + [CRLF[0]]
  {
  }

  lemma {:induction false} NextWrites(p: Place, c: char)
    requires Wf(p)
    ensures Writes(p, c)
  {
    match p
    case InValue(l, fs, n, v) => ValueWrites(l, fs, n, v, c);
    case InPad(l, fs, pad) => PadWrites(l, fs, pad, c);
    case InText(l, fs, pad, t) => TextWrites(l, fs, pad, t, c);
    case AtField(_, _) => FieldStartWrites(p, c);
    case InFieldName(_, _, _) => FieldNameWrites(p, c);
    case AfterColon(_, _, _) => FieldNameWrites(p, c);
    case FieldCr(_, _) => LineEndWrites(p, c);
    case EndCr(_, _) => LineEndWrites(p, c);
    case InMajor(_, _, _) => VersionWrites(p, c);
    case InMinor(_, _, _, _) => VersionWrites(p, c);
    case LineCr(_) => VersionWrites(p, c);
    case _ => TargetWrites(p, c);
  }
}
