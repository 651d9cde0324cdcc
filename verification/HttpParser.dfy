/** The incremental request parser of the HTTP server: a twenty-state machine that keeps its state
    and its half-filled request from one read to the next. */
module HttpParser {
  import opened Decimal
  import opened HttpSyntax
  import opened HttpProgress
  import opened HttpLanguage

  datatype Result = Good | Bad | Indeterminate

  datatype State =
    | MethodStart | Method | Uri
    | HttpVersionH | HttpVersionT1 | HttpVersionT2 | HttpVersionP | HttpVersionSlash
    | HttpVersionMajorStart | HttpVersionMajor | HttpVersionMinorStart | HttpVersionMinor
    | ExpectingNewline1 | HeaderLineStart | HeaderLws | HeaderName
    | SpaceBeforeHeaderValue | HeaderValue | ExpectingNewline2 | ExpectingNewline3

  function StateAt(p: Place): State
    requires Wf(p)
  {
    match p
    case InMethod(m) => if m == "" then MethodStart else Method
    case InUri(_, _) => Uri
    case InName(_, _, k) => [HttpVersionH, HttpVersionT1, HttpVersionT2, HttpVersionP, HttpVersionSlash][k]
    case InMajor(_, _, a) => if a == "" then HttpVersionMajorStart else HttpVersionMajor
    case InMinor(_, _, _, b) => if b == "" then HttpVersionMinorStart else HttpVersionMinor
    case LineCr(_) => ExpectingNewline1
    case AtField(_, _) => HeaderLineStart
    case InFieldName(_, _, _) => HeaderName
    case AfterColon(_, _, _) => SpaceBeforeHeaderValue
    case InValue(_, _, _, _) => HeaderValue
    case InPad(_, _, _) => HeaderLws
    case InText(_, _, _, _) => HeaderValue
    case FieldCr(_, _) => ExpectingNewline2
    case EndCr(_, _) => ExpectingNewline3
  }

  /** The request once its first line is in. */
  function Begun(l: Line, hs: seq<Header>, host: string): Request
    requires WfLine(l)
  {
    Request(l.verb, l.uri, Value(l.major), Value(l.minor), Protocol(Value(l.major), Value(l.minor)), host, hs)
  }

  /** The request at a place; `a` and `b` are what the version fields hold before they are set. The
      host is that of the last complete header line called Host. */
  function RequestAt(p: Place, a: int, b: int): Request
    requires Wf(p)
  {
    match p
    case InMethod(m) => Request(m, "", a, b, "", "", [])
    case InUri(m, u) => Request(m, u, a, b, "", "", [])
    case InName(m, u, _) => Request(m, u, a, b, "", "", [])
    case InMajor(m, u, x) => Request(m, u, Value(x), 0, "", "", [])
    case InMinor(m, u, x, y) => Request(m, u, Value(x), Value(y), "", "", [])
    case LineCr(l) => Begun(l, [], "")
    case AtField(l, fs) => Begun(l, HeadersOf(fs), LastHost(HeadersOf(fs)))
    case InFieldName(l, fs, n) => Begun(l, HeadersOf(fs) + [Header(n, "")], LastHost(HeadersOf(fs)))
    case AfterColon(l, fs, n) => Begun(l, HeadersOf(fs) + [Header(n, "")], LastHost(HeadersOf(fs)))
    case InValue(l, fs, n, v) => Begun(l, HeadersOf(fs) + [Header(n, v)], LastHost(HeadersOf(fs)))
    case InPad(l, fs, _) => Begun(l, HeadersOf(fs), LastHost(HeadersOf(fs)))
    case InText(l, fs, _, t) => Begun(l, Extended(HeadersOf(fs), t), LastHost(HeadersOf(fs)))
    case FieldCr(l, fs) => Begun(l, HeadersOf(fs), LastHost(HeadersOf(fs)))
    case EndCr(l, fs) => Begun(l, HeadersOf(fs), LastHost(HeadersOf(fs)))
  }

  /** The last header with more text in its value. */
  function Extended(hs: seq<Header>, t: string): seq<Header>
    requires hs != []
  {
    var n := |hs| - 1;
    hs[n := hs[n].(value := hs[n].value + t)]
  }

  lemma {:induction false} HeadersPush(fs: seq<Field>, n: string, v: string)
    ensures HeadersOf(fs + [Field(n, v, [])]) == HeadersOf(fs) + [Header(n, v)]
  {
    assert v + "" == v;
  }

  lemma {:induction false} HeadersFold(fs: seq<Field>, f: Fold)
    requires fs != []
    ensures HeadersOf(AddFold(fs, f)) == Extended(HeadersOf(fs), f.text)
  {
    var last := fs[|fs| - 1];
    assert (last.folds + [f])[..|last.folds|] == last.folds;
    assert last.value + (FoldText(last.folds) + f.text) == last.value + FoldText(last.folds) + f.text;
  }

  /** A continuation without text changes no header. */
  lemma {:induction false} EmptyFold(hs: seq<Header>)
    requires hs != []
    ensures Extended(hs, "") == hs
  {
    var h := hs[|hs| - 1];
    assert h.value + "" == h.value;
  }

  lemma {:induction false} EmptyFoldKeepsRequest(l: Line, fs: seq<Field>, pad: string, a: int, b: int)
    requires WfLine(l) && WfFields(fs) && fs != [] && WfPad(pad)
    ensures WfFields(AddFold(fs, Fold(pad, "")))
    ensures RequestAt(FieldCr(l, AddFold(fs, Fold(pad, ""))), a, b) == RequestAt(InPad(l, fs, pad), a, b)
  {
    AddFoldWf(fs, Fold(pad, ""));
    HeadersFold(fs, Fold(pad, ""));
    EmptyFold(HeadersOf(fs));
  }

  /** What one more character of a continuation line does to the state and the request. */
  lemma {:induction false} PadMoves(p: Place, c: char, a: int, b: int)
    requires Wf(p) && p.InPad? && Next(p, c).To?
    ensures var q := Next(p, c).place;
            && Wf(q)
            && StateAt(q) == (if c == '\r' then ExpectingNewline2 else if IsBlank(c) then HeaderLws else HeaderValue)
            && RequestAt(q, a, b) == (if c == '\r' || IsBlank(c) then RequestAt(p, a, b)
                                      else RequestAt(p, a, b).(headers := Extended(HeadersOf(p.fields), [c])))
  {
    NextWrites(p, c);
    if c == '\r' { EmptyFoldKeepsRequest(p.line, p.fields, p.pad, a, b); }
  }

  lemma {:induction false} ExtendedTwice(hs: seq<Header>, t: string, u: string)
    requires hs != []
    ensures Extended(Extended(hs, t), u) == Extended(hs, t + u)
  {
    var h := hs[|hs| - 1];
    assert h.value + t + u == h.value + (t + u);
  }

  lemma {:induction false} ExtendedLast(hs: seq<Header>, h: Header, t: string)
    ensures Extended(hs + [h], t) == hs + [Header(h.name, h.value + t)]
  {
  }

  /** A longer value of the last header changes the host only if that is the Host header. */
  lemma {:induction false} HostOfExtended(hs: seq<Header>, t: string)
    requires hs != []
    ensures var e := Extended(hs, t);
            LastHost(e) == if e[|e| - 1].name == "Host" then e[|e| - 1].value else LastHost(hs)
  {
    assert Extended(hs, t)[..|hs| - 1] == hs[..|hs| - 1];
  }

  lemma {:induction false} ValuePush(s: string, c: char)
    requires AllDigits(s) && IsDigit(c)
    ensures AllDigits(s + [c]) && Value(s + [c]) == 10 * Value(s) + DigitValue(c)
  {
    assert (s + [c])[..|s|] == s;
  }

  /** The request after the line of its last header has ended. */
  function LineDone(r: Request): Request
    requires r.headers != []
  {
    var h := r.headers[|r.headers| - 1];
    if h.name == "Host" then r.(host := h.value) else r
  }

  /** What one more character of a value does to the state and the request. */
  ghost predicate ValueMoved(p: Place, c: char, a: int, b: int)
    requires Wf(p) && (p.InValue? || p.InText?) && Next(p, c).To?
  {
    var q, r := Next(p, c).place, RequestAt(p, a, b);
    && Wf(q) && r.headers != []
    && StateAt(q) == (if c == '\r' then ExpectingNewline2 else HeaderValue)
    && RequestAt(q, a, b) == (if c == '\r' then LineDone(r) else r.(headers := Extended(r.headers, [c])))
  }

  lemma {:induction false} ValueEnds(p: Place, a: int, b: int)
    requires Wf(p) && p.InValue?
    ensures ValueMoved(p, '\r', a, b)
  {
    var hs, h := HeadersOf(p.fields), Header(p.name, p.value);
    NextWrites(p, '\r');
    HeadersPush(p.fields, p.name, p.value);
    assert (hs + [h])[..|hs|] == hs;
  }

  lemma {:induction false} ValueMoves(p: Place, c: char, a: int, b: int)
    requires Wf(p) && p.InValue? && Next(p, c).To?
    ensures ValueMoved(p, c, a, b)
  {
    if c == '\r' {
      ValueEnds(p, a, b);
    } else {
      NextWrites(p, c);
      ExtendedLast(HeadersOf(p.fields), Header(p.name, p.value), [c]);
    }
  }

  lemma {:induction false} TextMoves(p: Place, c: char, a: int, b: int)
    requires Wf(p) && p.InText? && Next(p, c).To?
    ensures ValueMoved(p, c, a, b)
  {
    var hs := HeadersOf(p.fields);
    NextWrites(p, c);
    if c == '\r' {
      HeadersFold(p.fields, Fold(p.pad, p.text));
      HostOfExtended(hs, p.text);
    } else {
      ExtendedTwice(hs, p.text, [c]);
    }
  }

  /** What the first character of a line does to the state and the request. */
  lemma {:induction false} LineStarts(p: Place, c: char, a: int, b: int)
    requires Wf(p) && p.AtField? && Next(p, c).To?
    ensures var q, r := Next(p, c).place, RequestAt(p, a, b);
            && Wf(q)
            && StateAt(q) == (if c == '\r' then ExpectingNewline3
                              else if r.headers != [] && IsBlank(c) then HeaderLws else HeaderName)
            && RequestAt(q, a, b) ==
               (if StateAt(q).HeaderName? then r.(headers := r.headers + [Header([c], "")]) else r)
  {
    NextWrites(p, c);
  }

  // ---------- complete lines ----------

  /** A request line and complete header lines, continuations included. */
  ghost predicate IsHead(w: string, l: Line, fs: seq<Field>) {
    WfLine(l) && WfFields(fs) && w == RenderHead(l, fs)
  }

  lemma {:induction false} HeadIsRead(w: string, l: Line, fs: seq<Field>)
    requires IsHead(w, l, fs)
    ensures Read(START, w) == More(AtField(l, fs))
  {
    ReadFields(l, fs, "");
    assert w + "" == w;
  }

  lemma {:induction false} LineStartIsHead(w: string)
    requires Read(START, w).More? && Read(START, w).place.AtField?
    ensures var p := Read(START, w).place; IsHead(w, p.line, p.fields)
  {
    ReadIsFaithful(START, w);
    assert Written(START) + w == w;
  }

  class HttpSession {
    var state: State
    var req: Request
    /** Where in a request the session is. */
    ghost var at: Place
    ghost var major0: int
    ghost var minor0: int

    ghost predicate Valid()
      reads this
    {
      Wf(at) && state == StateAt(at) && req == RequestAt(at, major0, minor0)
    }

    constructor (major0: int, minor0: int)
      ensures Valid() && at == START
    {
      state := MethodStart;
      req := Request("", "", major0, minor0, "", "", []);
      at := START;
      this.major0, this.minor0 := major0, minor0;
    }

    method PushHeaderName(c: char)
      requires req.headers != []
      modifies this`req
      ensures req == old(req).(headers := req.headers)
      ensures var n := |old(req.headers)| - 1;
              var h := old(req.headers)[n];
              req.headers == old(req.headers)[n := h.(name := h.name + [c])]
    {
      var n := |req.headers| - 1;
      var h := req.headers[n];
      req := req.(headers := req.headers[n := h.(name := h.name + [c])]);
    }

    method PushHeaderValue(c: char)
      requires req.headers != []
      modifies this`req
      ensures req == old(req).(headers := Extended(old(req.headers), [c]))
    {
      var n := |req.headers| - 1;
      var h := req.headers[n];
      req := req.(headers := req.headers[n := h.(value := h.value + [c])]);
    }

    /** One character has been taken: the session moved exactly as the grammar does. */
    ghost predicate Moved(p: Place, input: char, r: Result)
      requires Wf(p)
      reads this
    {
      match Next(p, input)
      case To(q) => r == Indeterminate && at == q
      case Whole(m) => r == Good && WfMessage(m) && req == Meaning(m)
      case Stuck => r == Bad
    }

    /** The method and the URI. */
    method ConsumeTarget(input: char) returns (r: Result)
      requires Valid() && (state.MethodStart? || state.Method? || state.Uri?)
      modifies this
      ensures Valid() && major0 == old(major0) && minor0 == old(minor0)
      ensures Moved(old(at), input, r)
    {
      NextWrites(at, input);
      ghost var step := Next(at, input);
      match state {
      case MethodStart =>
        if !IsTokenChar(input) { return Bad; }
        state := Method;
        req := req.(verb := req.verb + [input]);
        r := Indeterminate;
      case Method =>
        if input == ' ' {
          state := Uri;
        } else if !IsTokenChar(input) {
          return Bad;
        } else {
          req := req.(verb := req.verb + [input]);
        }
        r := Indeterminate;
      case Uri =>
        if input == ' ' {
          state := HttpVersionH;
        } else if IsControl(input) {
          return Bad;
        } else {
          req := req.(uri := req.uri + [input]);
        }
        r := Indeterminate;
      }
      at := step.place;
    }

    /** The letters of the protocol name. */
    method ConsumeProtocol(input: char) returns (r: Result)
      requires Valid()
      requires state.HttpVersionH? || state.HttpVersionT1? || state.HttpVersionT2? || state.HttpVersionP?
               || state.HttpVersionSlash?
      modifies this
      ensures Valid() && major0 == old(major0) && minor0 == old(minor0)
      ensures Moved(old(at), input, r)
    {
      NextWrites(at, input);
      ghost var step := Next(at, input);
      match state {
      case HttpVersionH =>
        if input != 'H' { return Bad; }
        state := HttpVersionT1;
        r := Indeterminate;
      case HttpVersionT1 =>
        if input != 'T' { return Bad; }
        state := HttpVersionT2;
        r := Indeterminate;
      case HttpVersionT2 =>
        if input != 'T' { return Bad; }
        state := HttpVersionP;
        r := Indeterminate;
      case HttpVersionP =>
        if input != 'P' { return Bad; }
        state := HttpVersionSlash;
        r := Indeterminate;
      case HttpVersionSlash =>
        if input != '/' { return Bad; }
        req := req.(major := 0, minor := 0);
        state := HttpVersionMajorStart;
        r := Indeterminate;
      }
      at := step.place;
    }

    /** The digits before the dot. */
    method ConsumeMajor(input: char) returns (r: Result)
      requires Valid() && (state.HttpVersionMajorStart? || state.HttpVersionMajor?)
      modifies this
      ensures Valid() && major0 == old(major0) && minor0 == old(minor0)
      ensures Moved(old(at), input, r)
    {
      NextWrites(at, input);
      ghost var step := Next(at, input);
      match state {
      case HttpVersionMajorStart =>
        if !IsDigit(input) { return Bad; }
        ValuePush(at.major, input);
        req := req.(major := req.major * 10 + DigitValue(input));
        state := HttpVersionMajor;
        r := Indeterminate;
      case HttpVersionMajor =>
        if input == '.' {
          state := HttpVersionMinorStart;
        } else if IsDigit(input) {
          ValuePush(at.major, input);
          req := req.(major := req.major * 10 + DigitValue(input));
        } else {
          return Bad;
        }
        r := Indeterminate;
      }
      at := step.place;
    }

    /** The digits after the dot, and the end of the request line. */
    method ConsumeMinor(input: char) returns (r: Result)
      requires Valid() && (state.HttpVersionMinorStart? || state.HttpVersionMinor? || state.ExpectingNewline1?)
      modifies this
      ensures Valid() && major0 == old(major0) && minor0 == old(minor0)
      ensures Moved(old(at), input, r)
    {
      NextWrites(at, input);
      ghost var step := Next(at, input);
      match state {
      case HttpVersionMinorStart =>
        if !IsDigit(input) { return Bad; }
        ValuePush(at.minor, input);
        req := req.(minor := req.minor * 10 + DigitValue(input));
        state := HttpVersionMinor;
        r := Indeterminate;
      case HttpVersionMinor =>
        if input == '\r' {
          req := req.(protocol := "HTTP/" + Print(req.major) + "." + Print(req.minor));
          state := ExpectingNewline1;
        } else if IsDigit(input) {
          ValuePush(at.minor, input);
          req := req.(minor := req.minor * 10 + DigitValue(input));
        } else {
          return Bad;
        }
        r := Indeterminate;
      case ExpectingNewline1 =>
        if input != '\n' { return Bad; }
        state := HeaderLineStart;
        r := Indeterminate;
      }
      at := step.place;
    }

    /** The start of a header line, of a continuation, or of the end. */
    method ConsumeLineStart(input: char) returns (r: Result)
      requires Valid() && state.HeaderLineStart?
      modifies this
      ensures Valid() && major0 == old(major0) && minor0 == old(minor0)
      ensures Moved(old(at), input, r)
    {
      ghost var step := Next(at, input);
      if step.To? { LineStarts(at, input, major0, minor0); }
      if input == '\r' {
        state := ExpectingNewline3;
      } else if req.headers != [] && (input == ' ' || input == '\t') {
        state := HeaderLws;
      } else if !IsTokenChar(input) {
        return Bad;
      } else {
        req := req.(headers := req.headers + [Header("", "")]);
        PushHeaderName(input);
        assert "" + [input] == [input];
        state := HeaderName;
      }
      at := step.place;
      r := Indeterminate;
    }

    /** A header's name and what follows it. */
    method ConsumeHeaderName(input: char) returns (r: Result)
      requires Valid() && (state.HeaderName? || state.SpaceBeforeHeaderValue?)
      modifies this
      ensures Valid() && major0 == old(major0) && minor0 == old(minor0)
      ensures Moved(old(at), input, r)
    {
      NextWrites(at, input);
      ghost var step := Next(at, input);
      match state {
      case HeaderName =>
        if input == ':' {
          state := SpaceBeforeHeaderValue;
        } else if !IsTokenChar(input) {
          return Bad;
        } else {
          PushHeaderName(input);
          assert req.headers == HeadersOf(at.fields) + [Header(at.name + [input], "")];
        }
        r := Indeterminate;
      case SpaceBeforeHeaderValue =>
        if input != ' ' { return Bad; }
        state := HeaderValue;
        r := Indeterminate;
      }
      at := step.place;
    }

    /** White space that continues a header's value. */
    method ConsumeLws(input: char) returns (r: Result)
      requires Valid() && state.HeaderLws?
      modifies this
      ensures Valid() && major0 == old(major0) && minor0 == old(minor0)
      ensures Moved(old(at), input, r)
    {
      ghost var step := Next(at, input);
      if step.To? { PadMoves(at, input, major0, minor0); }
      if input == '\r' {
        state := ExpectingNewline2;
      } else if input == ' ' || input == '\t' {
      } else if IsControl(input) {
        return Bad;
      } else {
        state := HeaderValue;
        PushHeaderValue(input);
      }
      at := step.place;
      r := Indeterminate;
    }

    /** A header's value, on its own line or on a continuation. */
    method ConsumeHeaderValue(input: char) returns (r: Result)
      requires Valid() && state.HeaderValue?
      modifies this
      ensures Valid() && major0 == old(major0) && minor0 == old(minor0)
      ensures Moved(old(at), input, r)
    {
      ghost var step := Next(at, input);
      if step.To? {
        if at.InValue? { ValueMoves(at, input, major0, minor0); } else { TextMoves(at, input, major0, minor0); }
      }
      if input == '\r' {
        var h := req.headers[|req.headers| - 1];
        if h.name == "Host" { req := req.(host := h.value); }
        state := ExpectingNewline2;
      } else if IsControl(input) {
        return Bad;
      } else {
        PushHeaderValue(input);
      }
      at := step.place;
      r := Indeterminate;
    }

    /** The line feeds after a header line and at the very end. */
    method ConsumeLineEnd(input: char) returns (r: Result)
      requires Valid() && (state.ExpectingNewline2? || state.ExpectingNewline3?)
      modifies this
      ensures Valid() && major0 == old(major0) && minor0 == old(minor0)
      ensures Moved(old(at), input, r)
    {
      NextWrites(at, input);
      ghost var step := Next(at, input);
      match state {
      case ExpectingNewline2 =>
        if input != '\n' { return Bad; }
        state := HeaderLineStart;
        r := Indeterminate;
      case ExpectingNewline3 =>
        if input != '\n' { return Bad; }
        return Good;
      }
      at := step.place;
    }

    /** Takes one character. */
    method Consume(input: char) returns (r: Result)
      requires Valid()
      modifies this
      ensures Valid() && major0 == old(major0) && minor0 == old(minor0)
      ensures Moved(old(at), input, r)
    {
      match state {
      case MethodStart => r := ConsumeTarget(input);
      case Method => r := ConsumeTarget(input);
      case Uri => r := ConsumeTarget(input);
      case HttpVersionH => r := ConsumeProtocol(input);
      case HttpVersionT1 => r := ConsumeProtocol(input);
      case HttpVersionT2 => r := ConsumeProtocol(input);
      case HttpVersionP => r := ConsumeProtocol(input);
      case HttpVersionSlash => r := ConsumeProtocol(input);
      case HttpVersionMajorStart => r := ConsumeMajor(input);
      case HttpVersionMajor => r := ConsumeMajor(input);
      case HttpVersionMinorStart => r := ConsumeMinor(input);
      case HttpVersionMinor => r := ConsumeMinor(input);
      case ExpectingNewline1 => r := ConsumeMinor(input);
      case HeaderLineStart => r := ConsumeLineStart(input);
      case HeaderName => r := ConsumeHeaderName(input);
      case SpaceBeforeHeaderValue => r := ConsumeHeaderName(input);
      case HeaderLws => r := ConsumeLws(input);
      case HeaderValue => r := ConsumeHeaderValue(input);
      case ExpectingNewline2 => r := ConsumeLineEnd(input);
      case ExpectingNewline3 => r := ConsumeLineEnd(input);
      }
    }

    /** The session has read a text from `p` as the grammar does; `used` is what it took of it. */
    ghost predicate HasRead(p: Place, w: string, r: Result, used: nat)
      requires Wf(p) && used <= |w|
      reads this
    {
      match Read(p, w)
      case More(q) => r == Indeterminate && used == |w| && at == q
      case Accepted(m, rest) => r == Good && rest == w[used..] && WfMessage(m) && req == Meaning(m)
      case Rejected(rest) => r == Bad && rest == w[used..]
    }

    /** From the start, the session is at the start of a header line exactly if it has read a request
        line and complete header lines. It then holds the headers of those lines, in order, and the
        host is the value, continuations included, of the last of them that is called Host. */
    ghost predicate HoldsLines(w: string, r: Result)
      reads this
    {
      && (r == Indeterminate && state.HeaderLineStart? <==> exists l, fs :: IsHead(w, l, fs))
      && forall l, fs :: IsHead(w, l, fs) ==> req.headers == HeadersOf(fs) && req.host == LastHost(HeadersOf(fs))
    }

    lemma {:induction false} HostAtEachLine(w: string, r: Result)
      requires Valid()
      requires if Read(START, w).More? then r == Indeterminate && at == Read(START, w).place else r != Indeterminate
      ensures HoldsLines(w, r)
    {
      forall l, fs | IsHead(w, l, fs) ensures Read(START, w) == More(AtField(l, fs)) { HeadIsRead(w, l, fs); }
      if r == Indeterminate && state.HeaderLineStart? { LineStartIsHead(w); }
    }

    /** Takes the characters of one read, up to the end of the message or the first bad one. */
    method Parse(data: string) returns (r: Result, used: nat)
      requires Valid()
      modifies this
      ensures Valid() && used <= |data| && HasRead(old(at), data, r, used)
      ensures old(at) == START ==> HoldsLines(data, r)
    {
      used := 0;
      assert data[0..] == data;
      while used < |data|
        invariant Valid() && 0 <= used <= |data|
        invariant Read(old(at), data) == Read(at, data[used..])
      {
        assert data[used..][1..] == data[used + 1..];
        r := Consume(data[used]);
        used := used + 1;
        if r == Good || r == Bad {
          if old(at) == START { HostAtEachLine(data, r); }
          return;
        }
      }
      r := Indeterminate;
      if old(at) == START { HostAtEachLine(data, r); }
    }

    /** Reads until the request is decided or the client sends no more; `rest` is never looked at. */
    method DoRead(chunks: seq<string>) returns (r: Result, ghost rest: string)
      requires Valid()
      modifies this
      ensures Valid()
      ensures match Read(old(at), Concat(chunks))
              case More(q) => r == Indeterminate && at == q
              case Accepted(m, left) => r == Good && WfMessage(m) && req == Meaning(m) && rest == left
              case Rejected(left) => r == Bad && rest == left
      ensures old(at) == START ==> HoldsLines(Concat(chunks), r)
    {
      var i := 0;
      r, rest := Indeterminate, "";
      assert chunks[0..] == chunks;
      while i < |chunks|
        invariant Valid() && 0 <= i <= |chunks|
        invariant Read(old(at), Concat(chunks)) == Read(at, Concat(chunks[i..]))
      {
        ghost var later := Concat(chunks[i + 1..]);
        assert chunks[i..][1..] == chunks[i + 1..];
        ReadConcat(at, chunks[i], later);
        var used;
        r, used := Parse(chunks[i]);
        if r != Indeterminate {
          rest := chunks[i][used..] + later;
          if old(at) == START { HostAtEachLine(Concat(chunks), r); }
          return;
        }
        i := i + 1;
      }
      r := Indeterminate;
      if old(at) == START { HostAtEachLine(Concat(chunks), r); }
    }
  }

  function Concat(chunks: seq<string>): string {
    if chunks == [] then "" else chunks[0] + Concat(chunks[1..])
  }

  /** Reading chunk by chunk, each from where the one before stopped. */
  function ReadChunks(p: Place, chunks: seq<string>): Reading
    requires Wf(p)
    decreases |chunks|
  {
    if chunks == [] then More(p) else
      match Read(p, chunks[0])
      case More(q) => ReadChunks(q, chunks[1..])
      case Accepted(m, rest) => Accepted(m, rest + Concat(chunks[1..]))
      case Rejected(rest) => Rejected(rest + Concat(chunks[1..]))
  }

  /** How the bytes were cut into reads makes no difference. */
  lemma {:induction false} ChunksDoNotMatter(p: Place, chunks: seq<string>)
    requires Wf(p)
    ensures ReadChunks(p, chunks) == Read(p, Concat(chunks))
    decreases |chunks|
  {
    if chunks != [] {
      ReadConcat(p, chunks[0], Concat(chunks[1..]));
      var first := Read(p, chunks[0]);
      if first.More? { ChunksDoNotMatter(first.place, chunks[1..]); }
    }
  }

  // ---------- requests as clients write them ----------

  /** Continuation lines, in order. */
  function FoldLines(folds: seq<Fold>): string {
    if folds == [] then "" else folds[0].pad + folds[0].text + CRLF + FoldLines(folds[1..])
  }

  function HeaderLines(fs: seq<Field>): string {
    if fs == [] then "" else
      fs[0].name + ": " + fs[0].value + CRLF + FoldLines(fs[0].folds) + HeaderLines(fs[1..])
  }

  /** A request as a client writes it, with the version in plain decimals. */
  function RequestText(verb: string, uri: string, major: nat, minor: nat, fs: seq<Field>): string {
    verb + " " + uri + " " + Protocol(major, minor) + CRLF + HeaderLines(fs) + CRLF
  }

  function Texts(folds: seq<Fold>): seq<string> {
    seq(|folds|, i requires 0 <= i < |folds| => folds[i].text)
  }

  /** The text of a header and of its continuation lines, run together. */
  function Shown(f: Field): Header { Header(f.name, Concat([f.value] + Texts(f.folds))) }

  /** What a client may write: letters, digits and marks for a name, visible characters for a value,
      and continuation lines whose first blanks are their indentation. */
  predicate IsWritten(f: Field) {
    && IsName(f.name) && IsVisible(f.value)
    && forall i :: 0 <= i < |f.folds| ==> IsWrittenFold(f.folds[i])
  }

  predicate IsWrittenFold(g: Fold) {
    && g.pad != "" && (forall c :: c in g.pad ==> c == ' ' || c == '\t')
    && IsVisible(g.text) && (g.text != "" ==> g.text[0] != ' ')
  }

  lemma {:induction false} WrittenFoldIsWf(g: Fold)
    requires IsWrittenFold(g)
    ensures WfFold(g)
  {
    Classes(g.text);
    assert forall i :: 0 <= i < |g.pad| ==> g.pad[i] in g.pad;
  }

  lemma {:induction false} WrittenIsWf(f: Field)
    requires IsWritten(f)
    ensures WfField(f)
  {
    Classes(f.name);
    Classes(f.value);
    forall i | 0 <= i < |f.folds| { WrittenFoldIsWf(f.folds[i]); }
  }

  lemma {:induction false} FoldLinesPush(folds: seq<Fold>, g: Fold)
    ensures FoldLines(folds + [g]) == FoldLines(folds) + (g.pad + g.text + CRLF)
  {
    if folds == [] {
      assert [g][1..] == [] && g.pad + g.text + CRLF + "" == "" + (g.pad + g.text + CRLF);
    } else {
      FoldLinesPush(folds[1..], g);
      assert (folds + [g])[1..] == folds[1..] + [g];
      var first := folds[0].pad + folds[0].text + CRLF;
      assert first + (FoldLines(folds[1..]) + (g.pad + g.text + CRLF))
          == first + FoldLines(folds[1..]) + (g.pad + g.text + CRLF);
    }
  }

  lemma {:induction false} FoldsText(folds: seq<Fold>)
    ensures RenderFolds(folds) == FoldLines(folds)
  {
    if folds != [] {
      var n := |folds| - 1;
      FoldsText(folds[..n]);
      FoldLinesPush(folds[..n], folds[n]);
      assert folds == folds[..n] + [folds[n]];
    }
  }

  lemma {:induction false} HeaderLinesPush(fs: seq<Field>, f: Field)
    ensures HeaderLines(fs + [f]) == HeaderLines(fs) + (f.name + ": " + f.value + CRLF + FoldLines(f.folds))
  {
    var last := f.name + ": " + f.value + CRLF + FoldLines(f.folds);
    if fs == [] {
      assert [f][1..] == [] && last + "" == "" + last;
    } else {
      HeaderLinesPush(fs[1..], f);
      assert (fs + [f])[1..] == fs[1..] + [f];
      var first := fs[0].name + ": " + fs[0].value + CRLF + FoldLines(fs[0].folds);
      assert first + (HeaderLines(fs[1..]) + last) == first + HeaderLines(fs[1..]) + last;
    }
  }

  lemma {:induction false} FieldsText(fs: seq<Field>)
    ensures RenderFields(fs) == HeaderLines(fs)
  {
    if fs != [] {
      var n := |fs| - 1;
      FieldsText(fs[..n]);
      FoldsText(fs[n].folds);
      HeaderLinesPush(fs[..n], fs[n]);
      assert fs == fs[..n] + [fs[n]];
    }
  }

  lemma {:induction false} ConcatPush(parts: seq<string>, t: string)
    ensures Concat(parts + [t]) == Concat(parts) + t
  {
    if parts == [] {
      assert [t][1..] == [] && t + "" == "" + t;
    } else {
      ConcatPush(parts[1..], t);
      assert (parts + [t])[1..] == parts[1..] + [t];
      assert parts[0] + (Concat(parts[1..]) + t) == parts[0] + Concat(parts[1..]) + t;
    }
  }

  lemma {:induction false} FoldTextIs(folds: seq<Fold>)
    ensures FoldText(folds) == Concat(Texts(folds))
  {
    if folds != [] {
      var n := |folds| - 1;
      FoldTextIs(folds[..n]);
      ConcatPush(Texts(folds[..n]), folds[n].text);
      assert Texts(folds) == Texts(folds[..n]) + [folds[n].text];
    }
  }

  lemma {:induction false} HeaderShows(f: Field)
    ensures HeaderOf(f) == Shown(f)
  {
    FoldTextIs(f.folds);
    assert ([f.value] + Texts(f.folds))[1..] == Texts(f.folds);
  }

  /** The host is the value of the last header called Host, or nothing if there is none. */
  ghost predicate IsHost(host: string, hs: seq<Header>) {
    if exists i :: 0 <= i < |hs| && hs[i].name == "Host" then
      exists i :: 0 <= i < |hs| && hs[i] == Header("Host", host) && (forall j :: i < j < |hs| ==> hs[j].name != "Host")
    else host == ""
  }

  lemma {:induction false} HostPush(host: string, hs: seq<Header>, h: Header)
    requires IsHost(host, hs) && h.name != "Host"
    ensures IsHost(host, hs + [h])
  {
    var all := hs + [h];
    assert forall i :: 0 <= i < |hs| ==> all[i] == hs[i];
    if i :| 0 <= i < |all| && all[i].name == "Host" {
      assert hs[i].name == "Host";
      var k :| 0 <= k < |hs| && hs[k] == Header("Host", host) && forall j :: k < j < |hs| ==> hs[j].name != "Host";
      assert all[k] == Header("Host", host);
    }
  }

  lemma {:induction false} LastHostIs(hs: seq<Header>)
    ensures IsHost(LastHost(hs), hs)
  {
    if hs != [] {
      var n := |hs| - 1;
      if hs[n].name == "Host" {
        assert hs[n] == Header("Host", LastHost(hs));
      } else {
        LastHostIs(hs[..n]);
        HostPush(LastHost(hs[..n]), hs[..n], hs[n]);
        assert hs == hs[..n] + [hs[n]];
      }
    }
  }

  /** What is known of a request that has been read back. */
  ghost predicate ReadBack(r: Reading, verb: string, uri: string, major: nat, minor: nat,
                           fs: seq<Field>, rest: string) {
    && r.Accepted? && r.rest == rest && WfMessage(r.message)
    && var req := Meaning(r.message);
       && req.verb == verb && req.uri == uri && req.major == major && req.minor == minor
       && req.protocol == "HTTP/" + Print(major) + "." + Print(minor)
       && |req.headers| == |fs| && (forall i :: 0 <= i < |fs| ==> req.headers[i] == Shown(fs[i]))
       && IsHost(req.host, req.headers)
  }

  lemma {:induction false} MeaningOf(l: Line, fs: seq<Field>, major: nat, minor: nat, rest: string)
    requires WfLine(l) && WfFields(fs) && l.major == Print(major) && l.minor == Print(minor)
    ensures ReadBack(Accepted(Message(l, fs), rest), l.verb, l.uri, major, minor, fs, rest)
  {
    PrintThenRead(major);
    PrintThenRead(minor);
    LastHostIs(HeadersOf(fs));
    forall i | 0 <= i < |fs| ensures HeadersOf(fs)[i] == Shown(fs[i]) { HeaderShows(fs[i]); }
  }

  lemma {:induction false} TextOf(verb: string, uri: string, major: nat, minor: nat, fs: seq<Field>)
    ensures Render(Message(Line(verb, uri, Print(major), Print(minor)), fs)) == RequestText(verb, uri, major, minor, fs)
  {
    FieldsText(fs);
    var l := Line(verb, uri, Print(major), Print(minor));
    assert RenderVersion(l) == verb + " " + uri + " " + Protocol(major, minor);
  }

  /** Writing a request, with or without continuation lines, and parsing it gives the request back: the
      same method, URI, version and headers, the version's text as protocol, the last Host as host, and
      not one byte of what follows. */
  lemma {:induction false} RequestRoundTrip(verb: string, uri: string, major: nat, minor: nat,
                                            fs: seq<Field>, rest: string)
    requires IsName(verb) && IsVisible(uri) && ' ' !in uri
    requires forall i :: 0 <= i < |fs| ==> IsWritten(fs[i])
    ensures ReadBack(Read(START, RequestText(verb, uri, major, minor, fs) + rest), verb, uri, major, minor, fs, rest)
  {
    var l := Line(verb, uri, Print(major), Print(minor));
    Classes(verb);
    Classes(uri);
    forall i | 0 <= i < |fs| ensures WfField(fs[i]) { WrittenIsWf(fs[i]); }
    TextOf(verb, uri, major, minor, fs);
    ReadOfRender(Message(l, fs), rest);
    MeaningOf(l, fs, major, minor, rest);
  }
}
