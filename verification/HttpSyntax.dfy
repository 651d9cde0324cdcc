/** The requests the HTTP server accepts, as text and as the record it fills in. Characters with
    codes above 127 stand for the bytes above 127. */
module HttpSyntax {
  import opened Decimal

  const CR := "\r"
  const CRLF := "\r\n"

  // ---------- character classes ----------

  predicate IsChar(c: char) { c as int <= 127 }

  predicate IsControl(c: char) { c as int <= 31 || c as int == 127 }

  predicate IsSpecial(c: char) {
    c in "()<>@,;:\\\"/[]?={} \t"
  }

  predicate IsTokenChar(c: char) { IsChar(c) && !IsControl(c) && !IsSpecial(c) }

  predicate IsBlank(c: char) { c == ' ' || c == '\t' }

  predicate All(s: string, p: char -> bool) { forall i :: 0 <= i < |s| ==> p(s[i]) }

  predicate IsToken(s: string) { s != "" && All(s, IsTokenChar) }

  const TEXT_CHAR: char -> bool := c => !IsControl(c)
  const URI_CHAR: char -> bool := c => !IsControl(c) && c != ' '

  // ---------- which characters these are ----------

  predicate IsLetter(c: char) { 'a' <= c <= 'z' || 'A' <= c <= 'Z' }

  /** The letters, the digits and fifteen marks. */
  predicate IsNameChar(c: char) { IsLetter(c) || IsDigit(c) || c in "!#$%&'*+-.^_`|~" }

  predicate IsName(s: string) { s != "" && forall i :: 0 <= i < |s| ==> IsNameChar(s[i]) }

  /** Any character but the control characters: codes 32 to 126, and those above 127. */
  predicate IsVisible(s: string) { forall i :: 0 <= i < |s| ==> 32 <= s[i] as int <= 126 || 128 <= s[i] as int }

  lemma {:induction false} TokenChars(c: char)
    ensures IsTokenChar(c) <==> IsNameChar(c)
  {
  }

  lemma {:induction false} TextCodes(c: char)
    ensures TEXT_CHAR(c) <==> 32 <= c as int <= 126 || 128 <= c as int
    ensures URI_CHAR(c) <==> 33 <= c as int <= 126 || 128 <= c as int
    ensures IsBlank(c) <==> c as int == 9 || c as int == 32
  {
  }

  /** A token is a name, and what may stand in a value is what is visible, and in a URI that but a
      space. */
  lemma {:induction false} Classes(s: string)
    ensures IsToken(s) <==> IsName(s)
    ensures All(s, TEXT_CHAR) <==> IsVisible(s)
    ensures All(s, URI_CHAR) <==> IsVisible(s) && ' ' !in s
  {
    forall i | 0 <= i < |s|
      ensures IsTokenChar(s[i]) <==> IsNameChar(s[i])
      ensures TEXT_CHAR(s[i]) <==> 32 <= s[i] as int <= 126 || 128 <= s[i] as int
      ensures URI_CHAR(s[i]) <==> TEXT_CHAR(s[i]) && s[i] != ' '
    {
      TokenChars(s[i]);
      TextCodes(s[i]);
    }
  }

  // ---------- the grammar ----------

  /** A continuation line: its indentation, which is dropped, and its text, which is kept. */
  datatype Fold = Fold(pad: string, text: string)
  datatype Field = Field(name: string, value: string, folds: seq<Fold>)
  datatype Line = Line(verb: string, uri: string, major: string, minor: string)
  datatype Message = Message(line: Line, fields: seq<Field>)

  predicate WfPad(pad: string) { pad != "" && All(pad, IsBlank) }

  predicate WfFold(f: Fold) { WfPad(f.pad) && All(f.text, TEXT_CHAR) && (f.text != "" ==> f.text[0] != ' ') }

  predicate WfField(f: Field) {
    IsToken(f.name) && All(f.value, TEXT_CHAR) && forall i :: 0 <= i < |f.folds| ==> WfFold(f.folds[i])
  }

  predicate WfLine(l: Line) {
    && IsToken(l.verb) && All(l.uri, URI_CHAR)
    && l.major != "" && AllDigits(l.major) && l.minor != "" && AllDigits(l.minor)
  }

  predicate WfFields(fs: seq<Field>) { forall i :: 0 <= i < |fs| ==> WfField(fs[i]) }

  predicate WfMessage(m: Message) { WfLine(m.line) && WfFields(m.fields) }

  function RenderVersion(l: Line): string { l.verb + " " + l.uri + " HTTP/" + l.major + "." + l.minor }

  function RenderFolds(fs: seq<Fold>): string {
    if fs == [] then "" else
      var n := |fs| - 1;
      RenderFolds(fs[..n]) + (fs[n].pad + fs[n].text + CRLF)
  }

  function RenderField(f: Field): string { f.name + ": " + f.value + CRLF + RenderFolds(f.folds) }

  function RenderFields(fs: seq<Field>): string {
    if fs == [] then "" else
      var n := |fs| - 1;
      RenderFields(fs[..n]) + RenderField(fs[n])
  }

  function RenderHead(l: Line, fs: seq<Field>): string { RenderVersion(l) + CRLF + RenderFields(fs) }

  function Render(m: Message): string { RenderHead(m.line, m.fields) + CRLF }

  // ---------- what a request means ----------

  datatype Header = Header(name: string, value: string)
  datatype Request = Request(verb: string, uri: string, major: int, minor: int, protocol: string, host: string,
                             headers: seq<Header>)

  function FoldText(fs: seq<Fold>): string {
    if fs == [] then "" else FoldText(fs[..|fs| - 1]) + fs[|fs| - 1].text
  }

  /** A header's value with its continuation lines run together. */
  function HeaderOf(f: Field): Header { Header(f.name, f.value + FoldText(f.folds)) }

  function HeadersOf(fs: seq<Field>): (r: seq<Header>)
    ensures |r| == |fs|
  {
    seq(|fs|, i requires 0 <= i < |fs| => HeaderOf(fs[i]))
  }

  /** The value of the last header called Host, or nothing. */
  function LastHost(hs: seq<Header>): string {
    if hs == [] then "" else
      var h := hs[|hs| - 1];
      if h.name == "Host" then h.value else LastHost(hs[..|hs| - 1])
  }

  function Protocol(major: nat, minor: nat): string { "HTTP/" + Print(major) + "." + Print(minor) }

  /** The request a message describes. */
  function Meaning(m: Message): Request
    requires WfMessage(m)
  {
    var l, hs := m.line, HeadersOf(m.fields);
    Request(l.verb, l.uri, Value(l.major), Value(l.minor), Protocol(Value(l.major), Value(l.minor)), LastHost(hs), hs)
  }

  /** The protocol string repeats the version as written exactly when it has no leading zeros. */
  lemma {:induction false} ProtocolEchoesVersion(major: string, minor: string)
    requires major != "" && AllDigits(major) && minor != "" && AllDigits(minor)
    ensures Protocol(Value(major), Value(minor)) == "HTTP/" + major + "." + minor
       <==> Canonical(major) && Canonical(minor)
  {
    var a, b := Print(Value(major)), Print(Value(minor));
    PrintedBackIffCanonical(major);
    PrintedBackIffCanonical(minor);
    assert "HTTP/" + a + "." + b == "HTTP/" + (a + "." + b);
    assert "HTTP/" + major + "." + minor == "HTTP/" + (major + "." + minor);
    if "HTTP/" + (a + "." + b) == "HTTP/" + (major + "." + minor) {
      AfterSlash(a + "." + b, major + "." + minor);
      SplitAtDot(a, b, major, minor);
    }
  }

  lemma {:induction false} AfterSlash(s: string, t: string)
    requires "HTTP/" + s == "HTTP/" + t
    ensures s == t
  {
    assert ("HTTP/" + s)[5..] == s && ("HTTP/" + t)[5..] == t;
  }

  lemma {:induction false} SplitAtDot(a: string, b: string, c: string, d: string)
    requires AllDigits(a) && AllDigits(c) && a + "." + b == c + "." + d
    ensures a == c && b == d
  {
    var s := a + "." + b;
    assert s == c + "." + d;
    assert s[|a|] == '.' && s[|c|] == '.';
    assert forall i :: 0 <= i < |a| ==> IsDigit(s[i]);
    assert forall i :: 0 <= i < |c| ==> IsDigit(s[i]);
    assert a == s[..|a|] && c == s[..|c|];
    assert b == s[|a| + 1..] && d == s[|c| + 1..];
  }
}
