/** The HTML escaping that the console applies to each chunk of a server's output. */
module Escape {
  import opened Sequences

  function Entity(c: char): string {
    if c == '&' then "&amp;"
    else if c == '\"' then "&quot;"
    else if c == '\'' then "&apos;"
    else if c == '<' then "&lt;"
    else if c == '>' then "&gt;"
    else if c == '\n' then "&NewLine;"
    else if c == '\r' then ""
    else [c]
  }

  function Encode(s: string): string {
    if s == "" then "" else Encode(s[..|s| - 1]) + Entity(s[|s| - 1])
  }

  /** The escaping loop, character by character. */
  method EncodeLoop(data: string) returns (buffer: string)
    ensures buffer == Encode(data)
  {
    buffer := "";
    var pos := 0;
    while pos != |data|
      invariant 0 <= pos <= |data| && buffer == Encode(data[..pos])
    {
      assert data[..pos + 1][..pos] == data[..pos];
      match data[pos] {
        case '&' => buffer := buffer + "&amp;";
        case '\"' => buffer := buffer + "&quot;";
        case '\'' => buffer := buffer + "&apos;";
        case '<' => buffer := buffer + "&lt;";
        case '>' => buffer := buffer + "&gt;";
        case '\n' => buffer := buffer + "&NewLine;";
        case '\r' => buffer := buffer + "";
        case c => buffer := buffer + [c];
      }
      pos := pos + 1;
    }
    assert data[..pos] == data;
  }

  /** Escaping chunk by chunk is escaping the whole. */
  lemma {:induction false} EncodeConcat(a: string, b: string)
    ensures Encode(a + b) == Encode(a) + Encode(b)
  {
    if b == "" {
      assert a + b == a;
    } else {
      var n := |b| - 1;
      EncodeConcat(a, b[..n]);
      EncodePush(a + b[..n], b[n]);
      EncodePush(b[..n], b[n]);
      Snoc(a, b);
      Regroup(Encode(a), Encode(b[..n]), Entity(b[n]));
    }
  }

  lemma {:induction false} Snoc(a: string, b: string)
    requires b != ""
    ensures var n := |b| - 1;
            a + b == (a + b[..n]) + [b[n]] && b == b[..n] + [b[n]]
  {
  }

  lemma {:induction false} EncodePush(s: string, c: char)
    ensures Encode(s + [c]) == Encode(s) + Entity(c)
  {
    assert (s + [c])[..|s|] == s;
  }

  function Flat(chunks: seq<string>): string {
    if chunks == [] then "" else Flat(chunks[..|chunks| - 1]) + chunks[|chunks| - 1]
  }

  function EncodeEach(chunks: seq<string>): seq<string> {
    seq(|chunks|, i requires 0 <= i < |chunks| => Encode(chunks[i]))
  }

  /** However the output is cut into chunks, the page shows the same. */
  lemma {:induction false} ChunksDoNotMatter(chunks: seq<string>)
    ensures Flat(EncodeEach(chunks)) == Encode(Flat(chunks))
  {
    if chunks != [] {
      var n := |chunks| - 1;
      ChunksDoNotMatter(chunks[..n]);
      assert EncodeEach(chunks)[..n] == EncodeEach(chunks[..n]);
      EncodeConcat(Flat(chunks[..n]), chunks[n]);
    }
  }

  // ---------- what a browser makes of it ----------

  /** The character whose entity the text begins with. */
  function Named(s: string): Option<char> {
    if "&amp;" <= s then Some('&')
    else if "&quot;" <= s then Some('\"')
    else if "&apos;" <= s then Some('\'')
    else if "&lt;" <= s then Some('<')
    else if "&gt;" <= s then Some('>')
    else if "&NewLine;" <= s then Some('\n')
    else None
  }

  function Decode(s: string): string
    decreases |s|
  {
    if s == "" then ""
    else if Named(s).Some? then [Named(s).value] + Decode(s[|Entity(Named(s).value)|..])
    else [s[0]] + Decode(s[1..])
  }

  lemma {:induction false} NamedEntity(c: char, rest: string)
    requires c != '\r'
    ensures Named(Entity(c) + rest) == if |Entity(c)| > 1 then Some(c) else None
  {
    var s := Entity(c) + rest;
    assert s[0] == Entity(c)[0];
    if |Entity(c)| > 1 {
      assert s[1] == Entity(c)[1];
      assert s[2] == Entity(c)[2];
      assert Entity(c) <= s;
    }
  }

  lemma {:induction false} DecodeNamed(c: char, rest: string)
    requires c != '\r' && |Entity(c)| > 1
    ensures Decode(Entity(c) + rest) == [c] + Decode(rest)
  {
    NamedEntity(c, rest);
    assert (Entity(c) + rest)[|Entity(c)|..] == rest;
  }

  lemma {:induction false} DecodeEntity(c: char, rest: string)
    ensures Decode(Entity(c) + rest) == (if c == '\r' then "" else [c]) + Decode(rest)
  {
    if c == '\r' {
      assert Entity(c) + rest == rest;
    } else if |Entity(c)| > 1 {
      DecodeNamed(c, rest);
    } else {
      NamedEntity(c, rest);
      assert ([c] + rest)[1..] == rest;
    }
  }

  const NOT_RETURN: char -> bool := (c: char) => c != '\r'

  lemma {:induction false} DecodePart(s: string, rest: string)
    ensures Decode(Encode(s) + rest) == Filter(NOT_RETURN, s) + Decode(rest)
  {
    if s == "" {
      assert Encode(s) + rest == rest;
    } else {
      var n := |s| - 1;
      Regroup(Encode(s[..n]), Entity(s[n]), rest);
      DecodePart(s[..n], Entity(s[n]) + rest);
      DecodeEntity(s[n], rest);
    }
  }

  /** The page shows the text without its carriage returns. */
  lemma {:induction false} DecodeOfEncode(s: string)
    ensures Decode(Encode(s)) == Filter(NOT_RETURN, s)
  {
    DecodePart(s, "");
    assert Encode(s) + "" == Encode(s);
  }

  /** Two texts look alike on the page exactly when they differ in carriage returns only. */
  lemma {:induction false} EncodedAlikeIff(s: string, t: string)
    ensures Encode(s) == Encode(t) <==> Filter(NOT_RETURN, s) == Filter(NOT_RETURN, t)
  {
    DecodeOfEncode(s);
    DecodeOfEncode(t);
    EncodeIgnoresReturns(s);
    EncodeIgnoresReturns(t);
  }

  lemma {:induction false} EncodeIgnoresReturns(s: string)
    ensures Encode(s) == Encode(Filter(NOT_RETURN, s))
  {
    if s != "" {
      var n := |s| - 1;
      EncodeIgnoresReturns(s[..n]);
      var kept := Filter(NOT_RETURN, s[..n]);
      if NOT_RETURN(s[n]) { assert (kept + [s[n]])[..|kept|] == kept; }
    }
  }

  /** The output can stand between quotes in a script: no bracket, quote or line end is left. */
  lemma {:induction false} EncodedIsInert(s: string)
    ensures forall c :: c in Encode(s) ==> c !in "\"'<>\n\r"
  {
    if s != "" {
      var n := |s| - 1;
      EncodedIsInert(s[..n]);
      EntityIsInert(s[n]);
    }
  }

  lemma {:induction false} EntityIsInert(c: char)
    ensures forall x :: x in Entity(c) ==> x !in "\"'<>\n\r"
  {
  }
}
