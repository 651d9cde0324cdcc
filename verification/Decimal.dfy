/** Decimal numerals: printing, reading digit by digit, and the C library's `atoi`. */
module Decimal {

  predicate IsDigit(c: char) { '0' <= c <= '9' }

  predicate AllDigits(s: string) { forall i :: 0 <= i < |s| ==> IsDigit(s[i]) }

  function DigitValue(c: char): nat
    requires IsDigit(c)
  {
    (c - '0') as nat
  }

  /** Reads digits from the left, ten times the value so far plus the next digit. */
  function Value(s: string): nat
    requires AllDigits(s)
  {
    if s == "" then 0 else 10 * Value(s[..|s| - 1]) + DigitValue(s[|s| - 1])
  }

  function Digit(n: nat): (c: char)
    requires n < 10
    ensures IsDigit(c) && DigitValue(c) == n
  {
    '0' + n as char
  }

  /** The decimal numeral of `n`, as `%d` and `std::to_string` print it. */
  function Print(n: nat): (s: string)
    ensures s != "" && AllDigits(s)
  {
    if n < 10 then [Digit(n)] else Print(n / 10) + [Digit(n % 10)]
  }

  predicate Canonical(s: string) {
    s != "" && AllDigits(s) && (s[0] == '0' ==> |s| == 1)
  }

  lemma {:induction false} OneDigit(s: string)
    requires AllDigits(s)
    ensures |s| == 1 ==> Value(s) == DigitValue(s[0])
  {
    if |s| == 1 { assert s[..0] == ""; }
  }

  lemma {:induction false} PrintThenRead(n: nat)
    ensures Value(Print(n)) == n && Canonical(Print(n))
  {
    if n >= 10 {
      PrintThenRead(n / 10);
      assert Print(n)[..|Print(n)| - 1] == Print(n / 10);
      OneDigit(Print(n / 10));
    }
  }

  lemma {:induction false} ReadThenPrint(s: string)
    requires Canonical(s)
    ensures Print(Value(s)) == s
    ensures |s| > 1 ==> Value(s) >= 10
  {
    var n := |s| - 1;
    if n > 0 {
      ReadThenPrint(s[..n]);
      OneDigit(s[..n]);
      assert Value(s) / 10 == Value(s[..n]) && Value(s) % 10 == DigitValue(s[n]);
      assert s == s[..n] + [s[n]];
    } else {
      OneDigit(s);
    }
  }

  /** A numeral is printed back unchanged exactly when it has no leading zero. */
  lemma {:induction false} PrintedBackIffCanonical(s: string)
    requires s != "" && AllDigits(s)
    ensures Print(Value(s)) == s <==> Canonical(s)
  {
    PrintThenRead(Value(s));
    if Canonical(s) { ReadThenPrint(s); }
  }

  lemma {:induction false} PrintInjective(m: nat, n: nat)
    requires Print(m) == Print(n)
    ensures m == n
  {
    PrintThenRead(m);
    PrintThenRead(n);
  }

  // ---------- what the digits and blanks are ----------

  lemma {:induction false} DigitIs(n: nat)
    requires n < 10
    ensures Digit(n) == "0123456789"[n] && DigitValue("0123456789"[n]) == n
  {
  }

  lemma {:induction false} CharCodes(c: char)
    ensures IsDigit(c) <==> c in "0123456789"
    ensures IsSpace(c) <==> c as int == 32 || 9 <= c as int <= 13
  {
  }

  lemma {:induction false} TimesTen(v: nat, p: nat, x: nat)
    ensures 10 * (v * p + x) == v * (10 * p) + 10 * x
  {
  }

  /** The digits on the left count for as many powers of ten as there are digits on their right. */
  lemma {:induction false} ValueOfParts(a: string, b: string)
    requires AllDigits(a) && AllDigits(b)
    ensures Value(a + b) == Value(a) * Power10(|b|) + Value(b)
  {
    if b == "" {
      assert a + b == a;
    } else {
      var n := |b| - 1;
      ValueOfParts(a, b[..n]);
      TimesTen(Value(a), Power10(n), Value(b[..n]));
      assert (a + b)[..|a| + n] == a + b[..n] && (a + b)[|a| + n] == b[n];
    }
  }

  /** Numerals grow with the number they print. */
  lemma {:induction false} PrintLength(n: nat, digits: nat)
    requires digits > 0 && n < Power10(digits)
    ensures |Print(n)| <= digits
  {
    if n >= 10 { PrintLength(n / 10, digits - 1); }
  }

  function Power10(k: nat): nat {
    if k == 0 then 1 else 10 * Power10(k - 1)
  }

  predicate IsSpace(c: char) {
    c == ' ' || c == '\t' || c == '\n' || c == '\r' || c == 11 as char || c == 12 as char
  }

  /** The longest prefix of digits. */
  function DigitRun(s: string): (r: string)
    ensures AllDigits(r) && r <= s
    ensures |r| < |s| ==> !IsDigit(s[|r|])
  {
    if s == "" || !IsDigit(s[0]) then "" else [s[0]] + DigitRun(s[1..])
  }

  /** `atoi`: skips white space, takes a sign and as many digits as there are. */
  function Atoi(s: string): int {
    if s == "" then 0
    else if IsSpace(s[0]) then Atoi(s[1..])
    else if s[0] == '-' then 0 - Value(DigitRun(s[1..]))
    else if s[0] == '+' then Value(DigitRun(s[1..]))
    else Value(DigitRun(s))
  }

  lemma {:induction false} DigitRunOfDigits(s: string)
    requires AllDigits(s)
    ensures DigitRun(s) == s
  {
    if s != "" { DigitRunOfDigits(s[1..]); }
  }

  /** `atoi` gives the value of every numeral, leading zeros or not. */
  lemma {:induction false} AtoiOfDigits(s: string)
    requires s != "" && AllDigits(s)
    ensures Atoi(s) == Value(s)
  {
    DigitRunOfDigits(s);
  }

  /** `atoi` recovers every printed number. */
  lemma {:induction false} AtoiOfPrint(n: nat)
    ensures Atoi(Print(n)) == n
  {
    PrintThenRead(n);
    AtoiOfDigits(Print(n));
  }
}
