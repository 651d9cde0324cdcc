/** The SOCKS 4 CONNECT request: written by the console, read by the proxy. */
module Socks {
  import opened Sequences
  import opened Decimal

  /** An address as the four numbers of its dotted form. */
  predicate IsAddress(ip: seq<int>) { |ip| == 4 && AllBytes(ip) }

  predicate AllBytes(s: seq<int>) { forall i :: 0 <= i < |s| ==> 0 <= s[i] < 256 }

  predicate IsPort(p: nat) { p < 65536 }

  function Dotted(ip: seq<int>): string
    requires IsAddress(ip)
  {
    Print(ip[0]) + "." + Print(ip[1]) + "." + Print(ip[2]) + "." + Print(ip[3])
  }

  predicate IsMessage(m: seq<int>) { |m| == 8 && AllBytes(m) }

  // ---------- the console ----------

  /** The text up to the first dot; all of it if there is none. */
  function First(s: string): string { s[..IndexOf(s, '.')] }

  /** What follows the first dot; all of the text if there is none, as `find` returning npos makes the
      loop do. */
  function Rest(s: string): string {
    var k := IndexOf(s, '.');
    if k < |s| then s[k + 1..] else s
  }

  function RestAfter(s: string, i: nat): string {
    if i == 0 then s else Rest(RestAfter(s, i - 1))
  }

  function Byte(t: string): int { Atoi(t) % 256 }

  function NumberAt(host: string, i: nat): int { Byte(First(RestAfter(host + ".", i))) }

  /** The first four numbers of an address, read as the loop reads them. */
  function AddressIn(host: string): (ip: seq<int>)
    ensures |ip| == 4
  {
    [NumberAt(host, 0), NumberAt(host, 1), NumberAt(host, 2), NumberAt(host, 3)]
  }

  /** The console's loop: the address is eaten from the front. */
  method ReadAddress(host: string, ip: array<int>)
    requires ip.Length == 4
    modifies ip
    ensures forall j :: 0 <= j < 4 ==> ip[j] == NumberAt(host, j)
  {
    var rest := host + ".";
    var i := 0;
    while i < 4
      invariant 0 <= i <= 4 && rest == RestAfter(host + ".", i)
      invariant forall j :: 0 <= j < i ==> ip[j] == NumberAt(host, j)
    {
      var k := FindDot(rest);
      NextNumber(host, rest, i, k);
      ip[i] := Byte(rest[..k]);
      if k < |rest| { rest := rest[k + 1..]; }
      i := i + 1;
    }
  }

  lemma {:induction false} NextNumber(host: string, rest: string, i: nat, k: nat)
    requires rest == RestAfter(host + ".", i) && k == IndexOf(rest, '.')
    ensures Byte(rest[..k]) == NumberAt(host, i)
    ensures RestAfter(host + ".", i + 1) == if k < |rest| then rest[k + 1..] else rest
  {
  }

  method HandleConnect(host: string, port: nat) returns (message: seq<int>)
    ensures message == Request(AddressIn(host), port)
  {
    var ip := new int[4](_ => 0);
    ReadAddress(host, ip);
    message := [0x04, 0x01, port / 256, port % 256, ip[0], ip[1], ip[2], ip[3]];
  }

  method FindDot(s: string) returns (k: nat)
    ensures k == IndexOf(s, '.')
  {
    k := 0;
    while k < |s| && s[k] != '.'
      invariant k <= |s| && '.' !in s[..k]
    {
      k := k + 1;
    }
    IndexIs(s, '.', k);
  }

  /** The request for an address and a port. */
  function Request(ip: seq<int>, port: nat): seq<int>
    requires |ip| == 4
  {
    [0x04, 0x01, port / 256, port % 256, ip[0], ip[1], ip[2], ip[3]]
  }

  // ---------- the proxy ----------

  function Destination(m: seq<int>): (ip: seq<int>)
    requires IsMessage(m)
    ensures IsAddress(ip)
  {
    [m[4], m[5], m[6], m[7]]
  }

  /** What the proxy prints from a request: the destination's address and port. */
  function HostOf(m: seq<int>): string
    requires IsMessage(m)
  {
    Dotted(Destination(m))
  }

  function PortOf(m: seq<int>): string
    requires IsMessage(m)
  {
    Print(m[2] * 256 + m[3])
  }

  // ---------- round trip ----------

  /** A number in network order, its highest byte first. */
  function BigEndian(m: seq<int>): int {
    if m == [] then 0 else 256 * BigEndian(m[..|m| - 1]) + m[|m| - 1]
  }

  lemma {:induction false} TwoBytes(a: int, b: int)
    ensures BigEndian([a, b]) == 256 * a + b
  {
    assert BigEndian([]) == 0;
    assert [a][..0] == [] && BigEndian([a]) == a;
    assert [a, b][..1] == [a];
  }

  lemma {:induction false} LayoutOf(ip: seq<int>, port: nat)
    requires |ip| == 4
    ensures var m := Request(ip, port); BigEndian(m[2..4]) == port && m[4..] == ip
  {
    var m := Request(ip, port);
    TwoBytes(port / 256, port % 256);
    assert m[2..4] == [port / 256, port % 256];
  }

  /** The request as it is sent: version 4, command 1, the port in network order, and the numbers of
      the address in the order in which they are written. */
  lemma {:induction false} RequestLayout(ip: seq<int>, port: nat)
    requires IsAddress(ip) && IsPort(port)
    ensures var m := Request(AddressIn(Dotted(ip)), port);
            |m| == 8 && m[0] == 4 && m[1] == 1 && BigEndian(m[2..4]) == port && m[4..] == ip
  {
    AddressOfDotted(ip);
    LayoutOf(ip, port);
  }

  /** Each number with a dot after it. */
  function Dots(ip: seq<int>): string
    requires AllBytes(ip)
  {
    if ip == [] then "" else Print(ip[0]) + ("." + Dots(ip[1..]))
  }

  lemma {:induction false} OneNumber(n: nat, rest: string)
    ensures var s := Print(n) + ("." + rest); First(s) == Print(n) && Rest(s) == rest
  {
    var s := Print(n) + ("." + rest);
    PrintThenRead(n);
    assert s[..|Print(n)|] == Print(n);
    IndexIs(s, '.', |Print(n)|);
    assert s[|Print(n)| + 1..] == rest;
  }

  lemma {:induction false} RestOfDots(ip: seq<int>, i: nat)
    requires AllBytes(ip) && i <= |ip|
    ensures RestAfter(Dots(ip), i) == Dots(ip[i..])
  {
    if i > 0 {
      RestOfDots(ip, i - 1);
      OneNumber(ip[i - 1], Dots(ip[i..]));
      assert ip[i - 1..][1..] == ip[i..];
    } else {
      assert ip[i..] == ip;
    }
  }

  lemma {:induction false} DotsFrom(ip: seq<int>, i: nat)
    requires AllBytes(ip) && i < |ip|
    ensures AllBytes(ip[i..]) && AllBytes(ip[i + 1..]) && Dots(ip[i..]) == Print(ip[i]) + ("." + Dots(ip[i + 1..]))
  {
    assert ip[i..][1..] == ip[i + 1..];
  }

  lemma {:induction false} NumberOfDots(ip: seq<int>, i: nat)
    requires AllBytes(ip) && i < |ip|
    ensures Byte(First(RestAfter(Dots(ip), i))) == ip[i]
  {
    RestOfDots(ip, i);
    DotsFrom(ip, i);
    OneNumber(ip[i], Dots(ip[i + 1..]));
    AtoiOfPrint(ip[i]);
  }

  lemma {:induction false} DottedIsDots(ip: seq<int>)
    requires IsAddress(ip)
    ensures Dotted(ip) + "." == Dots(ip)
  {
    var a, b, c, d := Print(ip[0]), Print(ip[1]), Print(ip[2]), Print(ip[3]);
    assert Dots(ip[3..]) == d + ("." + "") by { assert ip[3..][1..] == []; }
    assert Dots(ip[2..]) == c + ("." + Dots(ip[3..])) by { assert ip[2..][1..] == ip[3..]; }
    assert Dots(ip[1..]) == b + ("." + Dots(ip[2..])) by { assert ip[1..][1..] == ip[2..]; }
    FourParts(a, b, c, d);
  }

  lemma {:induction false} FourParts(a: string, b: string, c: string, d: string)
    ensures a + "." + b + "." + c + "." + d + "." == a + ("." + (b + ("." + (c + ("." + (d + ("." + "")))))))
  {
  }

  /** The loop finds the four numbers again. */
  lemma {:induction false} AddressOfDotted(ip: seq<int>)
    requires IsAddress(ip)
    ensures AddressIn(Dotted(ip)) == ip
  {
    DottedIsDots(ip);
    forall i | 0 <= i < 4 ensures NumberAt(Dotted(ip), i) == ip[i] { NumberOfDots(ip, i); }
  }

  lemma {:induction false} PortUnderstood(port: nat)
    requires IsPort(port)
    ensures port / 256 < 256 && port / 256 * 256 + port % 256 == port && Atoi(Print(port)) == port
  {
    AtoiOfPrint(port);
  }

  lemma {:induction false} RequestIsMessage(ip: seq<int>, port: nat)
    requires IsAddress(ip) && IsPort(port)
    ensures var m := Request(ip, port);
            IsMessage(m) && Destination(m) == ip && m[2] * 256 + m[3] == port
  {
    PortUnderstood(port);
  }

  /** What the console asks for is what the proxy understands, for every address and port. */
  lemma {:induction false} RequestUnderstood(ip: seq<int>, port: nat)
    requires IsAddress(ip) && IsPort(port)
    ensures var m := Request(AddressIn(Dotted(ip)), port);
            IsMessage(m) && HostOf(m) == Dotted(ip) && PortOf(m) == Print(port) && Atoi(PortOf(m)) == port
  {
    AddressOfDotted(ip);
    RequestIsMessage(ip, port);
    PortUnderstood(port);
  }

  lemma {:induction false} MessageIsRequest(m: seq<int>)
    requires IsMessage(m) && m[0] == 0x04 && m[1] == 0x01
    ensures IsPort(m[2] * 256 + m[3]) && Request(Destination(m), m[2] * 256 + m[3]) == m
  {
    assert (m[2] * 256 + m[3]) / 256 == m[2];
  }

  /** And every CONNECT request is the one the console would write for what the proxy makes of it. */
  lemma {:induction false} UnderstoodIsRequest(m: seq<int>)
    requires IsMessage(m) && m[0] == 0x04 && m[1] == 0x01
    ensures Request(AddressIn(HostOf(m)), m[2] * 256 + m[3]) == m
  {
    AddressOfDotted(Destination(m));
    MessageIsRequest(m);
  }
}
