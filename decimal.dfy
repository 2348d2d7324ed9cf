/**
 * Decimal rendering of integers, as Kotlin's string templates do it, and the
 * `host:port` endpoints built from it. Parsing is the partner of rendering:
 * every rendered endpoint splits back into its host and port.
 */
module Decimal {
  import opened Wrappers

  predicate IsDigit(c: char) { '0' <= c <= '9' }

  predicate AllDigits(s: string) { forall i :: 0 <= i < |s| ==> IsDigit(s[i]) }

  function DigitChar(d: nat): (c: char)
    requires d < 10
    ensures IsDigit(c) && c as int - '0' as int == d
  {
    ('0' as int + d) as char
  }

  /** The decimal digits of `n`, most significant first, without leading zeros. */
  function NatToString(n: nat): (s: string)
    ensures |s| >= 1 && AllDigits(s)
    ensures n >= 10 ==> s[0] != '0'
  {
    if n < 10 then [DigitChar(n)] else NatToString(n / 10) + [DigitChar(n % 10)]
  }

  /** `Int.toString()`: a minus sign before the digits of a negative number. */
  function IntToString(i: int): (s: string)
    ensures |s| >= 1 && ':' !in s
    ensures i >= 0 <==> IsDigit(s[0])
  {
    if i < 0 then "-" + NatToString(-i) else NatToString(i)
  }

  /** The value of a string of digits. */
  function DigitsValue(s: string): nat
    requires AllDigits(s)
  {
    if s == [] then 0 else DigitsValue(s[..|s| - 1]) * 10 + (s[|s| - 1] as int - '0' as int)
  }

  function ParseNat(s: string): (r: Option<nat>)
    ensures r.Some? <==> |s| >= 1 && AllDigits(s)
  {
    if |s| >= 1 && AllDigits(s) then Some(DigitsValue(s)) else None
  }

  function ParseInt(s: string): Option<int>
  {
    if |s| >= 1 && s[0] == '-' then
      match ParseNat(s[1..])
      case Some(n) => Some(-(n as int))
      case None => None
    else
      match ParseNat(s)
      case Some(n) => Some(n)
      case None => None
  }

  lemma {:induction false} DigitsValueOfNatToString(n: nat)
    ensures DigitsValue(NatToString(n)) == n
  {
    if n >= 10 {
      var s := NatToString(n);
      assert s[..|s| - 1] == NatToString(n / 10);
      DigitsValueOfNatToString(n / 10);
    }
  }

  /** Rendering an integer and parsing it back gives the integer. */
  lemma IntToStringRoundTrip(i: int)
    ensures ParseInt(IntToString(i)) == Some(i)
  {
    var s := IntToString(i);
    if i < 0 {
      var digits := NatToString(-i);
      assert s[0] == '-' && s[1..] == digits;
      assert ParseNat(digits) == Some(-i) by {
        DigitsValueOfNatToString(-i);
      }
    } else {
      assert s == NatToString(i) && s[0] != '-';
      assert ParseNat(s) == Some(i) by {
        DigitsValueOfNatToString(i);
      }
    }
  }

  /** The position of the last ':' in `s`, if any. */
  function LastColon(s: string): (r: Option<nat>)
    ensures r.None? ==> ':' !in s
    ensures r.Some? ==> r.value < |s| && s[r.value] == ':' && ':' !in s[r.value + 1..]
  {
    if s == [] then None
    else if s[|s| - 1] == ':' then Some(|s| - 1)
    else
      var r := LastColon(s[..|s| - 1]);
      assert r.Some? ==> s[r.value + 1..] == s[..|s| - 1][r.value + 1..] + [s[|s| - 1]];
      r
  }

  /** `host + ":" + port`, the endpoint format the engine's `domainName` and the DNS setting use. */
  function Endpoint(host: string, port: int): string
  {
    host + ":" + IntToString(port)
  }

  /** Splits an endpoint at its last ':' and parses the port. */
  function ParseEndpoint(s: string): Option<(string, int)>
  {
    match LastColon(s)
    case None => None
    case Some(k) =>
      match ParseInt(s[k + 1..])
      case None => None
      case Some(port) => Some((s[..k], port))
  }

  /** Any endpoint, even one whose host is an IPv6 literal full of ':', splits back into its parts. */
  lemma EndpointRoundTrip(host: string, port: int)
    ensures ParseEndpoint(Endpoint(host, port)) == Some((host, port))
  {
    var p := IntToString(port);
    var s := Endpoint(host, port);
    var k := LastColon(s);
    assert s[|host|] == ':';
    assert k == Some(|host|);
    assert s[..|host|] == host;
    assert s[|host| + 1..] == p;
    IntToStringRoundTrip(port);
  }
}
