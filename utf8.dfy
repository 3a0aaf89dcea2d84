/** Python's `str.encode("utf-8")` and the strict `bytes.decode()`: each character is written as
    one to four octets, and decoding refuses overlong forms, surrogates, code points above
    U+10FFFF and broken continuation octets. */
module Utf8 {
  import opened Wrappers
  import opened Bytes

  const DecodeError: string := "UnicodeDecodeError: invalid utf-8"

  /** A continuation octet `10xxxxxx`. */
  predicate IsContinuation(b: Byte) {
    0x80 <= b < 0xC0
  }

  /** The octets of one character: its code point split into a lead octet and six-bit
      continuation octets. */
  function EncodeChar(c: char): (r: seq<Byte>)
    ensures 1 <= |r| <= 4
    ensures |r| == 1 <==> (c as int) < 0x80
    ensures forall k :: 1 <= k < |r| ==> IsContinuation(r[k])
  {
    var n := c as int;
    if n < 0x80 then [n]
    else if n < 0x800 then [0xC0 + n / 64, 0x80 + n % 64]
    else if n < 0x10000 then [0xE0 + n / 4096, 0x80 + (n / 64) % 64, 0x80 + n % 64]
    else [0xF0 + n / 262144, 0x80 + (n / 4096) % 64, 0x80 + (n / 64) % 64, 0x80 + n % 64]
  }

  /** `s.encode("utf-8")`. */
  function Encode(s: string): (r: seq<Byte>)
    ensures |r| >= |s|
  {
    if s == [] then [] else EncodeChar(s[0]) + Encode(s[1..])
  }

  /** The first character of `b` and the number of octets it takes, when they form a valid
      UTF-8 sequence. */
  function DecodeChar(b: seq<Byte>): (r: Option<(char, nat)>)
    requires |b| > 0
    ensures r.Some? ==> 1 <= r.value.1 <= |b|
  {
    var b0: int := b[0];
    if b0 < 0x80 then Some((b0 as char, 1))
    else if 0xC2 <= b0 < 0xE0 then
      if |b| >= 2 && IsContinuation(b[1]) then Some((((b0 - 0xC0) * 64 + (b[1] as int - 0x80)) as char, 2))
      else None
    else if 0xE0 <= b0 < 0xF0 then
      if |b| >= 3 && IsContinuation(b[1]) && IsContinuation(b[2]) then
        var n: int := (b0 - 0xE0) * 4096 + (b[1] as int - 0x80) * 64 + (b[2] as int - 0x80);
        if n < 0x800 || 0xD800 <= n < 0xE000 then None else Some((n as char, 3))
      else None
    else if 0xF0 <= b0 < 0xF5 then
      if |b| >= 4 && IsContinuation(b[1]) && IsContinuation(b[2]) && IsContinuation(b[3]) then
        var n: int := (b0 - 0xF0) * 262144 + (b[1] as int - 0x80) * 4096 + (b[2] as int - 0x80) * 64 + (b[3] as int - 0x80);
        if n < 0x10000 || n > 0x10FFFF then None else Some((n as char, 4))
      else None
    else None
  }

  /** `b.decode()`: the characters in order, or the error for the first invalid sequence. */
  function Decode(b: seq<Byte>): Result<string>
    decreases |b|
  {
    if b == [] then Success("")
    else
      match DecodeChar(b)
      case None => Failure(DecodeError)
      case Some((c, k)) =>
        match Decode(b[k..])
        case Failure(e) => Failure(e)
        case Success(rest) => Success([c] + rest)
  }

  /** The octets of one character decode back to it, whatever follows them. */
  lemma DecodeEncodedChar(c: char, rest: seq<Byte>)
    ensures DecodeChar(EncodeChar(c) + rest) == Some((c, |EncodeChar(c)|))
  {
    var n := c as int;
    if n < 0x80 {
    } else if n < 0x800 {
      DecodeTwo(n, rest);
    } else if n < 0x10000 {
      DecodeThree(n, rest);
    } else {
      DecodeFour(n, rest);
    }
  }

  lemma DecodeTwo(n: int, rest: seq<Byte>)
    requires 0x80 <= n < 0x800
    ensures DecodeChar([0xC0 + n / 64, 0x80 + n % 64] + rest) == Some((n as char, 2))
  {
    var b := [0xC0 + n / 64, 0x80 + n % 64] + rest;
    assert b[0] as int == 0xC0 + n / 64 && b[1] as int == 0x80 + n % 64;
    assert (n / 64) * 64 + n % 64 == n;
  }

  lemma DecodeThree(n: int, rest: seq<Byte>)
    requires 0x800 <= n < 0x10000 && (n < 0xD800 || 0xE000 <= n)
    ensures DecodeChar([0xE0 + n / 4096, 0x80 + (n / 64) % 64, 0x80 + n % 64] + rest) == Some((n as char, 3))
  {
    var b := [0xE0 + n / 4096, 0x80 + (n / 64) % 64, 0x80 + n % 64] + rest;
    assert b[0] as int == 0xE0 + n / 4096 && b[1] as int == 0x80 + (n / 64) % 64 && b[2] as int == 0x80 + n % 64;
    var hi, lo := n / 64, n % 64;
    assert n == hi * 64 + lo;
    assert hi == (hi / 64) * 64 + hi % 64;
    assert hi / 64 == n / 4096;
  }

  lemma DecodeFour(n: int, rest: seq<Byte>)
    requires 0x10000 <= n <= 0x10FFFF
    ensures DecodeChar([0xF0 + n / 262144, 0x80 + (n / 4096) % 64, 0x80 + (n / 64) % 64, 0x80 + n % 64] + rest)
      == Some((n as char, 4))
  {
    var b := [0xF0 + n / 262144, 0x80 + (n / 4096) % 64, 0x80 + (n / 64) % 64, 0x80 + n % 64] + rest;
    assert b[0] as int == 0xF0 + n / 262144 && b[1] as int == 0x80 + (n / 4096) % 64;
    assert b[2] as int == 0x80 + (n / 64) % 64 && b[3] as int == 0x80 + n % 64;
    var q1, q2 := n / 64, n / 4096;
    assert n == q1 * 64 + n % 64;
    assert q1 == (q1 / 64) * 64 + q1 % 64 && q1 / 64 == q2;
    assert q2 == (q2 / 64) * 64 + q2 % 64 && q2 / 64 == n / 262144;
  }

  /** Decoding what was encoded gives the string back. */
  lemma {:induction false} DecodeEncode(s: string)
    ensures Decode(Encode(s)) == Success(s)
  {
    if s != [] {
      var head := EncodeChar(s[0]);
      DecodeEncodedChar(s[0], Encode(s[1..]));
      assert Encode(s) == head + Encode(s[1..]);
      assert Encode(s)[|head|..] == Encode(s[1..]);
      DecodeEncode(s[1..]);
      assert s == [s[0]] + s[1..];
    }
  }

  /** A string of ASCII characters is encoded one octet per character. */
  lemma {:induction false} EncodeAscii(s: string)
    requires forall k :: 0 <= k < |s| ==> (s[k] as int) < 0x80
    ensures |Encode(s)| == |s| && forall k :: 0 <= k < |s| ==> Encode(s)[k] == s[k] as int
  {
    if s != [] {
      EncodeAscii(s[1..]);
    }
  }
}
