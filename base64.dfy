/** Python's `base64.b64encode` and `base64.b64decode`: the base 64 encoding of section 4 of
    RFC 4648, three octets to four symbols of its alphabet, with `=` padding the last group. */
module Base64 {
  import opened Wrappers
  import opened Bytes

  const Pad: char := '='
  const DecodeError: string := "binascii.Error: invalid base64 input"

  /** The symbol for a six-bit value, in the order of the alphabet: `A`-`Z`, `a`-`z`, `0`-`9`,
      `+`, `/`. */
  function Symbol(v: int): (c: char)
    requires 0 <= v < 64
    ensures Value(c) == Some(v)
  {
    if v < 26 then ('A' as int + v) as char
    else if v < 52 then ('a' as int + v - 26) as char
    else if v < 62 then ('0' as int + v - 52) as char
    else if v == 62 then '+'
    else '/'
  }

  /** The six-bit value of a symbol; `None` for any other character, padding included. */
  function Value(c: char): (r: Option<int>)
    ensures r.Some? ==> 0 <= r.value < 64
  {
    if 'A' <= c <= 'Z' then Some(c as int - 'A' as int)
    else if 'a' <= c <= 'z' then Some(c as int - 'a' as int + 26)
    else if '0' <= c <= '9' then Some(c as int - '0' as int + 52)
    else if c == '+' then Some(62)
    else if c == '/' then Some(63)
    else None
  }

  /** The values and the symbols are in one-to-one correspondence. */
  lemma SymbolOfValue(c: char)
    requires Value(c).Some?
    ensures Symbol(Value(c).value) == c
  {
  }

  /** The four symbols of a full group of three octets. */
  function EncodeGroup(b0: Byte, b1: Byte, b2: Byte): (s: string)
    ensures |s| == 4 && forall k :: 0 <= k < 4 ==> Value(s[k]).Some?
  {
    [Symbol(b0 / 4), Symbol((b0 % 4) * 16 + b1 / 16), Symbol((b1 % 16) * 4 + b2 / 64), Symbol(b2 % 64)]
  }

  /** The last, padded group of one or two octets. */
  function EncodeTail(b: seq<Byte>): (s: string)
    requires 1 <= |b| <= 2
    ensures |s| == 4 && forall k :: 0 <= k < 4 ==> Value(s[k]).Some? || s[k] == Pad
  {
    if |b| == 1 then [Symbol(b[0] / 4), Symbol((b[0] % 4) * 16), Pad, Pad]
    else [Symbol(b[0] / 4), Symbol((b[0] % 4) * 16 + b[1] / 16), Symbol((b[1] % 16) * 4), Pad]
  }

  /** `b64encode`: each group of three octets becomes four symbols; a last group of one or two
      octets becomes two or three symbols and `==` or `=`. */
  function Encode(b: seq<Byte>): (s: string)
    ensures |s| == 4 * ((|b| + 2) / 3)
    ensures forall k :: 0 <= k < |s| ==> Value(s[k]).Some? || s[k] == Pad
    decreases |b|
  {
    if |b| == 0 then ""
    else if |b| < 3 then EncodeTail(b)
    else
      var head, rest := EncodeGroup(b[0], b[1], b[2]), Encode(b[3..]);
      assert forall k :: 0 <= k < 4 + |rest| ==> (head + rest)[k] == if k < 4 then head[k] else rest[k - 4];
      head + rest
  }

  /** The octets of one group of four characters, of which the last one or two may be padding
      when the group ends the input. */
  function DecodeGroup(g: string, last: bool): (r: Option<seq<Byte>>)
    requires |g| == 4
    ensures r.Some? ==> 1 <= |r.value| <= 3 && (|r.value| < 3 ==> last)
  {
    match (Value(g[0]), Value(g[1]), Value(g[2]), Value(g[3]))
    case (Some(v0), Some(v1), Some(v2), Some(v3)) =>
      Some([v0 * 4 + v1 / 16, (v1 % 16) * 16 + v2 / 4, (v2 % 4) * 64 + v3])
    case (Some(v0), Some(v1), Some(v2), None) =>
      if last && g[3] == Pad then Some([v0 * 4 + v1 / 16, (v1 % 16) * 16 + v2 / 4]) else None
    case (Some(v0), Some(v1), None, None) =>
      if last && g[2] == Pad && g[3] == Pad then Some([v0 * 4 + v1 / 16]) else None
    case _ => None
  }

  /** `b64decode` of well-formed input: groups of four characters, padding only at the end. */
  function Decode(s: string): (r: Result<seq<Byte>>)
    ensures r.Success? ==> |s| % 4 == 0
    decreases |s|
  {
    if |s| == 0 then Success([])
    else if |s| < 4 then Failure(DecodeError)
    else
      match DecodeGroup(s[..4], |s| == 4)
      case None => Failure(DecodeError)
      case Some(group) =>
        match Decode(s[4..])
        case Failure(e) => Failure(e)
        case Success(rest) => Success(group + rest)
  }

  /** A full group of three octets survives encoding and decoding. */
  lemma DecodeFullGroup(b0: Byte, b1: Byte, b2: Byte, last: bool)
    ensures DecodeGroup(EncodeGroup(b0, b1, b2), last) == Some([b0, b1, b2])
  {
    var v1, v2 := (b0 % 4) * 16 + b1 / 16, (b1 % 16) * 4 + b2 / 64;
    assert v1 / 16 == b0 % 4 && v1 % 16 == b1 / 16;
    assert v2 / 4 == b1 % 16 && v2 % 4 == b2 / 64;
  }

  /** A last group of one or two octets survives encoding and decoding. */
  lemma DecodeTail(b: seq<Byte>)
    requires 1 <= |b| <= 2
    ensures DecodeGroup(EncodeTail(b), true) == Some(b)
  {
    if |b| == 2 {
      var v1, v2 := (b[0] % 4) * 16 + b[1] / 16, (b[1] % 16) * 4;
      assert v1 / 16 == b[0] % 4 && v1 % 16 == b[1] / 16 && v2 / 4 == b[1] % 16;
      assert b == [b[0], b[1]];
    } else {
      assert ((b[0] % 4) * 16) / 16 == b[0] % 4 && (b[0] / 4) * 4 + b[0] % 4 == b[0];
      assert b == [b[0]];
    }
  }

  /** Decoding a group followed by more input. */
  lemma DecodeCons(g: string, t: string, group: seq<Byte>)
    requires |g| == 4 && DecodeGroup(g, t == []) == Some(group)
    ensures Decode(g + t) == match Decode(t) case Failure(e) => Failure(e) case Success(r) => Success(group + r)
  {
    assert (g + t)[..4] == g && (g + t)[4..] == t;
  }

  /** Decoding what was encoded gives the octets back. */
  lemma {:induction false} DecodeEncode(b: seq<Byte>)
    ensures Decode(Encode(b)) == Success(b)
    decreases |b|
  {
    if 0 < |b| < 3 {
      DecodeTail(b);
      DecodeCons(EncodeTail(b), [], b);
      assert EncodeTail(b) + [] == EncodeTail(b) && b + [] == b;
    } else if |b| >= 3 {
      var rest := Encode(b[3..]);
      DecodeFullGroup(b[0], b[1], b[2], rest == []);
      DecodeEncode(b[3..]);
      DecodeCons(EncodeGroup(b[0], b[1], b[2]), rest, [b[0], b[1], b[2]]);
      assert b == [b[0], b[1], b[2]] + b[3..];
    }
  }
}
