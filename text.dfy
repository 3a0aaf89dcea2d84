/** The parts of Python's `str` that the bot relies on: `in`, `find`, `split`, `replace`, `strip`,
    `lower` and decimal formatting of integers. */
module Text {
  import opened Wrappers

  /** Python's `p in s`. */
  function Contains(s: string, p: string): bool
    decreases |s|
  {
    if p <= s then true
    else if s == [] then false
    else Contains(s[1..], p)
  }

  /** For a one-character pattern, `in` is sequence membership. */
  lemma {:induction false} ContainsChar(s: string, c: char)
    ensures Contains(s, [c]) <==> c in s
    decreases |s|
  {
    if s != [] {
      ContainsChar(s[1..], c);
      assert s == [s[0]] + s[1..];
    }
  }

  /** A leading character that cannot start the pattern does not change whether it occurs. */
  lemma ContainsCons(c: char, s: string, p: string)
    requires |p| > 0 && p[0] != c
    ensures Contains([c] + s, p) == Contains(s, p)
  {
    assert ([c] + s)[1..] == s;
  }

  /** Text that contains `p + q` contains `p`. */
  lemma {:induction false} ContainsLonger(s: string, p: string, q: string)
    requires Contains(s, p + q)
    ensures Contains(s, p)
    decreases |s|
  {
    if !(p + q <= s) {
      ContainsLonger(s[1..], p, q);
    } else {
      assert s[..|p|] == (p + q)[..|p|] == p;
    }
  }

  /** A string contains every pattern written into it. */
  lemma {:induction false} ContainsWithin(a: string, p: string, b: string)
    ensures Contains(a + p + b, p)
    decreases |a|
  {
    var s := a + p + b;
    if a == [] {
      assert s[..|p|] == p;
    } else if !(p <= s) {
      ContainsWithin(a[1..], p, b);
      assert s[1..] == a[1..] + p + b;
    }
  }

  /** A prefix holding no character that can start the pattern adds no occurrence. */
  lemma {:induction false} ContainsAfter(u: string, x: string, p: string)
    requires |p| > 0 && p[0] !in u
    ensures Contains(u + x, p) == Contains(x, p)
    decreases |u|
  {
    if u != [] {
      assert u == [u[0]] + u[1..];
      assert p[0] != u[0] && p[0] !in u[1..];
      ContainsAfter(u[1..], x, p);
      assert (u + x)[1..] == u[1..] + x;
      ContainsCons(u[0], u[1..] + x, p);
      assert u + x == [u[0]] + (u[1..] + x);
    } else {
      assert u + x == x;
    }
  }

  /** The index of the first `c` in `t` at or after `from`, or `|t|` when there is none. */
  function NextOf(t: string, from: nat, c: char): (k: nat)
    requires from <= |t|
    ensures from <= k <= |t| && (k < |t| ==> t[k] == c)
    ensures forall j :: from <= j < k ==> t[j] != c
    decreases |t| - from
  {
    if from == |t| || t[from] == c then from else NextOf(t, from + 1, c)
  }

  /** Python's `s.find(p)`: the first index at which `p` occurs, if any. */
  function IndexOf(s: string, p: string): (r: Option<nat>)
    ensures r.Some? ==> r.value + |p| <= |s| && s[r.value..r.value + |p|] == p
    ensures r.None? <==> !Contains(s, p)
    decreases |s|
  {
    if p <= s then Some(0)
    else if s == [] then None
    else
      match IndexOf(s[1..], p)
      case None => None
      case Some(i) =>
        assert s[i + 1..i + 1 + |p|] == s[1..][i..i + |p|];
        Some(i + 1)
  }

  /** Nothing before the first occurrence contains the pattern. */
  lemma {:induction false} IndexOfFirst(s: string, p: string)
    requires |p| > 0 && IndexOf(s, p).Some?
    ensures !Contains(s[..IndexOf(s, p).value], p)
    decreases |s|
  {
    if !(p <= s) {
      var i := IndexOf(s[1..], p).value;
      IndexOfFirst(s[1..], p);
      var t := s[1..][..i];
      assert s[..i + 1] == [s[0]] + t;
      assert s[..i + 1] <= s;
      assert (p <= [s[0]] + t) ==> p <= s;
    }
  }

  /** `p` occurs in `s` starting at index `j`. */
  predicate OccursAt(s: string, p: string, j: int) {
    0 <= j && j + |p| <= |s| && s[j..j + |p|] == p
  }

  /** An occurrence at `i` with none before it is the one `find` reports. */
  lemma {:induction false} IndexOfAt(s: string, p: string, i: nat)
    requires |p| > 0 && OccursAt(s, p, i)
    requires forall j :: 0 <= j < i ==> !OccursAt(s, p, j)
    ensures IndexOf(s, p) == Some(i)
    decreases i
  {
    if i == 0 {
      assert p <= s;
    } else {
      assert !OccursAt(s, p, 0);
      assert !(p <= s);
      forall j | 0 <= j < i - 1
        ensures !OccursAt(s[1..], p, j)
      {
        assert !OccursAt(s, p, j + 1);
        assert s[1..][j..j + |p|] == s[j + 1..j + 1 + |p|];
      }
      assert s[1..][i - 1..i - 1 + |p|] == s[i..i + |p|];
      IndexOfAt(s[1..], p, i - 1);
    }
  }

  /** A string that lacks the pattern's first character does not contain the pattern. */
  lemma {:induction false} NotContainsWithoutFirst(s: string, p: string)
    requires |p| > 0 && p[0] !in s
    ensures !Contains(s, p)
    decreases |s|
  {
    if s != [] {
      assert s[0] in s;
      NotContainsWithoutFirst(s[1..], p);
    }
  }

  /** Python's `sep.join(parts)`. */
  function Join(parts: seq<string>, sep: string): string
  {
    if |parts| == 0 then ""
    else if |parts| == 1 then parts[0]
    else parts[0] + sep + Join(parts[1..], sep)
  }

  lemma JoinCons(x: string, tail: seq<string>, sep: string)
    requires |tail| >= 1
    ensures Join([x] + tail, sep) == x + sep + Join(tail, sep)
  {
    assert ([x] + tail)[1..] == tail;
  }

  /** Python's `s.split(sep)` for a non-empty separator: the pieces between the
      non-overlapping occurrences of `sep`, scanning from the left. */
  function Split(s: string, sep: string): (parts: seq<string>)
    requires |sep| > 0
    ensures |parts| >= 1
    decreases |s|
  {
    match IndexOf(s, sep)
    case None => [s]
    case Some(i) => [s[..i]] + Split(s[i + |sep|..], sep)
  }

  /** Joining the pieces of a split with the separator gives back the string. */
  lemma {:induction false} JoinSplit(s: string, sep: string)
    requires |sep| > 0
    ensures Join(Split(s, sep), sep) == s
    decreases |s|
  {
    if IndexOf(s, sep).Some? {
      var i := IndexOf(s, sep).value;
      var rest := s[i + |sep|..];
      SplitStep(s, sep, i);
      JoinSplit(rest, sep);
      JoinCons(s[..i], Split(rest, sep), sep);
    }
  }

  lemma SplitStep(s: string, sep: string, i: nat)
    requires |sep| > 0 && IndexOf(s, sep) == Some(i)
    ensures i + |sep| <= |s|
    ensures Split(s, sep) == [s[..i]] + Split(s[i + |sep|..], sep)
    ensures s == s[..i] + sep + s[i + |sep|..]
  {
    Around(s, i, i + |sep|);
  }

  /** A string is its three slices around two cut points. */
  lemma Around(s: string, i: nat, j: nat)
    requires i <= j <= |s|
    ensures s == s[..i] + s[i..j] + s[j..]
  {
    assert s == s[..i] + s[i..];
    assert s[i..] == s[i..j] + s[j..];
  }

  /** Splitting at the only occurrence of the separator gives the two sides. */
  lemma SplitAtOnly(before: string, sep: string, after: string)
    requires |sep| > 0 && IndexOf(before + sep + after, sep) == Some(|before|) && !Contains(after, sep)
    ensures Split(before + sep + after, sep) == [before, after]
  {
    var s := before + sep + after;
    SplitStep(s, sep, |before|);
    assert s[..|before|] == before;
    assert s[|before| + |sep|..] == after;
    assert Split(after, sep) == [after];
  }

  /** No piece of a split contains the separator. */
  lemma {:induction false} SplitPiecesFree(s: string, sep: string)
    requires |sep| > 0
    ensures forall k :: 0 <= k < |Split(s, sep)| ==> !Contains(Split(s, sep)[k], sep)
    decreases |s|
  {
    match IndexOf(s, sep)
    case None =>
    case Some(i) =>
      var rest := s[i + |sep|..];
      SplitPiecesFree(rest, sep);
      IndexOfFirst(s, sep);
      var parts := Split(s, sep);
      assert parts == [s[..i]] + Split(rest, sep);
      forall k | 0 <= k < |parts|
        ensures !Contains(parts[k], sep)
      {
        if k > 0 {
          assert parts[k] == Split(rest, sep)[k - 1];
        }
      }
  }

  /** Splitting `a + [c] + b` on the one-character separator `[c]`, when neither side holds
      `c`, gives exactly the two sides. */
  lemma {:induction false} SplitOnce(a: string, c: char, b: string)
    requires c !in a && c !in b
    ensures Split(a + [c] + b, [c]) == [a, b]
  {
    var s := a + [c] + b;
    FirstOfChar(a, c, b);
    assert s[|a| + 1..] == b;
    assert s[..|a|] == a;
    ContainsChar(b, c);
  }

  lemma {:induction false} FirstOfChar(a: string, c: char, b: string)
    requires c !in a
    ensures IndexOf(a + [c] + b, [c]) == Some(|a|)
    decreases |a|
  {
    var s := a + [c] + b;
    if a == [] {
      assert s == [c] + b && [c] <= s;
    } else {
      assert s[0] == a[0] && a[0] in a;
      assert !([c] <= s);
      assert s[1..] == a[1..] + [c] + b;
      FirstOfChar(a[1..], c, b);
    }
  }

  /** Python's `s.replace(p, r)` for a non-empty pattern: every non-overlapping occurrence,
      from the left, is replaced. */
  function ReplaceAll(s: string, p: string, r: string): string
    requires |p| > 0
    decreases |s|
  {
    if |s| == 0 then ""
    else if p <= s then r + ReplaceAll(s[|p|..], p, r)
    else [s[0]] + ReplaceAll(s[1..], p, r)
  }

  /** Replacing a pattern that does not occur leaves the string as it is. */
  lemma {:induction false} ReplaceAbsent(s: string, p: string, r: string)
    requires |p| > 0 && !Contains(s, p)
    ensures ReplaceAll(s, p, r) == s
    decreases |s|
  {
    if |s| > 0 {
      ReplaceAbsent(s[1..], p, r);
    }
  }

  /** `replace(p, "")` never lengthens a string. */
  lemma {:induction false} RemoveShrinks(s: string, p: string)
    requires |p| > 0
    ensures |ReplaceAll(s, p, "")| <= |s|
    decreases |s|
  {
    if |s| > 0 {
      if p <= s {
        RemoveShrinks(s[|p|..], p);
      } else {
        RemoveShrinks(s[1..], p);
      }
    }
  }

  /** Replacing one character by another keeps the length and leaves none of the first. */
  lemma {:induction false} ReplaceCharByChar(s: string, c: char, d: char)
    requires c != d
    ensures |ReplaceAll(s, [c], [d])| == |s| && c !in ReplaceAll(s, [c], [d])
    decreases |s|
  {
    if |s| > 0 {
      ReplaceCharByChar(s[1..], c, d);
    }
  }

  /** Python's `str.isspace` for one character (the Unicode whitespace set). */
  predicate IsSpace(c: char) {
    var n := c as int;
    (9 <= n <= 13) || (28 <= n <= 32) || n == 0x85 || n == 0xA0 || n == 0x1680
    || (0x2000 <= n <= 0x200A) || n == 0x2028 || n == 0x2029 || n == 0x202F || n == 0x205F || n == 0x3000
  }

  function StripLeading(s: string): (r: string)
    ensures |r| <= |s| && r == s[|s| - |r|..]
    ensures r == [] || !IsSpace(r[0])
  {
    if s != [] && IsSpace(s[0]) then StripLeading(s[1..]) else s
  }

  /** Only whitespace is cut off the front. */
  lemma {:induction false} StripLeadingCutsSpace(s: string)
    ensures forall i :: 0 <= i < |s| - |StripLeading(s)| ==> IsSpace(s[i])
    decreases |s|
  {
    if s != [] && IsSpace(s[0]) {
      StripLeadingCutsSpace(s[1..]);
      assert forall i :: 1 <= i < |s| ==> s[i] == s[1..][i - 1];
    }
  }

  function StripTrailing(s: string): (r: string)
    ensures |r| <= |s| && r == s[..|r|]
    ensures r == [] || !IsSpace(r[|r| - 1])
  {
    if s != [] && IsSpace(s[|s| - 1]) then StripTrailing(s[..|s| - 1]) else s
  }

  /** Only whitespace is cut off the back. */
  lemma {:induction false} StripTrailingCutsSpace(s: string)
    ensures forall i :: |StripTrailing(s)| <= i < |s| ==> IsSpace(s[i])
    decreases |s|
  {
    if s != [] && IsSpace(s[|s| - 1]) {
      StripTrailingCutsSpace(s[..|s| - 1]);
    }
  }

  /** Python's `s.strip()`. */
  function Strip(s: string): (r: string)
  {
    StripTrailing(StripLeading(s))
  }

  /** The stripped string is a slice of the original with only whitespace cut off either end,
      and has no whitespace at either end. */
  lemma StripShape(s: string)
    ensures Strip(s) == [] || (!IsSpace(Strip(s)[0]) && !IsSpace(Strip(s)[|Strip(s)| - 1]))
    ensures var lo := |s| - |StripLeading(s)|; lo + |Strip(s)| <= |s| && Strip(s) == s[lo..lo + |Strip(s)|]
  {
    var l := StripLeading(s);
    var r := StripTrailing(l);
    assert Strip(s) == r;
    if r != [] {
      assert r[0] == l[0];
      assert !IsSpace(l[0]) && !IsSpace(r[|r| - 1]);
    }
    StripSlice(s);
  }

  lemma StripSlice(s: string)
    ensures var lo := |s| - |StripLeading(s)|; lo + |Strip(s)| <= |s| && Strip(s) == s[lo..lo + |Strip(s)|]
  {
    var l := StripLeading(s);
    var r := StripTrailing(l);
    var lo := |s| - |l|;
    assert l == s[lo..];
    assert r == l[..|r|];
    assert s[lo..][..|r|] == s[lo..lo + |r|];
  }

  /** Stripping a string with no whitespace at either end changes nothing. */
  lemma StripTrimmed(s: string)
    requires s == [] || (!IsSpace(s[0]) && !IsSpace(s[|s| - 1]))
    ensures Strip(s) == s
  {
  }

  /** Leading whitespace does not survive `strip`. */
  lemma StripSpaceCons(s: string)
    ensures Strip([' '] + s) == Strip(s)
  {
    assert ([' '] + s)[1..] == s;
  }

  /** Stripping twice is stripping once. */
  lemma StripIdempotent(s: string)
    ensures Strip(Strip(s)) == Strip(s)
  {
    StripShape(s);
    StripTrimmed(Strip(s));
  }

  /** `str.lower` on the ASCII letters. */
  function LowerChar(c: char): char {
    if 'A' <= c <= 'Z' then (c as int + 32) as char else c
  }

  function Lower(s: string): (r: string)
    ensures |r| == |s| && forall i :: 0 <= i < |s| ==> r[i] == LowerChar(s[i])
  {
    seq(|s|, i requires 0 <= i < |s| => LowerChar(s[i]))
  }

  function DigitChar(d: int): char
    requires 0 <= d < 10
  {
    ('0' as int + d) as char
  }

  /** Python's `str(n)` for a natural number. */
  function NatToString(n: nat): string
  {
    if n < 10 then [DigitChar(n)] else NatToString(n / 10) + [DigitChar(n % 10)]
  }

  /** The decimal form is a non-empty run of digits. */
  lemma {:induction false} NatToStringDigits(n: nat)
    ensures |NatToString(n)| >= 1 && forall i :: 0 <= i < |NatToString(n)| ==> '0' <= NatToString(n)[i] <= '9'
  {
    if n >= 10 {
      NatToStringDigits(n / 10);
      var p := NatToString(n / 10);
      assert NatToString(n) == p + [DigitChar(n % 10)];
      assert forall i :: 0 <= i < |p| ==> NatToString(n)[i] == p[i];
    }
  }

  /** Python's `str(i)` for any integer. */
  function IntToString(i: int): string
  {
    if i < 0 then "-" + NatToString(-i) else NatToString(i)
  }

  /** Two-digit zero-padded form of a number below 100 (strftime's `%d`, `%m`, `%y`, ...). */
  function Pad2(n: nat): (r: string)
    requires n < 100
    ensures |r| == 2
  {
    [DigitChar(n / 10), DigitChar(n % 10)]
  }
}
