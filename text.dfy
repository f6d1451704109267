/** The parts of Go's `strings`, `unicode` and `encoding/hex` packages that the
    password manager relies on, written out so that their behaviour on edge
    cases (empty input, repeated separators) is part of the model. */
module Text {

  type byte = b: int | 0 <= b < 256

  // ---------------------------------------------------------------------------
  // strings.Split and strings.Join with a one-character separator

  /** `strings.Split(s, string(sep))`: the separator-free runs between
      separators, so `k` separators give `k + 1` parts (an empty `s` gives `[""]`). */
  function Split(s: string, sep: char): (parts: seq<string>)
    ensures |parts| >= 1
    ensures forall i :: 0 <= i < |parts| ==> sep !in parts[i]
  {
    if s == [] then [[]]
    else
      var rest := Split(s[1..], sep);
      if s[0] == sep then [[]] + rest
      else [[s[0]] + rest[0]] + rest[1..]
  }

  /** `k` separators give `k + 1` parts. */
  lemma {:induction false} SplitCount(s: string, sep: char)
    ensures |Split(s, sep)| == multiset(s)[sep] + 1
  {
    if s != [] {
      SplitCount(s[1..], sep);
      assert s == [s[0]] + s[1..];
    }
  }

  /** `strings.Join(parts, string(sep))`. */
  function Join(parts: seq<string>, sep: char): string
  {
    if |parts| == 0 then []
    else if |parts| == 1 then parts[0]
    else parts[0] + [sep] + Join(parts[1..], sep)
  }

  lemma {:induction false} SplitWithoutSeparator(s: string, sep: char)
    requires sep !in s
    ensures Split(s, sep) == [s]
  {
    if s != [] {
      SplitWithoutSeparator(s[1..], sep);
      assert [s[0]] + s[1..] == s;
    }
  }

  /** Splitting at the first separator peels off exactly the text before it. */
  lemma {:induction false} SplitAtFirstSeparator(a: string, sep: char, b: string)
    requires sep !in a
    ensures Split(a + [sep] + b, sep) == [a] + Split(b, sep)
  {
    var s := a + [sep] + b;
    if a == [] {
      assert s[1..] == b;
    } else {
      assert s[1..] == a[1..] + [sep] + b;
      SplitAtFirstSeparator(a[1..], sep, b);
      assert [a[0]] + a[1..] == a;
    }
  }

  /** Prefixing the first part with a character prefixes the join with it. */
  lemma JoinPrefixFirst(c: char, parts: seq<string>, sep: char)
    requires |parts| >= 1
    ensures Join([[c] + parts[0]] + parts[1..], sep) == [c] + Join(parts, sep)
  {
    var q := [[c] + parts[0]] + parts[1..];
    assert q[0] == [c] + parts[0];
    if |parts| > 1 {
      assert q[1..] == parts[1..];
    }
  }

  /** Joining the parts of a split gives back the original string. */
  lemma {:induction false} JoinSplit(s: string, sep: char)
    ensures Join(Split(s, sep), sep) == s
  {
    if s != [] {
      var rest := Split(s[1..], sep);
      JoinSplit(s[1..], sep);
      assert s == [s[0]] + s[1..];
      if s[0] == sep {
        var parts := [[]] + rest;
        assert Split(s, sep) == parts;
        assert parts[1..] == rest;
        assert Join(parts, sep) == [] + [sep] + Join(rest, sep);
      } else {
        assert Split(s, sep) == [[s[0]] + rest[0]] + rest[1..];
        JoinPrefixFirst(s[0], rest, sep);
      }
    }
  }

  /** Splitting a join of separator-free parts gives back the parts. */
  lemma {:induction false} SplitJoin(parts: seq<string>, sep: char)
    requires |parts| >= 1
    requires forall i :: 0 <= i < |parts| ==> sep !in parts[i]
    ensures Split(Join(parts, sep), sep) == parts
  {
    if |parts| == 1 {
      SplitWithoutSeparator(parts[0], sep);
    } else {
      SplitJoin(parts[1..], sep);
      SplitAtFirstSeparator(parts[0], sep, Join(parts[1..], sep));
      assert [parts[0]] + parts[1..] == parts;
    }
  }

  // ---------------------------------------------------------------------------
  // strings.Contains and an ASCII strings.ToLower / strings.ToUpper

  /** `strings.Contains(s, sub)`. */
  predicate Contains(s: string, sub: string)
  {
    sub <= s || (s != [] && Contains(s[1..], sub))
  }

  /** `sub` occurs in `s` starting at index `i`. */
  predicate OccursAt(s: string, sub: string, i: int)
  {
    0 <= i && i + |sub| <= |s| && s[i..i + |sub|] == sub
  }

  /** An occurrence at `i` is found by `Contains`. */
  lemma {:induction false} OccursThenContains(s: string, sub: string, i: int)
    requires OccursAt(s, sub, i)
    ensures Contains(s, sub)
    decreases i
  {
    if i == 0 {
      assert s[..|sub|] == sub;
    } else {
      assert s[1..][i - 1..i - 1 + |sub|] == s[i..i + |sub|];
      OccursThenContains(s[1..], sub, i - 1);
    }
  }

  /** `Contains` answers with the index of an occurrence. */
  lemma {:induction false} ContainsThenOccurs(s: string, sub: string) returns (i: int)
    requires Contains(s, sub)
    ensures OccursAt(s, sub, i)
  {
    if sub <= s {
      i := 0;
      assert s[..|sub|] == sub;
    } else {
      var j := ContainsThenOccurs(s[1..], sub);
      i := j + 1;
      assert s[1..][j..j + |sub|] == s[i..i + |sub|];
    }
  }

  lemma ContainsMeansOccurs(s: string, sub: string)
    ensures Contains(s, sub) <==> exists i :: OccursAt(s, sub, i)
  {
    if Contains(s, sub) {
      var i := ContainsThenOccurs(s, sub);
    }
    if exists i :: OccursAt(s, sub, i) {
      var i :| OccursAt(s, sub, i);
      OccursThenContains(s, sub, i);
    }
  }

  function LowerChar(c: char): char
  {
    if 'A' <= c <= 'Z' then (c as int + 32) as char else c
  }

  function UpperChar(c: char): char
  {
    if 'a' <= c <= 'z' then (c as int - 32) as char else c
  }

  /** `strings.ToLower` on the ASCII letters. */
  function ToLower(s: string): (r: string)
    ensures |r| == |s|
  {
    seq(|s|, i requires 0 <= i < |s| => LowerChar(s[i]))
  }

  /** `strings.ToUpper` on the ASCII letters. */
  function ToUpper(s: string): (r: string)
    ensures |r| == |s|
  {
    seq(|s|, i requires 0 <= i < |s| => UpperChar(s[i]))
  }

  // ---------------------------------------------------------------------------
  // strings.TrimSpace

  /** `unicode.IsSpace`: the six ASCII blanks, U+0085, U+00A0 and the
      Unicode White_Space characters above U+00FF. */
  predicate IsSpace(c: char)
  {
    var n := c as int;
    (9 <= n <= 13) || n == 32 || n == 0x85 || n == 0xA0 || n == 0x1680
    || (0x2000 <= n <= 0x200A) || n == 0x2028 || n == 0x2029 || n == 0x202F
    || n == 0x205F || n == 0x3000
  }

  function LeadingSpaces(s: string): (n: nat)
    ensures n <= |s|
    ensures forall k :: 0 <= k < n ==> IsSpace(s[k])
    ensures n == |s| || !IsSpace(s[n])
  {
    if s != [] && IsSpace(s[0]) then 1 + LeadingSpaces(s[1..]) else 0
  }

  function TrailingSpaces(s: string): (n: nat)
    ensures n <= |s|
    ensures forall k :: |s| - n <= k < |s| ==> IsSpace(s[k])
    ensures n == |s| || !IsSpace(s[|s| - 1 - n])
  {
    if s != [] && IsSpace(s[|s| - 1]) then 1 + TrailingSpaces(s[..|s| - 1]) else 0
  }

  /** `s` is `r` with only white space before index `i` and after `r`. */
  predicate PaddedAt(s: string, r: string, i: int)
  {
    OccursAt(s, r, i)
    && (forall k :: 0 <= k < i ==> IsSpace(s[k]))
    && (forall k :: i + |r| <= k < |s| ==> IsSpace(s[k]))
  }

  /** `strings.TrimSpace`: `s` without its leading and trailing white space. */
  function TrimSpace(s: string): (r: string)
    ensures r == [] || (!IsSpace(r[0]) && !IsSpace(r[|r| - 1]))
    ensures exists i :: PaddedAt(s, r, i)
  {
    var lead := LeadingSpaces(s);
    var t := s[lead..];
    var r := t[..|t| - TrailingSpaces(t)];
    assert PaddedAt(s, r, lead);
    r
  }

  /** A string that neither starts nor ends with white space is left alone. */
  lemma TrimSpaceKeepsTrimmed(s: string)
    requires s == [] || (!IsSpace(s[0]) && !IsSpace(s[|s| - 1]))
    ensures TrimSpace(s) == s
  {
    var t := s[LeadingSpaces(s)..];
    assert t == s;
  }

  // ---------------------------------------------------------------------------
  // encoding/hex

  /** The hex digit for `d < 16`, lower-case and upper-case. */
  function LowerDigit(d: nat): char
    requires d < 16
  {
    if d < 10 then ('0' as int + d) as char else ('a' as int + d - 10) as char
  }

  function UpperDigit(d: nat): char
    requires d < 16
  {
    if d < 10 then ('0' as int + d) as char else ('A' as int + d - 10) as char
  }

  predicate IsUpperDigit(c: char)
  {
    '0' <= c <= '9' || 'A' <= c <= 'F'
  }

  /** `hex.EncodeToString`: two lower-case digits per byte, high nibble first. */
  function HexEncode(bs: seq<byte>): (s: string)
    ensures |s| == 2 * |bs|
  {
    if bs == [] then [] else [LowerDigit(bs[0] / 16), LowerDigit(bs[0] % 16)] + HexEncode(bs[1..])
  }

  /** The same encoding with upper-case digits. */
  function UpperHex(bs: seq<byte>): (s: string)
    ensures |s| == 2 * |bs|
    ensures forall i :: 0 <= i < |s| ==> IsUpperDigit(s[i])
  {
    if bs == [] then [] else [UpperDigit(bs[0] / 16), UpperDigit(bs[0] % 16)] + UpperHex(bs[1..])
  }

  /** `strings.ToUpper(hex.EncodeToString(bs))` is the upper-case hex form. */
  lemma {:induction false} ToUpperOfHexEncode(bs: seq<byte>)
    ensures ToUpper(HexEncode(bs)) == UpperHex(bs)
  {
    if bs != [] {
      ToUpperOfHexEncode(bs[1..]);
      var h := HexEncode(bs);
      assert h[2..] == HexEncode(bs[1..]);
      assert ToUpper(h)[2..] == ToUpper(HexEncode(bs[1..]));
      assert ToUpper(h)[0] == UpperDigit(bs[0] / 16);
      assert ToUpper(h)[1] == UpperDigit(bs[0] % 16);
    }
  }

  function DigitValue(c: char): nat
  {
    if '0' <= c <= '9' then c as int - '0' as int
    else if 'A' <= c <= 'F' then c as int - 'A' as int + 10
    else 0
  }

  /** The inverse of `UpperHex`. */
  function HexDecode(s: string): seq<byte>
    requires |s| % 2 == 0
  {
    if s == [] then []
    else
      var hi := DigitValue(s[0]) % 16;
      var lo := DigitValue(s[1]) % 16;
      [hi * 16 + lo] + HexDecode(s[2..])
  }

  lemma {:induction false} HexDecodeUpperHex(bs: seq<byte>)
    ensures HexDecode(UpperHex(bs)) == bs
  {
    if bs != [] {
      HexDecodeUpperHex(bs[1..]);
      var s := UpperHex(bs);
      assert s[2..] == UpperHex(bs[1..]);
      var hi, lo := bs[0] / 16, bs[0] % 16;
      assert DigitValue(UpperDigit(hi)) == hi;
      assert DigitValue(UpperDigit(lo)) == lo;
      assert hi * 16 + lo == bs[0];
    }
  }

  /** Distinct byte strings have distinct upper-case hex forms. */
  lemma UpperHexInjective(a: seq<byte>, b: seq<byte>)
    requires UpperHex(a) == UpperHex(b)
    ensures a == b
  {
    HexDecodeUpperHex(a);
    HexDecodeUpperHex(b);
  }
}
