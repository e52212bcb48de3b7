/** The JavaScript string operations the core relies on: `trim`, `split`,
    `startsWith`, `parseInt(_, 10)`, `Number(_)` on decimal text, and the
    decimal rendering of an integer in a template literal. */
module Text {
  import opened Common

  /** The ECMAScript WhiteSpace and LineTerminator code points, which `trim`,
      `parseInt` and `Number` skip. */
  predicate IsSpaceChar(c: char) {
    || c == '\t' || c == '\n' || c == '\U{B}' || c == '\U{C}' || c == '\r' || c == ' '
    || c == '\U{A0}' || c == '\U{1680}' || ('\U{2000}' <= c <= '\U{200A}')
    || c == '\U{2028}' || c == '\U{2029}' || c == '\U{202F}' || c == '\U{205F}'
    || c == '\U{3000}' || c == '\U{FEFF}'
  }

  /** `s.trimStart()`: the suffix left after dropping leading white space. */
  function TrimStart(s: string): (r: string)
    ensures |r| <= |s| && r == s[|s| - |r|..]
    ensures |r| > 0 ==> !IsSpaceChar(r[0])
    ensures forall i :: 0 <= i < |s| - |r| ==> IsSpaceChar(s[i])
  {
    if |s| > 0 && IsSpaceChar(s[0]) then TrimStart(s[1..]) else s
  }

  /** `s.trimEnd()`: the prefix left after dropping trailing white space. */
  function TrimEnd(s: string): (r: string)
    ensures |r| <= |s| && r == s[..|r|]
    ensures |r| > 0 ==> !IsSpaceChar(r[|r| - 1])
    ensures forall i :: |r| <= i < |s| ==> IsSpaceChar(s[i])
  {
    if |s| > 0 && IsSpaceChar(s[|s| - 1]) then TrimEnd(s[..|s| - 1]) else s
  }

  /** `s.trim()`. */
  function Trim(s: string): (r: string)
    ensures |r| <= |s|
    ensures |r| > 0 ==> !IsSpaceChar(r[0]) && !IsSpaceChar(r[|r| - 1])
    ensures (|s| == 0 || (!IsSpaceChar(s[0]) && !IsSpaceChar(s[|s| - 1]))) ==> r == s
    ensures forall c :: c !in s ==> c !in r
  {
    var t := TrimStart(s);
    var r := TrimEnd(t);
    assert r == s[|s| - |t|..][..|r|];
    assert r == s[|s| - |t|..|s| - |t| + |r|];
    r
  }

  /** `s.split(sep)` for a one-character separator: the pieces between the
      separators, always at least one (`"".split(sep)` is `[""]`). */
  function Split(s: string, sep: char): (parts: seq<string>)
    ensures |parts| >= 1
    ensures forall i :: 0 <= i < |parts| ==> sep !in parts[i]
  {
    if s == [] then [""]
    else
      var rest := Split(s[1..], sep);
      if s[0] == sep then [""] + rest
      else [[s[0]] + rest[0]] + rest[1..]
  }

  /** `parts.join(sep)`, the inverse of Split. */
  function Join(parts: seq<string>, sep: char): string
    requires |parts| >= 1
  {
    if |parts| == 1 then parts[0] else parts[0] + [sep] + Join(parts[1..], sep)
  }

  /** Splitting and joining again gives back the text. */
  lemma {:induction false} JoinSplit(s: string, sep: char)
    ensures Join(Split(s, sep), sep) == s
  {
    if s != [] {
      JoinSplit(s[1..], sep);
      var rest := Split(s[1..], sep);
      if s[0] != sep {
        if |rest| > 1 {
          assert rest == [rest[0]] + rest[1..];
        }
      }
    }
  }

  /** Joining separator-free pieces and splitting again gives back the pieces. */
  lemma {:induction false} SplitJoin(parts: seq<string>, sep: char)
    requires |parts| >= 1
    requires forall i :: 0 <= i < |parts| ==> sep !in parts[i]
    ensures Split(Join(parts, sep), sep) == parts
  {
    if |parts| == 1 {
      SplitWithoutSep(parts[0], sep);
    } else {
      SplitJoin(parts[1..], sep);
      SplitAfterPiece(parts[0], Join(parts[1..], sep), sep);
      assert [parts[0]] + parts[1..] == parts;
    }
  }

  /** Text without the separator is one piece. */
  lemma {:induction false} SplitWithoutSep(s: string, sep: char)
    requires sep !in s
    ensures Split(s, sep) == [s]
  {
    if s != [] {
      SplitWithoutSep(s[1..], sep);
      assert [s[0]] + s[1..] == s;
    }
  }

  /** A separator-free prefix followed by the separator is the first piece. */
  lemma {:induction false} SplitAfterPiece(p: string, q: string, sep: char)
    requires sep !in p
    ensures Split(p + [sep] + q, sep) == [p] + Split(q, sep)
  {
    if p == [] {
      assert p + [sep] + q == [sep] + q;
      assert ([sep] + q)[1..] == q;
    } else {
      var s := p + [sep] + q;
      assert s[1..] == p[1..] + [sep] + q;
      SplitAfterPiece(p[1..], q, sep);
      assert [p[0]] + p[1..] == p;
    }
  }

  /** `s.split(sep).pop()`: the text after the last separator. */
  function LastPiece(s: string, sep: char): (r: string)
    ensures sep !in r
    ensures |r| <= |s| && r == s[|s| - |r|..]
    ensures |r| < |s| ==> s[|s| - |r| - 1] == sep
    ensures |s| > 0 && s[|s| - 1] == sep ==> r == []
  {
    LastPieceIsSuffix(s, sep);
    Last(Split(s, sep))
  }

  /** `r` is a suffix of `s` that is either all of `s` or preceded by `sep`. */
  predicate SuffixAfterSep(s: string, r: string, sep: char) {
    |r| <= |s| && r == s[|s| - |r|..] && (|r| < |s| ==> s[|s| - |r| - 1] == sep)
  }

  function Last(parts: seq<string>): string
    requires |parts| >= 1
  {
    parts[|parts| - 1]
  }

  lemma {:induction false} LastPieceIsSuffix(s: string, sep: char)
    ensures SuffixAfterSep(s, Last(Split(s, sep)), sep)
  {
    if s != [] {
      LastPieceIsSuffix(s[1..], sep);
      var rest := Split(s[1..], sep);
      if s[0] == sep {
        LastAfterSepHead(s, sep);
      } else if |rest| == 1 {
        LastOfSinglePiece(s, sep);
      } else {
        LastOfSeveralPieces(s, sep);
      }
    }
  }

  lemma LastAfterSepHead(s: string, sep: char)
    requires s != [] && s[0] == sep
    requires SuffixAfterSep(s[1..], Last(Split(s[1..], sep)), sep)
    ensures SuffixAfterSep(s, Last(Split(s, sep)), sep)
  {
    var r := Last(Split(s[1..], sep));
    assert Last(Split(s, sep)) == r;
    assert s[1..][|s| - 1 - |r|..] == s[|s| - |r|..];
    assert |r| < |s[1..]| ==> s[|s| - |r| - 1] == s[1..][|s[1..]| - |r| - 1];
  }

  lemma LastOfSinglePiece(s: string, sep: char)
    requires s != [] && s[0] != sep && |Split(s[1..], sep)| == 1
    ensures Last(Split(s, sep)) == s
  {
    var rest := Split(s[1..], sep);
    JoinSplit(s[1..], sep);
    assert [s[0]] + rest[0] == s;
  }

  lemma LastOfSeveralPieces(s: string, sep: char)
    requires s != [] && s[0] != sep && |Split(s[1..], sep)| > 1
    requires SuffixAfterSep(s[1..], Last(Split(s[1..], sep)), sep)
    ensures SuffixAfterSep(s, Last(Split(s, sep)), sep)
  {
    var rest := Split(s[1..], sep);
    var r := Last(rest);
    JoinSplit(s[1..], sep);
    assert s[1..] == rest[0] + [sep] + Join(rest[1..], sep);
    assert sep in s[1..];
    assert |r| < |s[1..]|;
    assert Last(Split(s, sep)) == r;
    assert s[1..][|s| - 1 - |r|..] == s[|s| - |r|..];
    assert s[|s| - |r| - 1] == s[1..][|s[1..]| - |r| - 1];
  }

  /** The last piece of `p + sep + q` is the whole of a separator-free `q`. */
  lemma LastPieceAfterSep(p: string, q: string, sep: char)
    requires sep !in q
    ensures LastPiece(p + [sep] + q, sep) == q
  {
    var s := p + [sep] + q;
    var r := LastPiece(s, sep);
    assert s[|s| - |q|..] == q;
    assert s[|s| - |q| - 1] == sep;
    assert forall k :: |s| - |q| <= k < |s| ==> s[k] == q[k - (|s| - |q|)];
    assert forall k :: |s| - |r| <= k < |s| ==> s[k] == r[k - (|s| - |r|)];
  }

  /** `s.startsWith(prefix)`. */
  predicate StartsWith(s: string, prefix: string) {
    |prefix| <= |s| && s[..|prefix|] == prefix
  }

  predicate IsDigit(c: char) { '0' <= c <= '9' }

  predicate AllDigits(s: string) { forall i :: 0 <= i < |s| ==> IsDigit(s[i]) }

  function DigitValue(c: char): nat
    requires IsDigit(c)
  {
    (c as int - '0' as int) as nat
  }

  function DigitChar(d: nat): char
    requires d < 10
  {
    ('0' as int + d) as char
  }

  /** The number a string of decimal digits denotes (0 for the empty string). */
  function DigitsValue(s: string): nat
    requires AllDigits(s)
  {
    if s == [] then 0 else DigitsValue(s[..|s| - 1]) * 10 + DigitValue(s[|s| - 1])
  }

  /** The decimal text of a natural number, as a template literal renders it. */
  function NatToString(n: nat): (r: string)
    ensures |r| >= 1 && AllDigits(r)
    ensures DigitsValue(r) == n
  {
    if n < 10 then [DigitChar(n)]
    else
      var r := NatToString(n / 10) + [DigitChar(n % 10)];
      assert r[..|r| - 1] == NatToString(n / 10);
      r
  }

  /** The decimal text of an integer, with a leading '-' when negative. */
  function IntToString(i: int): (r: string)
    ensures |r| >= 1
  {
    if i < 0 then "-" + NatToString(-i) else NatToString(i)
  }

  /** The longest prefix of `s` made of decimal digits. */
  function DigitPrefix(s: string): (r: string)
    ensures AllDigits(r) && |r| <= |s| && r == s[..|r|]
    ensures |r| < |s| ==> !IsDigit(s[|r|])
  {
    if |s| > 0 && IsDigit(s[0]) then
      var rest := DigitPrefix(s[1..]);
      assert ([s[0]] + rest)[1..] == rest;
      [s[0]] + rest
    else []
  }

  /** `parseInt(s, 10)`: skip leading white space, read an optional sign and
      the longest run of decimal digits; None stands for NaN (no digits). */
  function ParseInt(s: string): (r: Option<int>)
  {
    ParseSigned(TrimStart(s))
  }

  /** parseInt on text whose leading white space is already gone. */
  function ParseSigned(t: string): (r: Option<int>)
  {
    var negative := |t| > 0 && t[0] == '-';
    var body := if |t| > 0 && (t[0] == '-' || t[0] == '+') then t[1..] else t;
    var digits := DigitPrefix(body);
    if digits == [] then None
    else if negative then Some(0 - DigitsValue(digits))
    else Some(DigitsValue(digits))
  }

  /** parseInt reads back what the decimal rendering of an integer wrote. */
  lemma ParseIntOfIntToString(i: int)
    ensures ParseInt(IntToString(i)) == Some(i)
  {
    var n: nat := if i < 0 then -i else i;
    var digits := NatToString(n);
    if i < 0 {
      ParseIntOfSignedDigits(digits);
    } else {
      ParseIntOfDigits(digits);
    }
  }

  lemma ParseIntOfDigits(digits: string)
    requires |digits| >= 1 && AllDigits(digits)
    ensures ParseInt(digits) == Some(DigitsValue(digits))
  {
    assert IsDigit(digits[0]);
    TrimStartOfNonSpace(digits);
    DigitPrefixOfDigits(digits);
    ParseSignedUnsigned(digits);
  }

  lemma ParseSignedUnsigned(body: string)
    requires body != [] && IsDigit(body[0]) && DigitPrefix(body) == body
    ensures ParseSigned(body) == Some(DigitsValue(body))
  {
  }

  lemma ParseIntOfSignedDigits(digits: string)
    requires |digits| >= 1 && AllDigits(digits)
    ensures ParseInt("-" + digits) == Some(0 - DigitsValue(digits))
  {
    var s := "-" + digits;
    assert s[0] == '-';
    TrimStartOfNonSpace(s);
    DigitPrefixOfDigits(digits);
    ParseSignedMinus(digits);
  }

  lemma TrimStartOfNonSpace(s: string)
    requires |s| > 0 && !IsSpaceChar(s[0])
    ensures TrimStart(s) == s
  {
  }

  lemma ParseSignedMinus(body: string)
    requires body != [] && DigitPrefix(body) == body
    ensures ParseSigned("-" + body) == Some(0 - DigitsValue(body))
  {
    var t := "-" + body;
    assert t[0] == '-' && t[1..] == body;
  }

  lemma {:induction false} DigitPrefixOfDigits(s: string)
    requires AllDigits(s)
    ensures DigitPrefix(s) == s
  {
    if s != [] {
      DigitPrefixOfDigits(s[1..]);
      assert [s[0]] + s[1..] == s;
    }
  }

  /** `Number(s)` on the texts a time field can hold: white space around an
      optional run of decimal digits ("" gives 0); anything else is NaN (None). */
  function DecimalNumber(s: string): (r: Option<int>)
    ensures r.Some? ==> r.value >= 0
    ensures AllDigits(s) ==> r == Some(DigitsValue(s))
  {
    var t := Trim(s);
    if AllDigits(t) then Some(DigitsValue(t)) else None
  }
}
