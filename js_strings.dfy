/**
 * The JavaScript string built-ins the catalog relies on: `trim`, `split` on one
 * character, `join`, `includes`, `startsWith`, case mapping, `parseInt` and the
 * decimal rendering of an integer (`String(n)`, `n.toString()`).
 */
module JsStrings {
  import opened Wrappers

  // ---------------------------------------------------------------------------
  // Whitespace and trim
  // ---------------------------------------------------------------------------

  /** The WhiteSpace and LineTerminator code points of ECMA-262 (sections 12.2 and 12.3),
      which both `String.prototype.trim` and `parseInt` skip. */
  predicate IsWhitespace(c: char) {
    || c == '\t' || c == '\n' || c == '\U{B}' || c == '\U{C}' || c == '\r' || c == ' '
    || c == '\U{A0}' || c == '\U{1680}' || '\U{2000}' <= c <= '\U{200A}'
    || c == '\U{2028}' || c == '\U{2029}' || c == '\U{202F}' || c == '\U{205F}'
    || c == '\U{3000}' || c == '\U{FEFF}'
  }

  /** Every character is whitespace (so `s.trim()` is falsy). */
  predicate IsBlank(s: string) {
    forall i :: 0 <= i < |s| ==> IsWhitespace(s[i])
  }

  /** Neither end is whitespace. */
  predicate IsTrimmed(s: string) {
    s == [] || (!IsWhitespace(s[0]) && !IsWhitespace(s[|s| - 1]))
  }

  /** The index of the first non-whitespace character at or after `i` (or `|s|`). */
  function SkipSpace(s: string, i: nat): (k: nat)
    requires i <= |s|
    ensures i <= k <= |s|
    ensures forall j :: i <= j < k ==> IsWhitespace(s[j])
    ensures k < |s| ==> !IsWhitespace(s[k])
    decreases |s| - i
  {
    if i < |s| && IsWhitespace(s[i]) then SkipSpace(s, i + 1) else i
  }

  /** The index just after the last non-whitespace character before `j` (or 0). */
  function SkipSpaceBack(s: string, j: nat): (k: nat)
    requires j <= |s|
    ensures k <= j
    ensures forall m :: k <= m < j ==> IsWhitespace(s[m])
    ensures k > 0 ==> !IsWhitespace(s[k - 1])
  {
    if j > 0 && IsWhitespace(s[j - 1]) then SkipSpaceBack(s, j - 1) else j
  }

  /** Drops the whitespace at the start of `s`. */
  function TrimStart(s: string): (r: string)
    ensures |r| <= |s| && r == s[|s| - |r|..]
    ensures forall j :: 0 <= j < |s| - |r| ==> IsWhitespace(s[j])
    ensures r == [] || !IsWhitespace(r[0])
  {
    s[SkipSpace(s, 0)..]
  }

  /** Drops the whitespace at the end of `s`. */
  function TrimEnd(s: string): (r: string)
    ensures |r| <= |s| && r == s[..|r|]
    ensures forall j :: |r| <= j < |s| ==> IsWhitespace(s[j])
    ensures r == [] || !IsWhitespace(r[|r| - 1])
  {
    s[..SkipSpaceBack(s, |s|)]
  }

  /** `s.trim()`: the result has no whitespace at either end and is empty exactly when
      `s` is blank. */
  function Trim(s: string): (r: string)
    ensures IsTrimmed(r)
    ensures r == [] <==> IsBlank(s)
    ensures r == TrimEnd(TrimStart(s))
  {
    var t := TrimStart(s);
    var r := TrimEnd(t);
    if r == [] then
      assert t == [];
      r
    else
      assert r[0] == t[0] == s[|s| - |t|];
      r
  }

  /** `trim` adds no character: one absent from `s` is absent from `s.trim()`. */
  lemma TrimOmitsAbsent(s: string, c: char)
    requires c !in s
    ensures c !in Trim(s)
  {
  }

  lemma TrimOfTrimmed(s: string)
    requires IsTrimmed(s)
    ensures Trim(s) == s
  {
  }

  /** Leading whitespace does not change what `trim` returns. */
  lemma TrimSkipsLeadingWhitespace(c: char, s: string)
    requires IsWhitespace(c)
    ensures Trim([c] + s) == Trim(s)
  {
    SkipSpaceAfterPrefix(c, s, 0);
    assert TrimStart([c] + s) == TrimStart(s);
  }

  /** Scanning past whitespace in `[c] + s` from `i + 1` ends one place after the same
      scan in `s` from `i`; the induction behind `TrimSkipsLeadingWhitespace`. */
  lemma {:induction false} SkipSpaceAfterPrefix(c: char, s: string, i: nat)
    requires IsWhitespace(c) && i <= |s|
    ensures SkipSpace([c] + s, 0) == SkipSpace([c] + s, 1)
    ensures SkipSpace([c] + s, i + 1) == SkipSpace(s, i) + 1
    decreases |s| - i
  {
    if i < |s| && IsWhitespace(s[i]) {
      SkipSpaceAfterPrefix(c, s, i + 1);
    }
  }

  // ---------------------------------------------------------------------------
  // split and join
  // ---------------------------------------------------------------------------

  /** `s.split(sep)` for a one-character separator: the pieces between separators,
      empty pieces included, so `"".split(",")` is `[""]`. */
  function Split(s: string, sep: char): (r: seq<string>)
    ensures |r| >= 1
    ensures forall i :: 0 <= i < |r| ==> sep !in r[i]
  {
    if s == [] then [""]
    else
      var rest := Split(s[1..], sep);
      if s[0] == sep then [""] + rest
      else [[s[0]] + rest[0]] + rest[1..]
  }

  /** `xs.join(sep)`. */
  function Join(xs: seq<string>, sep: string): string {
    if |xs| == 0 then ""
    else if |xs| == 1 then xs[0]
    else xs[0] + sep + Join(xs[1..], sep)
  }

  /** Joining the pieces of a split with the separator gives the string back. */
  lemma {:induction false} JoinSplit(s: string, sep: char)
    ensures Join(Split(s, sep), [sep]) == s
  {
    if s != [] {
      var rest := Split(s[1..], sep);
      JoinSplit(s[1..], sep);
      if s[0] == sep {
        assert Join([""] + rest, [sep]) == "" + [sep] + Join(rest, [sep]) by {
          assert ([""] + rest)[1..] == rest;
        }
        assert s == [s[0]] + s[1..];
      } else {
        var r := [[s[0]] + rest[0]] + rest[1..];
        assert r[1..] == rest[1..];
        if |rest| == 1 {
          assert Join(r, [sep]) == [s[0]] + Join(rest, [sep]);
        } else {
          assert Join(r, [sep]) == [s[0]] + rest[0] + [sep] + Join(rest[1..], [sep]);
          assert Join(rest, [sep]) == rest[0] + [sep] + Join(rest[1..], [sep]);
        }
        assert s == [s[0]] + s[1..];
      }
    }
  }

  /** A string without the separator is one piece. */
  lemma {:induction false} SplitWithoutSeparator(s: string, sep: char)
    requires sep !in s
    ensures Split(s, sep) == [s]
  {
    if s != [] {
      SplitWithoutSeparator(s[1..], sep);
      assert s == [s[0]] + s[1..];
    }
  }

  /** A piece without the separator, followed by the separator, is the first piece. */
  lemma {:induction false} SplitAfterPiece(a: string, sep: char, b: string)
    requires sep !in a
    ensures Split(a + [sep] + b, sep) == [a] + Split(b, sep)
  {
    if a == [] {
      assert ([sep] + b)[1..] == b;
    } else {
      var s := a + [sep] + b;
      assert s[0] == a[0] && s[1..] == a[1..] + [sep] + b;
      SplitAfterPiece(a[1..], sep, b);
      assert [a[0]] + a[1..] == a;
    }
  }

  /** Splitting at one separator: the pieces before it, then the pieces after it. */
  lemma {:induction false} SplitConcat(a: string, sep: char, b: string)
    ensures Split(a + [sep] + b, sep) == Split(a, sep) + Split(b, sep)
  {
    if a == [] {
      assert ([sep] + b)[1..] == b;
    } else {
      var s := a + [sep] + b;
      assert s[0] == a[0] && s[1..] == a[1..] + [sep] + b;
      SplitConcat(a[1..], sep, b);
    }
  }

  /** A character in no piece and not in the separator is not in the join. */
  lemma {:induction false} JoinOmits(xs: seq<string>, sep: string, c: char)
    requires c !in sep && forall i :: 0 <= i < |xs| ==> c !in xs[i]
    ensures c !in Join(xs, sep)
  {
    if |xs| > 1 {
      JoinOmits(xs[1..], sep, c);
    }
  }

  /** Splitting a join gives the pieces back when no piece holds the separator. */
  lemma {:induction false} SplitJoin(xs: seq<string>, sep: char)
    requires |xs| >= 1
    requires forall i :: 0 <= i < |xs| ==> sep !in xs[i]
    ensures Split(Join(xs, [sep]), sep) == xs
  {
    if |xs| == 1 {
      SplitWithoutSeparator(xs[0], sep);
    } else {
      SplitJoin(xs[1..], sep);
      SplitAfterPiece(xs[0], sep, Join(xs[1..], [sep]));
      assert [xs[0]] + xs[1..] == xs;
    }
  }

  // ---------------------------------------------------------------------------
  // includes, startsWith, case mapping
  // ---------------------------------------------------------------------------

  /** `s.startsWith(prefix)` */
  predicate StartsWith(s: string, prefix: string) {
    |prefix| <= |s| && s[..|prefix|] == prefix
  }

  /** `s.includes(part)`, searched from the left. */
  predicate Includes(s: string, part: string)
    decreases |s|
  {
    StartsWith(s, part) || (|s| > 0 && Includes(s[1..], part))
  }

  /** `part` occurs in `s` at position `i`. */
  predicate OccursAt(s: string, part: string, i: int) {
    0 <= i <= |s| - |part| && s[i..i + |part|] == part
  }

  /** Where `includes` holds, `part` occurs at the returned position. */
  lemma {:induction false} IncludesAt(s: string, part: string) returns (i: nat)
    requires Includes(s, part)
    ensures OccursAt(s, part, i)
  {
    if StartsWith(s, part) {
      i := 0;
    } else {
      var j := IncludesAt(s[1..], part);
      assert s[j + 1..j + 1 + |part|] == s[1..][j..j + |part|];
      i := j + 1;
    }
  }

  /** Wherever `part` occurs, `includes` finds it. */
  lemma {:induction false} OccursThenIncludes(s: string, part: string, i: int)
    requires OccursAt(s, part, i)
    ensures Includes(s, part)
  {
    if i > 0 {
      assert s[1..][i - 1..i - 1 + |part|] == s[i..i + |part|];
      OccursThenIncludes(s[1..], part, i - 1);
    }
  }

  /** `includes` holds exactly when `part` occurs at some position of `s`. */
  lemma IncludesIffOccurs(s: string, part: string)
    ensures Includes(s, part) <==> exists i :: OccursAt(s, part, i)
  {
    if Includes(s, part) {
      var i := IncludesAt(s, part);
    }
    forall i | OccursAt(s, part, i)
      ensures Includes(s, part)
    {
      OccursThenIncludes(s, part, i);
    }
  }

  /** ASCII `toLowerCase` of one character. */
  function LowerChar(c: char): char {
    if 'A' <= c <= 'Z' then (c as int + 32) as char else c
  }

  /** ASCII `toUpperCase` of one character. */
  function UpperChar(c: char): char {
    if 'a' <= c <= 'z' then (c as int - 32) as char else c
  }

  /** `s.toLowerCase()` on the ASCII letters. */
  function ToLower(s: string): (r: string)
    ensures |r| == |s| && forall i :: 0 <= i < |s| ==> r[i] == LowerChar(s[i])
    ensures forall i :: 0 <= i < |r| ==> !('A' <= r[i] <= 'Z')
  {
    seq(|s|, i requires 0 <= i < |s| => LowerChar(s[i]))
  }

  /** `s.toUpperCase()` on the ASCII letters. */
  function ToUpper(s: string): (r: string)
    ensures |r| == |s| && forall i :: 0 <= i < |s| ==> r[i] == UpperChar(s[i])
    ensures forall i :: 0 <= i < |r| ==> !('a' <= r[i] <= 'z')
  {
    seq(|s|, i requires 0 <= i < |s| => UpperChar(s[i]))
  }

  lemma ToLowerIdempotent(s: string)
    ensures ToLower(ToLower(s)) == ToLower(s)
  {
  }

  // ---------------------------------------------------------------------------
  // parseInt and the decimal rendering of integers
  // ---------------------------------------------------------------------------

  predicate IsDigit(c: char) {
    '0' <= c <= '9'
  }

  predicate IsHexDigit(c: char) {
    IsDigit(c) || 'a' <= c <= 'f' || 'A' <= c <= 'F'
  }

  /** A digit in base 16 when `hex`, else in base 10. */
  predicate IsRadixDigit(c: char, hex: bool) {
    if hex then IsHexDigit(c) else IsDigit(c)
  }

  function RadixDigitValue(c: char, hex: bool): (v: nat)
    requires IsRadixDigit(c, hex)
    ensures v < (if hex then 16 else 10)
  {
    if IsDigit(c) then c as int - '0' as int
    else if 'a' <= c <= 'f' then c as int - 'a' as int + 10
    else c as int - 'A' as int + 10
  }

  /** The longest prefix of `s` made of digits of the radix. */
  function DigitPrefix(s: string, hex: bool): (r: string)
    ensures |r| <= |s| && r == s[..|r|]
    ensures forall i :: 0 <= i < |r| ==> IsRadixDigit(r[i], hex)
    ensures |r| < |s| ==> !IsRadixDigit(s[|r|], hex)
  {
    if |s| > 0 && IsRadixDigit(s[0], hex) then [s[0]] + DigitPrefix(s[1..], hex) else []
  }

  /** The value of a digit string, most significant digit first. */
  function DigitsValue(ds: string, hex: bool): nat
    requires forall i :: 0 <= i < |ds| ==> IsRadixDigit(ds[i], hex)
  {
    if ds == [] then 0
    else DigitsValue(ds[..|ds| - 1], hex) * (if hex then 16 else 10) + RadixDigitValue(ds[|ds| - 1], hex)
  }

  /** The unsigned part of `parseInt` with no radix argument: a `0x`/`0X` prefix selects
      base 16; without digits the result is NaN (None). */
  function ParseMagnitude(u: string): Option<nat> {
    if |u| >= 2 && u[0] == '0' && (u[1] == 'x' || u[1] == 'X') then
      var ds := DigitPrefix(u[2..], true);
      if ds == [] then None else Some(DigitsValue(ds, true))
    else
      var ds := DigitPrefix(u, false);
      if ds == [] then None else Some(DigitsValue(ds, false))
  }

  /** `parseInt(s)`: leading whitespace, an optional sign, then the longest run of digits;
      trailing text is ignored. None stands for NaN. */
  function ParseInt(s: string): Option<int> {
    ParseSigned(TrimStart(s))
  }

  /** `parseInt` after the leading whitespace: an optional sign, then the magnitude. */
  function ParseSigned(t: string): Option<int> {
    var negative := |t| > 0 && t[0] == '-';
    var u := if |t| > 0 && (t[0] == '-' || t[0] == '+') then t[1..] else t;
    match ParseMagnitude(u)
    case None => None
    case Some(m) => Some(if negative then -(m as int) else m as int)
  }

  /** Text that does not start with whitespace is its own `trimStart`; the first step of
      `ParseIntOfUnsigned` and `ParseIntOfNegated`. */
  lemma TrimStartOfUnspaced(s: string)
    requires s == [] || !IsWhitespace(s[0])
    ensures TrimStart(s) == s
  {
  }

  function DigitChar(d: nat): (c: char)
    requires d < 10
    ensures IsDigit(c) && RadixDigitValue(c, false) == d
  {
    ('0' as int + d) as char
  }

  /** The decimal rendering of a natural number: digits only, no leading zero. */
  function NatToString(n: nat): (r: string)
    ensures |r| >= 1 && forall i :: 0 <= i < |r| ==> IsDigit(r[i])
    ensures r[0] == '0' ==> n == 0
  {
    if n < 10 then [DigitChar(n)] else NatToString(n / 10) + [DigitChar(n % 10)]
  }

  /** `String(n)` for an integer `n`. */
  function IntToString(n: int): string {
    if n < 0 then "-" + NatToString(-n) else NatToString(n)
  }

  lemma {:induction false} NatToStringValue(n: nat)
    ensures DigitsValue(NatToString(n), false) == n
  {
    if n >= 10 {
      NatToStringValue(n / 10);
      var r := NatToString(n);
      assert r[..|r| - 1] == NatToString(n / 10);
    }
  }

  /** A digit string without a leading zero (other than "0" itself) parses to its value. */
  lemma ParseMagnitudeOfDigits(ds: string)
    requires |ds| >= 1 && forall i :: 0 <= i < |ds| ==> IsDigit(ds[i])
    requires ds[0] == '0' ==> |ds| == 1
    ensures ParseMagnitude(ds) == Some(DigitsValue(ds, false))
  {
    assert DigitPrefix(ds, false) == ds;
  }

  /** Text starting with a digit parses to the value of its magnitude. */
  lemma ParseIntOfUnsigned(ds: string, m: nat)
    requires |ds| >= 1 && IsDigit(ds[0])
    requires ParseMagnitude(ds) == Some(m)
    ensures ParseInt(ds) == Some(m as int)
  {
    TrimStartOfUnspaced(ds);
    ParseSignedOfUnsigned(ds, m);
  }

  /** Without a sign, the magnitude is the value. */
  lemma ParseSignedOfUnsigned(t: string, m: nat)
    requires |t| > 0 && IsDigit(t[0]) && ParseMagnitude(t) == Some(m)
    ensures ParseSigned(t) == Some(m as int)
  {
    assert t[0] != '-' && t[0] != '+';
  }

  /** The same text after a minus sign parses to the negated magnitude. */
  lemma ParseIntOfNegated(ds: string, m: nat)
    requires |ds| >= 1 && IsDigit(ds[0])
    requires ParseMagnitude(ds) == Some(m)
    ensures ParseInt("-" + ds) == Some(-(m as int))
  {
    var s := "-" + ds;
    TrimStartOfUnspaced(s);
    assert s[1..] == ds;
    ParseSignedOfMinus(s, m);
  }

  /** After a minus sign, the magnitude is negated; the signed step of
      `ParseIntOfNegated`. */
  lemma ParseSignedOfMinus(t: string, m: nat)
    requires |t| > 0 && t[0] == '-' && ParseMagnitude(t[1..]) == Some(m)
    ensures ParseSigned(t) == Some(-(m as int))
  {
  }

  /** The decimal rendering of `n` is read back as `n` by the magnitude parser; used by
      `ParseIntToString`. */
  lemma ParseMagnitudeOfNatToString(n: nat)
    ensures ParseMagnitude(NatToString(n)) == Some(n)
  {
    NatToStringValue(n);
    ParseMagnitudeOfDigits(NatToString(n));
  }

  /** `parseInt(String(n)) === n` for every integer `n`. */
  lemma ParseIntToString(n: int)
    ensures ParseInt(IntToString(n)) == Some(n)
  {
    var m: nat := if n < 0 then -n else n;
    ParseMagnitudeOfNatToString(m);
    if n < 0 {
      ParseIntOfNegated(NatToString(m), m);
    } else {
      ParseIntOfUnsigned(NatToString(m), m);
    }
  }

  /** Distinct integers render as distinct strings. */
  lemma IntToStringInjective(a: int, b: int)
    requires IntToString(a) == IntToString(b)
    ensures a == b
  {
    ParseIntToString(a);
    ParseIntToString(b);
  }
}
