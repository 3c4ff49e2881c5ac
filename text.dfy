/** The .NET string and number operations the sources rely on: `string.Split(char)`,
    `string.Join`, `string.Replace(char, char)`, `char.IsWhiteSpace`, `char.ToLowerInvariant`,
    `int.ToString()` and `int.TryParse(string, out int)`. */
module Text {
  import opened Wrappers

  /** .NET's `int` (System.Int32). */
  newtype int32 = x: int | -0x8000_0000 <= x < 0x8000_0000

  predicate IsInt32(x: int) {
    -0x8000_0000 <= x < 0x8000_0000
  }

  // ---------------------------------------------------------------------------
  // Characters

  /** `char.IsWhiteSpace`: the Unicode separators (Zs, Zl, Zp) plus U+0009..U+000D and U+0085. */
  predicate IsWhiteSpace(c: char) {
    || c == ' ' || ('\t' <= c <= '\r') || c == '\U{85}' || c == '\U{A0}' || c == '\U{1680}'
    || ('\U{2000}' <= c <= '\U{200A}') || c == '\U{2028}' || c == '\U{2029}' || c == '\U{202F}'
    || c == '\U{205F}' || c == '\U{3000}'
  }

  /** `string.IsNullOrWhiteSpace`. */
  predicate IsNullOrWhiteSpace(s: Option<string>) {
    s.None? || forall i :: 0 <= i < |s.value| ==> IsWhiteSpace(s.value[i])
  }

  /** `string.IsNullOrEmpty`. */
  predicate IsNullOrEmpty(s: Option<string>) {
    s.None? || |s.value| == 0
  }

  predicate IsUpperLatin(c: char) {
    ('A' <= c <= 'Z') || ('\U{C0}' <= c <= '\U{DE}' && c != '\U{D7}')
  }

  /** `char.ToLowerInvariant` on the Basic Latin and Latin-1 letters. */
  function ToLowerInvariant(c: char): (r: char)
    ensures IsUpperLatin(c) ==> r as int == c as int + 32
    ensures !IsUpperLatin(c) ==> r == c
  {
    if IsUpperLatin(c) then (c as int + 32) as char else c
  }

  // ---------------------------------------------------------------------------
  // Join, Split, Replace

  /** `string.Join(sep, xs)`. */
  function Join(sep: string, xs: seq<string>): string {
    if |xs| == 0 then ""
    else if |xs| == 1 then xs[0]
    else xs[0] + sep + Join(sep, xs[1..])
  }

  /** `s.Split(c)`: the pieces between occurrences of `c`, empty pieces included. */
  function Split(s: string, c: char): (r: seq<string>)
    ensures |r| > 0
  {
    if |s| == 0 then [""]
    else
      var rest := Split(s[1..], c);
      if s[0] == c then [""] + rest else [[s[0]] + rest[0]] + rest[1..]
  }

  /** No piece produced by `Split` contains the separator. */
  lemma {:induction false} SplitPiecesFree(s: string, c: char)
    ensures forall i :: 0 <= i < |Split(s, c)| ==> c !in Split(s, c)[i]
  {
    if |s| > 0 {
      SplitPiecesFree(s[1..], c);
    }
  }

  /** Joining the pieces with the separator gives back the string. */
  lemma {:induction false} JoinSplit(s: string, c: char)
    ensures Join([c], Split(s, c)) == s
  {
    if |s| > 0 {
      var rest := Split(s[1..], c);
      JoinSplit(s[1..], c);
      if s[0] == c {
        assert ([""] + rest)[1..] == rest;
      } else if |rest| > 1 {
        assert ([[s[0]] + rest[0]] + rest[1..])[1..] == rest[1..];
      }
    }
  }

  lemma {:induction false} SplitFree(x: string, c: char)
    requires c !in x
    ensures Split(x, c) == [x]
  {
    if |x| > 0 {
      SplitFree(x[1..], c);
      assert [x[0]] + x[1..] == x;
    }
  }

  lemma {:induction false} SplitPrefix(x: string, rest: string, c: char)
    requires c !in x
    ensures Split(x + [c] + rest, c) == [x] + Split(rest, c)
  {
    if |x| == 0 {
      assert x + [c] + rest == [c] + rest;
      assert ([c] + rest)[1..] == rest;
    } else {
      SplitPrefix(x[1..], rest, c);
      assert (x + [c] + rest)[1..] == x[1..] + [c] + rest;
      assert (x + [c] + rest)[0] == x[0];
      assert [x[0]] + x[1..] == x;
    }
  }

  /** Splitting a join gives back the pieces, provided none contains the separator. */
  lemma {:induction false} SplitJoin(xs: seq<string>, c: char)
    requires |xs| > 0
    requires forall i :: 0 <= i < |xs| ==> c !in xs[i]
    ensures Split(Join([c], xs), c) == xs
  {
    if |xs| == 1 {
      SplitFree(xs[0], c);
    } else {
      SplitJoin(xs[1..], c);
      SplitPrefix(xs[0], Join([c], xs[1..]), c);
      assert [xs[0]] + xs[1..] == xs;
    }
  }

  /** `s.Replace(from, to)` for characters. */
  function ReplaceChar(s: string, from: char, to: char): (r: string)
    ensures |r| == |s|
    ensures forall i :: 0 <= i < |s| ==> r[i] == (if s[i] == from then to else s[i])
  {
    if |s| == 0 then "" else [if s[0] == from then to else s[0]] + ReplaceChar(s[1..], from, to)
  }

  // ---------------------------------------------------------------------------
  // Decimal text of integers

  predicate IsDigit(c: char) {
    '0' <= c <= '9'
  }

  predicate AllDigits(s: string) {
    forall i :: 0 <= i < |s| ==> IsDigit(s[i])
  }

  function DigitChar(d: nat): char
    requires d < 10
  {
    ('0' as int + d) as char
  }

  function DigitValue(c: char): nat
    requires IsDigit(c)
  {
    c as int - '0' as int
  }

  /** The value of a string of decimal digits, read left to right. */
  function DigitsValue(s: string): nat
    requires AllDigits(s)
  {
    if |s| == 0 then 0 else DigitsValue(s[..|s| - 1]) * 10 + DigitValue(s[|s| - 1])
  }

  /** The shortest decimal digits of `n`. */
  function NatToDigits(n: nat): (r: string)
    ensures |r| > 0
  {
    if n < 10 then [DigitChar(n)] else NatToDigits(n / 10) + [DigitChar(n % 10)]
  }

  /** `int.ToString()` with the invariant negative sign: a "-" exactly for a negative value,
      then the decimal digits of its magnitude. */
  function IntToString(i: int): (r: string)
    ensures |r| > 0 && (r[0] == '-' <==> i < 0)
    ensures i < 0 ==> AllDigits(r[1..]) && DigitsValue(r[1..]) == -i
    ensures i >= 0 ==> AllDigits(r) && DigitsValue(r) == i
  {
    var n: nat := if i < 0 then -i else i;
    DigitsRoundTrip(n);
    var digits := NatToDigits(n);
    assert IsDigit(digits[0]);
    if i < 0 then
      var r := "-" + digits;
      assert r[1..] == digits;
      r
    else digits
  }

  lemma {:induction false} DigitsRoundTrip(n: nat)
    ensures AllDigits(NatToDigits(n))
    ensures DigitsValue(NatToDigits(n)) == n
  {
    if n >= 10 {
      DigitsRoundTrip(n / 10);
      var s := NatToDigits(n);
      assert s[..|s| - 1] == NatToDigits(n / 10);
    }
  }

  /** The decimal text of an integer holds no separator used by the generated names. */
  lemma IntToStringFree(i: int, c: char)
    requires !IsDigit(c) && c != '-'
    ensures c !in IntToString(i)
  {
    DigitsRoundTrip(if i < 0 then -i else i);
  }

  /** The white space `int.TryParse` skips around the number (NumberStyles.Integer). */
  predicate IsParseWhite(c: char) {
    c == ' ' || ('\t' <= c <= '\r')
  }

  function TrimStart(s: string): (r: string)
    ensures |r| <= |s| && forall c :: c in r ==> c in s
  {
    if |s| > 0 && IsParseWhite(s[0]) then TrimStart(s[1..]) else s
  }

  function TrimEnd(s: string): (r: string)
    ensures |r| <= |s| && forall c :: c in r ==> c in s
  {
    if |s| > 0 && IsParseWhite(s[|s| - 1]) then TrimEnd(s[..|s| - 1]) else s
  }

  /** `int.TryParse(s, out v)`: optional surrounding white space, an optional sign,
      one or more decimal digits, and a value within the range of `int`. */
  function TryParseInt32(s: string): (r: Option<int32>)
    ensures |s| > 0 && AllDigits(s) && DigitsValue(s) <= 0x7fff_ffff ==> r == Some(DigitsValue(s) as int32)
    ensures r.Some? ==> exists c :: c in s && IsDigit(c)
  {
    var t := TrimEnd(TrimStart(s));
    if |t| == 0 then None
    else
      var digits := if t[0] == '-' || t[0] == '+' then t[1..] else t;
      if |digits| == 0 || !AllDigits(digits) then None
      else
        var v: int := if t[0] == '-' then 0 - DigitsValue(digits) as int else DigitsValue(digits);
        if IsInt32(v) then Some(v as int32) else None
  }

  /** What `int.ToString()` prints, `int.TryParse` reads back. */
  lemma ParseOfToString(i: int32)
    ensures TryParseInt32(IntToString(i as int)) == Some(i)
  {
    var n: nat := if i < 0 then -(i as int) else i as int;
    DigitsRoundTrip(n);
    var s := IntToString(i as int);
    var d := NatToDigits(n);
    assert IsDigit(d[|d| - 1]);
    assert !IsParseWhite(s[0]) && !IsParseWhite(s[|s| - 1]);
    assert TrimEnd(TrimStart(s)) == s;
    if i < 0 {
      assert s[1..] == d;
    }
  }

  /** A string with a non-digit (other than a sign) after the white space is not a number. */
  lemma ParseRejects(s: string)
    requires |s| > 0 && !IsParseWhite(s[0]) && !IsDigit(s[0]) && s[0] != '-' && s[0] != '+'
    ensures TryParseInt32(s) == None
  {
    var t := TrimEnd(s);
    TrimEndKeepsStart(s);
  }

  lemma {:induction false} TrimEndKeepsStart(s: string)
    requires |s| > 0 && !IsParseWhite(s[0])
    ensures |TrimEnd(s)| > 0 && TrimEnd(s)[0] == s[0]
  {
    if IsParseWhite(s[|s| - 1]) {
      TrimEndKeepsStart(s[..|s| - 1]);
    }
  }
}
