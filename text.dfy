/** The pieces of Rust's string handling the tool relies on: `Display` and
    `{:0N}` formatting of unsigned integers, `u32::from_str`, `str::trim`
    and `str::replace`. */
module Text {
  import opened Bytes

  predicate IsAsciiDigit(c: char) {
    '0' <= c <= '9'
  }

  predicate AllDigits(s: string) {
    forall i :: 0 <= i < |s| ==> IsAsciiDigit(s[i])
  }

  function DigitChar(d: nat): (c: char)
    requires d < 10
    ensures IsAsciiDigit(c)
  {
    (48 + d) as char
  }

  /** The number a run of decimal digits denotes, leading zeros allowed. */
  function DigitsValue(s: string): nat
    requires AllDigits(s)
  {
    if s == [] then 0 else 10 * DigitsValue(s[..|s| - 1]) + (s[|s| - 1] as int - 48)
  }

  /** `n.to_string()`: the shortest decimal spelling of `n`. */
  function Decimal(n: nat): (s: string)
    ensures 1 <= |s| && AllDigits(s)
    ensures DigitsValue(s) == n
    ensures |s| > 1 ==> s[0] != '0'
    ensures n < 10 ==> |s| == 1
    ensures n >= 10 ==> |s| >= 2
  {
    if n < 10 then [DigitChar(n)]
    else
      var s := Decimal(n / 10) + [DigitChar(n % 10)];
      assert s[..|s| - 1] == Decimal(n / 10);
      s
  }

  /** A spelling with `width` digits or more, padded with leading zeros. */
  function ZeroPad(s: string, width: nat): (r: string)
    ensures |r| == if |s| >= width then |s| else width
    ensures AllDigits(s) ==> AllDigits(r)
  {
    if |s| >= width then s else seq(width - |s|, _ => '0') + s
  }

  /** `format!("{:0width$}", n)`. */
  function PaddedDecimal(n: nat, width: nat): (s: string)
    ensures AllDigits(s) && |s| >= 1
  {
    ZeroPad(Decimal(n), width)
  }

  lemma {:induction false} DigitsValueAppend(a: string, b: string)
    requires AllDigits(a) && AllDigits(b)
    ensures AllDigits(a + b)
    ensures DigitsValue(a + b) == DigitsValue(a) * Pow10(|b|) + DigitsValue(b)
    decreases |b|
  {
    AllDigitsAppend(a, b);
    if b == [] {
      assert a + b == a;
    } else {
      var b' := b[..|b| - 1];
      var d := b[|b| - 1] as int - 48;
      AllDigitsAppend(a, b');
      DigitsValueAppend(a, b');
      DigitsLast(a, b, b', d);
      assert Pow10(|b|) == 10 * Pow10(|b'|);
      Regroup(DigitsValue(a), DigitsValue(b'), Pow10(|b'|), d);
    }
  }

  /** The last digit of `a + b` is the last digit of `b`. */
  lemma {:induction false} DigitsLast(a: string, b: string, b': string, d: int)
    requires AllDigits(a) && AllDigits(b) && AllDigits(a + b) && AllDigits(a + b')
    requires b != [] && b' == b[..|b| - 1] && d == b[|b| - 1] as int - 48
    ensures DigitsValue(a + b) == 10 * DigitsValue(a + b') + d
    ensures DigitsValue(b) == 10 * DigitsValue(b') + d
  {
    assert (a + b)[..|a + b| - 1] == a + b';
    assert (a + b)[|a + b| - 1] == b[|b| - 1];
  }

  lemma {:induction false} AllDigitsAppend(a: string, b: string)
    requires AllDigits(a) && AllDigits(b)
    ensures AllDigits(a + b)
  {
  }

  lemma {:induction false} Regroup(va: int, vb: int, p: int, d: int)
    ensures 10 * (va * p + vb) + d == va * (10 * p) + (10 * vb + d)
  {
    assert 10 * (va * p) == va * (10 * p);
  }

  function Pow10(k: nat): (r: nat)
    ensures r >= 1
  {
    if k == 0 then 1 else 10 * Pow10(k - 1)
  }

  lemma {:induction false} NoDigitsValue(z: string)
    requires forall i :: 0 <= i < |z| ==> z[i] == '0'
    ensures AllDigits(z) && DigitsValue(z) == 0
  {
    if z != [] {
      NoDigitsValue(z[..|z| - 1]);
    }
  }

  /** Leading zeros do not change the value of a spelling. */
  lemma {:induction false} PaddedValue(n: nat, width: nat)
    ensures DigitsValue(PaddedDecimal(n, width)) == n
  {
    var d := Decimal(n);
    if |d| < width {
      var z := seq(width - |d|, _ => '0');
      NoDigitsValue(z);
      DigitsValueAppend(z, d);
    }
  }

  /** `u32::from_str`: an optional leading '+', then one or more ASCII digits
      whose value fits in 32 bits. */
  function ParseU32(s: string): (r: Option<u32>)
  {
    var digits := if |s| > 0 && s[0] == '+' then s[1..] else s;
    if |digits| == 0 || !AllDigits(digits) then None
    else if DigitsValue(digits) < U32_LIMIT then Some(DigitsValue(digits))
    else None
  }

  /** `u32::from_str` reads back what `to_string` prints, and nothing else
      spelled with digits only. */
  lemma {:induction false} ParseDecimal(n: u32)
    ensures ParseU32(Decimal(n)) == Some(n)
  {
  }

  /** Rust's `char::is_whitespace`: the Unicode White_Space property. */
  predicate IsWhitespace(c: char) {
    ('\U{0009}' <= c <= '\U{000D}') || c == ' ' || c == '\U{0085}' || c == '\U{00A0}' ||
    c == '\U{1680}' || ('\U{2000}' <= c <= '\U{200A}') || c == '\U{2028}' || c == '\U{2029}' ||
    c == '\U{202F}' || c == '\U{205F}' || c == '\U{3000}'
  }

  function TrimStart(s: string): (r: string)
    ensures |r| <= |s| && r == s[|s| - |r|..]
    ensures r != [] ==> !IsWhitespace(r[0])
  {
    if s != [] && IsWhitespace(s[0]) then TrimStart(s[1..]) else s
  }

  function TrimEnd(s: string): (r: string)
    ensures |r| <= |s| && r == s[..|r|]
    ensures r != [] ==> !IsWhitespace(r[|r| - 1])
  {
    if s != [] && IsWhitespace(s[|s| - 1]) then TrimEnd(s[..|s| - 1]) else s
  }

  /** `str::trim`: whitespace removed from both ends. */
  function Trim(s: string): string {
    TrimEnd(TrimStart(s))
  }

  lemma {:induction false} TrimStartNoWhitespace(s: string)
    requires s != [] && !IsWhitespace(s[0])
    ensures TrimStart(s) == s
  {
  }

  lemma {:induction false} TrimEndNoWhitespace(s: string)
    requires s != [] && !IsWhitespace(s[|s| - 1])
    ensures TrimEnd(s) == s
  {
  }

  /** `s.replace(pat, rep)`: every non-overlapping occurrence of `pat`,
      scanning left to right, is replaced by `rep`. */
  function ReplaceAll(s: string, pat: string, rep: string): string
    requires |pat| > 0
  {
    if |s| < |pat| then s
    else if s[..|pat|] == pat then rep + ReplaceAll(s[|pat|..], pat, rep)
    else [s[0]] + ReplaceAll(s[1..], pat, rep)
  }

  /** Replacing a one-character pattern by text without it leaves no trace of it. */
  lemma {:induction false} ReplaceCharRemoves(s: string, c: char, rep: string)
    requires c !in rep
    ensures c !in ReplaceAll(s, [c], rep)
  {
    if |s| >= 1 {
      ReplaceCharRemoves(s[1..], c, rep);
    }
  }

  /** Replacing with text that lacks a character adds no occurrence of it. */
  lemma {:induction false} ReplaceKeepsAbsent(s: string, pat: string, rep: string, c: char)
    requires |pat| > 0 && c !in s && c !in rep
    ensures c !in ReplaceAll(s, pat, rep)
  {
    if |s| >= |pat| {
      if s[..|pat|] == pat {
        assert forall i :: |pat| <= i < |s| ==> s[|pat|..][i - |pat|] == s[i];
        ReplaceKeepsAbsent(s[|pat|..], pat, rep, c);
      } else {
        assert forall i :: 1 <= i < |s| ==> s[1..][i - 1] == s[i];
        ReplaceKeepsAbsent(s[1..], pat, rep, c);
      }
    }
  }

  /** Text without the pattern's first character is left as it is. */
  lemma {:induction false} ReplaceAbsent(s: string, pat: string, rep: string)
    requires |pat| > 0 && pat[0] !in s
    ensures ReplaceAll(s, pat, rep) == s
  {
    if |s| >= |pat| {
      assert s[..|pat|][0] == s[0];
      ReplaceAbsent(s[1..], pat, rep);
    }
  }

  /** `k` decimal digits spell a number below 10^k. */
  lemma {:induction false} DigitsBelow(s: string)
    requires AllDigits(s)
    ensures DigitsValue(s) < Pow10(|s|)
  {
    if s != [] {
      DigitsBelow(s[..|s| - 1]);
    }
  }

  /** A spelling that starts with a non-zero digit is at least 10^(k-1). */
  lemma {:induction false} LeadingDigitBound(s: string)
    requires AllDigits(s) && |s| >= 1 && s[0] != '0'
    ensures DigitsValue(s) >= Pow10(|s| - 1)
  {
    if |s| > 1 {
      var p := s[..|s| - 1];
      assert p[0] == s[0];
      LeadingDigitBound(p);
    }
  }

  lemma {:induction false} Pow10Grows(j: nat, k: nat)
    requires j <= k
    ensures Pow10(j) <= Pow10(k)
    decreases k
  {
    if j < k {
      Pow10Grows(j, k - 1);
    }
  }

  /** Numbers below 10^k print with at most `k` digits, and numbers from
      10^k on with more. */
  lemma {:induction false} DecimalLength(n: nat, k: nat)
    ensures n < Pow10(k) ==> |Decimal(n)| <= k || (k == 0 && n == 0)
    ensures n >= Pow10(k) ==> |Decimal(n)| > k
  {
    var s := Decimal(n);
    DigitsBelow(s);
    if n >= Pow10(k) && |s| <= k {
      Pow10Grows(|s|, k);
      assert false;
    }
    if n < Pow10(k) && |s| > k && |s| > 1 {
      LeadingDigitBound(s);
      Pow10Grows(k, |s| - 1);
      assert false;
    }
  }

  /** `pat` occurs in `s` starting at `i`. */
  predicate MatchesAt(s: string, pat: string, i: nat) {
    i + |pat| <= |s| && s[i..i + |pat|] == pat
  }

  /** Text in which the pattern never occurs is left as it is. */
  lemma {:induction false} ReplaceNoMatch(s: string, pat: string, rep: string)
    requires |pat| > 0
    requires forall i: nat :: !MatchesAt(s, pat, i)
    ensures ReplaceAll(s, pat, rep) == s
  {
    if |s| >= |pat| {
      assert !MatchesAt(s, pat, 0);
      assert s[0..0 + |pat|] == s[..|pat|];
      var t := s[1..];
      forall i: nat
        ensures !MatchesAt(t, pat, i)
      {
        if i + |pat| <= |t| {
          assert !MatchesAt(s, pat, i + 1);
          assert t[i..i + |pat|] == s[i + 1..i + 1 + |pat|];
        }
      }
      ReplaceNoMatch(t, pat, rep);
      assert [s[0]] + t == s;
    }
  }
}
