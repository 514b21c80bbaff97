/** Decimal numbers as the tools read and write them: Rust's `str::parse::<usize>` on a
    64-bit target, `Display` for unsigned integers, and right alignment in a field. */
module Decimal {
  import opened Wrappers

  /** The largest `usize` on a 64-bit target. */
  const USIZE_MAX: nat := 0xFFFF_FFFF_FFFF_FFFF

  predicate IsDigit(c: char)
  {
    '0' <= c <= '9'
  }

  predicate AllDigits(s: string)
  {
    forall i :: 0 <= i < |s| ==> IsDigit(s[i])
  }

  function DigitChar(d: nat): (c: char)
    requires d < 10
    ensures IsDigit(c)
  {
    ('0' as int + d) as char
  }

  /** The value of a string of decimal digits, most significant first. */
  function Value(s: string): nat
    requires AllDigits(s)
  {
    if |s| == 0 then 0
    else Value(s[..|s| - 1]) * 10 + (s[|s| - 1] as int - '0' as int)
  }

  /** `n` in decimal, without leading zeros; reading it back gives `n`. */
  function Format(n: nat): (s: string)
    ensures 0 < |s| && AllDigits(s)
    ensures s[0] == '0' ==> n == 0
    ensures Value(s) == n
  {
    if n < 10 then [DigitChar(n)]
    else
      var s := Format(n / 10) + [DigitChar(n % 10)];
      assert s[..|s| - 1] == Format(n / 10);
      s
  }

  /** `str::parse::<usize>`: an optional `+`, then one or more ASCII digits whose value
      fits in 64 bits; anything else (an empty string, a sign alone, a `-`, any other
      character, an overflow) is rejected. */
  function ParseUsize(s: string): (r: Option<nat>)
    ensures r.Some? ==> r.value <= USIZE_MAX
    ensures r.Some? ==> exists k :: 0 <= k <= 1 && k <= |s| && (k == 1 ==> s[0] == '+') && s[k..] != "" && AllDigits(s[k..]) && Value(s[k..]) == r.value
    ensures s != "" && AllDigits(s) && Value(s) <= USIZE_MAX ==> r == Some(Value(s))
  {
    var k := if 0 < |s| && s[0] == '+' then 1 else 0;
    var digits := s[k..];
    if |digits| == 0 || !AllDigits(digits) || Value(digits) > USIZE_MAX then None
    else Some(Value(digits))
  }

  /** Every text of one or more digits whose value fits in a `usize` is accepted with
      that value, with or without a leading `+`; leading zeros are allowed. */
  lemma {:induction false} ParseUsizeAccepts(s: string)
    requires s != "" && AllDigits(s) && Value(s) <= USIZE_MAX
    ensures ParseUsize(s) == Some(Value(s))
    ensures ParseUsize("+" + s) == Some(Value(s))
  {
    assert ("+" + s)[0] == '+';
    assert ("+" + s)[1..] == s;
  }

  /** "007" is 7 and "+5" is 5. */
  lemma {:induction false} ParseUsizeExamples()
    ensures ParseUsize("007") == Some(7)
    ensures ParseUsize("+5") == Some(5)
  {
    assert "007"[..2] == "00" && "00"[..1] == "0";
    ParseUsizeAccepts("007");
    ParseUsizeAccepts("5");
    assert "+" + "5" == "+5";
  }

  /** Parsing what `Format` writes gives the number back, for every `usize`. */
  lemma {:induction false} FormatParses(n: nat)
    requires n <= USIZE_MAX
    ensures ParseUsize(Format(n)) == Some(n)
  {
    assert Format(n)[0] != '+';
    assert Format(n)[0..] == Format(n);
  }

  function Spaces(k: nat): (r: string)
    ensures |r| == k
    ensures forall i :: 0 <= i < k ==> r[i] == ' '
  {
    seq(k, _ => ' ')
  }

  /** `{:>width}`: `s` padded on the left with spaces to at least `width` characters. */
  function RightAlign(s: string, width: nat): (r: string)
    ensures |r| == if |s| < width then width else |s|
    ensures r[|r| - |s|..] == s
    ensures forall i :: 0 <= i < |r| - |s| ==> r[i] == ' '
  {
    if |s| < width then Spaces(width - |s|) + s else s
  }

  /** `s` without its leading spaces. */
  function TrimLeadingSpaces(s: string): string
  {
    if |s| == 0 || s[0] != ' ' then s else TrimLeadingSpaces(s[1..])
  }

  /** Trimming removes a run of spaces from the front and nothing else: what is left is
      a suffix of `s` that does not start with a space. */
  lemma {:induction false} TrimIsSuffix(s: string)
    ensures var r := TrimLeadingSpaces(s);
            |r| <= |s| && r == s[|s| - |r|..] &&
            (forall i :: 0 <= i < |s| - |r| ==> s[i] == ' ') &&
            (r != "" ==> r[0] != ' ')
  {
    if |s| != 0 && s[0] == ' ' {
      TrimIsSuffix(s[1..]);
      var r := TrimLeadingSpaces(s);
      assert s[1..][|s| - 1 - |r|..] == s[|s| - |r|..];
      forall i | 0 <= i < |s| - |r|
        ensures s[i] == ' '
      {
        if i > 0 {
          assert s[i] == s[1..][i - 1];
        }
      }
    }
  }

  /** Trimming `p` spaces in front of a string that does not start with a space gives
      that string. */
  lemma {:induction false} TrimSpaces(p: nat, s: string)
    requires s != "" && s[0] != ' '
    ensures TrimLeadingSpaces(Spaces(p) + s) == s
  {
    if p > 0 {
      assert (Spaces(p) + s)[1..] == Spaces(p - 1) + s;
      TrimSpaces(p - 1, s);
    }
  }

  /** Trimming a right-aligned field gives back what was aligned, when that does not
      itself start with a space. */
  lemma {:induction false} TrimRightAlign(s: string, width: nat)
    requires s != "" && s[0] != ' '
    ensures TrimLeadingSpaces(RightAlign(s, width)) == s
  {
    if |s| < width {
      TrimSpaces(width - |s|, s);
    }
  }
}
