/**
 * Day 6, the one computation kept: reading a number whose digits are separated by
 * spaces ("kerning"), as in " 7  15   30" for 71530.
 */
module Day6 {
  import opened Text

  /**
   * `parse_number_ignore_spaces`: every digit character, in order, is appended to the
   * running value (`result *= 10; result += v`); everything else is skipped.
   */
  method ParseNumberIgnoreSpaces(src: string) returns (result: int)
    ensures result == DecimalValue(DigitsOf(src))
    ensures result >= 0
  {
    result := 0;
    for i := 0 to |src|
      invariant result == DecimalValue(DigitsOf(src[..i]))
    {
      DigitsOfStep(src, i);
      if IsDigit(src[i]) {
        result := result * 10 + DigitValue(src[i]);
      }
    }
    assert src[..|src|] == src;
  }

  /** One more character of the input appends its digit to the value, if it is one. */
  lemma DigitsOfStep(s: string, i: nat)
    requires i < |s|
    ensures DecimalValue(DigitsOf(s[..i + 1])) ==
      if IsDigit(s[i]) then DecimalValue(DigitsOf(s[..i])) * 10 + DigitValue(s[i])
      else DecimalValue(DigitsOf(s[..i]))
  {
    assert s[..i + 1][..i] == s[..i];
    if IsDigit(s[i]) {
      var ds := DigitsOf(s[..i]) + [s[i]];
      assert ds[..|ds| - 1] == DigitsOf(s[..i]);
    } else {
      var ds := DigitsOf(s[..i]);
      assert DigitsOf(s[..i + 1]) == ds + [] == ds;
    }
  }

  /** Characters that are not digits, such as ' ' or '-', change nothing. */
  lemma IgnoresNonDigit(a: string, c: char, b: string)
    requires !IsDigit(c)
    ensures DigitsOf(a + [c] + b) == DigitsOf(a + b)
  {
    DigitsOfAppend(a + [c], b);
    DigitsOfAppend(a, [c]);
    assert [c][..0] == [];
    DigitsOfAppend(a, b);
  }

  /** Without digits the value is zero. */
  lemma NoDigitsIsZero(s: string)
    requires forall i :: 0 <= i < |s| ==> !IsDigit(s[i])
    ensures DecimalValue(DigitsOf(s)) == 0
  {
    DigitsOfEmpty(s);
  }

  /** The kerned race time of the puzzle statement. */
  lemma KernedExample()
    ensures DecimalValue(DigitsOf(" 7  15   30")) == 71530
  {
    var t: string := [];
    t := Snoc(t, ' ', 0);
    t := Snoc(t, '7', 0);
    t := Snoc(t, ' ', 7);
    t := Snoc(t, ' ', 7);
    t := Snoc(t, '1', 7);
    t := Snoc(t, '5', 71);
    t := Snoc(t, ' ', 715);
    t := Snoc(t, ' ', 715);
    t := Snoc(t, ' ', 715);
    t := Snoc(t, '3', 715);
    t := Snoc(t, '0', 7153);
    assert t == " 7  15   30";
  }

  /** Reading one more character of a text whose value is known. */
  lemma Snoc(t: string, c: char, v: nat) returns (u: string)
    requires DecimalValue(DigitsOf(t)) == v
    ensures u == t + [c]
    ensures DecimalValue(DigitsOf(u)) == if IsDigit(c) then v * 10 + DigitValue(c) else v
  {
    u := t + [c];
    DigitsOfSnoc(t, c);
    if IsDigit(c) {
      DecimalValueSnoc(DigitsOf(t), c);
    } else {
      assert DigitsOf(t) + [] == DigitsOf(t);
    }
  }

  lemma DigitsOfSnoc(t: string, c: char)
    ensures DigitsOf(t + [c]) == DigitsOf(t) + (if IsDigit(c) then [c] else [])
  {
    assert (t + [c])[..|t|] == t;
  }

  lemma DecimalValueSnoc(ds: string, c: char)
    requires AllDigits(ds) && IsDigit(c)
    ensures AllDigits(ds + [c]) && DecimalValue(ds + [c]) == DecimalValue(ds) * 10 + DigitValue(c)
  {
    assert (ds + [c])[..|ds|] == ds;
  }
}
