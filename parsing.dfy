/**
 * The nom combinators the solvers' grammars are built from, written directly as
 * functions over a string and a position. A parser that matches returns the
 * value and the position after it; one that does not match returns None.
 */
module Parsing {
  import opened Wrappers
  import opened Text

  datatype Parsed<T> = Parsed(value: T, next: nat)

  /** The character classes the grammars skip over. */
  datatype CharClass = Spaces | Multispaces | Digits | Letters

  predicate InClass(c: char, p: CharClass)
  {
    match p
    case Spaces => IsSpace(c)
    case Multispaces => IsMultispace(c)
    case Digits => IsDigit(c)
    case Letters => IsAlpha(c)
  }

  /** The position after the longest run of characters of class p that starts at i. */
  function SkipWhile(s: string, i: nat, p: CharClass): (j: nat)
    requires i <= |s|
    ensures i <= j <= |s|
    ensures j == |s| || !InClass(s[j], p)
    decreases |s| - i
  {
    if i < |s| && InClass(s[i], p) then SkipWhile(s, i + 1, p) else i
  }

  /** Every character SkipWhile passes over is of class p. */
  lemma {:induction false} SkipWhileRun(s: string, i: nat, p: CharClass)
    requires i <= |s|
    ensures forall k :: i <= k < SkipWhile(s, i, p) ==> InClass(s[k], p)
    decreases |s| - i
  {
    if i < |s| && InClass(s[i], p) { SkipWhileRun(s, i + 1, p); }
  }

  /** `space0`: any number of spaces and tabs. */
  function Space0(s: string, i: nat): (j: nat)
    requires i <= |s|
    ensures i <= j <= |s|
  {
    SkipWhile(s, i, Spaces)
  }

  /** `space1`: at least one space or tab. */
  function Space1(s: string, i: nat): (r: Option<nat>)
    requires i <= |s|
    ensures r.Some? ==> i < r.value <= |s|
    ensures r.Some? <==> i < |s| && IsSpace(s[i])
  {
    var j := Space0(s, i);
    if j == i then None else Some(j)
  }

  /** `multispace0`: any number of spaces, tabs, carriage returns and newlines. */
  function Multispace0(s: string, i: nat): (j: nat)
    requires i <= |s|
    ensures i <= j <= |s|
  {
    SkipWhile(s, i, Multispaces)
  }

  /** `tag(t)`: the literal t at position i. */
  function Tag(s: string, i: nat, t: string): (r: Option<nat>)
    requires i <= |s|
    ensures r.Some? <==> i + |t| <= |s| && s[i..i + |t|] == t
    ensures r.Some? ==> r.value == i + |t|
  {
    if i + |t| <= |s| && s[i..i + |t|] == t then Some(i + |t|) else None
  }

  /** The digits from j on, accumulated onto acc one `acc * 10 + d` at a time. */
  function ReadDigits(s: string, j: nat, acc: nat): (r: Parsed<nat>)
    requires j <= |s|
    ensures j <= r.next <= |s|
    ensures r.next == |s| || !IsDigit(s[r.next])
    decreases |s| - j
  {
    if j < |s| && IsDigit(s[j]) then ReadDigits(s, j + 1, acc * 10 + DigitValue(s[j])) else Parsed(acc, j)
  }

  /** `tag` of a one-character literal, or `char(c)`: the character c at position i. */
  function Char(s: string, i: nat, c: char): (r: Option<nat>)
    requires i <= |s|
    ensures r.Some? <==> i < |s| && s[i] == c
    ensures r.Some? ==> r.value == i + 1
  {
    if i < |s| && s[i] == c then Some(i + 1) else None
  }

  /** `u32`: one or more decimal digits, read as a number (see UnsignedValue). */
  function Unsigned(s: string, i: nat): (r: Option<Parsed<nat>>)
    requires i <= |s|
    ensures r.Some? <==> i < |s| && IsDigit(s[i])
    ensures r.Some? ==> i < r.value.next <= |s|
    ensures r.Some? ==> r.value.next == |s| || !IsDigit(s[r.value.next])
  {
    if i < |s| && IsDigit(s[i]) then Some(ReadDigits(s, i, 0)) else None
  }

  /**
   * Reading on from j, with the value of the digits i..j accumulated so far, ends at the
   * first non-digit e with the value of the digits i..e.
   */
  lemma {:induction false} ReadDigitsRun(s: string, i: nat, j: nat, e: nat)
    requires i <= j <= e <= |s|
    requires forall k :: i <= k < e ==> IsDigit(s[k])
    requires e == |s| || !IsDigit(s[e])
    ensures AllDigits(s[i..j]) && AllDigits(s[i..e])
    ensures ReadDigits(s, j, DecimalValue(s[i..j])) == Parsed(DecimalValue(s[i..e]), e)
    decreases e - j
  {
    assert AllDigits(s[i..j]) by { forall k | 0 <= k < j - i ensures IsDigit(s[i..j][k]) { assert s[i..j][k] == s[i + k]; } }
    assert AllDigits(s[i..e]) by { forall k | 0 <= k < e - i ensures IsDigit(s[i..e][k]) { assert s[i..e][k] == s[i + k]; } }
    if j < e {
      ReadDigitsRun(s, i, j + 1, e);
      assert s[i..j + 1][..j - i] == s[i..j];
      assert DecimalValue(s[i..j + 1]) == DecimalValue(s[i..j]) * 10 + DigitValue(s[j]);
    }
  }

  /** The digits ReadDigits passes over from j are all digits. */
  lemma {:induction false} ReadDigitsDigits(s: string, j: nat, acc: nat)
    requires j <= |s|
    ensures forall k :: j <= k < ReadDigits(s, j, acc).next ==> IsDigit(s[k])
    decreases |s| - j
  {
    if j < |s| && IsDigit(s[j]) { ReadDigitsDigits(s, j + 1, acc * 10 + DigitValue(s[j])); }
  }

  /** What Unsigned reads is a run of digits, and its value is their decimal value. */
  lemma UnsignedValue(s: string, i: nat)
    requires i <= |s| && Unsigned(s, i).Some?
    ensures var p := Unsigned(s, i).value;
      AllDigits(s[i..p.next]) && p.value == DecimalValue(s[i..p.next])
  {
    var p := Unsigned(s, i).value;
    ReadDigitsDigits(s, i, 0);
    ReadDigitsRun(s, i, i, p.next);
    assert s[i..i] == [];
  }

  /** `i32`/`i64`: an optional '+' or '-' followed by one or more decimal digits. */
  function Signed(s: string, i: nat): (r: Option<Parsed<int>>)
    requires i <= |s|
    ensures r.Some? ==> i < r.value.next <= |s|
  {
    var signed := i < |s| && (s[i] == '+' || s[i] == '-');
    match Unsigned(s, if signed then i + 1 else i)
    case None => None
    case Some(p) => Some(Parsed(if signed && s[i] == '-' then -(p.value as int) else p.value, p.next))
  }

  /** `alpha1`: one or more ASCII letters. */
  function Alpha1(s: string, i: nat): (r: Option<Parsed<string>>)
    requires i <= |s|
    ensures r.Some? ==> i < r.value.next <= |s| && r.value.value == s[i..r.value.next]
    ensures r.Some? ==> forall k :: i <= k < r.value.next ==> IsAlpha(s[k])
    ensures r.Some? ==> r.value.next == |s| || !IsAlpha(s[r.value.next])
    ensures r.None? <==> i == |s| || !IsAlpha(s[i])
  {
    var j := SkipWhile(s, i, Letters);
    SkipWhileRun(s, i, Letters);
    if j == i then None else Some(Parsed(s[i..j], j))
  }

  /** The decimal rendering of n followed by a non-digit is read back as n, up to that character. */
  lemma UnsignedShow(s: string, i: nat, n: nat)
    requires i + |Show(n)| <= |s| && s[i..i + |Show(n)|] == Show(n)
    requires i + |Show(n)| == |s| || !IsDigit(s[i + |Show(n)|])
    ensures Unsigned(s, i) == Some(Parsed(n, i + |Show(n)|))
  {
    var t := Show(n);
    ShowDigits(n);
    assert s[i] == t[0];
    forall k | i <= k < i + |t| ensures IsDigit(s[k]) { assert s[k] == t[k - i]; }
    ReadDigitsRun(s, i, i, i + |t|);
    assert s[i..i] == [];
  }

  lemma {:induction false} SkipWhileStops(s: string, i: nat, p: CharClass, j: nat)
    requires i <= j <= |s|
    requires forall k :: i <= k < j ==> InClass(s[k], p)
    requires j == |s| || !InClass(s[j], p)
    ensures SkipWhile(s, i, p) == j
    decreases j - i
  {
    if i < j { SkipWhileStops(s, i + 1, p, j); }
  }

  /** A signed rendering (a '-' before the digits of a negative number) is read back by Signed. */
  lemma SignedShow(s: string, i: nat, n: int)
    requires i + |ShowSigned(n)| <= |s| && s[i..i + |ShowSigned(n)|] == ShowSigned(n)
    requires i + |ShowSigned(n)| == |s| || !IsDigit(s[i + |ShowSigned(n)|])
    ensures Signed(s, i) == Some(Parsed(n, i + |ShowSigned(n)|))
  {
    if n < 0 {
      assert ShowSigned(n) == "-" + Show(-n);
      NegativeShow(s, i, -n);
    } else {
      assert s[i] == ShowSigned(n)[0];
      UnsignedShow(s, i, n);
    }
  }

  /** A '-' followed by the digits of m is read back by Signed as -m. */
  lemma NegativeShow(s: string, i: nat, m: nat)
    requires i + |"-" + Show(m)| <= |s| && s[i..i + |"-" + Show(m)|] == "-" + Show(m)
    requires i + |"-" + Show(m)| == |s| || !IsDigit(s[i + |"-" + Show(m)|])
    ensures Signed(s, i) == Some(Parsed(-(m as int), i + 1 + |Show(m)|))
  {
    SliceSplit(s, i, "-", Show(m));
    assert s[i] == s[i..i + 1][0];
    UnsignedShow(s, i + 1, m);
  }

  /** `space0` followed by a signed number reads back a written number, after no space or one. */
  lemma SpacedSignedShow(s: string, i: nat, j: nat, n: int)
    requires j == i || (j == i + 1 && i < |s| && IsSpace(s[i]))
    requires j + |ShowSigned(n)| <= |s| && s[j..j + |ShowSigned(n)|] == ShowSigned(n)
    requires j + |ShowSigned(n)| == |s| || !IsDigit(s[j + |ShowSigned(n)|])
    ensures Signed(s, Space0(s, i)) == Some(Parsed(n, j + |ShowSigned(n)|))
  {
    assert s[j] == ShowSigned(n)[0];
    if n < 0 { assert ShowSigned(n)[0] == '-'; } else { ShowDigits(n); }
    SkipWhileStops(s, i, Spaces, j);
    SignedShow(s, j, n);
  }

  /** A written number starts with '-' or a digit. */
  lemma ShowSignedHead(n: int)
    ensures ShowSigned(n)[0] == '-' || IsDigit(ShowSigned(n)[0])
  {
    if n >= 0 {
      ShowDigits(n);
    }
  }

  /** `i64`'s `Display`: a '-' before the digits of a negative number. */
  function ShowSigned(n: int): (t: string)
    ensures |t| > 0
    decreases if n < 0 then 1 else 0
  {
    if n < 0 then "-" + ShowSigned(-n) else Show(n)
  }
}
