/**
 * Character classes and string helpers shared by the solvers. Input bytes are
 * modelled as `char` (the inputs are ASCII text).
 */
module Text {

  /** `u8::is_ascii_digit`, `char::is_ascii_digit` and `char::to_digit(10)`. */
  predicate IsDigit(c: char) { '0' <= c <= '9' }

  function DigitValue(c: char): (d: nat)
    requires IsDigit(c)
    ensures d < 10
  {
    (c as int) - ('0' as int)
  }

  /** The character of a digit value; inverse of `DigitValue`. */
  function DigitChar(d: nat): (c: char)
    requires d < 10
    ensures IsDigit(c) && DigitValue(c) == d
  {
    (('0' as int) + d) as char
  }

  predicate AllDigits(s: string) { forall i :: 0 <= i < |s| ==> IsDigit(s[i]) }

  /** The value of a digit string read left to right, one `v = v * 10 + d` per digit. */
  function DecimalValue(s: string): nat
    requires AllDigits(s)
  {
    if s == [] then 0 else DecimalValue(s[..|s| - 1]) * 10 + DigitValue(s[|s| - 1])
  }

  /** The shortest decimal rendering of n (no leading zero, "0" for zero); see ShowDigits. */
  function Show(n: nat): (s: string)
    ensures |s| > 0
  {
    if n < 10 then [DigitChar(n)] else Show(n / 10) + [DigitChar(n % 10)]
  }

  /** Show writes only digits, they read back as n, and only zero starts with '0'. */
  lemma {:induction false} ShowDigits(n: nat)
    ensures AllDigits(Show(n)) && DecimalValue(Show(n)) == n
    ensures Show(n)[0] == '0' ==> n == 0
  {
    if n >= 10 {
      ShowDigits(n / 10);
      var prefix := Show(n / 10);
      var s := Show(n);
      assert s == prefix + [DigitChar(n % 10)];
      assert s[..|s| - 1] == prefix;
      assert s[0] == prefix[0];
    }
  }

  /** The digit characters of s, in order (`chars().filter(is_ascii_digit)`). */
  function DigitsOf(s: string): (ds: string)
    ensures AllDigits(ds) && |ds| <= |s|
  {
    if s == [] then []
    else DigitsOf(s[..|s| - 1]) + (if IsDigit(s[|s| - 1]) then [s[|s| - 1]] else [])
  }

  lemma {:induction false} DigitsOfAppend(a: string, b: string)
    ensures DigitsOf(a + b) == DigitsOf(a) + DigitsOf(b)
    decreases |b|
  {
    if b == [] {
      assert a + b == a;
    } else {
      var b' := b[..|b| - 1];
      assert (a + b)[..|a + b| - 1] == a + b';
      DigitsOfAppend(a, b');
    }
  }

  /** No digit character in s, exactly when its digit subsequence is empty. */
  lemma {:induction false} DigitsOfEmpty(s: string)
    ensures DigitsOf(s) == [] <==> forall i :: 0 <= i < |s| ==> !IsDigit(s[i])
  {
    if s != [] {
      var s' := s[..|s| - 1];
      DigitsOfEmpty(s');
      if DigitsOf(s) == [] {
        forall i | 0 <= i < |s| ensures !IsDigit(s[i]) {
          if i < |s| - 1 { assert s[i] == s'[i]; }
        }
      }
    }
  }

  /** Whitespace as nom's `space0`/`space1` see it. */
  predicate IsSpace(c: char) { c == ' ' || c == '\t' }

  /** Whitespace as nom's `multispace0` sees it. */
  predicate IsMultispace(c: char) { c == ' ' || c == '\t' || c == '\r' || c == '\n' }

  /** nom's `alpha1` alphabet. */
  predicate IsAlpha(c: char) { ('a' <= c <= 'z') || ('A' <= c <= 'Z') }

  /** Rust's `char::is_whitespace` (the Unicode White_Space property). */
  predicate IsWhitespace(c: char)
  {
    ('\U{9}' <= c <= '\U{D}') || c == ' ' || c == '\U{85}' || c == '\U{A0}' || c == '\U{1680}'
    || ('\U{2000}' <= c <= '\U{200A}') || c == '\U{2028}' || c == '\U{2029}' || c == '\U{202F}'
    || c == '\U{205F}' || c == '\U{3000}'
  }

  function TrimStart(s: string): (r: string)
    ensures |r| <= |s| && r == s[|s| - |r|..]
    ensures r == [] || !IsWhitespace(r[0])
    ensures forall i :: 0 <= i < |s| - |r| ==> IsWhitespace(s[i])
  {
    if s != [] && IsWhitespace(s[0]) then TrimStart(s[1..]) else s
  }

  function TrimEnd(s: string): (r: string)
    ensures |r| <= |s| && r == s[..|r|]
    ensures r == [] || !IsWhitespace(r[|r| - 1])
    ensures forall i :: |r| <= i < |s| ==> IsWhitespace(s[i])
  {
    if s != [] && IsWhitespace(s[|s| - 1]) then TrimEnd(s[..|s| - 1]) else s
  }

  /**
   * `str::trim`: the slice of s that starts where TrimStart stops cutting; it neither
   * starts nor ends with whitespace, and everything cut off on either side is whitespace.
   */
  function Trim(s: string): (r: string)
    ensures r == [] || (!IsWhitespace(r[0]) && !IsWhitespace(r[|r| - 1]))
    ensures var a := |s| - |TrimStart(s)|;
      && a + |r| <= |s| && r == s[a..a + |r|]
      && (forall i :: 0 <= i < a ==> IsWhitespace(s[i]))
      && (forall i :: a + |r| <= i < |s| ==> IsWhitespace(s[i]))
  {
    var t := TrimStart(s);
    var r := TrimEnd(t);
    SliceOfSuffix(s, t, r);
    r
  }

  /** A prefix r of the suffix t of s is a slice of s, and what follows r in t follows it in s. */
  lemma SliceOfSuffix(s: string, t: string, r: string)
    requires |t| <= |s| && t == s[|s| - |t|..] && |r| <= |t| && r == t[..|r|]
    requires forall i :: |r| <= i < |t| ==> IsWhitespace(t[i])
    ensures var a := |s| - |t|; r == s[a..a + |r|] && forall i :: a + |r| <= i < |s| ==> IsWhitespace(s[i])
  {
    var a := |s| - |t|;
    forall i | a + |r| <= i < |s|
      ensures IsWhitespace(s[i])
    {
      assert s[i] == t[i - a];
    }
  }

  /** A string with no whitespace at either end is its own trim. */
  lemma TrimUnchanged(s: string)
    requires s == [] || (!IsWhitespace(s[0]) && !IsWhitespace(s[|s| - 1]))
    ensures Trim(s) == s
  {
  }

  /** The pieces of s between newlines (the last piece may be empty). */
  function Lines(s: string): (ls: seq<string>)
    ensures |ls| > 0
    ensures forall i :: 0 <= i < |ls| ==> '\n' !in ls[i]
    decreases |s|
  {
    if '\n' !in s then [s]
    else
      var k := IndexOf(s, '\n');
      [s[..k]] + Lines(s[k + 1..])
  }

  /** Lines loses nothing: its pieces, each but the last followed by a newline, give s back. */
  lemma {:induction false} LinesRejoin(s: string)
    ensures var ls := Lines(s); JoinLines(ls[..|ls| - 1]) + ls[|ls| - 1] == s
    decreases |s|
  {
    if '\n' in s {
      var k := IndexOf(s, '\n');
      var rest := Lines(s[k + 1..]);
      LinesRejoin(s[k + 1..]);
      var init, last := rest[..|rest| - 1], rest[|rest| - 1];
      JoinLinesCons(s[..k], init);
      DropLastCons(s[..k], rest);
      RejoinAt(s, k, JoinLines(init), last);
    }
  }

  /** JoinLines writes its first string and a newline, then the rest. */
  lemma JoinLinesCons(x: string, ys: seq<string>)
    ensures JoinLines([x] + ys) == x + "\n" + JoinLines(ys)
  {
    assert ([x] + ys)[1..] == ys;
  }

  /** Dropping the last element of a non-empty sequence commutes with putting one in front. */
  lemma DropLastCons<T>(x: T, ys: seq<T>)
    requires |ys| > 0
    ensures ([x] + ys)[..|ys|] == [x] + ys[..|ys| - 1]
    ensures ([x] + ys)[|ys|] == ys[|ys| - 1]
  {
  }

  /** A newline at k joins the text before it to the text after it. */
  lemma RejoinAt(s: string, k: nat, j: string, last: string)
    requires k < |s| && s[k] == '\n' && j + last == s[k + 1..]
    ensures s[..k] + "\n" + j + last == s
  {
    assert s[..k] + "\n" + j + last == s[..k] + "\n" + (j + last);
    assert s == s[..k] + [s[k]] + s[k + 1..];
  }

  function IndexOf(s: string, c: char): (k: nat)
    requires c in s
    ensures k < |s| && s[k] == c && c !in s[..k]
  {
    if s[0] == c then 0
    else
      assert c in s[1..] by { var j :| 0 <= j < |s| && s[j] == c; assert s[1..][j - 1] == c; }
      var k := 1 + IndexOf(s[1..], c);
      assert s[..k] == [s[0]] + s[1..][..k - 1];
      k
  }

  /** The strings of ls joined, each followed by a newline. */
  function JoinLines(ls: seq<string>): string
  {
    if ls == [] then [] else ls[0] + "\n" + JoinLines(ls[1..])
  }

  /** Lines undoes JoinLines: the last piece is the empty text after the final newline. */
  lemma {:induction false} LinesOfJoin(ls: seq<string>)
    requires forall i :: 0 <= i < |ls| ==> '\n' !in ls[i]
    ensures Lines(JoinLines(ls)) == ls + [""]
  {
    if ls != [] {
      NoNewlinesTail(ls);
      LinesOfJoin(ls[1..]);
      LinesStep(ls[0], JoinLines(ls[1..]));
      ConsAppend(ls, "");
    }
  }

  lemma NoNewlinesTail(ls: seq<string>)
    requires ls != [] && forall i :: 0 <= i < |ls| ==> '\n' !in ls[i]
    ensures '\n' !in ls[0] && forall i :: 0 <= i < |ls[1..]| ==> '\n' !in ls[1..][i]
  {
  }

  lemma ConsAppend<T>(xs: seq<T>, y: T)
    requires xs != []
    ensures xs + [y] == [xs[0]] + (xs[1..] + [y])
  {
  }

  /** A line without newline, then a newline: the first piece is that line. */
  lemma LinesStep(x: string, rest: string)
    requires '\n' !in x
    ensures Lines(x + "\n" + rest) == [x] + Lines(rest)
  {
    var s := x + "\n" + rest;
    assert s[|x|] == '\n';
    var k := IndexOf(s, '\n');
    assert s[..k] == x;
    assert s[k + 1..] == rest;
  }

  /** A slice that spells x + y spells x and then y. */
  lemma SliceSplit(s: string, i: nat, x: string, y: string)
    requires i + |x + y| <= |s| && s[i..i + |x + y|] == x + y
    ensures s[i..i + |x|] == x && s[i + |x|..i + |x| + |y|] == y
  {
    assert s[i..i + |x|] == (x + y)[..|x|];
    assert s[i + |x|..i + |x| + |y|] == (x + y)[|x|..];
  }
}
