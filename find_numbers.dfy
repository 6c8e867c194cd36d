/**
 * Calibration digits of a line: the first and last decimal digit, either as digit
 * characters only, or also as spelled-out words ("one" … "nine", "zero").
 *
 * The word matcher is a leftmost-first multi-pattern search over `Patterns`: the
 * match that starts earliest, and among those the pattern listed first. The search
 * itself is specified here; how it is implemented is not part of the model.
 */
module FindNumbers {
  import opened Wrappers
  import opened Text

  /** The patterns in matcher order; pattern p stands for the digit p % 10. */
  const Patterns: seq<string> := [
    "0", "1", "2", "3", "4", "5", "6", "7", "8", "9",
    "zero", "one", "two", "three", "four", "five", "six", "seven", "eight", "nine"
  ]

  // ---------------------------------------------------------------------------
  // Digit characters only
  // ---------------------------------------------------------------------------

  /** `find_two_digits`: ten times the first digit character of the line plus the last. */
  function FindTwoDigits(line: string): (r: Option<nat>)
    ensures r.Some? ==> r.value < 100
  {
    var ds := DigitsOf(line);
    if ds == [] then None else Some(DigitValue(ds[0]) * 10 + DigitValue(ds[|ds| - 1]))
  }

  /** No value exactly when the line holds no digit character. */
  lemma FindTwoDigitsNone(line: string)
    ensures FindTwoDigits(line).None? <==> forall i :: 0 <= i < |line| ==> !IsDigit(line[i])
  {
    DigitsOfEmpty(line);
  }

  /** With i the first and j the last digit position, the value is built from those two digits. */
  lemma FindTwoDigitsFirstLast(line: string, i: nat, j: nat)
    requires i <= j < |line| && IsDigit(line[i]) && IsDigit(line[j])
    requires forall k :: 0 <= k < i ==> !IsDigit(line[k])
    requires forall k :: j < k < |line| ==> !IsDigit(line[k])
    ensures FindTwoDigits(line) == Some(DigitValue(line[i]) * 10 + DigitValue(line[j]))
  {
    DigitsOfFirst(line, i);
    DigitsOfLast(line, j);
  }

  /** A line whose only digit is d gives 11 * d. */
  lemma FindTwoDigitsSingle(line: string, i: nat)
    requires i < |line| && IsDigit(line[i])
    requires forall k :: 0 <= k < |line| && k != i ==> !IsDigit(line[k])
    ensures FindTwoDigits(line) == Some(11 * DigitValue(line[i]))
  {
    FindTwoDigitsFirstLast(line, i, i);
  }

  lemma DigitsOfSingle(c: char)
    ensures DigitsOf([c]) == if IsDigit(c) then [c] else []
  {
    assert [c][..0] == [];
  }

  /** The first digit character of s heads its digit subsequence. */
  lemma DigitsOfFirst(s: string, i: nat)
    requires i < |s| && IsDigit(s[i]) && forall k :: 0 <= k < i ==> !IsDigit(s[k])
    ensures DigitsOf(s) != [] && DigitsOf(s)[0] == s[i]
  {
    var a, b := s[..i], s[i + 1..];
    assert s == a + [s[i]] + b;
    assert forall k :: 0 <= k < |a| ==> !IsDigit(a[k]);
    DigitsOfEmpty(a);
    DigitsOfAround(a, s[i], b);
  }

  /** The last digit character of s ends its digit subsequence. */
  lemma DigitsOfLast(s: string, j: nat)
    requires j < |s| && IsDigit(s[j]) && forall k :: j < k < |s| ==> !IsDigit(s[k])
    ensures DigitsOf(s) != [] && DigitsOf(s)[|DigitsOf(s)| - 1] == s[j]
  {
    var a, b := s[..j], s[j + 1..];
    assert s == a + [s[j]] + b;
    assert forall k :: 0 <= k < |b| ==> !IsDigit(b[k]) by {
      forall k | 0 <= k < |b| ensures !IsDigit(b[k]) { assert b[k] == s[j + 1 + k]; }
    }
    DigitsOfEmpty(b);
    DigitsOfAround(a, s[j], b);
  }

  /** A digit between two texts sits between their digit subsequences. */
  lemma DigitsOfAround(a: string, c: char, b: string)
    requires IsDigit(c)
    ensures DigitsOf(a + [c] + b) == DigitsOf(a) + [c] + DigitsOf(b)
  {
    DigitsOfAppend(a + [c], b);
    DigitsOfAppend(a, [c]);
    DigitsOfSingle(c);
  }

  // ---------------------------------------------------------------------------
  // Digits and digit words
  // ---------------------------------------------------------------------------

  /** Pattern p is spelled in s starting at position i. */
  predicate OccursAt(s: string, i: nat, p: nat)
    requires p < |Patterns|
  {
    SpellsAt(s, i, Patterns[p])
  }

  /** The word w is spelled in s from position i on, one character at a time. */
  predicate SpellsAt(s: string, i: nat, w: string)
    decreases |w|
  {
    w == [] || (i < |s| && s[i] == w[0] && SpellsAt(s, i + 1, w[1..]))
  }

  /** Spelling w at i is the slice of s at i being w. */
  lemma {:induction false} SpellsAtSlice(s: string, i: nat, w: string)
    requires i <= |s|
    ensures SpellsAt(s, i, w) <==> i + |w| <= |s| && s[i..i + |w|] == w
    decreases |w|
  {
    if w != [] && i < |s| {
      var n := |w|;
      SpellsAtSlice(s, i + 1, w[1..]);
      if i + n <= |s| {
        var t := s[i..i + n];
        assert t == [s[i]] + s[i + 1..i + n];
        assert w == [w[0]] + w[1..];
        if t == w {
          assert t[0] == w[0] && t[1..] == w[1..];
        }
      }
    }
  }

  /** The first pattern, in matcher order from p, spelled at position i. */
  function PatternAt(s: string, i: nat, p: nat): Option<nat>
    requires p <= |Patterns|
    decreases |Patterns| - p
  {
    if p == |Patterns| then None
    else if OccursAt(s, i, p) then Some(p)
    else PatternAt(s, i, p + 1)
  }

  /** No pattern starts anywhere in s at or after position i. */
  predicate NoneFrom(s: string, i: nat)
  {
    forall j :: i <= j < |s| ==> PatternAt(s, j, 0).None?
  }

  datatype Match = Match(start: nat, pattern: nat)

  /** The leftmost-first match in s starting at or after i. */
  function FindFrom(s: string, i: nat): (m: Option<Match>)
    ensures m.Some? ==> i <= m.value.start < |s|
    decreases |s| - i
  {
    if i >= |s| then None
    else match PatternAt(s, i, 0)
      case Some(p) => Some(Match(i, p))
      case None => FindFrom(s, i + 1)
  }

  /** The matcher's `find`: the leftmost-first match in s. */
  function Find(s: string): Option<Match>
  {
    FindFrom(s, 0)
  }

  /**
   * The values the digit iterator yields on s: the matched pattern's digit, then,
   * one byte dropped, the iterator on the rest; nothing once no pattern occurs.
   */
  function Yields(s: string): (ys: seq<nat>)
    ensures forall k :: 0 <= k < |ys| ==> ys[k] < 10
    decreases |s|
  {
    match Find(s)
      case None => []
      case Some(m) => [m.pattern % 10] + Yields(s[1..])
  }

  /** `find_two_digits_words`: ten times the first yielded digit plus the last one. */
  function FindTwoDigitsWords(line: string): (r: Option<nat>)
    ensures r.Some? ==> r.value < 100
  {
    var ys := Yields(line);
    if ys == [] then None else Some(ys[0] * 10 + ys[|ys| - 1])
  }

  /** `DigitMatches`: the digit iterator over the text still to be searched. */
  class DigitMatches {
    var s: string

    /** `find_digits`. */
    constructor (text: string)
      ensures s == text
    {
      s := text;
    }

    /**
     * `next`: yields the digit of the leftmost-first match and drops one byte, or
     * yields nothing and empties the text when no pattern occurs in it.
     */
    method Next() returns (v: Option<nat>)
      modifies this
      ensures v.None? <==> NoneFrom(old(s), 0)
      ensures v.None? ==> s == []
      ensures v.Some? ==> v.value < 10 && s == old(s)[1..]
      ensures Yields(old(s)) == if v.None? then [] else [v.value] + Yields(s)
    {
      FindIsLeftmost(s);
      match Find(s)
      case Some(m) =>
        v := Some(m.pattern % 10);
        s := s[1..];
      case None =>
        v := None;
        s := [];
    }
  }

  /**
   * `find_two_digits_words` as the running program computes it: one iterator is
   * advanced once for the first digit, and a copy is run to exhaustion for the last.
   */
  method FindTwoDigitsWordsByIterator(line: string) returns (r: Option<nat>)
    ensures r == FindTwoDigitsWords(line)
  {
    var first := new DigitMatches(line);
    var f := first.Next();
    if f.None? {
      return None;
    }
    var digits := new DigitMatches(line);
    var last := Last(digits);
    r := Some(f.value * 10 + last.value);
  }

  /** `Iterator::last`: run the iterator to exhaustion, keeping the final value. */
  method Last(it: DigitMatches) returns (last: Option<nat>)
    modifies it
    ensures last.None? <==> Yields(old(it.s)) == []
    ensures last.Some? ==> last.value == Yields(old(it.s))[|Yields(old(it.s))| - 1]
  {
    ghost var ys := Yields(it.s);
    last := None;
    ghost var consumed: seq<nat> := [];
    var v := it.Next();
    while v.Some?
      invariant ys == consumed + if v.None? then [] else [v.value] + Yields(it.s)
      invariant last.Some? <==> consumed != []
      invariant last.Some? ==> last.value == consumed[|consumed| - 1]
      decreases |it.s|, v.Some?
    {
      last := v;
      consumed := consumed + [v.value];
      v := it.Next();
    }
  }

  // ---------------------------------------------------------------------------
  // The search meets its specification
  // ---------------------------------------------------------------------------

  /** Digit patterns spell their own digit; pattern p + 10 is the word for p. */
  lemma PatternDigits(p: nat)
    requires p < 10
    ensures Patterns[p] == [DigitChar(p)] && Patterns[p + 10] != [] && IsAlpha(Patterns[p + 10][0])
  {
  }

  /** PatternAt picks the first pattern from p, in matcher order, that is spelled at i. */
  lemma {:induction false} PatternAtIsFirst(s: string, i: nat, p: nat)
    requires p <= |Patterns| && PatternAt(s, i, p).Some?
    ensures var q := PatternAt(s, i, p).value;
      p <= q < |Patterns| && OccursAt(s, i, q) && forall r :: p <= r < q ==> !OccursAt(s, i, r)
    decreases |Patterns| - p
  {
    if !OccursAt(s, i, p) {
      assert PatternAt(s, i, p) == PatternAt(s, i, p + 1);
      PatternAtIsFirst(s, i, p + 1);
      var q := PatternAt(s, i, p).value;
      assert forall r :: p + 1 <= r < q ==> !OccursAt(s, i, r);
    }
  }

  /** PatternAt finds nothing exactly when no pattern from p is spelled at i. */
  lemma {:induction false} PatternAtNone(s: string, i: nat, p: nat)
    requires p <= |Patterns| && PatternAt(s, i, p).None?
    ensures forall r :: p <= r < |Patterns| ==> !OccursAt(s, i, r)
    decreases |Patterns| - p
  {
    if p < |Patterns| {
      PatternAtNone(s, i, p + 1);
    }
  }

  /** FindFrom is the leftmost position from i where a pattern is spelled. */
  lemma {:induction false} FindFromIsLeftmost(s: string, i: nat)
    ensures FindFrom(s, i).None? <==> NoneFrom(s, i)
    ensures FindFrom(s, i).Some? ==>
      var m := FindFrom(s, i).value;
      PatternAt(s, m.start, 0) == Some(m.pattern) && forall j :: i <= j < m.start ==> PatternAt(s, j, 0).None?
    decreases |s| - i
  {
    if i < |s| && PatternAt(s, i, 0).None? {
      FindFromIsLeftmost(s, i + 1);
    }
  }

  lemma FindIsLeftmost(s: string)
    ensures Find(s).None? <==> NoneFrom(s, 0)
    ensures Find(s).Some? ==>
      var m := Find(s).value;
      PatternAt(s, m.start, 0) == Some(m.pattern) && forall j :: 0 <= j < m.start ==> PatternAt(s, j, 0).None?
  {
    FindFromIsLeftmost(s, 0);
  }

  /** A word spelled in the rest of s is spelled one position later in s. */
  lemma {:induction false} SpellsAtTail(s: string, j: nat, w: string)
    requires s != []
    ensures SpellsAt(s[1..], j, w) == SpellsAt(s, j + 1, w)
    decreases |w|
  {
    if w != [] && j < |s| - 1 {
      assert s[1..][j] == s[j + 1];
      SpellsAtTail(s, j + 1, w[1..]);
    }
  }

  /** Dropping the first byte shifts every pattern position down by one. */
  lemma {:induction false} PatternAtTail(s: string, j: nat, p: nat)
    requires s != [] && p <= |Patterns|
    ensures PatternAt(s[1..], j, p) == PatternAt(s, j + 1, p)
    decreases |Patterns| - p
  {
    if p < |Patterns| {
      SpellsAtTail(s, j, Patterns[p]);
      PatternAtTail(s, j, p + 1);
    }
  }

  /** The iterator stops on the rest of s exactly when no pattern starts after position 0. */
  lemma TailNone(s: string)
    requires s != []
    ensures NoneFrom(s[1..], 0) <==> NoneFrom(s, 1)
  {
    forall j | 0 <= j < |s| - 1 ensures PatternAt(s[1..], j, 0) == PatternAt(s, j + 1, 0) {
      PatternAtTail(s, j, 0);
    }
    if NoneFrom(s[1..], 0) {
      forall j | 1 <= j < |s| ensures PatternAt(s, j, 0).None? {
        assert PatternAt(s[1..], j - 1, 0) == PatternAt(s, j, 0);
      }
    }
  }

  /** No value exactly when no pattern occurs anywhere in the line. */
  lemma FindTwoDigitsWordsNone(line: string)
    ensures FindTwoDigitsWords(line).None? <==> NoneFrom(line, 0)
  {
    FindIsLeftmost(line);
  }

  /** The first yielded digit is that of the leftmost-first match of the line. */
  lemma FirstYield(line: string, i: nat)
    requires i < |line| && PatternAt(line, i, 0).Some?
    requires forall j :: 0 <= j < i ==> PatternAt(line, j, 0).None?
    ensures Yields(line) != [] && Yields(line)[0] == PatternAt(line, i, 0).value % 10
  {
    FindIsLeftmost(line);
    assert !NoneFrom(line, 0);
    var m := Find(line).value;
    assert m.start == i;
  }

  /**
   * The last yielded digit is that of the pattern listed first among those starting
   * at the greatest start position j, so overlapping words such as "eightwo" end on
   * the later word.
   */
  lemma {:induction false} LastYield(line: string, j: nat)
    requires j < |line| && PatternAt(line, j, 0).Some? && NoneFrom(line, j + 1)
    ensures Yields(line) != [] && Yields(line)[|Yields(line)| - 1] == PatternAt(line, j, 0).value % 10
    decreases |line|
  {
    FindIsLeftmost(line);
    assert !NoneFrom(line, 0) by { assert PatternAt(line, j, 0).Some?; }
    var m := Find(line).value;
    var rest := line[1..];
    assert Yields(line) == [m.pattern % 10] + Yields(rest);
    if j == 0 {
      assert NoneFrom(line, 1);
      TailNone(line);
      FindIsLeftmost(rest);
      assert Yields(rest) == [];
      assert m.start == 0;
    } else {
      PatternAtTail(line, j - 1, 0);
      forall k | j <= k < |rest| ensures PatternAt(rest, k, 0).None? {
        PatternAtTail(line, k, 0);
      }
      LastYield(rest, j - 1);
    }
  }

  /**
   * With i the leftmost and j the greatest start of a pattern, the value is the digit
   * of the first-listed pattern at i, times ten, plus that of the one at j.
   */
  lemma FindTwoDigitsWordsFirstLast(line: string, i: nat, j: nat)
    requires i < |line| && PatternAt(line, i, 0).Some?
    requires forall k :: 0 <= k < i ==> PatternAt(line, k, 0).None?
    requires j < |line| && PatternAt(line, j, 0).Some? && NoneFrom(line, j + 1)
    ensures FindTwoDigitsWords(line) == Some(PatternAt(line, i, 0).value % 10 * 10 + PatternAt(line, j, 0).value % 10)
  {
    FirstYield(line, i);
    LastYield(line, j);
  }
}
