/**
 * `AsciiGrid`: a rectangle of bytes stored row after row, read from text whose
 * non-blank lines (after trimming) all have the same length; cells are addressed
 * by points, and the eight compass directions step from a cell to its neighbours.
 */
module Grid {
  import opened Wrappers
  import opened Text

  /** `IVec2`: a point of the grid, or an offset between two points. */
  datatype Point = Point(x: int, y: int)

  function Add(p: Point, d: Point): Point
  {
    Point(p.x + d.x, p.y + d.y)
  }

  /** Cell (x, y) of a width-w grid is byte x + y * w, inside a w * h buffer. */
  lemma CellIndex(x: nat, y: nat, w: nat, h: nat)
    requires x < w && y < h
    ensures y * w + w <= w * h && x + y * w < w * h
  {
    RowBounds(y, w, h);
  }

  /** Row y of a width-w grid ends inside a w * h buffer. */
  lemma RowBounds(y: nat, w: nat, h: nat)
    requires y < h
    ensures y * w + w <= w * h
  {
    assert y * w + w == (y + 1) * w;
    assert (y + 1) * w <= h * w by {
      assert y + 1 <= h;
    }
  }

  datatype AsciiGrid = AsciiGrid(contents: seq<char>, width: nat, height: nat)
  {
    /** One byte per cell: every grid that TryFrom builds has this shape. */
    predicate Valid()
    {
      |contents| == width * height
    }

    predicate InBounds(at: Point)
    {
      0 <= at.x < width && 0 <= at.y < height
    }

    /** `get`: the byte at a point, or None off the grid. */
    function Get(at: Point): (r: Option<char>)
      requires Valid()
      ensures r.Some? <==> InBounds(at)
    {
      if InBounds(at) then
        CellIndex(at.x, at.y, width, height);
        Some(contents[at.x + at.y * width])
      else None
    }

    /** Row y, left to right. */
    function Row(y: nat): (r: string)
      requires Valid() && y < height
      ensures |r| == width
    {
      RowBounds(y, width, height);
      contents[y * width..y * width + width]
    }

    /** The first n rows, top to bottom. */
    function RowsUpTo(n: nat): (rs: seq<string>)
      requires Valid() && n <= height
      ensures |rs| == n
    {
      if n == 0 then [] else RowsUpTo(n - 1) + [Row(n - 1)]
    }

    function Rows(): (rs: seq<string>)
      requires Valid()
    {
      RowsUpTo(height)
    }
  }

  /** A cell of a row is the cell Get finds at that point. */
  lemma GetRow(g: AsciiGrid, x: nat, y: nat)
    requires g.Valid() && x < g.width && y < g.height
    ensures g.Get(Point(x, y)) == Some(g.Row(y)[x])
  {
    CellIndex(x, y, g.width, g.height);
  }

  lemma RowsUpToIndex(g: AsciiGrid, n: nat, y: nat)
    requires g.Valid() && y < n <= g.height
    ensures g.RowsUpTo(n)[y] == g.Row(y)
  {
    if y < n - 1 {
      RowsUpToIndex(g, n - 1, y);
    }
  }

  // ---------------------------------------------------------------------------
  // Construction from text (`TryFrom<&str>`)

  /** `.map(|s| s.trim())`. */
  function TrimAll(ls: seq<string>): (ts: seq<string>)
    ensures |ts| == |ls| && forall k :: 0 <= k < |ls| ==> ts[k] == Trim(ls[k])
  {
    seq(|ls|, k requires 0 <= k < |ls| => Trim(ls[k]))
  }

  /** `.filter(|s| !s.is_empty())`. */
  function NonBlank(ts: seq<string>): (ks: seq<string>)
    ensures |ks| <= |ts|
  {
    if ts == [] then []
    else if ts[|ts| - 1] == [] then NonBlank(ts[..|ts| - 1])
    else NonBlank(ts[..|ts| - 1]) + [ts[|ts| - 1]]
  }

  /** The lines a grid is made of: the trimmed non-blank lines of the text. */
  function KeptLines(value: string): seq<string>
  {
    NonBlank(TrimAll(Lines(value)))
  }

  /** All lines as long as the first one. */
  predicate SameWidth(ks: seq<string>)
    requires ks != []
  {
    forall k :: 0 <= k < |ks| ==> |ks[k]| == |ks[0]|
  }

  /** The lines one after the other (`extend_from_slice` in a loop). */
  function Concat(ks: seq<string>): string
  {
    if ks == [] then [] else Concat(ks[..|ks| - 1]) + ks[|ks| - 1]
  }

  /** The grid whose rows are the given lines. */
  function FromLines(ks: seq<string>): AsciiGrid
    requires ks != []
  {
    AsciiGrid(Concat(ks), |ks[0]|, |ks|)
  }

  datatype GridError = EmptyString | MismatchedLineLength

  lemma NonBlankStep(ts: seq<string>, i: nat)
    requires i < |ts|
    ensures NonBlank(ts[..i + 1]) == NonBlank(ts[..i]) + (if ts[i] == [] then [] else [ts[i]])
  {
    assert ts[..i + 1][..i] == ts[..i];
  }

  /** Filtering a prefix gives a prefix of the filtered lines. */
  lemma {:induction false} NonBlankPrefix(ts: seq<string>, j: nat)
    requires j <= |ts|
    ensures |NonBlank(ts[..j])| <= |NonBlank(ts)| && NonBlank(ts)[..|NonBlank(ts[..j])|] == NonBlank(ts[..j])
  {
    if j == |ts| {
      assert ts[..j] == ts;
    } else {
      var init := ts[..|ts| - 1];
      NonBlankPrefix(init, j);
      assert init[..j] == ts[..j];
      PrefixOfAppend(NonBlank(init), if ts[|ts| - 1] == [] then [] else [ts[|ts| - 1]], NonBlank(ts[..j]));
    }
  }

  lemma PrefixOfAppend<T>(a: seq<T>, b: seq<T>, p: seq<T>)
    requires |p| <= |a| && a[..|p|] == p
    ensures (a + b)[..|p|] == p
  {
    assert (a + b)[..|p|] == a[..|p|];
  }

  lemma {:induction false} ConcatLength(ks: seq<string>, w: nat)
    requires forall k :: 0 <= k < |ks| ==> |ks[k]| == w
    ensures |Concat(ks)| == w * |ks|
  {
    if ks != [] {
      ConcatLength(ks[..|ks| - 1], w);
      assert w * |ks| == w * (|ks| - 1) + w;
    }
  }

  /** Byte x + y * w of the concatenation is byte x of line y. */
  lemma {:induction false} ConcatIndex(ks: seq<string>, w: nat, x: nat, y: nat)
    requires forall k :: 0 <= k < |ks| ==> |ks[k]| == w
    requires x < w && y < |ks|
    ensures x + y * w < |Concat(ks)| && Concat(ks)[x + y * w] == ks[y][x]
  {
    var init := ks[..|ks| - 1];
    ConcatLength(ks, w);
    ConcatLength(init, w);
    CellIndex(x, y, w, |ks|);
    if y < |ks| - 1 {
      ConcatIndex(init, w, x, y);
    } else {
      assert |Concat(init)| == y * w;
    }
  }

  /**
   * `try_from`: trims every line and drops the blank ones; fails with "empty string"
   * when none is left and with "mismatched line length" when a kept line is not as
   * long as the first; otherwise the rows are the kept lines, in order.
   */
  method TryFrom(value: string) returns (r: Result<AsciiGrid, GridError>)
    ensures r == Err(EmptyString) <==> KeptLines(value) == []
    ensures r == Err(MismatchedLineLength) <==> KeptLines(value) != [] && !SameWidth(KeptLines(value))
    ensures r.Ok? ==> KeptLines(value) != [] && r.value == FromLines(KeptLines(value)) && r.value.Valid()
  {
    r := FromTrimmed(TrimAll(Lines(value)));
  }

  /** The loop of `try_from`, over the trimmed lines: skip blank ones and append the rest. */
  method FromTrimmed(lines: seq<string>) returns (r: Result<AsciiGrid, GridError>)
    ensures r == Err(EmptyString) <==> NonBlank(lines) == []
    ensures r == Err(MismatchedLineLength) <==> NonBlank(lines) != [] && !SameWidth(NonBlank(lines))
    ensures r.Ok? ==> NonBlank(lines) != [] && r.value == FromLines(NonBlank(lines)) && r.value.Valid()
  {
    var i := 0;
    while i < |lines| && lines[i] == []
      invariant i <= |lines| && NonBlank(lines[..i]) == []
    {
      NonBlankStep(lines, i);
      i := i + 1;
    }
    if i == |lines| {
      assert lines[..i] == lines;
      return Err(EmptyString);
    }
    NonBlankStep(lines, i);
    r := AppendLines(lines, i + 1, lines[i]);
  }

  /**
   * The `for line in lines` loop of `try_from`, after the first kept line: every
   * further non-blank line must be as long as the first and is appended.
   */
  method AppendLines(lines: seq<string>, start: nat, first: string) returns (r: Result<AsciiGrid, GridError>)
    requires start <= |lines| && first != [] && NonBlank(lines[..start]) == [first]
    ensures NonBlank(lines) != [] && r != Err(EmptyString)
    ensures r == Err(MismatchedLineLength) <==> !SameWidth(NonBlank(lines))
    ensures r.Ok? ==> r.value == FromLines(NonBlank(lines)) && r.value.Valid()
  {
    NonBlankPrefix(lines, start);
    var i := start;
    var width := |first|;
    var height := 1;
    var contents := first;
    assert Concat([first]) == first by { assert [first][..0] == []; }
    while i < |lines|
      invariant start <= i <= |lines|
      invariant NonBlank(lines[..i]) != [] && NonBlank(lines[..i])[0] == first && SameWidth(NonBlank(lines[..i]))
      invariant contents == Concat(NonBlank(lines[..i])) && height == |NonBlank(lines[..i])|
    {
      var line := lines[i];
      ghost var done := NonBlank(lines[..i]);
      NonBlankStep(lines, i);
      if line != [] {
        if |line| != width {
          Mismatch(lines, i, done, line);
          return Err(MismatchedLineLength);
        }
        GrowLines(done, line);
        contents := contents + line;
        height := height + 1;
      } else {
        assert done + [] == done;
      }
      i := i + 1;
    }
    assert lines[..i] == lines;
    ConcatLength(NonBlank(lines), width);
    return Ok(AsciiGrid(contents, width, height));
  }

  /** A kept line of the wrong length makes the kept lines of the whole text uneven. */
  lemma Mismatch(lines: seq<string>, i: nat, done: seq<string>, line: string)
    requires i < |lines| && done != [] && NonBlank(lines[..i + 1]) == done + [line] && |line| != |done[0]|
    ensures NonBlank(lines) != [] && !SameWidth(NonBlank(lines))
  {
    NonBlankPrefix(lines, i + 1);
    UnevenPrefix(NonBlank(lines), done, line);
  }

  /** Lines that start with uneven lines are uneven. */
  lemma UnevenPrefix(ks: seq<string>, done: seq<string>, line: string)
    requires done != [] && |done| + 1 <= |ks| && ks[..|done| + 1] == done + [line] && |line| != |done[0]|
    ensures ks != [] && !SameWidth(ks)
  {
    assert ks[0] == done[0] && ks[|done|] == line;
    assert |ks[|done|]| != |ks[0]|;
  }

  lemma ConcatSnoc(ks: seq<string>, l: string)
    ensures Concat(ks + [l]) == Concat(ks) + l
  {
    assert (ks + [l])[..|ks|] == ks;
  }

  /** One more line as long as the others keeps the lines a grid. */
  lemma GrowLines(done: seq<string>, line: string)
    requires done != [] && SameWidth(done) && |line| == |done[0]|
    ensures (done + [line])[0] == done[0] && SameWidth(done + [line])
    ensures Concat(done + [line]) == Concat(done) + line
  {
    ConcatSnoc(done, line);
  }

  /** A grid built from lines finds, at (x, y), byte x of line y. */
  lemma GetFromLines(ks: seq<string>, x: nat, y: nat)
    requires ks != [] && SameWidth(ks) && y < |ks| && x < |ks[0]|
    ensures FromLines(ks).Valid() && FromLines(ks).Get(Point(x, y)) == Some(ks[y][x])
  {
    ConcatLength(ks, |ks[0]|);
    ConcatIndex(ks, |ks[0]|, x, y);
  }

  // ---------------------------------------------------------------------------
  // Rendering (`Debug`)

  /** `JoinLines` grows by one line and its newline. */
  lemma {:induction false} JoinLinesSnoc(ls: seq<string>, l: string)
    ensures JoinLines(ls + [l]) == JoinLines(ls) + l + "\n"
  {
    if ls != [] {
      assert (ls + [l])[1..] == ls[1..] + [l];
      JoinLinesSnoc(ls[1..], l);
    } else {
      assert [l][1..] == [];
    }
  }

  /** `fmt`: every row's bytes, each row followed by a newline. */
  method Render(g: AsciiGrid) returns (out: string)
    requires g.Valid()
    ensures out == JoinLines(g.Rows())
  {
    out := [];
    for y := 0 to g.height
      invariant out == JoinLines(g.RowsUpTo(y))
    {
      ghost var before := out;
      for x := 0 to g.width
        invariant out == before + g.Row(y)[..x]
      {
        GetRow(g, x, y);
        out := out + [g.Get(Point(x, y)).value];
        assert g.Row(y)[..x + 1] == g.Row(y)[..x] + [g.Row(y)[x]];
      }
      assert g.Row(y)[..g.width] == g.Row(y);
      JoinLinesSnoc(g.RowsUpTo(y), g.Row(y));
      out := out + "\n";
    }
  }

  /** No whitespace in any cell: what a grid needs to survive trimming. */
  predicate Solid(g: AsciiGrid)
  {
    forall k :: 0 <= k < |g.contents| ==> !IsWhitespace(g.contents[k])
  }

  /** Byte k of row y is byte y * width + k of the grid. */
  lemma RowChar(g: AsciiGrid, y: nat, k: nat)
    requires g.Valid() && y < g.height && k < g.width
    ensures y * g.width + k < |g.contents| && g.Row(y)[k] == g.contents[y * g.width + k]
  {
    CellIndex(k, y, g.width, g.height);
  }

  /** Rows of a solid grid are their own trim, and none of them is blank. */
  lemma TrimRows(g: AsciiGrid)
    requires g.Valid() && Solid(g) && g.width > 0
    ensures TrimAll(g.Rows()) == g.Rows()
    ensures forall y :: 0 <= y < |g.Rows()| ==> g.Rows()[y] != [] && '\n' !in g.Rows()[y]
  {
    var rs := g.Rows();
    forall y | 0 <= y < |rs| ensures Trim(rs[y]) == rs[y] && rs[y] != [] && '\n' !in rs[y] {
      RowsUpToIndex(g, g.height, y);
      RowSolid(g, y);
      SolidLine(rs[y]);
    }
  }

  lemma RowSolid(g: AsciiGrid, y: nat)
    requires g.Valid() && Solid(g) && y < g.height
    ensures forall k :: 0 <= k < |g.Row(y)| ==> !IsWhitespace(g.Row(y)[k])
  {
    forall k | 0 <= k < |g.Row(y)| ensures !IsWhitespace(g.Row(y)[k]) {
      RowChar(g, y, k);
    }
  }

  /** A line without whitespace is its own trim and holds no newline. */
  lemma SolidLine(l: string)
    requires forall k :: 0 <= k < |l| ==> !IsWhitespace(l[k])
    ensures Trim(l) == l && '\n' !in l
  {
    if l != [] {
      assert !IsWhitespace(l[0]) && !IsWhitespace(l[|l| - 1]);
    }
    TrimUnchanged(l);
  }

  /** Filtering lines none of which is blank keeps them all. */
  lemma {:induction false} NonBlankAll(ks: seq<string>)
    requires forall k :: 0 <= k < |ks| ==> ks[k] != []
    ensures NonBlank(ks) == ks
  {
    if ks != [] {
      NonBlankAll(ks[..|ks| - 1]);
      assert ks[..|ks| - 1] + [ks[|ks| - 1]] == ks;
    }
  }

  lemma SliceJoin(s: string, a: nat, b: nat)
    requires a <= b <= |s|
    ensures s[..b] == s[..a] + s[a..b]
  {
  }

  lemma {:induction false} ConcatRows(g: AsciiGrid, n: nat)
    requires g.Valid() && n <= g.height
    ensures n * g.width <= |g.contents| && Concat(g.RowsUpTo(n)) == g.contents[..n * g.width]
  {
    if n > 0 {
      ConcatRows(g, n - 1);
      var a := (n - 1) * g.width;
      MulStep(n, g.width);
      RowEnd(g, n - 1);
      ConcatPrefixStep(g.RowsUpTo(n - 1), g.Row(n - 1), g.contents, a, a + g.width);
    }
  }

  lemma ConcatPrefixStep(ks: seq<string>, l: string, c: string, a: nat, b: nat)
    requires a <= b <= |c| && Concat(ks) == c[..a] && l == c[a..b]
    ensures Concat(ks + [l]) == c[..b]
  {
    ConcatSnoc(ks, l);
    SliceJoin(c, a, b);
  }

  /** Row y ends where row y + 1 starts. */
  lemma RowEnd(g: AsciiGrid, y: nat)
    requires g.Valid() && y < g.height
    ensures y * g.width + g.width <= |g.contents|
    ensures g.Row(y) == g.contents[y * g.width..y * g.width + g.width]
  {
    RowBounds(y, g.width, g.height);
  }

  lemma MulStep(n: nat, w: nat)
    requires n > 0
    ensures (n - 1) * w + w == n * w
  {
  }

  /** The empty text after the last newline trims to nothing and is dropped. */
  lemma TrailingBlank(ts: seq<string>)
    ensures TrimAll(ts + [""]) == TrimAll(ts) + [""]
    ensures NonBlank(ts + [""]) == NonBlank(ts)
  {
    TrimAllBlank(ts);
    assert (ts + [""])[..|ts|] == ts;
  }

  lemma TrimAllBlank(ts: seq<string>)
    ensures TrimAll(ts + [""]) == TrimAll(ts) + [""]
  {
    var a := TrimAll(ts + [""]);
    var b := TrimAll(ts) + [""];
    TrimNothing();
    forall k | 0 <= k < |a| ensures a[k] == b[k] {
      if k < |ts| {
        assert (ts + [""])[k] == ts[k];
      }
    }
  }

  lemma TrimNothing()
    ensures Trim("") == ""
  {
  }

  /**
   * The rendering of a non-empty grid without whitespace in its cells reads back as
   * the same grid.
   */
  lemma RenderReadsBack(g: AsciiGrid)
    requires g.Valid() && Solid(g) && g.width > 0 && g.height > 0
    ensures KeptLines(JoinLines(g.Rows())) == g.Rows()
    ensures FromLines(g.Rows()) == g
  {
    TrimRows(g);
    LinesOfJoin(g.Rows());
    TrailingBlank(g.Rows());
    NonBlankAll(g.Rows());
    ConcatAllRows(g);
    RowsUpToIndex(g, g.height, 0);
  }

  /** The rows of a grid, one after the other, are its contents. */
  lemma ConcatAllRows(g: AsciiGrid)
    requires g.Valid()
    ensures Concat(g.Rows()) == g.contents
  {
    ConcatRows(g, g.height);
    assert g.height * g.width == |g.contents|;
    assert g.contents[..|g.contents|] == g.contents;
  }

  // ---------------------------------------------------------------------------
  // Directions

  /** The eight neighbours, in `repr(u8)` order. */
  datatype Direction = Right | RightDown | Down | LeftDown | Left | LeftUp | Up | RightUp

  /** `delta`: one step in a direction (y grows downwards). */
  function Delta(d: Direction): (r: Point)
    ensures -1 <= r.x <= 1 && -1 <= r.y <= 1 && r != Point(0, 0)
  {
    match d
    case Right => Point(1, 0)
    case RightDown => Point(1, 1)
    case Down => Point(0, 1)
    case LeftDown => Point(-1, 1)
    case Left => Point(-1, 0)
    case LeftUp => Point(-1, -1)
    case Up => Point(0, -1)
    case RightUp => Point(1, -1)
  }

  /** Distinct directions step to distinct neighbours. */
  lemma DeltaInjective(a: Direction, b: Direction)
    requires Delta(a) == Delta(b)
    ensures a == b
  {
  }

  /** Every neighbouring offset is the step of some direction. */
  lemma DeltaCovers(p: Point)
    requires -1 <= p.x <= 1 && -1 <= p.y <= 1 && p != Point(0, 0)
    ensures exists d :: Delta(d) == p
  {
    var d :=
      if p.y == 0 then (if p.x == 1 then Right else Left)
      else if p.y == 1 then (if p.x == 1 then RightDown else if p.x == 0 then Down else LeftDown)
      else (if p.x == 1 then RightUp else if p.x == 0 then Up else LeftUp);
    assert Delta(d) == p;
  }

  /** The directions in the order `Direction::all` yields them. */
  const AllDirections: seq<Direction> := [Right, RightDown, Down, LeftDown, Left, LeftUp, Up, RightUp]

  /** The order is that of the discriminants, and holds every direction once. */
  lemma AllDirectionsComplete(d: Direction)
    ensures d in AllDirections
    ensures forall i, j :: 0 <= i < j < |AllDirections| ==> AllDirections[i] != AllDirections[j]
  {
  }

  /** The iterator behind `Direction::all`: a counter from 0 that stops at 8. */
  class All {
    var counter: nat

    constructor ()
      ensures counter == 0
    {
      counter := 0;
    }

    /** `next`: the direction with the counter's discriminant, or None from 8 on. */
    method Next() returns (d: Option<Direction>)
      modifies this
      ensures old(counter) >= 8 ==> d == None && counter == old(counter)
      ensures old(counter) < 8 ==> d == Some(AllDirections[old(counter)]) && counter == old(counter) + 1
    {
      if counter >= 8 {
        return None;
      }
      d := Some(AllDirections[counter]);
      counter := counter + 1;
    }
  }

  /** Draining `Direction::all()`: exactly the eight directions, in order. */
  method Directions() returns (ds: seq<Direction>)
    ensures ds == AllDirections
  {
    var it := new All();
    ds := [];
    var v := it.Next();
    while v.Some?
      invariant it.counter <= 8
      invariant v.Some? ==> 1 <= it.counter && v.value == AllDirections[it.counter - 1] && ds == AllDirections[..it.counter - 1]
      invariant v.None? ==> it.counter == 8 && ds == AllDirections
      decreases 8 - it.counter, v.Some?
    {
      ds := ds + [v.value];
      v := it.Next();
    }
  }
}
