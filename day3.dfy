/**
 * Day 3: part numbers and gear ratios on an engine schematic. A number is a run of
 * digits along a row; it is a part number when a symbol (anything but a digit or
 * '.') touches one of its digits in one of the eight directions. A '*' touching
 * exactly two distinct numbers is a gear, whose ratio is their product.
 */
module Day3 {
  import opened Wrappers
  import opened Text
  import opened Grid
  import opened Sums

  /** `is_number`. */
  predicate IsNumber(b: char)
  {
    IsDigit(b)
  }

  /** `is_symbol`: neither a digit nor '.'. */
  predicate IsSymbol(b: char)
  {
    !IsNumber(b) && b != '.'
  }

  /** A digit at p (`grid.get(p).map_or(false, is_number)`). */
  predicate DigitAt(g: AsciiGrid, p: Point)
    requires g.Valid()
  {
    g.Get(p).Some? && IsNumber(g.Get(p).value)
  }

  function Left(p: Point): Point
  {
    Point(p.x - 1, p.y)
  }

  function Right(p: Point): Point
  {
    Point(p.x + 1, p.y)
  }

  // ---------------------------------------------------------------------------
  // Where a number starts

  /** r starts the digit run through q: same row, digits from r to q, none just before r. */
  predicate IsRunStart(g: AsciiGrid, q: Point, r: Point)
    requires g.Valid()
  {
    r.y == q.y && 0 <= r.x <= q.x
    && (forall x :: r.x <= x <= q.x ==> DigitAt(g, Point(x, q.y)))
    && (r.x == 0 || !DigitAt(g, Left(r)))
  }

  /** The start of the digit run through a digit, walking left. */
  function RunStart(g: AsciiGrid, q: Point): Point
    requires g.Valid() && DigitAt(g, q)
    decreases q.x
  {
    if q.x > 0 && DigitAt(g, Left(q)) then RunStart(g, Left(q)) else q
  }

  /** The start of the number q is part of, if q holds a digit. */
  function NumberStart(g: AsciiGrid, q: Point): Option<Point>
    requires g.Valid()
  {
    if DigitAt(g, q) then Some(RunStart(g, q)) else None
  }

  /** RunStart finds the start of the run. */
  lemma {:induction false} RunStartIsStart(g: AsciiGrid, q: Point)
    requires g.Valid() && DigitAt(g, q)
    ensures IsRunStart(g, q, RunStart(g, q))
    decreases q.x
  {
    if q.x > 0 && DigitAt(g, Left(q)) {
      RunStartIsStart(g, Left(q));
    }
  }

  /** A run has one start. */
  lemma RunStartUnique(g: AsciiGrid, q: Point, r: Point, s: Point)
    requires g.Valid() && IsRunStart(g, q, r) && IsRunStart(g, q, s)
    ensures r == s
  {
  }

  /** NumberStart is None off a digit, and otherwise the start of its run. */
  lemma NumberStartSpec(g: AsciiGrid, q: Point)
    requires g.Valid()
    ensures NumberStart(g, q).None? <==> !DigitAt(g, q)
    ensures NumberStart(g, q).Some? ==> IsRunStart(g, q, NumberStart(g, q).value)
  {
    if DigitAt(g, q) {
      RunStartIsStart(g, q);
    }
  }

  /** `find_number_start`: None off the grid or off a digit; else step left over digits. */
  method FindNumberStart(g: AsciiGrid, q: Point) returns (r: Option<Point>)
    requires g.Valid()
    ensures r == NumberStart(g, q)
    ensures r.None? <==> !DigitAt(g, q)
    ensures r.Some? ==> IsRunStart(g, q, r.value)
  {
    var c := g.Get(q);
    if c.None? {
      return None;
    }
    if !IsNumber(c.value) {
      return None;
    }
    var p := q;
    while p.x > 0 && g.Get(Left(p)).Some? && IsNumber(g.Get(Left(p)).value)
      invariant p.y == q.y && 0 <= p.x <= q.x && DigitAt(g, p)
      invariant forall x :: p.x <= x <= q.x ==> DigitAt(g, Point(x, q.y))
      invariant RunStart(g, p) == RunStart(g, q)
      decreases p.x
    {
      p := Left(p);
    }
    return Some(p);
  }

  // ---------------------------------------------------------------------------
  // Reading a number

  /** The digits from p rightwards, up to the first non-digit or the end of the row. */
  function Run(g: AsciiGrid, p: Point): (s: string)
    requires g.Valid()
    ensures AllDigits(s)
    decreases g.width - p.x
  {
    if DigitAt(g, p) then [g.Get(p).value] + Run(g, Right(p)) else []
  }

  /** The value `read_number` gives at p. */
  function NumberValue(g: AsciiGrid, p: Point): nat
    requires g.Valid()
  {
    DecimalValue(Run(g, p))
  }

  /** The run from a digit is the longest digit slice of its row from there. */
  lemma {:induction false} RunIsMaximal(g: AsciiGrid, p: Point)
    requires g.Valid() && DigitAt(g, p)
    ensures var e := p.x + |Run(g, p)|; 0 <= p.x < e <= g.width
    ensures var e := p.x + |Run(g, p)|; Run(g, p) == g.Row(p.y)[p.x..e]
    ensures var e := p.x + |Run(g, p)|; e == g.width || !IsDigit(g.Row(p.y)[e])
    decreases g.width - p.x
  {
    var x: nat := p.x;
    var y: nat := p.y;
    GetRow(g, x, y);
    if DigitAt(g, Right(p)) {
      RunIsMaximal(g, Right(p));
      var e := p.x + |Run(g, p)|;
      assert g.Row(y)[x..e] == [g.Row(y)[x]] + g.Row(y)[x + 1..e];
    } else {
      assert Run(g, Right(p)) == [];
      if x + 1 < g.width {
        GetRow(g, x + 1, y);
      }
    }
  }

  /** Off a digit there is no number: the value is 0. */
  lemma NoDigitNoNumber(g: AsciiGrid, p: Point)
    requires g.Valid() && !DigitAt(g, p)
    ensures NumberValue(g, p) == 0
  {
  }

  lemma DecimalValueSnoc(s: string, c: char)
    requires AllDigits(s) && IsDigit(c)
    ensures AllDigits(s + [c]) && DecimalValue(s + [c]) == DecimalValue(s) * 10 + DigitValue(c)
  {
    assert (s + [c])[..|s|] == s;
  }

  /** `read_number`: `v = v * 10 + digit` while the cell at p is a digit, moving right. */
  method ReadNumber(g: AsciiGrid, p: Point) returns (v: int)
    requires g.Valid()
    ensures v == NumberValue(g, p)
  {
    v := 0;
    var q := p;
    ghost var read: string := [];
    while g.Get(q).Some? && IsDigit(g.Get(q).value)
      invariant AllDigits(read) && Run(g, p) == read + Run(g, q) && v == DecimalValue(read)
      decreases g.width - q.x
    {
      var c := g.Get(q).value;
      DecimalValueSnoc(read, c);
      assert Run(g, q) == [c] + Run(g, Right(q));
      assert read + Run(g, q) == (read + [c]) + Run(g, Right(q));
      v := v * 10 + DigitValue(c);
      read := read + [c];
      q := Right(q);
    }
    assert read + [] == read;
  }

  // ---------------------------------------------------------------------------
  // The neighbourhood of a symbol

  predicate SymbolAt(g: AsciiGrid, p: Point)
    requires g.Valid()
  {
    g.Get(p).Some? && IsSymbol(g.Get(p).value)
  }

  predicate GearAt(g: AsciiGrid, p: Point)
    requires g.Valid()
  {
    g.Get(p) == Some('*')
  }

  /** The number start found one step from p in direction d, if any. */
  function StartToward(g: AsciiGrid, p: Point, d: Direction): Option<Point>
    requires g.Valid()
  {
    NumberStart(g, Add(p, Delta(d)))
  }

  /** The number starts found in the first k directions around p, in order, repeats kept. */
  function StartsAround(g: AsciiGrid, p: Point, k: nat): seq<Point>
    requires g.Valid() && k <= 8
  {
    if k == 0 then []
    else
      var s := StartToward(g, p, AllDirections[k - 1]);
      StartsAround(g, p, k - 1) + (if s.Some? then [s.value] else [])
  }

  /** The gear list of p after the first k directions: each new start appended once. */
  function GearEntries(g: AsciiGrid, p: Point, k: nat): seq<Point>
    requires g.Valid() && k <= 8
  {
    if k == 0 then []
    else
      var es := GearEntries(g, p, k - 1);
      var s := StartToward(g, p, AllDirections[k - 1]);
      if s.Some? && s.value !in es then es + [s.value] else es
  }

  predicate NoRepeats(es: seq<Point>)
  {
    forall i, j :: 0 <= i < j < |es| ==> es[i] != es[j]
  }

  /** A gear list holds each start found around p exactly once. */
  lemma {:induction false} GearEntriesSpec(g: AsciiGrid, p: Point, k: nat)
    requires g.Valid() && k <= 8
    ensures NoRepeats(GearEntries(g, p, k))
    ensures forall q :: q in GearEntries(g, p, k) <==> q in StartsAround(g, p, k)
  {
    if k > 0 {
      GearEntriesSpec(g, p, k - 1);
    }
  }

  /** A start is around p exactly when one of the eight steps from p lands on its number. */
  lemma {:induction false} StartsAroundSpec(g: AsciiGrid, p: Point, k: nat, q: Point)
    requires g.Valid() && k <= 8
    ensures q in StartsAround(g, p, k) <==> exists i :: 0 <= i < k && StartToward(g, p, AllDirections[i]) == Some(q)
  {
    if k > 0 {
      StartsAroundSpec(g, p, k - 1, q);
      if StartToward(g, p, AllDirections[k - 1]) == Some(q) {
        assert q in StartsAround(g, p, k);
      }
    }
  }

  function Elems(s: seq<Point>): set<Point>
  {
    set q | q in s
  }

  // ---------------------------------------------------------------------------
  // What `main` computes

  /** The cells visited so far: columns before x, and the first y cells of column x. */
  function Scanned(g: AsciiGrid, x: int, y: int): set<Point>
  {
    set px: int, py: int | 0 <= py < g.height && 0 <= px <= x && (px < x || py < y) :: Point(px, py)
  }

  function Cells(g: AsciiGrid): set<Point>
  {
    set px: int, py: int | 0 <= px < g.width && 0 <= py < g.height :: Point(px, py)
  }

  /** The number starts next to a symbol among the cells C. */
  ghost function SeenOf(g: AsciiGrid, C: set<Point>): set<Point>
    requires g.Valid()
  {
    set p, q | p in C && SymbolAt(g, p) && q in StartsAround(g, p, 8) :: q
  }

  /** The gear lists of the '*' cells among C that touch at least one number. */
  function GearsOf(g: AsciiGrid, C: set<Point>): map<Point, seq<Point>>
    requires g.Valid()
  {
    map p | p in C && GearAt(g, p) && GearEntries(g, p, 8) != [] :: GearEntries(g, p, 8)
  }

  function ValueOf(g: AsciiGrid): Point -> int
    requires g.Valid()
  {
    q => NumberValue(g, q)
  }

  /** A gear list's ratio: the product of its two numbers, when it has exactly two. */
  function RatioOf(g: AsciiGrid, gears: map<Point, seq<Point>>): Point -> int
    requires g.Valid()
  {
    p => if p in gears && |gears[p]| == 2 then NumberValue(g, gears[p][0]) * NumberValue(g, gears[p][1]) else 0
  }

  /** The first answer: each part number counted once per distinct start. */
  ghost function PartNumberSum(g: AsciiGrid): int
    requires g.Valid()
  {
    SetSum(SeenOf(g, Cells(g)), ValueOf(g))
  }

  /** The second answer: the sum of the gear ratios. */
  ghost function GearRatioSum(g: AsciiGrid): int
    requires g.Valid()
  {
    var gears := GearsOf(g, Cells(g));
    SetSum(gears.Keys, RatioOf(g, gears))
  }

  /** The gear map once p's list is known: p is added only with a non-empty list. */
  function GearState(gears0: map<Point, seq<Point>>, p: Point, es: seq<Point>): map<Point, seq<Point>>
  {
    if es == [] then gears0 else gears0[p := es]
  }

  /** `entry(p).or_insert(..)` and a push of a start the list lacks. */
  lemma GearStateAdd(gears0: map<Point, seq<Point>>, p: Point, es: seq<Point>, x: Point)
    requires p !in gears0
    ensures var m := GearState(gears0, p, es); var e := if p in m then m[p] else [];
      e == es && m[p := if x in e then e else e + [x]] == GearState(gears0, p, if x in es then es else es + [x])
  {
  }

  /** One more direction around p. */
  lemma AroundStep(g: AsciiGrid, p: Point, k: nat)
    requires g.Valid() && k < 8
    ensures var s := StartToward(g, p, AllDirections[k]);
      && StartsAround(g, p, k + 1) == StartsAround(g, p, k) + (if s.Some? then [s.value] else [])
      && GearEntries(g, p, k + 1) == if s.Some? && s.value !in GearEntries(g, p, k) then GearEntries(g, p, k) + [s.value] else GearEntries(g, p, k)
  {
  }

  lemma ElemsSnoc(xs: seq<Point>, x: Point)
    ensures Elems(xs + [x]) == Elems(xs) + {x}
  {
  }

  /** The body of the direction loop of `main` for the cell p. */
  method ScanCell(g: AsciiGrid, p: Point, seen0: set<Point>, gears0: map<Point, seq<Point>>)
    returns (seen: set<Point>, gears: map<Point, seq<Point>>)
    requires g.Valid() && g.InBounds(p) && p !in gears0
    ensures seen == seen0 + (if SymbolAt(g, p) then Elems(StartsAround(g, p, 8)) else {})
    ensures gears == if GearAt(g, p) then GearState(gears0, p, GearEntries(g, p, 8)) else gears0
  {
    seen, gears := seen0, gears0;
    var b := g.Get(p).value;
    if !IsSymbol(b) {
      return;
    }
    var dirs := Directions();
    for k := 0 to |dirs|
      invariant seen == seen0 + Elems(StartsAround(g, p, k))
      invariant gears == if b == '*' then GearState(gears0, p, GearEntries(g, p, k)) else gears0
    {
      var q := FindNumberStart(g, Add(p, Delta(dirs[k])));
      AroundStep(g, p, k);
      if q.Some? {
        if b == '*' {
          GearStateAdd(gears0, p, GearEntries(g, p, k), q.value);
          var entries := if p in gears then gears[p] else [];
          if q.value !in entries {
            entries := entries + [q.value];
          }
          gears := gears[p := entries];
        }
        ElemsSnoc(StartsAround(g, p, k), q.value);
        seen := seen + {q.value};
      } else {
        assert StartsAround(g, p, k) + [] == StartsAround(g, p, k);
      }
    }
  }

  /** Adding one cell to the visited ones adds its neighbours, if it is a symbol. */
  lemma SeenOfAdd(g: AsciiGrid, C: set<Point>, p: Point)
    requires g.Valid()
    ensures SeenOf(g, C + {p}) == SeenOf(g, C) + (if SymbolAt(g, p) then Elems(StartsAround(g, p, 8)) else {})
  {
  }

  /** Adding one cell to the visited ones adds its gear list, if it has one. */
  lemma GearsOfAdd(g: AsciiGrid, C: set<Point>, p: Point)
    requires g.Valid() && p !in C
    ensures GearsOf(g, C + {p}) == if GearAt(g, p) then GearState(GearsOf(g, C), p, GearEntries(g, p, 8)) else GearsOf(g, C)
  {
  }

  lemma ScannedNext(g: AsciiGrid, x: nat, y: nat)
    requires y < g.height
    ensures Scanned(g, x, y + 1) == Scanned(g, x, y) + {Point(x, y)} && Point(x, y) !in Scanned(g, x, y)
  {
  }

  lemma ScannedColumn(g: AsciiGrid, x: nat)
    ensures Scanned(g, x + 1, 0) == Scanned(g, x, g.height)
  {
  }

  lemma ScannedAll(g: AsciiGrid)
    ensures Scanned(g, g.width, 0) == Cells(g)
  {
  }

  /** The nested loops of `main`: every cell, column by column, with its directions. */
  method Scan(g: AsciiGrid) returns (seen: set<Point>, gears: map<Point, seq<Point>>)
    requires g.Valid()
    ensures seen == SeenOf(g, Cells(g)) && gears == GearsOf(g, Cells(g))
  {
    seen, gears := {}, map[];
    for x := 0 to g.width
      invariant seen == SeenOf(g, Scanned(g, x, 0)) && gears == GearsOf(g, Scanned(g, x, 0))
    {
      for y := 0 to g.height
        invariant seen == SeenOf(g, Scanned(g, x, y)) && gears == GearsOf(g, Scanned(g, x, y))
      {
        var p := Point(x, y);
        ScannedNext(g, x, y);
        SeenOfAdd(g, Scanned(g, x, y), p);
        GearsOfAdd(g, Scanned(g, x, y), p);
        seen, gears := ScanCell(g, p, seen, gears);
      }
      ScannedColumn(g, x);
    }
    ScannedAll(g);
  }

  /** `for p in seen.iter()`: the numbers at the starts, in whatever order the set yields. */
  method SumNumbers(g: AsciiGrid, seen: set<Point>) returns (total: int)
    requires g.Valid()
    ensures total == SetSum(seen, ValueOf(g))
  {
    total := 0;
    var rest := seen;
    while rest != {}
      invariant rest <= seen && total == SetSum(seen - rest, ValueOf(g))
      decreases |rest|
    {
      var q :| q in rest;
      var v := ReadNumber(g, q);
      SetSumStep(seen, rest, ValueOf(g), q);
      total := total + v;
      rest := rest - {q};
    }
    assert seen - rest == seen;
  }

  /** `for entries in gear_locations.values()`: the product of the lists of two. */
  method SumGears(g: AsciiGrid, gears: map<Point, seq<Point>>) returns (gearTotal: int)
    requires g.Valid()
    ensures gearTotal == SetSum(gears.Keys, RatioOf(g, gears))
  {
    gearTotal := 0;
    var rest := gears.Keys;
    while rest != {}
      invariant rest <= gears.Keys && gearTotal == SetSum(gears.Keys - rest, RatioOf(g, gears))
      decreases |rest|
    {
      var p :| p in rest;
      var entries := gears[p];
      SetSumStep(gears.Keys, rest, RatioOf(g, gears), p);
      if |entries| == 2 {
        var a := ReadNumber(g, entries[0]);
        var b := ReadNumber(g, entries[1]);
        gearTotal := gearTotal + a * b;
      }
      rest := rest - {p};
    }
    assert gears.Keys - rest == gears.Keys;
  }

  /** `main` after reading the grid: the part-number total and the gear-ratio total. */
  method Totals(g: AsciiGrid) returns (total: int, gearTotal: int)
    requires g.Valid()
    ensures total == PartNumberSum(g) && gearTotal == GearRatioSum(g)
  {
    var seen, gears := Scan(g);
    total := SumNumbers(g, seen);
    gearTotal := SumGears(g, gears);
  }
}
