/**
 * The seed almanac of src/bin/day5.rs: a ValueMap is a sorted sequence of
 * ValueRanges answering point lookups by binary search with an identity
 * fallback; a Problem chains seven of them and looks for the lowest location.
 */
module Day5 {
  import opened Wrappers
  import opened Text
  import opened Parsing

  /** Maps [sourceStart, sourceStart + len) onto [targetStart, targetStart + len). */
  datatype ValueRange = ValueRange(sourceStart: int, targetStart: int, len: int)
  {
    function SourceEnd(): int { sourceStart + len }

    function TargetEnd(): int { targetStart + len }

    predicate Covers(x: int) { sourceStart <= x < SourceEnd() }

    /** Where a covered x lands: at the same offset from targetStart. */
    function Shift(x: int): (y: int)
      requires Covers(x)
      ensures targetStart <= y < TargetEnd()
      ensures y - targetStart == x - sourceStart
    {
      targetStart + (x - sourceStart)
    }
  }

  datatype Ordering = Less | Equal | Greater

  function CmpInt(a: int, b: int): Ordering
  {
    if a < b then Less else if a == b then Equal else Greater
  }

  /** `Ord for ValueRange`: by sourceStart, then len, then targetStart. */
  function Cmp(a: ValueRange, b: ValueRange): Ordering
  {
    match CmpInt(a.sourceStart, b.sourceStart)
    case Equal =>
      (match CmpInt(a.len, b.len)
       case Equal => CmpInt(a.targetStart, b.targetStart)
       case o => o)
    case o => o
  }

  predicate Below(a: ValueRange, b: ValueRange) { Cmp(a, b) == Less }

  /** Cmp is a total order: Equal only on equal ranges, antisymmetric, transitive. */
  lemma CmpIsTotalOrder(a: ValueRange, b: ValueRange, c: ValueRange)
    ensures Cmp(a, b) == Equal <==> a == b
    ensures Cmp(a, b) == Less <==> Cmp(b, a) == Greater
    ensures Below(a, b) && Below(b, c) ==> Below(a, c)
    ensures Below(a, b) ==> a.sourceStart <= b.sourceStart
  {
  }

  /** Strictly increasing under Cmp: the invariant `insert` keeps for `storage`. */
  predicate Sorted(s: seq<ValueRange>)
  {
    forall i, j :: 0 <= i < j < |s| ==> Below(s[i], s[j])
  }

  lemma SortedStarts(s: seq<ValueRange>, i: int, j: int)
    requires Sorted(s) && 0 <= i <= j < |s|
    ensures s[i].sourceStart <= s[j].sourceStart
  {
  }

  function Rank(o: Ordering): nat
  {
    match o
    case Less => 0
    case Equal => 1
    case Greater => 2
  }

  /** cmp classifies s as a run of Less, then of Equal, then of Greater. */
  predicate Monotone(s: seq<ValueRange>, cmp: ValueRange -> Ordering)
  {
    forall i, j :: 0 <= i < j < |s| ==> Rank(cmp(s[i])) <= Rank(cmp(s[j]))
  }

  datatype SearchResult = Found(index: nat) | NotFound(index: nat)

  /**
   * `slice::binary_search_by` (and `binary_search`, `binary_search_by_key`) with the
   * contract of its documentation: Found is the index of some element comparing Equal,
   * NotFound the position where the probe would be inserted to keep the order.
   */
  function BinarySearchBy(s: seq<ValueRange>, cmp: ValueRange -> Ordering, lo: nat, hi: nat): (r: SearchResult)
    requires lo <= hi <= |s|
    requires Monotone(s, cmp)
    requires forall k :: 0 <= k < lo ==> cmp(s[k]) == Less
    requires forall k :: hi <= k < |s| ==> cmp(s[k]) == Greater
    ensures r.Found? ==> r.index < |s| && cmp(s[r.index]) == Equal
    ensures r.NotFound? ==> r.index <= |s|
    ensures r.NotFound? ==> forall k :: 0 <= k < r.index ==> cmp(s[k]) == Less
    ensures r.NotFound? ==> forall k :: r.index <= k < |s| ==> cmp(s[k]) == Greater
    decreases hi - lo
  {
    if lo == hi then NotFound(lo)
    else
      var mid := lo + (hi - lo) / 2;
      match cmp(s[mid])
      case Equal => Found(mid)
      case Less => BinarySearchBy(s, cmp, mid + 1, hi)
      case Greater => BinarySearchBy(s, cmp, lo, mid)
  }

  /** `binary_search_by_key(&source, source_start)` over sorted storage. */
  function SearchStart(storage: seq<ValueRange>, source: int): (r: SearchResult)
    requires Sorted(storage)
    ensures r.Found? ==> r.index < |storage| && storage[r.index].sourceStart == source
    ensures r.NotFound? ==> r.index <= |storage|
    ensures r.NotFound? ==> forall k :: 0 <= k < r.index ==> storage[k].sourceStart < source
    ensures r.NotFound? ==> forall k :: r.index <= k < |storage| ==> storage[k].sourceStart > source
  {
    var cmp := (e: ValueRange) => CmpInt(e.sourceStart, source);
    assert Monotone(storage, cmp) by {
      forall i, j | 0 <= i < j < |storage| ensures Rank(cmp(storage[i])) <= Rank(cmp(storage[j])) {
        SortedStarts(storage, i, j);
      }
    }
    BinarySearchBy(storage, cmp, 0, |storage|)
  }

  /** `binary_search(&range)` over sorted storage, by Cmp. */
  function SearchRange(storage: seq<ValueRange>, range: ValueRange): (r: SearchResult)
    requires Sorted(storage)
    ensures r.Found? <==> range in storage
    ensures r.NotFound? ==> r.index <= |storage|
    ensures r.NotFound? ==> forall k :: 0 <= k < r.index ==> Below(storage[k], range)
    ensures r.NotFound? ==> forall k :: r.index <= k < |storage| ==> Below(range, storage[k])
  {
    var cmp := (e: ValueRange) => Cmp(e, range);
    assert Monotone(storage, cmp) by {
      forall i, j | 0 <= i < j < |storage| ensures Rank(cmp(storage[i])) <= Rank(cmp(storage[j])) {
        CmpIsTotalOrder(storage[i], range, storage[j]);
        CmpIsTotalOrder(storage[i], storage[j], range);
        CmpIsTotalOrder(range, storage[i], storage[j]);
      }
    }
    var r := BinarySearchBy(storage, cmp, 0, |storage|);
    if r.NotFound? then
      assert range !in storage by {
        forall k | 0 <= k < |storage| ensures storage[k] != range {
          CmpIsTotalOrder(storage[k], range, range);
        }
      }
      forall k | r.index <= k < |storage| ensures Below(range, storage[k]) {
        CmpIsTotalOrder(storage[k], range, range);
      }
      r
    else
      CmpIsTotalOrder(storage[r.index], range, range);
      r
  }

  /**
   * `ValueMap::prior`: the stored range with the greatest sourceStart not above
   * source, or None when every stored range starts above it.
   */
  function Prior(storage: seq<ValueRange>, source: int): (r: Option<ValueRange>)
    requires Sorted(storage)
    ensures r.None? <==> forall e :: e in storage ==> e.sourceStart > source
    ensures r.Some? ==> r.value in storage && r.value.sourceStart <= source
    ensures r.Some? ==> forall e :: e in storage && e.sourceStart <= source ==> e.sourceStart <= r.value.sourceStart
  {
    match SearchStart(storage, source)
    case Found(i) =>
      assert forall e :: e in storage && e.sourceStart <= source ==> e.sourceStart <= storage[i].sourceStart;
      Some(storage[i])
    case NotFound(i) =>
      if i == 0 then None
      else
        assert forall k :: 0 <= k < |storage| && storage[k].sourceStart <= source ==> k < i;
        assert forall k :: 0 <= k < i ==> storage[k].sourceStart <= storage[i - 1].sourceStart by {
          forall k | 0 <= k < i { SortedStarts(storage, k, i - 1); }
        }
        Some(storage[i - 1])
  }

  /** `ValueMap::range_of`: the prior range, when it reaches past source. */
  function RangeOf(storage: seq<ValueRange>, source: int): (r: Option<ValueRange>)
    requires Sorted(storage)
    ensures r.Some? ==> r.value in storage && r.value.Covers(source)
    ensures r.Some? <==> Prior(storage, source).Some? && Prior(storage, source).value.Covers(source)
    ensures r.Some? ==> Prior(storage, source) == r
    ensures (forall e :: e in storage ==> !e.Covers(source)) ==> r.None?
  {
    match Prior(storage, source)
    case Some(p) => if p.SourceEnd() > source then Some(p) else None
    case None => None
  }

  /**
   * `ValueMap::get`: source moved by its prior range when that range covers it,
   * otherwise unchanged; on overlapping ranges the prior one decides.
   */
  function Get(storage: seq<ValueRange>, source: int): (r: int)
    requires Sorted(storage)
    ensures Prior(storage, source).Some? && Prior(storage, source).value.Covers(source) ==>
      r == Prior(storage, source).value.Shift(source)
    ensures Prior(storage, source).None? || !Prior(storage, source).value.Covers(source) ==> r == source
    ensures (forall e :: e in storage ==> !e.Covers(source)) ==> r == source
    ensures r == source || exists e :: e in storage && e.Covers(source) && r == e.Shift(source)
  {
    match RangeOf(storage, source)
    case Some(range) => range.targetStart + (source - range.sourceStart)
    case None => source
  }

  /** Positive lengths and pairwise disjoint source intervals: a map as the almanac means it. */
  predicate Disjoint(storage: seq<ValueRange>)
  {
    && (forall i :: 0 <= i < |storage| ==> storage[i].len > 0)
    && (forall i, j :: 0 <= i < |storage| && 0 <= j < |storage| && i != j ==>
          storage[i].SourceEnd() <= storage[j].sourceStart || storage[j].SourceEnd() <= storage[i].sourceStart)
  }

  /** On a disjoint map, Get moves every covered value by the one range covering it. */
  lemma GetDisjoint(storage: seq<ValueRange>, e: ValueRange, x: int)
    requires Sorted(storage) && Disjoint(storage)
    requires e in storage && e.Covers(x)
    ensures RangeOf(storage, x) == Some(e)
    ensures Get(storage, x) == e.Shift(x)
  {
    var p := Prior(storage, x).value;
    var i :| 0 <= i < |storage| && storage[i] == e;
    var j :| 0 <= j < |storage| && storage[j] == p;
    assert i == j;
  }

  /** Sorted insertion of r, as a reference definition independent of the search. */
  function InsertSorted(s: seq<ValueRange>, r: ValueRange): (t: seq<ValueRange>)
    ensures |t| == |s| + 1
    ensures multiset(t) == multiset(s) + multiset{r}
  {
    if s == [] then [r]
    else if Below(r, s[0]) then [r] + s
    else
      assert s == [s[0]] + s[1..];
      [s[0]] + InsertSorted(s[1..], r)
  }

  /** Inserting a range that is not stored yet keeps the storage sorted. */
  lemma {:induction false} InsertSortedSorted(s: seq<ValueRange>, r: ValueRange)
    requires Sorted(s) && r !in s
    ensures Sorted(InsertSorted(s, r))
  {
    if s != [] && !Below(r, s[0]) {
      var x, tail := s[0], s[1..];
      assert r != x;
      CmpIsTotalOrder(r, x, r);
      assert Sorted(tail);
      InsertSortedSorted(tail, r);
      assert forall y :: y in tail ==> Below(x, y);
      BelowInsertSorted(x, tail, r);
      ConsSorted(x, InsertSorted(tail, r));
    }
  }

  lemma BelowInsertSorted(x: ValueRange, s: seq<ValueRange>, r: ValueRange)
    requires Below(x, r) && forall y :: y in s ==> Below(x, y)
    ensures forall y :: y in InsertSorted(s, r) ==> Below(x, y)
  {
    var u := InsertSorted(s, r);
    forall y | y in u ensures Below(x, y) {
      assert y in multiset(u);
    }
  }

  lemma ConsSorted(x: ValueRange, u: seq<ValueRange>)
    requires Sorted(u) && forall y :: y in u ==> Below(x, y)
    ensures Sorted([x] + u)
  {
    forall i, j | 0 <= i < j < |[x] + u| ensures Below(([x] + u)[i], ([x] + u)[j]) {
      assert ([x] + u)[j] == u[j - 1];
      if i > 0 {
        assert ([x] + u)[i] == u[i - 1];
      } else {
        assert u[j - 1] in u;
      }
    }
  }

  /** Where the search puts r, the reference insertion puts it too. */
  lemma {:induction false} InsertSortedAt(s: seq<ValueRange>, r: ValueRange, k: nat)
    requires k <= |s|
    requires forall j :: 0 <= j < k ==> Below(s[j], r)
    requires forall j :: k <= j < |s| ==> Below(r, s[j])
    ensures InsertSorted(s, r) == s[..k] + [r] + s[k..]
  {
    if s != [] {
      if k == 0 {
        assert s[k..] == s;
      } else {
        CmpIsTotalOrder(s[0], r, s[0]);
        InsertSortedAt(s[1..], r, k - 1);
        assert s[..k] == [s[0]] + s[1..][..k - 1];
        assert s[k..] == s[1..][k - 1..];
      }
    }
  }

  datatype InsertError =
    | Overlap(prior: ValueRange, range: ValueRange)  // the `panic!` on an overlapping range
    | Duplicate(range: ValueRange)                   // `unwrap_err` on a range already stored

  /** What `ValueMap::insert` does to storage: the new storage, or the panic it raises. */
  function InsertInto(storage: seq<ValueRange>, r: ValueRange): (res: Result<seq<ValueRange>, InsertError>)
    requires Sorted(storage)
    ensures res.Ok? ==> Sorted(res.value)
    ensures res.Ok? ==> |res.value| == |storage| + 1
    ensures res.Ok? ==> multiset(res.value) == multiset(storage) + multiset{r}
    ensures res.Ok? ==> forall e :: e in storage ==> e in res.value
  {
    match RangeOf(storage, r.sourceStart)
    case Some(p) => Err(Overlap(p, r))
    case None =>
      if r in storage then Err(Duplicate(r))
      else
        InsertSortedSorted(storage, r);
        var t := InsertSorted(storage, r);
        assert forall e :: e in storage ==> e in multiset(t);
        Ok(t)
  }

  /** Insertion panics with Overlap exactly when the prior range of r's start covers that start. */
  lemma InsertOverlapWhen(storage: seq<ValueRange>, r: ValueRange)
    requires Sorted(storage)
    ensures InsertInto(storage, r).Err? && InsertInto(storage, r).error.Overlap?
      <==> Prior(storage, r.sourceStart).Some? && Prior(storage, r.sourceStart).value.Covers(r.sourceStart)
  {
  }

  /** On a disjoint map, insertion panics with Overlap exactly when some stored range covers r's start. */
  lemma {:induction false} InsertOverlapDisjoint(storage: seq<ValueRange>, r: ValueRange)
    requires Sorted(storage) && Disjoint(storage)
    ensures InsertInto(storage, r).Err? && InsertInto(storage, r).error.Overlap?
      <==> exists e :: e in storage && e.Covers(r.sourceStart)
  {
    if e :| e in storage && e.Covers(r.sourceStart) {
      GetDisjoint(storage, e, r.sourceStart);
    }
  }

  /**
   * The overlap check is one-sided: a range that starts before a stored one and
   * runs into it is accepted, and the resulting storage is not disjoint.
   */
  lemma InsertAcceptsOverlapFromBelow()
    ensures var stored := ValueRange(10, 100, 5);
      var r := ValueRange(5, 50, 10);
      InsertInto([stored], r) == Ok([r, stored]) && !Disjoint([r, stored])
  {
    var stored := ValueRange(10, 100, 5);
    var r := ValueRange(5, 50, 10);
    assert Prior([stored], 5) == None;
    assert RangeOf([stored], 5) == None;
    assert Below(r, stored);
    assert InsertSorted([stored], r) == [r, stored];
    assert !Apart(r, stored);
  }

  /**
   * On the overlapping map that `insert` accepts above, a value both ranges cover is
   * moved by the prior range, the one with the greater start.
   */
  lemma GetOverlapping()
    ensures var low := ValueRange(5, 50, 10);
      var high := ValueRange(10, 100, 5);
      Sorted([low, high]) && low.Covers(12) && high.Covers(12) && Get([low, high], 12) == 102
  {
    var low := ValueRange(5, 50, 10);
    var high := ValueRange(10, 100, 5);
    assert Below(low, high);
    assert Prior([low, high], 12) == Some(high);
  }

  /** The storage built by inserting rs in order into an empty map, or the first panic. */
  function BuildStorage(rs: seq<ValueRange>): (res: Result<seq<ValueRange>, InsertError>)
    ensures res.Ok? ==> Sorted(res.value) && multiset(res.value) == multiset(rs)
  {
    if rs == [] then Ok([])
    else
      match BuildStorage(rs[..|rs| - 1])
      case Err(e) => Err(e)
      case Ok(s) =>
        assert rs == rs[..|rs| - 1] + [rs[|rs| - 1]];
        InsertInto(s, rs[|rs| - 1])
  }

  /** Segments inserted into an empty map from disjoint sources are looked up by their own offsets. */
  lemma {:induction false} BuildStorageLookup(rs: seq<ValueRange>, e: ValueRange, k: int)
    requires Disjoint(rs)
    requires e in rs && 0 <= k < e.len
    ensures BuildStorage(rs).Ok?
    ensures Get(BuildStorage(rs).value, e.sourceStart + k) == e.targetStart + k
  {
    BuildStorageDisjoint(rs);
    var s := BuildStorage(rs).value;
    SameElements(s, rs, e);
    LookupDisjoint(s, e, k);
  }

  /** On a disjoint map, the k-th value of a stored segment lands k past its target start. */
  lemma LookupDisjoint(s: seq<ValueRange>, e: ValueRange, k: int)
    requires Sorted(s) && Disjoint(s)
    requires e in s && 0 <= k < e.len
    ensures Get(s, e.sourceStart + k) == e.targetStart + k
  {
    GetDisjoint(s, e, e.sourceStart + k);
  }

  lemma SameElements<T>(a: seq<T>, b: seq<T>, x: T)
    requires multiset(a) == multiset(b) && x in b
    ensures x in a
  {
    assert x in multiset(b);
  }

  predicate Apart(a: ValueRange, b: ValueRange)
  {
    a.SourceEnd() <= b.sourceStart || b.SourceEnd() <= a.sourceStart
  }

  /** Inserting a positive range apart from every stored one never panics and keeps the map disjoint. */
  lemma InsertKeepsDisjoint(s: seq<ValueRange>, r: ValueRange)
    requires Sorted(s) && Disjoint(s) && r.len > 0
    requires forall e :: e in s ==> Apart(e, r)
    ensures InsertInto(s, r).Ok? && Disjoint(InsertInto(s, r).value)
  {
    assert r !in s by { assert !Apart(r, r); }
    assert RangeOf(s, r.sourceStart).None? by {
      forall e | e in s ensures !e.Covers(r.sourceStart) { assert Apart(e, r); }
    }
    var t := InsertSorted(s, r);
    InsertSortedSorted(s, r);
    assert InsertInto(s, r) == Ok(t);
    forall e | e in t ensures e == r || e in s {
      assert e in multiset(t);
    }
    DisjointFromElements(t, s, r);
  }

  lemma DisjointFromElements(t: seq<ValueRange>, s: seq<ValueRange>, r: ValueRange)
    requires Sorted(t) && Disjoint(s) && r.len > 0
    requires forall e :: e in t ==> e == r || e in s
    requires forall e :: e in s ==> Apart(e, r)
    ensures Disjoint(t)
  {
    forall i | 0 <= i < |t| ensures t[i].len > 0 {
      assert t[i] in t;
      if t[i] != r {
        var ii :| 0 <= ii < |s| && s[ii] == t[i];
      }
    }
    forall i, j | 0 <= i < |t| && 0 <= j < |t| && i != j ensures Apart(t[i], t[j]) {
      assert t[i] in t && t[j] in t;
      assert t[i] != t[j] by {
        if i < j { assert Below(t[i], t[j]); } else { assert Below(t[j], t[i]); }
      }
      if t[i] != r && t[j] != r {
        var ii :| 0 <= ii < |s| && s[ii] == t[i];
        var jj :| 0 <= jj < |s| && s[jj] == t[j];
        assert ii != jj;
      }
    }
  }

  /** Inserting disjoint segments never panics, and the storage stays disjoint. */
  lemma {:induction false} BuildStorageDisjoint(rs: seq<ValueRange>)
    requires Disjoint(rs)
    ensures BuildStorage(rs).Ok? && Disjoint(BuildStorage(rs).value)
  {
    if rs != [] {
      var init := rs[..|rs| - 1];
      var r := rs[|rs| - 1];
      assert Disjoint(init);
      BuildStorageDisjoint(init);
      var s := BuildStorage(init).value;
      forall e | e in s ensures Apart(e, r) {
        assert e in multiset(s);
        var i :| 0 <= i < |init| && init[i] == e;
        assert rs[i] == e;
      }
      InsertKeepsDisjoint(s, r);
    }
  }

  /** `ValueRange::parse` followed by `tag("\n")`: "target source len" on one line. */
  function SegmentLine(s: string, i: nat): (r: Option<Parsed<ValueRange>>)
    requires i <= |s|
    ensures r.Some? ==> i < r.value.next <= |s|
  {
    match Signed(s, Space0(s, i))
    case None => None
    case Some(target) =>
      match Signed(s, Space0(s, target.next))
      case None => None
      case Some(source) =>
        match Signed(s, Space0(s, source.next))
        case None => None
        case Some(len) =>
          match Char(s, Space0(s, len.next), '\n')
          case None => None
          case Some(next) => Some(Parsed(ValueRange(source.value, target.value, len.value), next))
  }

  /** The segment lines that follow one another from i, and the position after them. */
  function SegmentLines(s: string, i: nat): (r: Parsed<seq<ValueRange>>)
    requires i <= |s|
    ensures i <= r.next <= |s|
    ensures r.value == [] <==> r.next == i
    decreases |s| - i
  {
    match SegmentLine(s, i)
    case None => Parsed([], i)
    case Some(line) =>
      var rest := SegmentLines(s, line.next);
      Parsed([line.value] + rest.value, rest.next)
  }

  /** A segment line written as `target source len` with single spaces. */
  function ShowSegment(r: ValueRange): string
  {
    ShowSigned(r.targetStart) + (" " + (ShowSigned(r.sourceStart) + (" " + (ShowSigned(r.len) + "\n"))))
  }

  /** Each written segment line is read back as the same range. */
  lemma SegmentLineShow(s: string, i: nat, r: ValueRange, e: nat)
    requires e == i + |ShowSegment(r)| <= |s| && s[i..e] == ShowSegment(r)
    ensures SegmentLine(s, i) == Some(Parsed(r, e))
  {
    var a, b, c := ShowSigned(r.targetStart), ShowSigned(r.sourceStart), ShowSigned(r.len);
    var rest3 := c + "\n";
    var rest2 := " " + rest3;
    var rest1 := b + rest2;
    var rest0 := " " + rest1;
    var j1 := i + |a|;
    var j2 := j1 + 1 + |b|;
    var j3 := j2 + 1 + |c|;
    SliceSplit(s, i, a, rest0);
    SliceSplit(s, j1, " ", rest1);
    SliceSplit(s, j1 + 1, b, rest2);
    SliceSplit(s, j2, " ", rest3);
    SliceSplit(s, j2 + 1, c, "\n");
    assert s[j1] == s[j1..j1 + 1][0];
    assert s[j2] == s[j2..j2 + 1][0];
    assert s[j3] == s[j3..j3 + 1][0];
    SegmentLineAt(s, i, r, j1, j2, j3);
  }

  /** A segment line laid out in s character by character is read back as r. */
  lemma SegmentLineAt(s: string, i: nat, r: ValueRange, j1: nat, j2: nat, j3: nat)
    requires i <= j1 < j2 < j3 < |s|
    requires j1 == i + |ShowSigned(r.targetStart)| && s[i..j1] == ShowSigned(r.targetStart) && s[j1] == ' '
    requires j2 == j1 + 1 + |ShowSigned(r.sourceStart)| && s[j1 + 1..j2] == ShowSigned(r.sourceStart) && s[j2] == ' '
    requires j3 == j2 + 1 + |ShowSigned(r.len)| && s[j2 + 1..j3] == ShowSigned(r.len) && s[j3] == '\n'
    ensures SegmentLine(s, i) == Some(Parsed(r, j3 + 1))
  {
    SpacedSignedShow(s, i, i, r.targetStart);
    SpacedSignedShow(s, j1, j1 + 1, r.sourceStart);
    SpacedSignedShow(s, j2, j2 + 1, r.len);
    SkipWhileStops(s, j3, Spaces, j3);
    SegmentLineFrom(s, i, r, j1, j2, j3);
  }

  /** SegmentLine read field by field. */
  lemma SegmentLineFrom(s: string, i: nat, r: ValueRange, j1: nat, j2: nat, j3: nat)
    requires i <= j1 <= j2 <= j3 < |s|
    requires Signed(s, Space0(s, i)) == Some(Parsed(r.targetStart, j1))
    requires Signed(s, Space0(s, j1)) == Some(Parsed(r.sourceStart, j2))
    requires Signed(s, Space0(s, j2)) == Some(Parsed(r.len, j3))
    requires Space0(s, j3) == j3 && s[j3] == '\n'
    ensures SegmentLine(s, i) == Some(Parsed(r, j3 + 1))
  {
  }

  /** A written block of segment lines. */
  function ShowSegments(rs: seq<ValueRange>): string
  {
    if rs == [] then [] else ShowSegment(rs[0]) + ShowSegments(rs[1..])
  }

  /**
   * Writing segment lines and parsing them back gives the same ranges, in the same order,
   * when what follows them (at e) is not a segment line.
   */
  lemma SegmentLinesShow(s: string, i: nat, rs: seq<ValueRange>, e: nat)
    requires e == i + |ShowSegments(rs)| <= |s| && s[i..e] == ShowSegments(rs)
    requires SegmentLine(s, e).None?
    ensures SegmentLines(s, i) == Parsed(rs, e)
  {
    SegmentLinesShowBefore(s, i, rs, e);
  }

  /** SegmentLinesShow, by induction on the ranges, given the parse that ends the block. */
  lemma {:induction false} SegmentLinesShowBefore(s: string, i: nat, rs: seq<ValueRange>, e: nat)
    requires e == i + |ShowSegments(rs)| <= |s| && s[i..e] == ShowSegments(rs)
    requires SegmentLines(s, e) == Parsed([], e)
    ensures SegmentLines(s, i) == Parsed(rs, e)
    decreases |rs|
  {
    if rs != [] {
      var j := ShowSegmentsSplit(s, i, rs, e);
      SegmentLinesShowBefore(s, j, rs[1..], e);
      SegmentLinesStep(s, i, rs[0], j, rs[1..], e);
      HeadTail(rs);
    }
  }

  /** A written block of segment lines is its first line, ending at j, then the rest. */
  lemma ShowSegmentsSplit(s: string, i: nat, rs: seq<ValueRange>, e: nat) returns (j: nat)
    requires rs != [] && e == i + |ShowSegments(rs)| <= |s| && s[i..e] == ShowSegments(rs)
    ensures j == i + |ShowSegment(rs[0])| && s[i..j] == ShowSegment(rs[0])
    ensures e == j + |ShowSegments(rs[1..])| && s[j..e] == ShowSegments(rs[1..])
  {
    var head := ShowSegment(rs[0]);
    var tail := ShowSegments(rs[1..]);
    assert ShowSegments(rs) == head + tail;
    SliceSplit(s, i, head, tail);
    j := i + |head|;
  }

  /** A written segment line in front of parsed segment lines is parsed as their first. */
  lemma SegmentLinesStep(s: string, i: nat, r: ValueRange, j: nat, rest: seq<ValueRange>, e: nat)
    requires j == i + |ShowSegment(r)| <= |s| && s[i..j] == ShowSegment(r)
    requires SegmentLines(s, j) == Parsed(rest, e)
    ensures SegmentLines(s, i) == Parsed([r] + rest, e)
  {
    SegmentLineShow(s, i, r, j);
    SegmentLinesCons(s, i, r, rest, j, e);
  }

  /** A segment line followed by more segment lines. */
  lemma SegmentLinesCons(s: string, i: nat, r: ValueRange, rest: seq<ValueRange>, j: nat, k: nat)
    requires i <= |s| && SegmentLine(s, i) == Some(Parsed(r, j))
    requires SegmentLines(s, j) == Parsed(rest, k)
    ensures SegmentLines(s, i) == Parsed([r] + rest, k)
  {
  }

  lemma HeadTail<T>(s: seq<T>)
    requires s != []
    ensures [s[0]] + s[1..] == s
  {
  }

  /** The outcome of `ValueMap::parse` at a position. */
  datatype MapParse =
    | NoBlock                            // no segment line: `fold_many1` fails
    | Panicked(error: InsertError)       // an `insert` panicked
    | Built(built: ValueMap, next: nat)

  /** `ValueMap`: ranges kept sorted in `storage`, which `insert` updates in place. */
  class ValueMap {
    var storage: seq<ValueRange>

    ghost predicate Valid()
      reads this
    {
      Sorted(storage)
    }

    /** `ValueMap::default()`: no ranges, so every lookup is the identity. */
    constructor ()
      ensures Valid() && storage == []
    {
      storage := [];
    }

    /**
     * `ValueMap::insert`: panics (Fail) when the prior range of the new start covers it,
     * or when an equal range is already stored; otherwise puts the range at the
     * position the binary search finds.
     */
    method Insert(range: ValueRange) returns (outcome: Outcome<InsertError>)
      requires Valid()
      modifies this
      ensures Valid()
      ensures match InsertInto(old(storage), range)
        case Ok(t) => outcome == Pass && storage == t
        case Err(e) => outcome == Fail(e) && storage == old(storage)
    {
      var prior := RangeOf(storage, range.sourceStart);
      if prior.Some? {
        assert InsertInto(storage, range) == Err(Overlap(prior.value, range));
        return Fail(Overlap(prior.value, range));
      }
      match SearchRange(storage, range)
      case Found(_) =>
        assert InsertInto(storage, range) == Err(Duplicate(range));
        return Fail(Duplicate(range));
      case NotFound(index) =>
        InsertSortedAt(storage, range, index);
        assert InsertInto(storage, range) == Ok(InsertSorted(storage, range));
        storage := storage[..index] + [range] + storage[index..];
        return Pass;
    }

    /**
     * `ValueMap::parse`: inserts the segment lines starting at i one after another,
     * in input order, into a fresh map.
     */
    static method Parse(src: string, i: nat) returns (r: MapParse)
      requires i <= |src|
      ensures var lines := SegmentLines(src, i);
        if lines.value == [] then r == NoBlock
        else match BuildStorage(lines.value)
          case Err(e) => r == Panicked(e)
          case Ok(t) => r.Built? && fresh(r.built) && r.built.Valid() && r.built.storage == t && r.next == lines.next
    {
      ghost var all := SegmentLines(src, i);
      var m := new ValueMap();
      var pos := i;
      ghost var done: seq<ValueRange> := [];
      ghost var rest := all.value;
      while true
        invariant i <= pos <= |src|
        invariant rest == SegmentLines(src, pos).value && all.next == SegmentLines(src, pos).next
        invariant all.value == done + rest
        invariant BuildStorage(done) == Ok(m.storage)
        invariant m.Valid() && fresh(m)
        invariant done == [] <==> pos == i
        decreases |src| - pos
      {
        var line := SegmentLine(src, pos);
        if line.None? {
          break;
        }
        var range := line.value.value;
        SegmentLinesNext(src, pos);
        ghost var after := SegmentLines(src, line.value.next).value;
        AppendCons(done, range, after);
        BuildStorageSnoc(done, range);
        var outcome := m.Insert(range);
        if outcome.Fail? {
          BuildStoragePanics(done + [range], after);
          return Panicked(outcome.error);
        }
        done, rest := done + [range], after;
        pos := line.value.next;
      }
      if pos == i {
        return NoBlock;
      }
      AppendNil(done);
      return Built(m, pos);
    }
  }

  lemma AppendCons<T>(a: seq<T>, x: T, b: seq<T>)
    ensures a + ([x] + b) == (a + [x]) + b
  {
  }

  lemma AppendNil<T>(a: seq<T>)
    ensures a + [] == a
  {
  }

  /** One step of SegmentLines: the line at i, then the lines after it. */
  lemma SegmentLinesNext(s: string, i: nat)
    requires i <= |s| && SegmentLine(s, i).Some?
    ensures var line := SegmentLine(s, i).value;
      var rest := SegmentLines(s, line.next);
      SegmentLines(s, i) == Parsed([line.value] + rest.value, rest.next)
  {
  }

  /** Inserting one more range: the fold so far, then that insertion. */
  lemma BuildStorageSnoc(rs: seq<ValueRange>, x: ValueRange)
    ensures BuildStorage(rs + [x]) == match BuildStorage(rs)
      case Err(e) => Err(e)
      case Ok(t) => InsertInto(t, x)
  {
    assert (rs + [x])[..|rs|] == rs;
  }

  /** Once an insertion panics, inserting more ranges after it still ends in that panic. */
  lemma {:induction false} BuildStoragePanics(rs: seq<ValueRange>, more: seq<ValueRange>)
    requires BuildStorage(rs).Err?
    ensures BuildStorage(rs + more) == BuildStorage(rs)
    decreases |more|
  {
    if more != [] {
      var init := more[..|more| - 1];
      BuildStoragePanics(rs, init);
      assert (rs + more)[..|rs + more| - 1] == rs + init;
    } else {
      assert rs + more == rs;
    }
  }

  /** The labels of the seven map blocks, in the order plant_location chains the maps. */
  const MapLabels: seq<string> := [
    "seed-to-soil map:", "soil-to-fertilizer map:", "fertilizer-to-water map:", "water-to-light map:",
    "light-to-temperature map:", "temperature-to-humidity map:", "humidity-to-location map:"]

  /** Where a value lands after passing through each storage of maps in turn. */
  function Locate(maps: seq<seq<ValueRange>>, x: int): int
    requires forall k :: 0 <= k < |maps| ==> Sorted(maps[k])
  {
    if maps == [] then x else Locate(maps[1..], Get(maps[0], x))
  }

  /** Passing through maps one after the other is passing through their concatenation. */
  lemma {:induction false} LocateAppend(m1: seq<seq<ValueRange>>, m2: seq<seq<ValueRange>>, x: int)
    requires forall k :: 0 <= k < |m1| ==> Sorted(m1[k])
    requires forall k :: 0 <= k < |m2| ==> Sorted(m2[k])
    ensures forall k :: 0 <= k < |m1 + m2| ==> Sorted((m1 + m2)[k])
    ensures Locate(m1 + m2, x) == Locate(m2, Locate(m1, x))
    decreases |m1|
  {
    assert forall k :: 0 <= k < |m1 + m2| ==> (m1 + m2)[k] == if k < |m1| then m1[k] else m2[k - |m1|];
    if m1 != [] {
      assert (m1 + m2)[1..] == m1[1..] + m2;
      LocateAppend(m1[1..], m2, Get(m1[0], x));
    } else {
      assert m1 + m2 == m2;
    }
  }

  /** Maps without ranges leave every value where it is. */
  lemma {:induction false} LocateEmpty(maps: seq<seq<ValueRange>>, x: int)
    requires forall k :: 0 <= k < |maps| ==> maps[k] == []
    ensures Locate(maps, x) == x
    decreases |maps|
  {
    if maps != [] {
      LocateEmpty(maps[1..], x);
    }
  }

  function MinInt(a: int, b: int): int { if a <= b then a else b }

  /** `Iterator::min` over integers: None on no items. */
  function MinOf(xs: seq<int>): Option<int>
  {
    if xs == [] then None
    else match MinOf(xs[1..])
      case None => Some(xs[0])
      case Some(m) => Some(MinInt(xs[0], m))
  }

  /** The least item, which is one of the items. */
  lemma {:induction false} MinOfIsMin(xs: seq<int>)
    ensures MinOf(xs).None? <==> xs == []
    ensures MinOf(xs).Some? ==> MinOf(xs).value in xs
    ensures MinOf(xs).Some? ==> forall j :: 0 <= j < |xs| ==> MinOf(xs).value <= xs[j]
  {
    if xs != [] {
      MinOfIsMin(xs[1..]);
      if xs[1..] != [] {
        assert forall j :: 1 <= j < |xs| ==> xs[j] == xs[1..][j - 1];
      }
    }
  }

  /** The values of the Rust range `start..start + len`, in order: none when len <= 0. */
  function SeedRange(start: int, len: int): (xs: seq<int>)
    ensures |xs| == if len <= 0 then 0 else len
    ensures forall k :: 0 <= k < |xs| ==> xs[k] == start + k
  {
    if len <= 0 then [] else seq(len, k => start + k)
  }

  /** `Ord for Option<i64>`: None is below every Some, so it wins every minimum. */
  function OptionMin(a: Option<int>, b: Option<int>): Option<int>
  {
    match a
    case None => None
    case Some(x) =>
      match b
      case None => None
      case Some(y) => Some(MinInt(x, y))
  }

  /** `Iterator::min` over `Option<i64>` items: None on no items, and a None item is below every Some. */
  function MinOfOptions(rs: seq<Option<int>>): Option<Option<int>>
  {
    if rs == [] then None
    else match MinOfOptions(rs[1..])
      case None => Some(rs[0])
      case Some(m) => Some(OptionMin(rs[0], m))
  }

  /** No items give None; a None item gives Some(None); otherwise the least value, which is one of the items. */
  lemma {:induction false} MinOfOptionsIsMin(rs: seq<Option<int>>)
    ensures MinOfOptions(rs).None? <==> rs == []
    ensures MinOfOptions(rs) == Some(None) <==> None in rs
    ensures MinOfOptions(rs).Some? && MinOfOptions(rs).value.Some? ==> MinOfOptions(rs).value in rs
    ensures MinOfOptions(rs).Some? && MinOfOptions(rs).value.Some? ==>
      forall p :: 0 <= p < |rs| ==> rs[p].Some? && MinOfOptions(rs).value.value <= rs[p].value
  {
    if rs != [] {
      var tail := rs[1..];
      MinOfOptionsIsMin(tail);
      assert rs == [rs[0]] + tail;
      assert forall p :: 1 <= p < |rs| ==> rs[p] == tail[p - 1];
      assert None in rs <==> rs[0] == None || None in tail;
    }
  }

  /**
   * The minimum does not depend on the order of the items: the chunk minimums can be
   * combined in whatever order the parallel workers finish.
   */
  lemma MinOfOptionsAnyOrder(rs: seq<Option<int>>, ts: seq<Option<int>>)
    requires multiset(rs) == multiset(ts)
    ensures MinOfOptions(rs) == MinOfOptions(ts)
  {
    MinOfOptionsIsMin(rs);
    MinOfOptionsIsMin(ts);
    assert |rs| == |multiset(rs)| == |ts|;
    assert None in rs <==> None in ts by {
      assert None in rs <==> None in multiset(rs);
      assert None in ts <==> None in multiset(ts);
    }
    if MinOfOptions(rs).Some? && MinOfOptions(rs).value.Some? {
      var a, b := MinOfOptions(rs).value, MinOfOptions(ts).value;
      assert a in multiset(ts) && b in multiset(rs);
      var i :| 0 <= i < |ts| && ts[i] == a;
      var j :| 0 <= j < |rs| && rs[j] == b;
    }
  }

  /** The least value among the Some items, ignoring the None ones. */
  function MinOfSomes(rs: seq<Option<int>>): Option<int>
  {
    if rs == [] then None
    else match MinOfSomes(rs[1..])
      case None => rs[0]
      case Some(m) =>
        match rs[0]
        case None => Some(m)
        case Some(x) => Some(MinInt(x, m))
  }

  /** None exactly when every item is None; otherwise the least value of the Some items, which is one of them. */
  lemma {:induction false} MinOfSomesIsMin(rs: seq<Option<int>>)
    ensures MinOfSomes(rs).None? <==> forall p :: 0 <= p < |rs| ==> rs[p].None?
    ensures MinOfSomes(rs).Some? ==> MinOfSomes(rs) in rs
    ensures MinOfSomes(rs).Some? ==> forall p :: 0 <= p < |rs| && rs[p].Some? ==> MinOfSomes(rs).value <= rs[p].value
  {
    if rs != [] {
      var tail := rs[1..];
      MinOfSomesIsMin(tail);
      assert forall p :: 1 <= p < |rs| ==> rs[p] == tail[p - 1];
      if MinOfSomes(tail).Some? {
        assert MinOfSomes(tail) in rs;
      }
    }
  }

  /** A chunk of the seed list: the range start..start + len. */
  datatype SeedChunk = SeedChunk(start: int, len: int)
  {
    predicate Holds(x: int) { start <= x < start + len }
  }

  /** `slice::chunks(2)` on an even number of seeds. */
  function Chunks(xs: seq<int>): (cs: seq<SeedChunk>)
    requires |xs| % 2 == 0
    ensures |cs| == |xs| / 2
    ensures forall p :: 0 <= p < |cs| ==> cs[p] == SeedChunk(xs[2 * p], xs[2 * p + 1])
  {
    seq(|xs| / 2, p requires 0 <= p < |xs| / 2 => SeedChunk(xs[2 * p], xs[2 * p + 1]))
  }

  /** The outcome of `best_plant_location_paired`: an indexing panic, or the minimum. */
  datatype PairedResult = OutOfBounds | Minimum(location: Option<int>)

  /** A problem as values: the seeds and the storage of each map, in chain order. */
  datatype Almanac = Almanac(seeds: seq<int>, maps: seq<seq<ValueRange>>)
  {
    predicate WellFormed()
    {
      |maps| == |MapLabels| && forall k :: 0 <= k < |maps| ==> Sorted(maps[k])
    }

    /** `Problem::plant_location`: the seed passed through the seven maps. */
    function PlantLocation(seed: int): int
      requires WellFormed()
    {
      Locate(maps, seed)
    }

    /** `Problem::best_plant_location` as written: the location of the first seed. */
    function BestPlantLocation(): Option<int>
      requires WellFormed()
    {
      if seeds == [] then None else Some(PlantLocation(seeds[0]))
    }

    /** The location of each of xs, in order. */
    function LocationsOf(xs: seq<int>): (ls: seq<int>)
      requires WellFormed()
      ensures |ls| == |xs| && forall j :: 0 <= j < |xs| ==> ls[j] == PlantLocation(xs[j])
    {
      seq(|xs|, j requires 0 <= j < |xs| => PlantLocation(xs[j]))
    }

    /** The lowest location over all seeds: what best_plant_location is meant to compute. */
    function MinPlantLocation(): Option<int>
      requires WellFormed()
    {
      MinOf(LocationsOf(seeds))
    }

    /** `(start..start + len).map(plant_location).min()`. */
    function RangeMin(start: int, len: int): Option<int>
      requires WellFormed()
    {
      MinOf(LocationsOf(SeedRange(start, len)))
    }

    /** The minimum of each chunk's range, in chunk order. */
    function ChunkMins(cs: seq<SeedChunk>): (ms: seq<Option<int>>)
      requires WellFormed()
      ensures |ms| == |cs| && forall p :: 0 <= p < |cs| ==> ms[p] == RangeMin(cs[p].start, cs[p].len)
    {
      seq(|cs|, p requires 0 <= p < |cs| => RangeMin(cs[p].start, cs[p].len))
    }

    /**
     * `Problem::best_plant_location_paired`: the chunk of an odd trailing seed has no
     * length and indexing it panics; otherwise the minimum over all chunks, flattened.
     */
    function BestPlantLocationPaired(): PairedResult
      requires WellFormed()
    {
      if |seeds| % 2 == 1 then OutOfBounds
      else match MinOfOptions(ChunkMins(Chunks(seeds)))
        case None => Minimum(None)
        case Some(m) => Minimum(m)
    }

    /**
     * The paired minimum as the design means it: a chunk without seeds contributes
     * nothing, instead of making the whole answer None.
     */
    function PairedMinNonEmpty(): PairedResult
      requires WellFormed()
    {
      if |seeds| % 2 == 1 then OutOfBounds
      else Minimum(MinOfSomes(ChunkMins(Chunks(seeds))))
    }
  }

  const NoMaps: seq<seq<ValueRange>> := [[], [], [], [], [], [], []]

  /** `Problem::default()`: no seeds and seven empty maps. */
  const EmptyAlmanac := Almanac([], NoMaps)

  /**
   * `separated_list1(space1, i64)` after its first element: one more element for each
   * run of spaces followed by a number; a separator without a number is left unread.
   */
  function SeedListMore(s: string, i: nat, acc: seq<int>): (r: Parsed<seq<int>>)
    requires i <= |s|
    ensures i <= r.next <= |s|
    decreases |s| - i
  {
    match Space1(s, i)
    case None => Parsed(acc, i)
    case Some(j) =>
      match Signed(s, j)
      case None => Parsed(acc, i)
      case Some(p) => SeedListMore(s, p.next, acc + [p.value])
  }

  /** `separated_list1(space1, i64)`: at least one number. */
  function SeedList(s: string, i: nat): (r: Option<Parsed<seq<int>>>)
    requires i <= |s|
    ensures r.Some? ==> i < r.value.next <= |s|
  {
    match Signed(s, i)
    case None => None
    case Some(p) => Some(SeedListMore(s, p.next, [p.value]))
  }

  /** What one field of the almanac holds. */
  datatype FieldValue = SeedsValue(seeds: seq<int>) | MapValue(stage: nat, storage: seq<ValueRange>)

  /** The outcome of one `any_field`: a recoverable failure, an insert panic, or a value. */
  datatype FieldParse = NoField | FieldPanic(error: InsertError) | FieldOk(value: FieldValue, next: nat)

  predicate FitsAlmanac(v: FieldValue)
  {
    v.MapValue? ==> v.stage < |MapLabels| && Sorted(v.storage)
  }

  /** `parse_field("seeds:", …)`: the label, whitespace, the seed list, whitespace. */
  function SeedsField(s: string, i: nat): (r: Option<Parsed<seq<int>>>)
    requires i <= |s|
    ensures r.Some? ==> i < r.value.next <= |s|
  {
    match Tag(s, i, "seeds:")
    case None => None
    case Some(j) =>
      match SeedList(s, Multispace0(s, j))
      case None => None
      case Some(list) => Some(Parsed(list.value, Multispace0(s, list.next)))
  }

  /** `parse_field(MapLabels[k], ValueMap::parse)`. */
  function MapField(s: string, i: nat, k: nat): (r: FieldParse)
    requires i <= |s| && k < |MapLabels|
    ensures r.FieldOk? ==> i < r.next <= |s| && r.value.MapValue? && r.value.stage == k && FitsAlmanac(r.value)
  {
    assert |MapLabels[k]| > 0;
    match Tag(s, i, MapLabels[k])
    case None => NoField
    case Some(j) =>
      var lines := SegmentLines(s, Multispace0(s, j));
      if lines.value == [] then NoField
      else match BuildStorage(lines.value)
        case Err(e) => FieldPanic(e)
        case Ok(t) => FieldOk(MapValue(k, t), Multispace0(s, lines.next))
  }

  /** `alt` over the map fields k.. in order: the first that does not fail recoverably. */
  function MapFields(s: string, i: nat, k: nat): (r: FieldParse)
    requires i <= |s| && k <= |MapLabels|
    ensures r.FieldOk? ==> i < r.next <= |s| && r.value.MapValue? && k <= r.value.stage && FitsAlmanac(r.value)
    decreases |MapLabels| - k
  {
    if k == |MapLabels| then NoField
    else match MapField(s, i, k)
      case NoField => MapFields(s, i, k + 1)
      case r => r
  }

  /** `any_field`: whitespace, the seeds field or else the map fields, whitespace. */
  function AnyField(s: string, i: nat): (r: FieldParse)
    requires i <= |s|
    ensures r.FieldOk? ==> i < r.next <= |s| && FitsAlmanac(r.value)
  {
    var j := Multispace0(s, i);
    var inner := match SeedsField(s, j)
      case Some(p) => FieldOk(SeedsValue(p.value), p.next)
      case None => MapFields(s, j, 0);
    match inner
    case FieldOk(v, n) => FieldOk(v, Multispace0(s, n))
    case other => other
  }

  /** The closure of a field: it overwrites the seeds or the map of its stage. */
  function Apply(a: Almanac, v: FieldValue): (b: Almanac)
    requires a.WellFormed() && FitsAlmanac(v)
    ensures b.WellFormed()
  {
    match v
    case SeedsValue(xs) => a.(seeds := xs)
    case MapValue(k, t) => a.(maps := a.maps[k := t])
  }

  datatype FieldsParse = Panic(error: InsertError) | Stopped(almanac: Almanac, rest: nat)

  /** `many0_count(any_field)` from i, applying each field to a: it stops at the first position without a field. */
  function Fields(s: string, i: nat, a: Almanac): (r: FieldsParse)
    requires i <= |s| && a.WellFormed()
    ensures r.Stopped? ==> i <= r.rest <= |s| && r.almanac.WellFormed()
    decreases |s| - i
  {
    match AnyField(s, i)
    case NoField => Stopped(a, i)
    case FieldPanic(e) => Panic(e)
    case FieldOk(v, n) => Fields(s, n, Apply(a, v))
  }

  datatype ProblemError = TrailingText(at: nat) | InsertPanic(error: InsertError)

  /** `Problem::parse` as a value: the fields from the start, then nothing may be left. */
  function ParseAlmanac(s: string): (r: Result<Almanac, ProblemError>)
    ensures r.Ok? ==> r.value.WellFormed()
  {
    match Fields(s, 0, EmptyAlmanac)
    case Panic(e) => Err(InsertPanic(e))
    case Stopped(a, rest) => if rest < |s| then Err(TrailingText(rest)) else Ok(a)
  }

  /** `alt` tries map field k and moves on to k + 1 only when it fails recoverably. */
  lemma MapFieldsStep(s: string, j: nat, k: nat)
    requires j <= |s| && k < |MapLabels|
    ensures MapField(s, j, k).NoField? ==> MapFields(s, j, k) == MapFields(s, j, k + 1)
    ensures !MapField(s, j, k).NoField? ==> MapFields(s, j, k) == MapField(s, j, k)
  {
  }

  /** `Problem`: the seeds and seven maps, which `parse` assigns field by field. */
  class Problem {
    var seeds: seq<int>
    var seedToSoil: ValueMap
    var soilToFertilizer: ValueMap
    var fertilizerToWater: ValueMap
    var waterToLight: ValueMap
    var lightToTemperature: ValueMap
    var temperatureToHumidity: ValueMap
    var humidityToLocation: ValueMap

    /** The problem's seeds and map storages, in chain order. */
    function Value(): Almanac
      reads this, seedToSoil, soilToFertilizer, fertilizerToWater, waterToLight,
        lightToTemperature, temperatureToHumidity, humidityToLocation
    {
      Almanac(seeds, [seedToSoil.storage, soilToFertilizer.storage, fertilizerToWater.storage,
        waterToLight.storage, lightToTemperature.storage, temperatureToHumidity.storage,
        humidityToLocation.storage])
    }

    ghost predicate Valid()
      reads this, seedToSoil, soilToFertilizer, fertilizerToWater, waterToLight,
        lightToTemperature, temperatureToHumidity, humidityToLocation
    {
      Value().WellFormed()
    }

    /** `Problem::default()`. */
    constructor ()
      ensures Valid() && Value() == EmptyAlmanac
    {
      seeds := [];
      seedToSoil := new ValueMap();
      soilToFertilizer := new ValueMap();
      fertilizerToWater := new ValueMap();
      waterToLight := new ValueMap();
      lightToTemperature := new ValueMap();
      temperatureToHumidity := new ValueMap();
      humidityToLocation := new ValueMap();
    }

    /** `Problem::plant_location`: seed → soil → fertilizer → water → light → temperature → humidity → location. */
    function PlantLocation(seed: int): (location: int)
      reads this, seedToSoil, soilToFertilizer, fertilizerToWater, waterToLight,
        lightToTemperature, temperatureToHumidity, humidityToLocation
      requires Valid()
      ensures location == Value().PlantLocation(seed)
    {
      var maps := Value().maps;
      assert Sorted(maps[0]) && Sorted(maps[1]) && Sorted(maps[2]) && Sorted(maps[3])
        && Sorted(maps[4]) && Sorted(maps[5]) && Sorted(maps[6]);
      var s := Get(seedToSoil.storage, seed);
      var f := Get(soilToFertilizer.storage, s);
      var w := Get(fertilizerToWater.storage, f);
      var l := Get(waterToLight.storage, w);
      var t := Get(lightToTemperature.storage, l);
      var h := Get(temperatureToHumidity.storage, t);
      LocateSeven(maps, seed);
      Get(humidityToLocation.storage, h)
    }

    /** The assignment of one map field by its closure. */
    method SetMap(k: nat, m: ValueMap)
      requires Valid() && k < |MapLabels| && m.Valid()
      modifies this
      ensures Valid() && Value() == Apply(old(Value()), MapValue(k, m.storage))
    {
      ghost var before := Value();
      if k == 0 { seedToSoil := m; }
      else if k == 1 { soilToFertilizer := m; }
      else if k == 2 { fertilizerToWater := m; }
      else if k == 3 { waterToLight := m; }
      else if k == 4 { lightToTemperature := m; }
      else if k == 5 { temperatureToHumidity := m; }
      else { humidityToLocation := m; }
      assert Value().maps == before.maps[k := m.storage];
    }

    /** One `any_field` at i, building the map of a map field. */
    static method ReadField(src: string, i: nat) returns (r: FieldParse, built: ValueMap?)
      requires i <= |src|
      ensures r == AnyField(src, i)
      ensures r.FieldOk? && r.value.MapValue? ==>
        built != null && fresh(built) && built.Valid() && built.storage == r.value.storage
    {
      var j := Multispace0(src, i);
      var seedsField := SeedsField(src, j);
      if seedsField.Some? {
        return FieldOk(SeedsValue(seedsField.value.value), Multispace0(src, seedsField.value.next)), null;
      }
      var field, m := ReadMapFields(src, j, 0);
      if field.FieldOk? {
        return FieldOk(field.value, Multispace0(src, field.next)), m;
      }
      return field, null;
    }

    /** The map fields from stage k on tried in order at j, building the map of the first that matches. */
    static method ReadMapFields(src: string, j: nat, k: nat) returns (r: FieldParse, built: ValueMap?)
      requires j <= |src| && k <= |MapLabels|
      ensures r == MapFields(src, j, k)
      ensures r.FieldOk? ==> built != null && fresh(built) && built.Valid() && built.storage == r.value.storage
      decreases |MapLabels| - k
    {
      if k == |MapLabels| {
        return NoField, null;
      }
      MapFieldsStep(src, j, k);
      r, built := ReadMapField(src, j, k);
      if r.NoField? {
        r, built := ReadMapFields(src, j, k + 1);
      }
    }

    /** `parse_field(MapLabels[k], ValueMap::parse)` at j, building the map it reads. */
    static method ReadMapField(src: string, j: nat, k: nat) returns (r: FieldParse, built: ValueMap?)
      requires j <= |src| && k < |MapLabels|
      ensures r == MapField(src, j, k)
      ensures r.FieldOk? ==> built != null && fresh(built) && built.Valid() && built.storage == r.value.storage
    {
      var tag := Tag(src, j, MapLabels[k]);
      if tag.None? {
        return NoField, null;
      }
      var block := ValueMap.Parse(src, Multispace0(src, tag.value));
      match block
      case NoBlock =>
        return NoField, null;
      case Panicked(e) =>
        return FieldPanic(e), null;
      case Built(m, next) =>
        return FieldOk(MapValue(k, m.storage), Multispace0(src, next)), m;
    }

    /**
     * `Problem::parse`: reads fields while one matches, assigning each to the problem,
     * and fails when text is left over.
     */
    static method Parse(src: string) returns (r: Result<Problem, ProblemError>)
      ensures match ParseAlmanac(src)
        case Ok(a) => r.Ok? && fresh(r.value) && r.value.Valid() && r.value.Value() == a
        case Err(e) => r == Err(e)
    {
      var problem := new Problem();
      var pos := 0;
      while true
        invariant pos <= |src|
        invariant fresh(problem) && problem.Valid()
        invariant Fields(src, pos, problem.Value()) == Fields(src, 0, EmptyAlmanac)
        decreases |src| - pos
      {
        var field, built := ReadField(src, pos);
        match field
        case NoField =>
          break;
        case FieldPanic(e) =>
          return Err(InsertPanic(e));
        case FieldOk(SeedsValue(xs), next) =>
          problem.seeds := xs;
          pos := next;
        case FieldOk(MapValue(k, _), next) =>
          problem.SetMap(k, built);
          pos := next;
      }
      if pos < |src| {
        return Err(TrailingText(pos));
      }
      return Ok(problem);
    }
  }

  /** Locate through seven maps, spelled out. */
  lemma LocateSeven(maps: seq<seq<ValueRange>>, x: int)
    requires |maps| == 7 && forall k :: 0 <= k < |maps| ==> Sorted(maps[k])
    ensures Locate(maps, x) == Get(maps[6], Get(maps[5], Get(maps[4], Get(maps[3], Get(maps[2], Get(maps[1], Get(maps[0], x)))))))
  {
    assert maps[0..] == maps;
    var y := x;
    LocateStep(maps, 0, y); y := Get(maps[0], y);
    LocateStep(maps, 1, y); y := Get(maps[1], y);
    LocateStep(maps, 2, y); y := Get(maps[2], y);
    LocateStep(maps, 3, y); y := Get(maps[3], y);
    LocateStep(maps, 4, y); y := Get(maps[4], y);
    LocateStep(maps, 5, y); y := Get(maps[5], y);
    LocateStep(maps, 6, y);
  }

  lemma LocateStep(maps: seq<seq<ValueRange>>, k: nat, y: int)
    requires k < |maps| && forall j :: 0 <= j < |maps| ==> Sorted(maps[j])
    ensures Locate(maps[k..], y) == Locate(maps[k + 1..], Get(maps[k], y))
  {
    assert maps[k..][1..] == maps[k + 1..];
  }

  /** With every map empty, plant_location is the identity. */
  lemma PlantLocationNoMaps(seeds: seq<int>, x: int)
    ensures Almanac(seeds, NoMaps).WellFormed()
    ensures Almanac(seeds, NoMaps).PlantLocation(x) == x
  {
    LocateEmpty(NoMaps, x);
  }

  /** The lowest location over all seeds: None exactly without seeds, otherwise the location of one of them. */
  lemma MinPlantLocationIsMin(a: Almanac)
    requires a.WellFormed()
    ensures a.MinPlantLocation().None? <==> a.seeds == []
    ensures a.MinPlantLocation().Some? ==>
      exists j :: 0 <= j < |a.seeds| && a.MinPlantLocation().value == a.PlantLocation(a.seeds[j])
    ensures a.MinPlantLocation().Some? ==>
      forall j :: 0 <= j < |a.seeds| ==> a.MinPlantLocation().value <= a.PlantLocation(a.seeds[j])
  {
    var ls := a.LocationsOf(a.seeds);
    MinOfIsMin(ls);
    if ls != [] {
      var j :| 0 <= j < |ls| && ls[j] == MinOf(ls).value;
    }
  }

  /** best_plant_location answers exactly when the minimum does, and never below it. */
  lemma BestPlantLocationAboveMin(a: Almanac)
    requires a.WellFormed()
    ensures a.BestPlantLocation().Some? <==> a.MinPlantLocation().Some?
    ensures a.BestPlantLocation().Some? ==> a.MinPlantLocation().value <= a.BestPlantLocation().value
  {
    MinPlantLocationIsMin(a);
  }

  /** With seeds 2 and 1 and no maps, best_plant_location answers 2 although seed 1 lands at 1. */
  lemma BestPlantLocationIsNotMin()
    ensures var a := Almanac([2, 1], NoMaps);
      a.WellFormed() && a.BestPlantLocation() == Some(2) && a.MinPlantLocation() == Some(1)
  {
    var a := Almanac([2, 1], NoMaps);
    PlantLocationNoMaps([2, 1], 2);
    PlantLocationNoMaps([2, 1], 1);
    assert a.LocationsOf(a.seeds) == [2, 1];
    assert MinOf([1]) == Some(1);
  }

  /** RangeMin is the least location over [start, start + len), reached inside it. */
  lemma RangeMinIsMin(a: Almanac, start: int, len: int)
    requires a.WellFormed()
    ensures a.RangeMin(start, len).None? <==> len <= 0
    ensures a.RangeMin(start, len).Some? ==>
      exists x :: start <= x < start + len && a.RangeMin(start, len).value == a.PlantLocation(x)
    ensures a.RangeMin(start, len).Some? ==>
      forall x :: start <= x < start + len ==> a.RangeMin(start, len).value <= a.PlantLocation(x)
  {
    var xs := SeedRange(start, len);
    var ls := a.LocationsOf(xs);
    MinOfIsMin(ls);
    if ls != [] {
      var j :| 0 <= j < |ls| && ls[j] == MinOf(ls).value;
      assert xs[j] == start + j;
      assert ls[j] == a.PlantLocation(xs[j]);
      forall x | start <= x < start + len ensures MinOf(ls).value <= a.PlantLocation(x) {
        assert xs[x - start] == x;
        assert ls[x - start] == a.PlantLocation(xs[x - start]);
      }
    }
  }

  /**
   * best_plant_location_paired fails exactly on an odd number of seeds; it is None exactly
   * when there are no seeds or a chunk has no seeds in it, and otherwise the least location
   * over all chunks, reached in one of them.
   */
  lemma BestPlantLocationPairedIsMin(a: Almanac)
    requires a.WellFormed()
    ensures a.BestPlantLocationPaired().OutOfBounds? <==> |a.seeds| % 2 == 1
    ensures |a.seeds| % 2 == 0 ==> var cs := Chunks(a.seeds);
      && (a.BestPlantLocationPaired() == Minimum(None) <==>
            a.seeds == [] || exists p :: 0 <= p < |cs| && cs[p].len <= 0)
      && (a.BestPlantLocationPaired().location.Some? ==>
            exists p, x :: 0 <= p < |cs| && cs[p].Holds(x) && a.BestPlantLocationPaired().location.value == a.PlantLocation(x))
      && (a.BestPlantLocationPaired().location.Some? ==>
            forall p, x :: 0 <= p < |cs| && cs[p].Holds(x) ==> a.BestPlantLocationPaired().location.value <= a.PlantLocation(x))
  {
    if |a.seeds| % 2 == 0 {
      PairedNone(a);
      PairedSome(a);
    }
  }

  lemma PairedNone(a: Almanac)
    requires a.WellFormed() && |a.seeds| % 2 == 0
    ensures var cs := Chunks(a.seeds);
      a.BestPlantLocationPaired() == Minimum(None) <==> a.seeds == [] || exists p :: 0 <= p < |cs| && cs[p].len <= 0
  {
    var cs := Chunks(a.seeds);
    var ms := a.ChunkMins(cs);
    MinOfOptionsIsMin(ms);
    forall p | 0 <= p < |cs| ensures ms[p].None? <==> cs[p].len <= 0 {
      RangeMinIsMin(a, cs[p].start, cs[p].len);
    }
    if None in ms {
      var p :| 0 <= p < |ms| && ms[p] == None;
      assert cs[p].len <= 0;
    }
  }

  lemma PairedSome(a: Almanac)
    requires a.WellFormed() && |a.seeds| % 2 == 0
    ensures var cs := Chunks(a.seeds);
      && (a.BestPlantLocationPaired().location.Some? ==>
            exists p, x :: 0 <= p < |cs| && cs[p].Holds(x) && a.BestPlantLocationPaired().location.value == a.PlantLocation(x))
      && (a.BestPlantLocationPaired().location.Some? ==>
            forall p, x :: 0 <= p < |cs| && cs[p].Holds(x) ==> a.BestPlantLocationPaired().location.value <= a.PlantLocation(x))
  {
    var ms := a.ChunkMins(Chunks(a.seeds));
    MinOfOptionsIsMin(ms);
    if MinOfOptions(ms).Some? && MinOfOptions(ms).value.Some? {
      PairedWitness(a, ms, MinOfOptions(ms).value.value);
      PairedBound(a, ms, MinOfOptions(ms).value.value);
    }
  }

  lemma PairedWitness(a: Almanac, ms: seq<Option<int>>, m: int)
    requires a.WellFormed() && |a.seeds| % 2 == 0
    requires ms == a.ChunkMins(Chunks(a.seeds)) && Some(m) in ms
    ensures var cs := Chunks(a.seeds);
      exists p, x :: 0 <= p < |cs| && cs[p].Holds(x) && m == a.PlantLocation(x)
  {
    var cs := Chunks(a.seeds);
    var p :| 0 <= p < |ms| && ms[p] == Some(m);
    RangeMinIsMin(a, cs[p].start, cs[p].len);
    var x :| cs[p].Holds(x) && m == a.PlantLocation(x);
  }

  lemma PairedBound(a: Almanac, ms: seq<Option<int>>, m: int)
    requires a.WellFormed() && |a.seeds| % 2 == 0
    requires ms == a.ChunkMins(Chunks(a.seeds))
    requires forall p :: 0 <= p < |ms| ==> ms[p].Some? && m <= ms[p].value
    ensures var cs := Chunks(a.seeds);
      forall p, x :: 0 <= p < |cs| && cs[p].Holds(x) ==> m <= a.PlantLocation(x)
  {
    var cs := Chunks(a.seeds);
    forall q, y | 0 <= q < |cs| && cs[q].Holds(y) ensures m <= a.PlantLocation(y) {
      RangeMinIsMin(a, cs[q].start, cs[q].len);
      assert ms[q].Some? && m <= ms[q].value;
    }
  }

  /**
   * The corrected paired minimum fails exactly on an odd number of seeds; it is None
   * exactly when no chunk holds a seed, and otherwise the least location over all
   * seeds of all chunks, reached in one of them.
   */
  lemma PairedMinNonEmptyIsMin(a: Almanac)
    requires a.WellFormed()
    ensures a.PairedMinNonEmpty().OutOfBounds? <==> |a.seeds| % 2 == 1
    ensures |a.seeds| % 2 == 0 ==> var cs := Chunks(a.seeds);
      && (a.PairedMinNonEmpty() == Minimum(None) <==> forall p :: 0 <= p < |cs| ==> cs[p].len <= 0)
      && (a.PairedMinNonEmpty().location.Some? ==>
            exists p, x :: 0 <= p < |cs| && cs[p].Holds(x) && a.PairedMinNonEmpty().location.value == a.PlantLocation(x))
      && (a.PairedMinNonEmpty().location.Some? ==>
            forall p, x :: 0 <= p < |cs| && cs[p].Holds(x) ==> a.PairedMinNonEmpty().location.value <= a.PlantLocation(x))
  {
    if |a.seeds| % 2 == 0 {
      var cs := Chunks(a.seeds);
      var ms := a.ChunkMins(cs);
      MinOfSomesIsMin(ms);
      forall p | 0 <= p < |cs| ensures ms[p].None? <==> cs[p].len <= 0 {
        RangeMinIsMin(a, cs[p].start, cs[p].len);
      }
      if MinOfSomes(ms).Some? {
        var m := MinOfSomes(ms).value;
        PairedWitness(a, ms, m);
        forall q, y | 0 <= q < |cs| && cs[q].Holds(y) ensures m <= a.PlantLocation(y) {
          RangeMinIsMin(a, cs[q].start, cs[q].len);
        }
      }
    }
  }

  /**
   * A pair of length 0 hides every other pair: with no maps and seeds 5 1 7 0,
   * best_plant_location_paired answers None although seed 5 lands at 5.
   */
  lemma PairedEmptyChunkHidesMin()
    ensures var a := Almanac([5, 1, 7, 0], NoMaps);
      a.WellFormed() && a.BestPlantLocationPaired() == Minimum(None) && a.PairedMinNonEmpty() == Minimum(Some(5))
  {
    var a := Almanac([5, 1, 7, 0], NoMaps);
    PlantLocationNoMaps([5, 1, 7, 0], 5);
    var cs := Chunks(a.seeds);
    assert cs[0] == SeedChunk(5, 1) && cs[1] == SeedChunk(7, 0);
    PairedNone(a);
    RangeMinIsMin(a, 5, 1);
    RangeMinIsMin(a, 7, 0);
    var ms := a.ChunkMins(cs);
    assert ms == [a.RangeMin(5, 1), None];
    assert a.RangeMin(5, 1) == Some(5);
  }

  /** Which part of the problem a field assigns: the seeds, or the map of its stage. */
  function Target(v: FieldValue): int
  {
    match v
    case SeedsValue(_) => -1
    case MapValue(k, _) => k
  }

  /** A later field for the same part replaces the earlier one. */
  lemma ApplyOverwrites(a: Almanac, v1: FieldValue, v2: FieldValue)
    requires a.WellFormed() && FitsAlmanac(v1) && FitsAlmanac(v2) && Target(v1) == Target(v2)
    ensures Apply(Apply(a, v1), v2) == Apply(a, v2)
  {
    if v1.MapValue? {
      assert Apply(Apply(a, v1), v2).maps == Apply(a, v2).maps;
    }
  }

  /** Fields for different parts can come in either order. */
  lemma ApplyCommutes(a: Almanac, v1: FieldValue, v2: FieldValue)
    requires a.WellFormed() && FitsAlmanac(v1) && FitsAlmanac(v2) && Target(v1) != Target(v2)
    ensures Apply(Apply(a, v1), v2) == Apply(Apply(a, v2), v1)
  {
    if v1.MapValue? && v2.MapValue? {
      assert Apply(Apply(a, v1), v2).maps == Apply(Apply(a, v2), v1).maps;
    }
  }

  /** An empty input is the default problem: no seeds, and every map the identity. */
  lemma ParseEmpty()
    ensures ParseAlmanac("") == Ok(EmptyAlmanac)
  {
    assert AnyField("", 0) == NoField;
  }

  /** Input of whitespace only is trailing text: whitespace is only consumed around a field. */
  lemma ParseBlank()
    ensures ParseAlmanac(" ") == Err(TrailingText(0))
  {
    assert Multispace0(" ", 0) == 1;
    assert MapFields(" ", 1, 0) == NoField;
    assert AnyField(" ", 0) == NoField;
  }

  /** Two different map labels differ at position 0, or at 1 for the two starting with 's'. */
  lemma LabelsApart(k: nat, k2: nat)
    requires k < |MapLabels| && k2 < |MapLabels| && k != k2
    ensures var d := if k <= 1 && k2 <= 1 then 1 else 0;
      d < |MapLabels[k]| && d < |MapLabels[k2]| && MapLabels[k][d] != MapLabels[k2][d]
  {
  }

  /** "seeds:" differs from every map label within both. */
  lemma SeedsLabelApart(k: nat)
    requires k < |MapLabels|
    ensures var d := if k == 0 then 4 else if k == 1 then 1 else 0;
      d < |"seeds:"| && d < |MapLabels[k]| && "seeds:"[d] != MapLabels[k][d]
  {
  }

  /** Two literals that differ within both cannot both match at one position. */
  lemma TagsExclusive(s: string, i: nat, a: string, b: string, d: nat)
    requires i <= |s| && d < |a| && d < |b| && a[d] != b[d]
    ensures Tag(s, i, a).None? || Tag(s, i, b).None?
  {
    if Tag(s, i, a).Some? {
      assert s[i..i + |a|][d] == s[i + d];
      if i + |b| <= |s| {
        assert s[i..i + |b|][d] == s[i + d];
      }
    }
  }

  /** Where one map label matches, another does not. */
  lemma OtherLabelFails(s: string, j: nat, k: nat, k2: nat)
    requires j <= |s| && k < |MapLabels| && k2 < |MapLabels| && k2 != k
    requires Tag(s, j, MapLabels[k]).Some?
    ensures Tag(s, j, MapLabels[k2]).None?
  {
    LabelsApart(k, k2);
    TagsExclusive(s, j, MapLabels[k], MapLabels[k2], if k <= 1 && k2 <= 1 then 1 else 0);
  }

  /** Where a map label matches, "seeds:" does not, and the other way round. */
  lemma SeedsOrMapLabel(s: string, j: nat, k: nat)
    requires j <= |s| && k < |MapLabels|
    ensures Tag(s, j, "seeds:").None? || Tag(s, j, MapLabels[k]).None?
  {
    SeedsLabelApart(k);
    TagsExclusive(s, j, "seeds:", MapLabels[k], if k == 0 then 4 else if k == 1 then 1 else 0);
  }

  /** A map alternative whose label does not match fails, and alt goes on to the next. */
  lemma MapFieldsSkip(s: string, j: nat, k: nat)
    requires j <= |s| && k < |MapLabels| && Tag(s, j, MapLabels[k]).None?
    ensures MapField(s, j, k) == NoField
    ensures MapFields(s, j, k) == MapFields(s, j, k + 1)
  {
  }

  /** A chain of equal neighbours: f(k0) == f(k0 + 1) == … == f(k1). */
  lemma {:induction false} ChainEqual<T>(f: nat -> T, k0: nat, k1: nat)
    requires k0 <= k1
    requires forall k :: k0 <= k < k1 ==> f(k) == f(k + 1)
    ensures f(k0) == f(k1)
    decreases k1 - k0
  {
    if k0 < k1 {
      ChainEqual(f, k0, k1 - 1);
    }
  }

  /** alt skips a run of stages k0 .. k1 each of which hands it on to the next. */
  lemma MapFieldsSkipAll(s: string, j: nat, k0: nat, k1: nat)
    requires j <= |s| && k0 <= k1 <= |MapLabels|
    requires forall k2 :: k0 <= k2 < k1 ==> MapFields(s, j, k2) == MapFields(s, j, k2 + 1)
    ensures MapFields(s, j, k0) == MapFields(s, j, k1)
  {
    var alt := (k: nat) => if k <= |MapLabels| then MapFields(s, j, k) else NoField;
    ChainEqual(alt, k0, k1);
  }

  /** Where "seeds:" matches, every map alternative from k0 on fails. */
  lemma MapFieldsAfterSeeds(s: string, j: nat, k0: nat)
    requires j <= |s| && k0 <= |MapLabels| && Tag(s, j, "seeds:").Some?
    ensures MapFields(s, j, k0) == NoField
  {
    forall k2 | k0 <= k2 < |MapLabels|
      ensures MapFields(s, j, k2) == MapFields(s, j, k2 + 1)
    {
      SeedsOrMapLabel(s, j, k2);
      MapFieldsSkip(s, j, k2);
    }
    MapFieldsSkipAll(s, j, k0, |MapLabels|);
  }

  /** Where the label of stage k matches, every map alternative after k fails. */
  lemma MapFieldsAfter(s: string, j: nat, k: nat, k0: nat)
    requires j <= |s| && k < k0 <= |MapLabels| && Tag(s, j, MapLabels[k]).Some?
    ensures MapFields(s, j, k0) == NoField
  {
    forall k2 | k0 <= k2 < |MapLabels|
      ensures MapFields(s, j, k2) == MapFields(s, j, k2 + 1)
    {
      OtherLabelFails(s, j, k, k2);
      MapFieldsSkip(s, j, k2);
    }
    MapFieldsSkipAll(s, j, k0, |MapLabels|);
  }

  /** Where the label of stage k matches, alt skips every stage k0 before it. */
  lemma MapFieldsOnly(s: string, j: nat, k: nat, k0: nat)
    requires j <= |s| && k0 <= k < |MapLabels| && Tag(s, j, MapLabels[k]).Some?
    ensures MapFields(s, j, k0) == MapFields(s, j, k)
  {
    forall k2 | k0 <= k2 < k
      ensures MapFields(s, j, k2) == MapFields(s, j, k2 + 1)
    {
      OtherLabelFails(s, j, k, k2);
      MapFieldsSkip(s, j, k2);
    }
    MapFieldsSkipAll(s, j, k0, k);
  }

  /** Where the label of stage k matches, alt's outcome from k is that of stage k. */
  lemma MapFieldsMatched(s: string, j: nat, k: nat)
    requires j <= |s| && k < |MapLabels| && Tag(s, j, MapLabels[k]).Some?
    ensures MapFields(s, j, k) == MapField(s, j, k)
  {
    MapFieldsStep(s, j, k);
    if MapField(s, j, k).NoField? {
      MapFieldsAfter(s, j, k, k + 1);
    }
  }

  /**
   * `any_field` routes by the literal label: where the label of stage k follows the
   * whitespace, the field is stage k's block, and fails when that block does.
   */
  lemma AnyFieldRoutesMap(s: string, i: nat, k: nat)
    requires i <= |s| && k < |MapLabels| && Tag(s, Multispace0(s, i), MapLabels[k]).Some?
    ensures AnyField(s, i) == match MapField(s, Multispace0(s, i), k)
      case FieldOk(v, n) => FieldOk(v, Multispace0(s, n))
      case other => other
  {
    var j := Multispace0(s, i);
    SeedsOrMapLabel(s, j, k);
    MapFieldsOnly(s, j, k, 0);
    MapFieldsMatched(s, j, k);
  }

  /** Where "seeds:" follows the whitespace, the field is the seed list, and fails when the list does. */
  lemma AnyFieldRoutesSeeds(s: string, i: nat)
    requires i <= |s| && Tag(s, Multispace0(s, i), "seeds:").Some?
    ensures AnyField(s, i) == match SeedsField(s, Multispace0(s, i))
      case Some(p) => FieldOk(SeedsValue(p.value), Multispace0(s, p.next))
      case None => NoField
  {
    MapFieldsAfterSeeds(s, Multispace0(s, i), 0);
  }

  /** A written block of segment lines starts with its first number. */
  lemma ShowSegmentsHead(rs: seq<ValueRange>)
    requires rs != []
    ensures |ShowSegments(rs)| > 0
    ensures ShowSegments(rs)[0] == '-' || IsDigit(ShowSegments(rs)[0])
  {
    var a := ShowSigned(rs[0].targetStart);
    assert ShowSegments(rs)[0] == ShowSegment(rs[0])[0] == a[0];
    ShowSignedHead(rs[0].targetStart);
  }

  /**
   * A map block written as its label, a newline and its segment lines is read back as
   * the storage that inserting those segments in order builds, or as that insertion's panic.
   */
  lemma MapFieldShow(s: string, i: nat, k: nat, rs: seq<ValueRange>, j: nat, e: nat)
    requires k < |MapLabels| && rs != []
    requires j == i + |MapLabels[k]| < |s| && s[i..j] == MapLabels[k] && s[j] == '\n'
    requires e == j + 1 + |ShowSegments(rs)| <= |s| && s[j + 1..e] == ShowSegments(rs)
    requires SegmentLine(s, e).None?
    ensures MapField(s, i, k) == match BuildStorage(rs)
      case Err(x) => FieldPanic(x)
      case Ok(t) => FieldOk(MapValue(k, t), Multispace0(s, e))
  {
    SegmentBlockShow(s, j, rs, e);
    MapFieldAt(s, i, k, j, rs, e);
  }

  /** A newline before written segment lines is skipped as whitespace, and the lines are read back. */
  lemma SegmentBlockShow(s: string, j: nat, rs: seq<ValueRange>, e: nat)
    requires rs != [] && j < |s| && s[j] == '\n'
    requires e == j + 1 + |ShowSegments(rs)| <= |s| && s[j + 1..e] == ShowSegments(rs)
    requires SegmentLine(s, e).None?
    ensures Multispace0(s, j) == j + 1 && SegmentLines(s, j + 1) == Parsed(rs, e)
  {
    ShowSegmentsHead(rs);
    assert s[j + 1] == s[j + 1..e][0];
    SkipWhileStops(s, j, Multispaces, j + 1);
    SegmentLinesShow(s, j + 1, rs, e);
  }

  lemma MapFieldAt(s: string, i: nat, k: nat, j: nat, rs: seq<ValueRange>, e: nat)
    requires k < |MapLabels| && rs != [] && i <= j < e <= |s|
    requires Tag(s, i, MapLabels[k]) == Some(j) && Multispace0(s, j) == j + 1
    requires SegmentLines(s, j + 1) == Parsed(rs, e)
    ensures MapField(s, i, k) == match BuildStorage(rs)
      case Err(x) => FieldPanic(x)
      case Ok(t) => FieldOk(MapValue(k, t), Multispace0(s, e))
  {
  }

  /** At the end of the input no segment line starts. */
  lemma SegmentLineAtEnd(s: string)
    ensures SegmentLine(s, |s|).None?
  {
    assert Space0(s, |s|) == |s|;
  }

  /** At the end of the input no map alternative matches. */
  lemma {:induction false} MapFieldsAtEnd(s: string, k0: nat)
    requires k0 <= |MapLabels|
    ensures MapFields(s, |s|, k0) == NoField
    decreases |MapLabels| - k0
  {
    if k0 < |MapLabels| {
      assert |MapLabels[k0]| > 0;
      MapFieldsSkip(s, |s|, k0);
      MapFieldsAtEnd(s, k0 + 1);
    }
  }

  /** At the end of the input `any_field` fails, so `many0_count` stops there. */
  lemma AnyFieldAtEnd(s: string)
    ensures AnyField(s, |s|).NoField?
  {
    assert Multispace0(s, |s|) == |s|;
    MapFieldsAtEnd(s, 0);
  }

  /** Every map label starts with a letter, so no whitespace is skipped in front of it. */
  lemma MapLabelHead(k: nat)
    requires k < |MapLabels|
    ensures |MapLabels[k]| > 0 && IsAlpha(MapLabels[k][0])
  {
  }

  /**
   * An input that is one written map block parses as the default problem with that
   * stage's map built from the block: the block is routed by its label and the
   * other maps stay empty.
   */
  lemma ParseSingleBlock(s: string, k: nat, rs: seq<ValueRange>, t: seq<ValueRange>, j: nat)
    requires k < |MapLabels| && rs != [] && BuildStorage(rs) == Ok(t)
    requires j == |MapLabels[k]| < |s| && s[0..j] == MapLabels[k] && s[j] == '\n'
    requires |s| == j + 1 + |ShowSegments(rs)| && s[j + 1..|s|] == ShowSegments(rs)
    ensures ParseAlmanac(s) == Ok(Almanac([], NoMaps[k := t]))
  {
    SingleBlockField(s, k, rs, t, j);
    AnyFieldAtEnd(s);
    ParseOneField(s, MapValue(k, t));
  }

  /** The one field of an input that is one written map block. */
  lemma SingleBlockField(s: string, k: nat, rs: seq<ValueRange>, t: seq<ValueRange>, j: nat)
    requires k < |MapLabels| && rs != [] && BuildStorage(rs) == Ok(t)
    requires j == |MapLabels[k]| < |s| && s[0..j] == MapLabels[k] && s[j] == '\n'
    requires |s| == j + 1 + |ShowSegments(rs)| && s[j + 1..|s|] == ShowSegments(rs)
    ensures AnyField(s, 0) == FieldOk(MapValue(k, t), |s|)
  {
    BlockLabelAtStart(s, k, j);
    SegmentLineAtEnd(s);
    MapFieldShow(s, 0, k, rs, j, |s|);
    AnyFieldRoutesMap(s, 0, k);
  }

  /** An input that starts with a map label has no leading whitespace, and the label's tag matches there. */
  lemma BlockLabelAtStart(s: string, k: nat, j: nat)
    requires k < |MapLabels| && j == |MapLabels[k]| < |s| && s[0..j] == MapLabels[k]
    ensures Multispace0(s, 0) == 0 && Tag(s, 0, MapLabels[k]) == Some(j)
  {
    MapLabelHead(k);
    assert s[0] == s[0..j][0];
    SkipWhileStops(s, 0, Multispaces, 0);
  }

  lemma ParseOneField(s: string, v: FieldValue)
    requires FitsAlmanac(v) && AnyField(s, 0) == FieldOk(v, |s|) && AnyField(s, |s|).NoField?
    ensures ParseAlmanac(s) == Ok(Apply(EmptyAlmanac, v))
  {
    EmptyWellFormed();
    FieldsOne(s, EmptyAlmanac, v);
  }

  /** The almanac parsing starts from: no seeds and seven empty maps. */
  lemma EmptyWellFormed()
    ensures EmptyAlmanac.WellFormed()
  {
    forall k | 0 <= k < |NoMaps| ensures Sorted(NoMaps[k]) { assert NoMaps[k] == []; }
  }

  /** Input that is one field and nothing after it applies that field once. */
  lemma FieldsOne(s: string, a: Almanac, v: FieldValue)
    requires a.WellFormed() && FitsAlmanac(v)
    requires AnyField(s, 0) == FieldOk(v, |s|) && AnyField(s, |s|).NoField?
    ensures Fields(s, 0, a) == Stopped(Apply(a, v), |s|)
  {
    FieldsTakes(s, 0, a, v, |s|);
    FieldsStops(s, |s|, Apply(a, v));
  }

  /** A field read at i is applied, and the fields go on where it ends. */
  lemma FieldsTakes(s: string, i: nat, a: Almanac, v: FieldValue, n: nat)
    requires i <= |s| && a.WellFormed() && AnyField(s, i) == FieldOk(v, n)
    ensures FitsAlmanac(v) && i < n <= |s|
    ensures Fields(s, i, a) == Fields(s, n, Apply(a, v))
  {
  }

  /** Where no field can be read, the fields stop with the almanac as it is. */
  lemma FieldsStops(s: string, i: nat, a: Almanac)
    requires i <= |s| && a.WellFormed() && AnyField(s, i).NoField?
    ensures Fields(s, i, a) == Stopped(a, i)
  {
  }
}
