/**
 * Day 2: games of drawing coloured cubes from a bag. A round records how many
 * cubes of each colour were shown; a game is a numbered list of rounds.
 */
module Day2 {
  import opened Wrappers
  import opened Text
  import opened Parsing
  import opened Sums

  // ---------------------------------------------------------------------------
  // Cube counts by colour
  // ---------------------------------------------------------------------------

  /** Every colour needed is present in `have`, with at least as many cubes. */
  predicate IncludesMap(have: map<string, nat>, need: map<string, nat>)
  {
    forall name :: name in need ==> name in have && have[name] >= need[name]
  }

  function MaxNat(a: nat, b: nat): nat { if a >= b then a else b }

  /** The colours of both, each with the larger of its counts (or its only count). */
  function MaxMap(a: map<string, nat>, b: map<string, nat>): map<string, nat>
  {
    map name | name in a.Keys + b.Keys ::
      if name in a && name in b then MaxNat(a[name], b[name])
      else if name in a then a[name]
      else b[name]
  }

  /** The running maximum over a list of rounds, from no colours at all. */
  function MaxAll(ms: seq<map<string, nat>>): map<string, nat>
  {
    if ms == [] then map[] else MaxMap(MaxAll(ms[..|ms| - 1]), ms[|ms| - 1])
  }

  /** `Cubes`: a count per colour name, updated in place by `Max`. */
  class Cubes {
    var seen: map<string, nat>

    /** `Cubes::default`: no colours. */
    constructor ()
      ensures seen == map[]
    {
      seen := map[];
    }

    constructor FromMap(m: map<string, nat>)
      ensures seen == m
    {
      seen := m;
    }

    /** `power`: the product of all counts (1 for no colours). */
    ghost function Power(): nat
      reads this
    {
      MapProduct(seen)
    }

    /** `includes`: this has every colour of other, with at least as many cubes. */
    predicate Includes(other: Cubes)
      reads this, other
    {
      IncludesMap(seen, other.seen)
    }

    /**
     * `max`: raise each colour of other to at least its count there, adding the
     * colours this lacks.
     */
    method Max(other: Cubes)
      modifies this
      ensures seen == MaxMap(old(seen), old(other.seen))
    {
      ghost var start := seen;
      var need := other.seen;
      var todo := need.Keys;
      MaxMapNothingDone(start, need);
      while todo != {}
        invariant todo <= need.Keys
        invariant seen == MaxMap(start, need - todo)
        decreases |todo|
      {
        var name :| name in todo;
        MaxStep(start, need, todo, name, seen);
        var count := if name in seen then MaxNat(seen[name], need[name]) else need[name];
        seen := seen[name := count];
        todo := todo - {name};
      }
      MaxMapAllDone(start, need);
    }
  }

  /** Before `max` has looked at any colour, the counts are the old ones. */
  lemma MaxMapNothingDone(a: map<string, nat>, need: map<string, nat>)
    ensures MaxMap(a, need - need.Keys) == a
  {
    assert need - need.Keys == map[];
  }

  /** Once every colour is done, the counts are the full maximum. */
  lemma MaxMapAllDone(a: map<string, nat>, need: map<string, nat>)
    ensures MaxMap(a, need - {}) == MaxMap(a, need)
  {
    assert need - {} == need;
  }

  /** One step of `max`: raising one more colour extends the maximum by that colour. */
  lemma MaxStep(start: map<string, nat>, need: map<string, nat>, todo: set<string>, name: string, cur: map<string, nat>)
    requires name in todo && todo <= need.Keys && cur == MaxMap(start, need - todo)
    ensures cur[name := if name in cur then MaxNat(cur[name], need[name]) else need[name]]
      == MaxMap(start, need - (todo - {name}))
  {
    MaxMapAdd(start, need - todo, name, need[name]);
    DoneGrows(need, todo, name);
  }

  /** Taking one more name out of the to-do set adds its count to the finished part. */
  lemma DoneGrows(need: map<string, nat>, todo: set<string>, name: string)
    requires name in todo && todo <= need.Keys
    ensures name !in need - todo
    ensures need - (todo - {name}) == (need - todo)[name := need[name]]
  {
  }

  /** One more colour on the right of MaxMap updates just that colour. */
  lemma MaxMapAdd(a: map<string, nat>, b: map<string, nat>, name: string, v: nat)
    requires name !in b
    ensures MaxMap(a, b[name := v]) == MaxMap(a, b)[name := if name in a then MaxNat(a[name], v) else v]
    ensures name in MaxMap(a, b) <==> name in a
    ensures name in a ==> MaxMap(a, b)[name] == a[name]
  {
  }

  /** The maximum of two count maps includes both. */
  lemma MaxMapIncludes(a: map<string, nat>, b: map<string, nat>)
    ensures IncludesMap(MaxMap(a, b), a) && IncludesMap(MaxMap(a, b), b)
    ensures MaxMap(a, b).Keys == a.Keys + b.Keys
  {
  }

  /** The maximum is the least map including both: whatever includes a and b includes it. */
  lemma MaxMapLeast(c: map<string, nat>, a: map<string, nat>, b: map<string, nat>)
    ensures IncludesMap(c, MaxMap(a, b)) <==> IncludesMap(c, a) && IncludesMap(c, b)
  {
    if IncludesMap(c, a) && IncludesMap(c, b) {
      forall name | name in MaxMap(a, b) ensures name in c && c[name] >= MaxMap(a, b)[name] {
        if name in a { assert name in c && c[name] >= a[name]; }
        if name in b { assert name in c && c[name] >= b[name]; }
      }
    }
    if IncludesMap(c, MaxMap(a, b)) {
      MaxMapIncludes(a, b);
      IncludesTransitive(c, MaxMap(a, b), a);
      IncludesTransitive(c, MaxMap(a, b), b);
    }
  }

  lemma IncludesTransitive(a: map<string, nat>, b: map<string, nat>, c: map<string, nat>)
    requires IncludesMap(a, b) && IncludesMap(b, c)
    ensures IncludesMap(a, c)
  {
    forall name | name in c ensures name in a && a[name] >= c[name] {
      assert name in b;
    }
  }

  /** A colour that is absent cannot be covered, even when zero cubes of it are needed. */
  lemma IncludesAbsentZero()
    ensures !IncludesMap(map["red" := 5], map["red" := 1, "blue" := 0])
  {
    assert "blue" in map["red" := 1, "blue" := 0];
  }

  /** The power is the product of the counts: a new colour multiplies it by its count. */
  lemma PowerAddColour(m: map<string, nat>, name: string, n: nat)
    requires name !in m
    ensures MapProduct(m[name := n]) == n * MapProduct(m)
  {
    MapProductInsert(m, name, n);
  }

  /** The power of no colours is 1. */
  lemma PowerEmpty(m: map<string, nat>)
    requires m == map[]
    ensures MapProduct(m) == 1
  {
  }

  // ---------------------------------------------------------------------------
  // Games
  // ---------------------------------------------------------------------------

  /** The counts of a list of rounds. */
  function RoundMaps(rs: seq<Cubes>): (ms: seq<map<string, nat>>)
    reads rs
    ensures |ms| == |rs|
    ensures forall i :: 0 <= i < |rs| ==> ms[i] == rs[i].seen
  {
    if rs == [] then [] else RoundMaps(rs[..|rs| - 1]) + [rs[|rs| - 1].seen]
  }

  /** `Game`: an id and its rounds. */
  class Game {
    const id: nat
    const rounds: seq<Cubes>

    constructor (id: nat, rounds: seq<Cubes>)
      ensures this.id == id && this.rounds == rounds
    {
      this.id := id;
      this.rounds := rounds;
    }

    /** `is_valid_for_cubes`: the bag includes every round. */
    predicate IsValidForCubes(cubes: Cubes)
      reads cubes, rounds
    {
      forall i :: 0 <= i < |rounds| ==> cubes.Includes(rounds[i])
    }

    /** `max_cubes`: the fewest cubes of each colour with which every round is possible. */
    method MaxCubes() returns (c: Cubes)
      ensures fresh(c) && c.seen == MaxAll(RoundMaps(rounds))
    {
      ghost var ms := RoundMaps(rounds);
      c := new Cubes();
      for i := 0 to |rounds|
        invariant fresh(c)
        invariant c.seen == MaxAll(ms[..i])
      {
        MaxAllStep(ms, i);
        c.Max(rounds[i]);
      }
      assert ms[..|rounds|] == ms;
    }
  }

  /** The running maximum over one more round. */
  lemma MaxAllStep(ms: seq<map<string, nat>>, i: nat)
    requires i < |ms|
    ensures MaxAll(ms[..i + 1]) == MaxMap(MaxAll(ms[..i]), ms[i])
  {
    assert ms[..i + 1][..i] == ms[..i];
  }

  /** The running maximum includes every round. */
  lemma {:induction false} MaxAllIncludes(ms: seq<map<string, nat>>, i: nat)
    requires i < |ms|
    ensures IncludesMap(MaxAll(ms), ms[i])
  {
    var init := ms[..|ms| - 1];
    MaxMapIncludes(MaxAll(init), ms[|ms| - 1]);
    if i < |ms| - 1 {
      MaxAllIncludes(init, i);
      IncludesTransitive(MaxAll(ms), MaxAll(init), ms[i]);
    }
  }

  /** A bag can play every round exactly when it includes the game's maximum. */
  lemma {:induction false} ValidIffIncludesMax(c: map<string, nat>, ms: seq<map<string, nat>>)
    ensures IncludesMap(c, MaxAll(ms)) <==> forall i :: 0 <= i < |ms| ==> IncludesMap(c, ms[i])
  {
    if ms != [] {
      var init := ms[..|ms| - 1];
      ValidIffIncludesMax(c, init);
      MaxMapLeast(c, MaxAll(init), ms[|ms| - 1]);
      if forall i :: 0 <= i < |ms| ==> IncludesMap(c, ms[i]) {
        forall i | 0 <= i < |init| ensures IncludesMap(c, init[i]) { assert init[i] == ms[i]; }
      }
      if IncludesMap(c, MaxAll(ms)) {
        forall i | 0 <= i < |ms| ensures IncludesMap(c, ms[i]) {
          if i < |init| { assert init[i] == ms[i]; }
        }
      }
    }
  }

  /** The game is valid for the bag exactly when the bag includes its `max_cubes`. */
  lemma ValidIffIncludesMaxCubes(g: Game, bag: Cubes)
    ensures g.IsValidForCubes(bag) <==> IncludesMap(bag.seen, MaxAll(RoundMaps(g.rounds)))
  {
    ValidIffIncludesMax(bag.seen, RoundMaps(g.rounds));
  }

  // ---------------------------------------------------------------------------
  // Grammar
  // ---------------------------------------------------------------------------

  datatype Entry = Entry(name: string, count: nat)

  /** One `N name` entry, with optional spaces around it. */
  function CubeEntry(s: string, i: nat): (r: Option<Parsed<Entry>>)
    requires i <= |s|
    ensures r.Some? ==> i < r.value.next <= |s|
  {
    var j := Space0(s, i);
    match Unsigned(s, j)
    case None => None
    case Some(n) =>
      match Space1(s, n.next)
      case None => None
      case Some(k) =>
        match Alpha1(s, k)
        case None => None
        case Some(a) => Some(Parsed(Entry(a.value, n.value), Space0(s, a.next)))
  }

  /** Further `,`-separated entries; stops before a comma not followed by an entry. */
  function EntriesMore(s: string, i: nat, acc: seq<Entry>): (r: Parsed<seq<Entry>>)
    requires i <= |s|
    ensures i <= r.next <= |s|
    decreases |s| - i
  {
    match Char(s, i, ',')
    case None => Parsed(acc, i)
    case Some(j) =>
      match CubeEntry(s, j)
      case None => Parsed(acc, i)
      case Some(e) => EntriesMore(s, e.next, acc + [e.value])
  }

  /** The counts of a list of entries; a later entry for a colour replaces an earlier one. */
  function FromEntries(es: seq<Entry>): map<string, nat>
  {
    if es == [] then map[] else FromEntries(es[..|es| - 1])[es[|es| - 1].name := es[|es| - 1].count]
  }

  /** A colour has a count exactly when some entry names it. */
  lemma {:induction false} FromEntriesKeys(es: seq<Entry>, name: string)
    ensures name in FromEntries(es) <==> exists i :: 0 <= i < |es| && es[i].name == name
  {
    if es != [] {
      var init := es[..|es| - 1];
      FromEntriesKeys(init, name);
      if exists i :: 0 <= i < |init| && init[i].name == name {
        var i :| 0 <= i < |init| && init[i].name == name;
        assert es[i].name == name;
      }
      if exists i :: 0 <= i < |es| && es[i].name == name {
        var i :| 0 <= i < |es| && es[i].name == name;
        if i < |init| { assert init[i].name == name; }
      }
    }
  }

  /** The count of a colour is that of the last entry naming it: later entries win. */
  lemma {:induction false} FromEntriesLastWins(es: seq<Entry>, i: nat)
    requires i < |es|
    requires forall j :: i < j < |es| ==> es[j].name != es[i].name
    ensures es[i].name in FromEntries(es) && FromEntries(es)[es[i].name] == es[i].count
  {
    if i < |es| - 1 {
      var init := es[..|es| - 1];
      assert init[i] == es[i];
      FromEntriesLastWins(init, i);
    }
  }

  /** `parse::cubes`: one or more entries separated by commas. */
  function CubesGrammar(s: string, i: nat): (r: Option<Parsed<map<string, nat>>>)
    requires i <= |s|
    ensures r.Some? ==> i < r.value.next <= |s|
  {
    match CubeEntry(s, i)
    case None => None
    case Some(e) =>
      var list := EntriesMore(s, e.next, [e.value]);
      Some(Parsed(FromEntries(list.value), list.next))
  }

  /** Further `;`-separated rounds; stops before a semicolon not followed by a round. */
  function RoundsMore(s: string, i: nat, acc: seq<map<string, nat>>): (r: Parsed<seq<map<string, nat>>>)
    requires i <= |s|
    ensures i <= r.next <= |s| && |acc| <= |r.value|
    decreases |s| - i
  {
    match Char(s, i, ';')
    case None => Parsed(acc, i)
    case Some(j) =>
      match CubesGrammar(s, j)
      case None => Parsed(acc, i)
      case Some(c) => RoundsMore(s, c.next, acc + [c.value])
  }

  datatype GameRecord = GameRecord(id: nat, rounds: seq<map<string, nat>>)

  /** `parse::game`: `Game`, spaces, the id, `:`, optional spaces, then one or more rounds. */
  function GameGrammar(s: string): (r: Option<Parsed<GameRecord>>)
    ensures r.Some? ==> r.value.next <= |s| && r.value.value.rounds != []
  {
    match Tag(s, 0, "Game")
    case None => None
    case Some(i) =>
      match Space1(s, i)
      case None => None
      case Some(j) =>
        match Unsigned(s, j)
        case None => None
        case Some(id) =>
          match Char(s, id.next, ':')
          case None => None
          case Some(k) =>
            match CubesGrammar(s, Space0(s, k))
            case None => None
            case Some(c) =>
              var rounds := RoundsMore(s, c.next, [c.value]);
              Some(Parsed(GameRecord(id.value, rounds.value), rounds.next))
  }

  /**
   * `Cubes::from_str`: the counts of the round the text starts with, as new `Cubes`;
   * whatever follows is ignored.
   */
  method ParseCubes(text: string) returns (r: Option<Cubes>)
    ensures CubesGrammar(text, 0).None? ==> r.None?
    ensures CubesGrammar(text, 0).Some? ==>
      r.Some? && fresh(r.value) && r.value.seen == CubesGrammar(text, 0).value.value
  {
    var parsed := CubesGrammar(text, 0);
    if parsed.None? {
      return None;
    }
    var c := new Cubes.FromMap(parsed.value.value);
    return Some(c);
  }

  /**
   * `Game::from_str`: the game the line starts with, its rounds as new `Cubes`;
   * whatever follows the last round is ignored.
   */
  method ParseGame(line: string) returns (r: Option<Game>)
    ensures GameGrammar(line).None? ==> r.None?
    ensures GameGrammar(line).Some? ==>
      var g := GameGrammar(line).value.value;
      r.Some? && fresh(r.value) && r.value.id == g.id && RoundMaps(r.value.rounds) == g.rounds
      && forall i :: 0 <= i < |r.value.rounds| ==> fresh(r.value.rounds[i])
  {
    var parsed := GameGrammar(line);
    if parsed.None? {
      return None;
    }
    var g := NewGame(parsed.value.value);
    return Some(g);
  }

  /** The `Game` of a parsed record, each round a new `Cubes`. */
  method NewGame(record: GameRecord) returns (g: Game)
    ensures fresh(g) && g.id == record.id && RoundMaps(g.rounds) == record.rounds
    ensures forall i :: 0 <= i < |g.rounds| ==> fresh(g.rounds[i])
  {
    var ms := record.rounds;
    var rounds: seq<Cubes> := [];
    for i := 0 to |ms|
      invariant |rounds| == i
      invariant forall k :: 0 <= k < i ==> fresh(rounds[k]) && rounds[k].seen == ms[k]
    {
      var c := new Cubes.FromMap(ms[i]);
      rounds := rounds + [c];
    }
    assert RoundMaps(rounds) == ms;
    g := new Game(record.id, rounds);
  }
  // ---------------------------------------------------------------------------
  // Written rounds read back
  // ---------------------------------------------------------------------------

  /** A colour name `alpha1` reads whole. */
  predicate ValidName(name: string)
  {
    name != [] && forall k :: 0 <= k < |name| ==> IsAlpha(name[k])
  }

  predicate ValidNames(es: seq<Entry>)
  {
    forall i :: 0 <= i < |es| ==> ValidName(es[i].name)
  }

  /** An entry as the puzzle writes it: `3 blue`. */
  function ShowEntry(e: Entry): string
  {
    Show(e.count) + " " + e.name
  }

  /** Further entries, each after `, `. */
  function ShowMore(es: seq<Entry>): string
  {
    if es == [] then "" else ", " + ShowEntry(es[0]) + ShowMore(es[1..])
  }

  /** A round as the puzzle writes it: `3 blue, 4 red`. */
  function ShowRound(es: seq<Entry>): string
    requires es != []
  {
    ShowEntry(es[0]) + ShowMore(es[1..])
  }

  /** A position where a written entry may end: nothing there continues its name or its spaces. */
  predicate EntryEnd(s: string, e: nat)
  {
    e == |s| || (e < |s| && !IsAlpha(s[e]) && !IsSpace(s[e]))
  }

  /** A position where a written round may end: an entry end that does not continue the list. */
  predicate RoundEnd(s: string, e: nat)
  {
    EntryEnd(s, e) && (e == |s| || s[e] != ',')
  }

  /** The pieces of a written entry, by position. */
  lemma ShowEntryPieces(s: string, j: nat, e: Entry)
    requires j + |ShowEntry(e)| <= |s| && s[j..j + |ShowEntry(e)|] == ShowEntry(e)
    ensures var d := j + |Show(e.count)|;
      s[j..d] == Show(e.count) && s[d] == ' ' && s[d + 1..j + |ShowEntry(e)|] == e.name
  {
    var d := j + |Show(e.count)|;
    SliceSplit(s, j, Show(e.count) + " ", e.name);
    SliceSplit(s, j, Show(e.count), " ");
    assert s[d..d + 1][0] == s[d];
  }

  /** `alpha1` reads exactly a valid name followed by a non-letter. */
  lemma Alpha1Name(s: string, k: nat, name: string)
    requires ValidName(name) && k + |name| <= |s| && s[k..k + |name|] == name
    requires k + |name| == |s| || !IsAlpha(s[k + |name|])
    ensures Alpha1(s, k) == Some(Parsed(name, k + |name|))
  {
    var e := k + |name|;
    assert s[k] == name[0];
    forall m | k <= m < e ensures IsAlpha(s[m]) {
      assert s[m] == name[m - k];
    }
  }

  /** The written count of an entry, after at most one space, and the one space after it. */
  lemma CountShow(s: string, i: nat, j: nat, n: nat, d: nat)
    requires j == i || (j == i + 1 && i < |s| && IsSpace(s[i]))
    requires d == j + |Show(n)| && d + 1 < |s| && s[j..d] == Show(n) && s[d] == ' ' && !IsSpace(s[d + 1])
    ensures Space0(s, i) == j && Unsigned(s, j) == Some(Parsed(n, d)) && Space1(s, d) == Some(d + 1)
  {
    ShowDigits(n);
    assert IsDigit(s[j]) by { assert s[j] == Show(n)[0]; }
    SkipWhileStops(s, i, Spaces, j);
    UnsignedShow(s, j, n);
    SkipWhileStops(s, d, Spaces, d + 1);
  }

  /** A written colour name and the end of the entry after it. */
  lemma NameShow(s: string, k: nat, name: string, end: nat)
    requires ValidName(name) && end == k + |name| <= |s| && s[k..end] == name && EntryEnd(s, end)
    ensures Alpha1(s, k) == Some(Parsed(name, end)) && Space0(s, end) == end
  {
    Alpha1Name(s, k, name);
    SkipWhileStops(s, end, Spaces, end);
  }

  /** A written entry, after at most one space, reads back as that entry (pieces by position). */
  lemma EntryShow(s: string, i: nat, j: nat, e: Entry, d: nat, end: nat)
    requires ValidName(e.name)
    requires j == i || (j == i + 1 && i < |s| && IsSpace(s[i]))
    requires d == j + |Show(e.count)| && end == d + 1 + |e.name| <= |s|
    requires s[j..d] == Show(e.count) && s[d] == ' ' && s[d + 1..end] == e.name
    requires EntryEnd(s, end)
    ensures CubeEntry(s, i) == Some(Parsed(e, end))
  {
    assert s[d + 1] == e.name[0];
    CountShow(s, i, j, e.count, d);
    NameShow(s, d + 1, e.name, end);
    CubeEntryAt(s, i, j, e.count, d, e.name, end);
  }

  /** The stages of one entry, put together. */
  lemma CubeEntryAt(s: string, i: nat, j: nat, n: nat, d: nat, name: string, end: nat)
    requires i <= j <= d < |s| && end <= |s|
    requires Space0(s, i) == j && Unsigned(s, j) == Some(Parsed(n, d)) && Space1(s, d) == Some(d + 1)
    requires Alpha1(s, d + 1) == Some(Parsed(name, end)) && Space0(s, end) == end
    ensures CubeEntry(s, i) == Some(Parsed(Entry(name, n), end))
  {
  }
  /** The pieces of written further entries, by position: `, `, the first entry, the rest. */
  lemma ShowMorePieces(s: string, i: nat, es: seq<Entry>, e: nat)
    requires es != [] && e == i + |ShowMore(es)| <= |s| && s[i..e] == ShowMore(es)
    ensures var m := i + 2 + |ShowEntry(es[0])|;
      s[i] == ',' && s[i + 1] == ' ' && s[i + 2..m] == ShowEntry(es[0]) && s[m..e] == ShowMore(es[1..])
  {
    var x := ShowEntry(es[0]);
    SliceSplit(s, i, ", " + x, ShowMore(es[1..]));
    SliceSplit(s, i, ", ", x);
    assert s[i..i + 2][0] == s[i] && s[i..i + 2][1] == s[i + 1];
  }

  /** Written further entries start with a comma. */
  lemma ShowMoreHead(s: string, i: nat, es: seq<Entry>, e: nat)
    requires es != [] && e == i + |ShowMore(es)| <= |s| && s[i..e] == ShowMore(es)
    ensures i < e && s[i] == ','
  {
    ShowMorePieces(s, i, es, e);
  }

  /** One step of the list: the comma and the entry after it. */
  lemma EntriesMoreStep(s: string, i: nat, es: seq<Entry>, e: nat) returns (m: nat)
    requires es != [] && ValidNames(es)
    requires e == i + |ShowMore(es)| <= |s| && s[i..e] == ShowMore(es) && RoundEnd(s, e)
    ensures m == i + 2 + |ShowEntry(es[0])| <= e && s[m..e] == ShowMore(es[1..])
    ensures Char(s, i, ',') == Some(i + 1) && CubeEntry(s, i + 1) == Some(Parsed(es[0], m))
  {
    m := i + 2 + |ShowEntry(es[0])|;
    ShowMorePieces(s, i, es, e);
    MoreEntryEnd(s, m, es[1..], e);
    assert ValidName(es[0].name);
    WrittenEntryShow(s, i + 1, es[0], m);
  }

  /** Where further entries or the round end follow, an entry may end. */
  lemma MoreEntryEnd(s: string, m: nat, es: seq<Entry>, e: nat)
    requires e == m + |ShowMore(es)| <= |s| && s[m..e] == ShowMore(es) && RoundEnd(s, e)
    ensures EntryEnd(s, m)
  {
    if es != [] {
      ShowMoreHead(s, m, es, e);
    }
  }

  /** A written entry after one space reads back as that entry. */
  lemma WrittenEntryShow(s: string, i: nat, x: Entry, m: nat)
    requires ValidName(x.name) && i < |s| && IsSpace(s[i])
    requires m == i + 1 + |ShowEntry(x)| <= |s| && s[i + 1..m] == ShowEntry(x) && EntryEnd(s, m)
    ensures CubeEntry(s, i) == Some(Parsed(x, m))
  {
    ShowEntryPieces(s, i + 1, x);
    EntryShow(s, i, i + 1, x, i + 1 + |Show(x.count)|, m);
  }

  /** Written further entries read back, appended to those read so far. */
  lemma {:induction false} EntriesMoreShow(s: string, i: nat, es: seq<Entry>, acc: seq<Entry>, e: nat)
    requires ValidNames(es)
    requires e == i + |ShowMore(es)| <= |s| && s[i..e] == ShowMore(es) && RoundEnd(s, e)
    ensures EntriesMore(s, i, acc) == Parsed(acc + es, e)
    decreases |es|
  {
    if es == [] {
      EntriesMoreStops(s, i, acc);
    } else {
      var m := EntriesMoreStep(s, i, es, e);
      ValidNamesTail(es);
      EntriesMoreShow(s, m, es[1..], acc + [es[0]], e);
      EntriesMoreLink(s, i, acc, es[0], es[1..], m, e);
      assert [es[0]] + es[1..] == es;
    }
  }

  /** At a round end the list stops. */
  lemma EntriesMoreStops(s: string, i: nat, acc: seq<Entry>)
    requires i <= |s| && RoundEnd(s, i)
    ensures EntriesMore(s, i, acc) == Parsed(acc + [], i)
  {
    assert acc + [] == acc;
  }

  /** After a comma and an entry, the list goes on from the end of that entry. */
  lemma EntriesMoreLink(s: string, i: nat, acc: seq<Entry>, x: Entry, rest: seq<Entry>, m: nat, e: nat)
    requires i <= |s| && Char(s, i, ',') == Some(i + 1) && CubeEntry(s, i + 1) == Some(Parsed(x, m))
    requires m <= |s| && EntriesMore(s, m, acc + [x]) == Parsed(acc + [x] + rest, e)
    ensures EntriesMore(s, i, acc) == Parsed(acc + ([x] + rest), e)
  {
    EntriesMoreUnfold(s, i, acc, x, m);
    AppendAssoc(acc, [x], rest);
  }

  lemma EntriesMoreUnfold(s: string, i: nat, acc: seq<Entry>, x: Entry, m: nat)
    requires i <= |s| && Char(s, i, ',') == Some(i + 1) && CubeEntry(s, i + 1) == Some(Parsed(x, m))
    ensures EntriesMore(s, i, acc) == EntriesMore(s, m, acc + [x])
  {
  }

  lemma AppendAssoc<T>(a: seq<T>, b: seq<T>, c: seq<T>)
    ensures a + b + c == a + (b + c)
  {
  }

  lemma ValidNamesTail(es: seq<Entry>)
    requires es != [] && ValidNames(es)
    ensures ValidName(es[0].name) && ValidNames(es[1..])
  {
    forall k | 0 <= k < |es[1..]| ensures ValidName(es[1..][k].name) { assert es[1..][k] == es[k + 1]; }
  }

  /** A written round, after at most one space, reads back as the counts of its entries. */
  lemma RoundShow(s: string, i: nat, j: nat, es: seq<Entry>, e: nat)
    requires es != [] && ValidNames(es)
    requires j == i || (j == i + 1 && i < |s| && IsSpace(s[i]))
    requires e == j + |ShowRound(es)| <= |s| && s[j..e] == ShowRound(es) && RoundEnd(s, e)
    ensures CubesGrammar(s, i) == Some(Parsed(FromEntries(es), e))
  {
    var m := j + |ShowEntry(es[0])|;
    SliceSplit(s, j, ShowEntry(es[0]), ShowMore(es[1..]));
    ValidNamesTail(es);
    RoundPartsShow(s, i, j, es[0], es[1..], m, e);
    assert [es[0]] + es[1..] == es;
  }

  /** A written round given as its first entry and the further ones, by position. */
  lemma RoundPartsShow(s: string, i: nat, j: nat, x: Entry, rest: seq<Entry>, m: nat, e: nat)
    requires ValidName(x.name) && ValidNames(rest)
    requires j == i || (j == i + 1 && i < |s| && IsSpace(s[i]))
    requires m == j + |ShowEntry(x)| && e == m + |ShowMore(rest)| <= |s|
    requires s[j..m] == ShowEntry(x) && s[m..e] == ShowMore(rest) && RoundEnd(s, e)
    ensures CubesGrammar(s, i) == Some(Parsed(FromEntries([x] + rest), e))
  {
    MoreEntryEnd(s, m, rest, e);
    ShowEntryPieces(s, j, x);
    EntryShow(s, i, j, x, j + |Show(x.count)|, m);
    EntriesMoreShow(s, m, rest, [x], e);
    CubesGrammarAt(s, i, x, m, [x] + rest, e);
  }

  /** The stages of one round, put together. */
  lemma CubesGrammarAt(s: string, i: nat, x: Entry, m: nat, l: seq<Entry>, e: nat)
    requires i <= |s| && CubeEntry(s, i) == Some(Parsed(x, m)) && EntriesMore(s, m, [x]) == Parsed(l, e)
    ensures CubesGrammar(s, i) == Some(Parsed(FromEntries(l), e))
  {
  }

  /** The counts of written rounds. */
  function RoundsOf(rs: seq<seq<Entry>>): (ms: seq<map<string, nat>>)
    ensures |ms| == |rs|
  {
    if rs == [] then [] else [FromEntries(rs[0])] + RoundsOf(rs[1..])
  }

  predicate ValidRounds(rs: seq<seq<Entry>>)
  {
    forall k :: 0 <= k < |rs| ==> rs[k] != [] && ValidNames(rs[k])
  }

  /** Further rounds, each after `; `. */
  function ShowRounds(rs: seq<seq<Entry>>): string
    requires ValidRounds(rs)
  {
    if rs == [] then "" else "; " + ShowRound(rs[0]) + ShowRounds(rs[1..])
  }

  /** A position where a written game may end: a round end that does not continue the rounds. */
  predicate GameEnd(s: string, e: nat)
  {
    RoundEnd(s, e) && (e == |s| || s[e] != ';')
  }

  /** The pieces of written further rounds, by position: `; `, the first round, the rest. */
  lemma ShowRoundsPieces(s: string, i: nat, rs: seq<seq<Entry>>, e: nat)
    requires rs != [] && ValidRounds(rs)
    requires e == i + |ShowRounds(rs)| <= |s| && s[i..e] == ShowRounds(rs)
    ensures var m := i + 2 + |ShowRound(rs[0])|;
      s[i] == ';' && IsSpace(s[i + 1]) && s[i + 2..m] == ShowRound(rs[0]) && s[m..e] == ShowRounds(rs[1..])
  {
    var x := ShowRound(rs[0]);
    SliceSplit(s, i, "; " + x, ShowRounds(rs[1..]));
    SliceSplit(s, i, "; ", x);
    assert s[i..i + 2][0] == s[i] && s[i..i + 2][1] == s[i + 1];
  }

  /** Where further rounds or the game end follow, a round may end. */
  lemma MoreRoundEnd(s: string, m: nat, rs: seq<seq<Entry>>, e: nat)
    requires ValidRounds(rs)
    requires e == m + |ShowRounds(rs)| <= |s| && s[m..e] == ShowRounds(rs) && GameEnd(s, e)
    ensures RoundEnd(s, m)
  {
    if rs != [] {
      ShowRoundsPieces(s, m, rs, e);
    }
  }

  /** One step of the rounds: the semicolon and the round after it. */
  lemma RoundsMoreStep(s: string, i: nat, rs: seq<seq<Entry>>, e: nat) returns (m: nat)
    requires rs != [] && ValidRounds(rs)
    requires e == i + |ShowRounds(rs)| <= |s| && s[i..e] == ShowRounds(rs) && GameEnd(s, e)
    ensures m == i + 2 + |ShowRound(rs[0])| <= e && s[m..e] == ShowRounds(rs[1..]) && ValidRounds(rs[1..])
    ensures Char(s, i, ';') == Some(i + 1) && CubesGrammar(s, i + 1) == Some(Parsed(FromEntries(rs[0]), m))
  {
    m := i + 2 + |ShowRound(rs[0])|;
    ShowRoundsPieces(s, i, rs, e);
    assert ValidRounds(rs[1..]) by {
      forall k | 0 <= k < |rs[1..]| ensures rs[1..][k] != [] && ValidNames(rs[1..][k]) { assert rs[1..][k] == rs[k + 1]; }
    }
    MoreRoundEnd(s, m, rs[1..], e);
    RoundShow(s, i + 1, i + 2, rs[0], m);
  }

  /** Written further rounds read back, appended to those read so far. */
  lemma {:induction false} RoundsMoreShow(s: string, i: nat, rs: seq<seq<Entry>>, acc: seq<map<string, nat>>, e: nat)
    requires ValidRounds(rs)
    requires e == i + |ShowRounds(rs)| <= |s| && s[i..e] == ShowRounds(rs) && GameEnd(s, e)
    ensures RoundsMore(s, i, acc) == Parsed(acc + RoundsOf(rs), e)
    decreases |rs|
  {
    if rs == [] {
      assert acc + RoundsOf(rs) == acc;
    } else {
      var m := RoundsMoreStep(s, i, rs, e);
      RoundsMoreShow(s, m, rs[1..], acc + [FromEntries(rs[0])], e);
      RoundsOfCons(acc, rs);
    }
  }

  lemma RoundsOfCons(acc: seq<map<string, nat>>, rs: seq<seq<Entry>>)
    requires rs != []
    ensures acc + [FromEntries(rs[0])] + RoundsOf(rs[1..]) == acc + RoundsOf(rs)
  {
  }
  /** A game as the puzzle writes it: `Game 3: 1 red, 2 blue; 4 green`. */
  function ShowGame(id: nat, rs: seq<seq<Entry>>): string
    requires rs != [] && ValidRounds(rs)
  {
    "Game " + Show(id) + ": " + ShowRound(rs[0]) + ShowRounds(rs[1..])
  }

  /** A written round starts with a digit. */
  lemma ShowRoundHead(es: seq<Entry>)
    requires es != []
    ensures IsDigit(ShowRound(es)[0])
  {
    ShowDigits(es[0].count);
    assert ShowRound(es)[0] == Show(es[0].count)[0];
  }

  /** The pieces of a written game, by position. */
  lemma ShowGamePieces(s: string, id: nat, rs: seq<seq<Entry>>)
    requires rs != [] && ValidRounds(rs) && s == ShowGame(id, rs)
    ensures var p := 5 + |Show(id)|; var m := p + 2 + |ShowRound(rs[0])|;
      m <= |s| && s[0..4] == "Game" && s[4] == ' ' && s[5..p] == Show(id) && s[p] == ':' && s[p + 1] == ' '
      && s[p + 2..m] == ShowRound(rs[0]) && s[m..|s|] == ShowRounds(rs[1..])
  {
    var head := "Game " + Show(id) + ": ";
    assert s[0..|s|] == s;
    SliceSplit(s, 0, head + ShowRound(rs[0]), ShowRounds(rs[1..]));
    SliceSplit(s, 0, head, ShowRound(rs[0]));
    ShowHeaderPieces(s, id);
  }

  /** The pieces of a written game header, by position. */
  lemma ShowHeaderPieces(s: string, id: nat)
    requires 7 + |Show(id)| <= |s| && s[0..7 + |Show(id)|] == "Game " + Show(id) + ": "
    ensures var p := 5 + |Show(id)|;
      s[0..4] == "Game" && s[4] == ' ' && s[5..p] == Show(id) && s[p] == ':' && s[p + 1] == ' '
  {
    var p := 5 + |Show(id)|;
    SliceSplit(s, 0, "Game " + Show(id), ": ");
    SliceSplit(s, 0, "Game ", Show(id));
    assert s[0..5][..4] == s[0..4];
    assert s[0..5][4] == s[4];
    assert s[p..p + 2][0] == s[p] && s[p..p + 2][1] == s[p + 1];
  }

  /** The header of a written game: `Game`, one space, the id, `:` and one space. */
  lemma GameHeaderShow(s: string, id: nat, p: nat)
    requires p == 5 + |Show(id)| && p + 2 < |s| && IsDigit(s[p + 2])
    requires s[0..4] == "Game" && s[4] == ' ' && s[5..p] == Show(id) && s[p] == ':' && s[p + 1] == ' '
    ensures Tag(s, 0, "Game") == Some(4) && Space1(s, 4) == Some(5)
    ensures Unsigned(s, 5) == Some(Parsed(id, p)) && Char(s, p, ':') == Some(p + 1) && Space0(s, p + 1) == p + 2
  {
    ShowDigits(id);
    assert IsDigit(s[5]) by { assert s[5] == Show(id)[0]; }
    SkipWhileStops(s, 4, Spaces, 5);
    UnsignedShow(s, 5, id);
    SkipWhileStops(s, p + 1, Spaces, p + 2);
  }

  /** The stages of a game line, put together. */
  lemma GameGrammarAt(s: string, id: nat, p: nat, c: map<string, nat>, m: nat, ms: seq<map<string, nat>>, e: nat)
    requires p + 2 <= |s|
    requires Tag(s, 0, "Game") == Some(4) && Space1(s, 4) == Some(5)
    requires Unsigned(s, 5) == Some(Parsed(id, p)) && Char(s, p, ':') == Some(p + 1) && Space0(s, p + 1) == p + 2
    requires CubesGrammar(s, p + 2) == Some(Parsed(c, m)) && RoundsMore(s, m, [c]) == Parsed(ms, e)
    ensures GameGrammar(s) == Some(Parsed(GameRecord(id, ms), e))
  {
  }

  /**
   * A written game reads back whole: its id, and for each round the counts of its
   * entries (a later entry of a colour winning within its round).
   */
  lemma GameShow(id: nat, rs: seq<seq<Entry>>)
    requires rs != [] && ValidRounds(rs)
    ensures GameGrammar(ShowGame(id, rs)) == Some(Parsed(GameRecord(id, RoundsOf(rs)), |ShowGame(id, rs)|))
  {
    var s := ShowGame(id, rs);
    var p := 5 + |Show(id)|;
    var m := p + 2 + |ShowRound(rs[0])|;
    ShowGamePieces(s, id, rs);
    ShowRoundHead(rs[0]);
    assert s[p + 2] == ShowRound(rs[0])[0];
    GameHeaderShow(s, id, p);
    var tail := RoundsTail(rs);
    MoreRoundEnd(s, m, tail, |s|);
    RoundShow(s, p + 2, p + 2, rs[0], m);
    RoundsMoreShow(s, m, rs[1..], [FromEntries(rs[0])], |s|);
    RoundsOfCons([], rs);
    GameGrammarAt(s, id, p, FromEntries(rs[0]), m, RoundsOf(rs), |s|);
  }

  lemma RoundsTail(rs: seq<seq<Entry>>) returns (tail: seq<seq<Entry>>)
    requires rs != [] && ValidRounds(rs)
    ensures tail == rs[1..] && ValidRounds(tail)
  {
    tail := rs[1..];
    forall k | 0 <= k < |tail| ensures tail[k] != [] && ValidNames(tail[k]) { assert tail[k] == rs[k + 1]; }
  }
}
