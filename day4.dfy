/**
 * Day 4: scratchcards. Each input line is a card with an id, the winning ("goal")
 * numbers and the numbers held. A card with n matches scores 2^(n-1), and wins one copy
 * of each of the next n cards for every copy of it held; the solver reports the total of
 * the scores and the number of cards held in the end.
 */
module Day4 {
  import opened Wrappers
  import opened Text
  import opened Parsing

  /** A parsed card: its id, the winning numbers and the numbers held. */
  datatype Card = Card(id: int, goal: seq<int>, have: seq<int>)

  // ---------------------------------------------------------------------------
  // The card grammar
  // ---------------------------------------------------------------------------

  /** `delimited(space0, i32, space0)`: a number with the spaces around it. */
  function SpacedNumber(s: string, i: nat): (r: Option<Parsed<int>>)
    requires i <= |s|
    ensures r.Some? ==> i < r.value.next <= |s|
  {
    match Signed(s, Space0(s, i))
    case None => None
    case Some(p) => Some(Parsed(p.value, Space0(s, p.next)))
  }

  /** The repetitions of `many1` after the first: numbers are read until one does not parse. */
  function NumbersMore(s: string, i: nat, acc: seq<int>): (r: Parsed<seq<int>>)
    requires i <= |s|
    ensures i <= r.next <= |s| && |acc| <= |r.value|
    decreases |s| - i
  {
    match SpacedNumber(s, i)
    case None => Parsed(acc, i)
    case Some(p) => NumbersMore(s, p.next, acc + [p.value])
  }

  /** `many1(delimited(space0, i32, space0))`: one or more numbers. */
  function Numbers(s: string, i: nat): (r: Option<Parsed<seq<int>>>)
    requires i <= |s|
    ensures r.None? <==> SpacedNumber(s, i).None?
    ensures r.Some? ==> i < r.value.next <= |s| && r.value.value != []
  {
    match SpacedNumber(s, i)
    case None => None
    case Some(p) => Some(NumbersMore(s, p.next, [p.value]))
  }

  /**
   * `parse_card`: `Card`, at least one space, the id, `:` with optional spaces around it,
   * then the winning numbers and the numbers held separated by `|`. Text after the last
   * number is not looked at; a line that does not match is None.
   */
  function ParseCard(s: string): (r: Option<Card>)
    ensures r.Some? ==> 4 <= |s| && s[..4] == "Card"
    ensures r.Some? ==> r.value.goal != [] && r.value.have != []
  {
    match Tag(s, 0, "Card")
    case None => None
    case Some(a) =>
      match Space1(s, a)
      case None => None
      case Some(b) =>
        match Signed(s, b)
        case None => None
        case Some(id) =>
          match Char(s, Space0(s, id.next), ':')
          case None => None
          case Some(c) =>
            match Numbers(s, Space0(s, c))
            case None => None
            case Some(goal) =>
              match Char(s, goal.next, '|')
              case None => None
              case Some(d) =>
                match Numbers(s, d)
                case None => None
                case Some(have) => Some(Card(id.value, goal.value, have.value))
  }

  // ---------------------------------------------------------------------------
  // Writing a card, and reading it back
  // ---------------------------------------------------------------------------

  /** Numbers written one after another, each followed by one space. */
  function ShowList(xs: seq<int>): string
  {
    if xs == [] then "" else ShowSigned(xs[0]) + " " + ShowList(xs[1..])
  }

  /** A card written as in the puzzle input: `Card 1: 41 48 | 83 86 `. */
  function ShowCard(c: Card): string
  {
    "Card " + ShowSigned(c.id) + ": " + ShowList(c.goal) + "| " + ShowList(c.have)
  }

  /** Position e ends a list of numbers: no number, sign or space starts there. */
  predicate EndsList(s: string, e: nat)
    requires e <= |s|
  {
    e == |s| || (!IsSpace(s[e]) && !IsDigit(s[e]) && s[e] != '+' && s[e] != '-')
  }

  /** The numbers xs are written from position i on, each followed by one space, up to e. */
  predicate ListAt(s: string, i: nat, xs: seq<int>, e: nat)
    decreases |xs|
  {
    if xs == [] then i == e
    else
      var k := i + |ShowSigned(xs[0])|;
      k < |s| && s[i..k] == ShowSigned(xs[0]) && s[k] == ' ' && ListAt(s, k + 1, xs[1..], e)
  }

  /** A written non-empty list is its first number, a space, and the rest of the list. */
  lemma ListSplit(s: string, j: nat, xs: seq<int>)
    requires xs != [] && j + |ShowList(xs)| <= |s| && s[j..j + |ShowList(xs)|] == ShowList(xs)
    ensures j + |ShowSigned(xs[0])| + 1 + |ShowList(xs[1..])| == j + |ShowList(xs)|
    ensures s[j..j + |ShowSigned(xs[0])|] == ShowSigned(xs[0]) && s[j + |ShowSigned(xs[0])|] == ' '
    ensures s[j + |ShowSigned(xs[0])| + 1..j + |ShowList(xs)|] == ShowList(xs[1..])
  {
    var t := ShowSigned(xs[0]);
    var rest := ShowList(xs[1..]);
    assert ShowList(xs) == t + " " + rest;
    SliceSplit(s, j, t + " ", rest);
    SliceSplit(s, j, t, " ");
    assert s[j + |t|] == s[j + |t|..j + |t| + 1][0];
  }

  /** Where ShowList's text stands in s, the list is written there in the sense of ListAt. */
  lemma {:induction false} ListAtShow(s: string, i: nat, xs: seq<int>)
    requires i + |ShowList(xs)| <= |s| && s[i..i + |ShowList(xs)|] == ShowList(xs)
    ensures ListAt(s, i, xs, i + |ShowList(xs)|)
    decreases |xs|
  {
    if xs != [] {
      ListSplit(s, i, xs);
      ListAtShow(s, i + |ShowSigned(xs[0])| + 1, xs[1..]);
    }
  }

  /** A written list, followed by something that ends it, does not start with a space. */
  lemma ListAtStart(s: string, i: nat, xs: seq<int>, e: nat)
    requires e <= |s| && ListAt(s, i, xs, e) && EndsList(s, e)
    ensures i == |s| || !IsSpace(s[i])
  {
    if xs != [] {
      ShowSignedHead(xs[0]);
      assert s[i] == s[i..i + |ShowSigned(xs[0])|][0];
    }
  }

  /**
   * A number written with one space after it, after no space or one, is read with that
   * space when no other space follows.
   */
  lemma SpacedAt(s: string, i: nat, j: nat, x: int)
    requires j == i || (j == i + 1 && i < |s| && IsSpace(s[i]))
    requires j + |ShowSigned(x)| < |s| && s[j..j + |ShowSigned(x)|] == ShowSigned(x) && s[j + |ShowSigned(x)|] == ' '
    requires j + |ShowSigned(x)| + 1 == |s| || !IsSpace(s[j + |ShowSigned(x)| + 1])
    ensures SpacedNumber(s, i) == Some(Parsed(x, j + |ShowSigned(x)| + 1))
  {
    var t := ShowSigned(x);
    SpacedSignedShow(s, i, j, x);
    SkipWhileStops(s, j + |t|, Spaces, j + |t| + 1);
  }

  /** A written list of numbers, followed by something that ends it, is read back whole. */
  lemma {:induction false} ListParse(s: string, i: nat, acc: seq<int>, xs: seq<int>, e: nat)
    requires i <= e <= |s| && ListAt(s, i, xs, e) && EndsList(s, e)
    ensures NumbersMore(s, i, acc) == Parsed(acc + xs, e)
    decreases |xs|
  {
    if xs == [] {
      assert acc + xs == acc;
      ListEnd(s, e, acc);
    } else {
      var k := i + |ShowSigned(xs[0])| + 1;
      ListAtOrder(s, k, xs[1..], e);
      ListAtStart(s, k, xs[1..], e);
      SpacedAt(s, i, i, xs[0]);
      NumbersMoreStep(s, i, acc, xs[0], k);
      ListParse(s, k, acc + [xs[0]], xs[1..], e);
      ConsAppend(acc, xs);
    }
  }

  /** A number read moves the list on by one. */
  lemma NumbersMoreStep(s: string, i: nat, acc: seq<int>, x: int, k: nat)
    requires i <= |s| && SpacedNumber(s, i) == Some(Parsed(x, k))
    ensures k <= |s| && NumbersMore(s, i, acc) == NumbersMore(s, k, acc + [x])
  {
  }

  /** Appending the head and then the tail appends the whole sequence. */
  lemma ConsAppend<T>(acc: seq<T>, xs: seq<T>)
    requires xs != []
    ensures acc + [xs[0]] + xs[1..] == acc + xs
  {
    assert xs == [xs[0]] + xs[1..];
  }

  /** Where a list ends, no further number is read. */
  lemma ListEnd(s: string, e: nat, acc: seq<int>)
    requires e <= |s| && EndsList(s, e)
    ensures NumbersMore(s, e, acc) == Parsed(acc, e)
  {
    SkipWhileStops(s, e, Spaces, e);
    assert SpacedNumber(s, e).None?;
  }

  /** A list written from i on ends at or after i. */
  lemma {:induction false} ListAtOrder(s: string, i: nat, xs: seq<int>, e: nat)
    requires ListAt(s, i, xs, e)
    ensures i <= e
    decreases |xs|
  {
    if xs != [] { ListAtOrder(s, i + |ShowSigned(xs[0])| + 1, xs[1..], e); }
  }

  /** `many1(...)` reads back a non-empty written list, after no space or one. */
  lemma NumbersParse(s: string, i: nat, j: nat, xs: seq<int>, e: nat)
    requires xs != [] && (j == i || (j == i + 1 && i < |s| && IsSpace(s[i])))
    requires e <= |s| && ListAt(s, j, xs, e) && EndsList(s, e)
    ensures Numbers(s, i) == Some(Parsed(xs, e))
  {
    var k := j + |ShowSigned(xs[0])| + 1;
    ListAtOrder(s, k, xs[1..], e);
    ListAtStart(s, k, xs[1..], e);
    SpacedAt(s, i, j, xs[0]);
    ListParse(s, k, [xs[0]], xs[1..], e);
    assert [xs[0]] + xs[1..] == xs;
  }

  /** A written list starts with the first number's sign or digit. */
  lemma ShowListHead(xs: seq<int>)
    requires xs != []
    ensures ShowList(xs)[0] == ShowSigned(xs[0])[0]
    ensures ShowList(xs)[0] == '-' || IsDigit(ShowList(xs)[0])
  {
    ShowSignedHead(xs[0]);
  }

  /** The pieces of a written card, by position. */
  lemma CardPieces(c: Card)
    requires c.goal != [] && c.have != []
    ensures var s := ShowCard(c); var p := 5 + |ShowSigned(c.id)|;
      var g := p + 2; var e := g + |ShowList(c.goal)|; var h := e + 2;
      h + |ShowList(c.have)| == |s| && s[0..4] == "Card" && s[4] == ' ' && s[5..p] == ShowSigned(c.id)
      && s[p] == ':' && s[p + 1] == ' ' && s[g..e] == ShowList(c.goal) && s[e] == '|' && s[e + 1] == ' '
      && s[h..|s|] == ShowList(c.have)
  {
    var s := ShowCard(c);
    var id := ShowSigned(c.id);
    var head := "Card " + id + ": ";
    var p := 5 + |id|;
    var e := p + 2 + |ShowList(c.goal)|;
    assert s[0..|s|] == s;
    SliceSplit(s, 0, head + ShowList(c.goal) + "| ", ShowList(c.have));
    SliceSplit(s, 0, head + ShowList(c.goal), "| ");
    SliceSplit(s, 0, head, ShowList(c.goal));
    SliceSplit(s, 0, "Card " + id, ": ");
    SliceSplit(s, 0, "Card ", id);
    assert s[0..5][..4] == s[0..4];
    assert s[0..5][4] == s[4];
    assert s[p..p + 2][0] == s[p] && s[p..p + 2][1] == s[p + 1];
    assert s[e..e + 2][0] == s[e] && s[e..e + 2][1] == s[e + 1];
  }

  /** The header of a written card: `Card`, one space, the id, `:` and one space. */
  lemma CardHeaderShow(s: string, id: int, p: nat)
    requires p == 5 + |ShowSigned(id)| && p + 2 < |s| && (s[p + 2] == '-' || IsDigit(s[p + 2]))
    requires s[0..4] == "Card" && s[4] == ' ' && s[5..p] == ShowSigned(id) && s[p] == ':' && s[p + 1] == ' '
    ensures Tag(s, 0, "Card") == Some(4) && Space1(s, 4) == Some(5) && Signed(s, 5) == Some(Parsed(id, p))
    ensures Space0(s, p) == p && Char(s, p, ':') == Some(p + 1) && Space0(s, p + 1) == p + 2
  {
    ShowSignedHead(id);
    assert s[5] == ShowSigned(id)[0];
    SkipWhileStops(s, 4, Spaces, 5);
    SignedShow(s, 5, id);
    SkipWhileStops(s, p, Spaces, p);
    SkipWhileStops(s, p + 1, Spaces, p + 2);
  }

  /** A written card, with numbers in both lists, is read back as that card. */
  lemma CardShow(c: Card)
    requires c.goal != [] && c.have != []
    ensures ParseCard(ShowCard(c)) == Some(c)
  {
    var s := ShowCard(c);
    var p := 5 + |ShowSigned(c.id)|;
    var g := p + 2;
    var e := g + |ShowList(c.goal)|;
    CardPieces(c);
    ShowListHead(c.goal);
    assert s[g] == s[g..e][0];
    CardHeaderShow(s, c.id, p);
    CardListsShow(s, c, g, e);
    CardGrammarAt(s, c, p, e);
  }

  /** The two lists of a written card are read back, the first up to the `|`. */
  lemma CardListsShow(s: string, c: Card, g: nat, e: nat)
    requires c.goal != [] && c.have != []
    requires e == g + |ShowList(c.goal)| && e + 2 + |ShowList(c.have)| == |s|
    requires s[g..e] == ShowList(c.goal) && s[e] == '|' && s[e + 1] == ' ' && s[e + 2..|s|] == ShowList(c.have)
    ensures Numbers(s, g) == Some(Parsed(c.goal, e)) && Numbers(s, e + 1) == Some(Parsed(c.have, |s|))
  {
    ListAtShow(s, g, c.goal);
    ListAtShow(s, e + 2, c.have);
    NumbersParse(s, g, g, c.goal, e);
    NumbersParse(s, e + 1, e + 2, c.have, |s|);
  }

  /** The stages of a card line, put together. */
  lemma CardGrammarAt(s: string, c: Card, p: nat, e: nat)
    requires p + 2 <= e < |s|
    requires Tag(s, 0, "Card") == Some(4) && Space1(s, 4) == Some(5) && Signed(s, 5) == Some(Parsed(c.id, p))
    requires Space0(s, p) == p && Char(s, p, ':') == Some(p + 1) && Space0(s, p + 1) == p + 2
    requires Numbers(s, p + 2) == Some(Parsed(c.goal, e)) && s[e] == '|'
    requires Numbers(s, e + 1) == Some(Parsed(c.have, |s|))
    ensures ParseCard(s) == Some(c)
  {
  }

  // ---------------------------------------------------------------------------
  // Matches and scores
  // ---------------------------------------------------------------------------

  /** `have.iter().filter(|n| goal.contains(n))`: the numbers held that are winning numbers. */
  function Matches(goal: seq<int>, have: seq<int>): (r: seq<int>)
    ensures |r| <= |have|
    ensures forall k :: 0 <= k < |r| ==> r[k] in goal
  {
    if have == [] then []
    else Matches(goal, have[..|have| - 1]) + (if have[|have| - 1] in goal then [have[|have| - 1]] else [])
  }

  /** The number of matches, `.count()` of the filter. */
  function MatchCount(goal: seq<int>, have: seq<int>): nat
  {
    |Matches(goal, have)|
  }

  /**
   * The matches are the numbers held that are winning numbers, each as often as it is held:
   * a held number that is also a winning number counts once per time it is held.
   */
  lemma {:induction false} MatchesCounted(goal: seq<int>, have: seq<int>)
    ensures forall x :: multiset(Matches(goal, have))[x] == if x in goal then multiset(have)[x] else 0
    decreases |have|
  {
    if have != [] {
      var front := have[..|have| - 1];
      var y := have[|have| - 1];
      MatchesCounted(goal, front);
      assert have == front + [y];
    }
  }

  /** `1 << n`. */
  function Pow2(n: nat): (r: nat)
    ensures r >= 1
  {
    if n == 0 then 1 else 2 * Pow2(n - 1)
  }

  /** The score of a card with n matches: nothing without matches, else 2^(n-1). */
  function Score(n: nat): nat
  {
    if n == 0 then 0 else Pow2(n - 1)
  }

  /** Each match after the first doubles the score. */
  lemma {:induction false} ScoreDoubles(n: nat)
    requires n >= 1
    ensures Score(n + 1) == 2 * Score(n) && Score(1) == 1
  {
  }

  // ---------------------------------------------------------------------------
  // The copies won, as the puzzle defines them
  // ---------------------------------------------------------------------------

  /** The copies of card i held in the end, for cards with ns[j] matches: the original and those won. */
  function Copies(ns: seq<nat>, i: nat): (r: nat)
    requires i < |ns|
    ensures r >= 1
    decreases i, 1
  {
    1 + Won(ns, i, i)
  }

  /**
   * The copies of card m won by the cards before t: every copy of a card j wins one copy
   * of each of the cards j+1 to j+ns[j].
   */
  function Won(ns: seq<nat>, m: nat, t: nat): nat
    requires t <= |ns|
    decreases t, 0
  {
    if t == 0 then 0
    else Won(ns, m, t - 1) + (if t - 1 < m <= t - 1 + ns[t - 1] then Copies(ns, t - 1) else 0)
  }

  /** No card before t reaches card m: it wins no copies of it from them. */
  lemma {:induction false} WonZero(ns: seq<nat>, m: nat, t: nat)
    requires t <= |ns|
    requires forall j :: 0 <= j < t ==> j + ns[j] < m
    ensures Won(ns, m, t) == 0
    decreases t
  {
    if t > 0 { WonZero(ns, m, t - 1); }
  }

  /** The scores of the first t cards, added up. */
  function ScoreSum(ns: seq<nat>, t: nat): nat
    requires t <= |ns|
  {
    if t == 0 then 0 else ScoreSum(ns, t - 1) + Score(ns[t - 1])
  }

  /** The copies of the first t cards, added up. */
  function CopiesTotal(ns: seq<nat>, t: nat): nat
    requires t <= |ns|
  {
    if t == 0 then 0 else CopiesTotal(ns, t - 1) + Copies(ns, t - 1)
  }

  /** One more card adds its score and its copies to the totals. */
  lemma TallyStep(ns: seq<nat>, i: nat)
    requires i < |ns|
    ensures ScoreSum(ns, i + 1) == ScoreSum(ns, i) + Score(ns[i])
    ensures CopiesTotal(ns, i + 1) == CopiesTotal(ns, i) + Copies(ns, i)
  {
  }

  /** Every card is held at least once, so there are at least as many cards as lines. */
  lemma {:induction false} CopiesTotalAtLeast(ns: seq<nat>, t: nat)
    requires t <= |ns|
    ensures CopiesTotal(ns, t) >= t
  {
    if t > 0 { CopiesTotalAtLeast(ns, t - 1); }
  }

  /** The example of the puzzle statement: matches 4, 2, 2, 1, 0, 0 score 13 and end with 30 cards. */
  lemma ExampleTotals()
    ensures ScoreSum([4, 2, 2, 1, 0, 0], 6) == 13
    ensures CopiesTotal([4, 2, 2, 1, 0, 0], 6) == 30
  {
    var ns: seq<nat> := [4, 2, 2, 1, 0, 0];
    assert Copies(ns, 0) == 1;
    assert Copies(ns, 1) == 2;
    assert Copies(ns, 2) == 4;
    assert Copies(ns, 3) == 8;
    assert Copies(ns, 4) == 14;
    assert Copies(ns, 5) == 1;
  }

  // ---------------------------------------------------------------------------
  // The queue of copies won for the cards ahead
  // ---------------------------------------------------------------------------

  /** `pop_front().unwrap_or(0)`: the copies won for the next card. */
  function Front(q: seq<nat>): nat
  {
    if q == [] then 0 else q[0]
  }

  /** The queue after `pop_front`. */
  function Rest(q: seq<nat>): seq<nat>
  {
    if q == [] then [] else q[1..]
  }

  /**
   * Before card i: entry k of the queue holds the copies of card i+k won so far, and the
   * queue reaches every card any earlier card wins copies of.
   */
  predicate QueueInv(ns: seq<nat>, i: nat, q: seq<nat>)
    requires i <= |ns|
  {
    (forall k :: 0 <= k < |q| ==> q[k] == Won(ns, i + k, i))
    && (forall j :: 0 <= j < i ==> j + ns[j] < i + |q|)
  }

  /** after is before with c added to its first n entries, extended with zeros to length n as needed. */
  predicate IsSpread(before: seq<nat>, n: nat, c: nat, after: seq<nat>)
  {
    |after| == (if |before| < n then n else |before|)
    && forall k :: 0 <= k < |after| ==> after[k] == (if k < |before| then before[k] else 0) + (if k < n then c else 0)
  }

  /**
   * The inner loop of the solver: each of the next n cards wins count copies; an entry
   * already queued is increased, a missing one is pushed at the back.
   */
  method Spread(queue: seq<nat>, n: nat, count: nat) returns (q: seq<nat>)
    ensures IsSpread(queue, n, count, q)
  {
    q := queue;
    for i := 0 to n
      invariant |q| == if |queue| < i then i else |queue|
      invariant forall k :: 0 <= k < |q| ==> q[k] == (if k < |queue| then queue[k] else 0) + (if k < i then count else 0)
    {
      if i < |q| {
        q := q[i := q[i] + count];
      } else {
        q := q + [count];
      }
    }
  }

  /**
   * One card processed: the front of the queue plus the original is the number of copies
   * of card i, and spreading that many over the cards it wins keeps the queue exact.
   */
  lemma QueueStep(ns: seq<nat>, i: nat, q: seq<nat>, after: seq<nat>)
    requires i < |ns| && QueueInv(ns, i, q)
    requires IsSpread(Rest(q), ns[i], Front(q) + 1, after)
    ensures Front(q) + 1 == Copies(ns, i)
    ensures QueueInv(ns, i + 1, after)
  {
    FrontCopies(ns, i, q);
    forall k | 0 <= k < |after| ensures after[k] == Won(ns, i + 1 + k, i + 1) {
      QueueEntry(ns, i, q, after, k);
    }
    QueueReach(ns, i, q, after);
  }

  /** The front of the queue, plus the original, is the number of copies of card i. */
  lemma FrontCopies(ns: seq<nat>, i: nat, q: seq<nat>)
    requires i < |ns| && QueueInv(ns, i, q)
    ensures Front(q) + 1 == Copies(ns, i)
  {
    if q == [] {
      WonZero(ns, i, i);
    } else {
      assert q[0] == Won(ns, i + 0, i);
    }
  }

  /** Card i adds its copies to the count of each card it wins. */
  lemma WonNext(ns: seq<nat>, m: nat, i: nat)
    requires i < |ns|
    ensures Won(ns, m, i + 1) == Won(ns, m, i) + (if i < m <= i + ns[i] then Copies(ns, i) else 0)
  {
  }

  /** Entry k of the spread queue counts the copies of card i+1+k won by the cards up to i. */
  lemma QueueEntry(ns: seq<nat>, i: nat, q: seq<nat>, after: seq<nat>, k: nat)
    requires i < |ns| && QueueInv(ns, i, q)
    requires IsSpread(Rest(q), ns[i], Copies(ns, i), after) && k < |after|
    ensures after[k] == Won(ns, i + 1 + k, i + 1)
  {
    WonNext(ns, i + 1 + k, i);
    if k < |Rest(q)| {
      assert Rest(q)[k] == q[k + 1];
      assert q[k + 1] == Won(ns, i + (k + 1), i);
    } else {
      assert |q| <= k + 1;
      WonZero(ns, i + 1 + k, i);
    }
  }

  /** The spread queue reaches every card won by the cards up to i. */
  lemma QueueReach(ns: seq<nat>, i: nat, q: seq<nat>, after: seq<nat>)
    requires i < |ns| && QueueInv(ns, i, q)
    requires IsSpread(Rest(q), ns[i], Copies(ns, i), after)
    ensures forall j :: 0 <= j < i + 1 ==> j + ns[j] < i + 1 + |after|
  {
    assert |q| <= |Rest(q)| + 1;
  }

  // ---------------------------------------------------------------------------
  // The solver
  // ---------------------------------------------------------------------------

  /** The totals printed: the sum of the scores and the number of cards held. */
  datatype Tally = Tally(total: int, cards: int)

  /** Why the solver stops: a line that is not a card, or a card whose id does not follow the last one. */
  datatype CardError = Unparsable(line: nat) | BadCardId(line: nat, id: int, last: int)

  /**
   * The queue's part of one card with n matches: `pop_front().unwrap_or(0) + 1` copies of
   * it are held, and every one of them wins a copy of each of the next n cards.
   */
  method Visit(ghost ns: seq<nat>, i: nat, queue: seq<nat>, n: nat) returns (count: nat, after: seq<nat>)
    requires i < |ns| && n == ns[i] && QueueInv(ns, i, queue)
    ensures count == Copies(ns, i) && QueueInv(ns, i + 1, after)
  {
    count := 1;
    after := queue;
    if queue != [] {
      count := queue[0] + 1;
      after := queue[1..];
    }
    if n > 0 {
      after := Spread(after, n, count);
    }
    QueueStep(ns, i, queue, after);
  }

  /** Every line, read as a card. */
  function ParseAll(lines: seq<string>): (cs: seq<Option<Card>>)
    ensures |cs| == |lines| && forall k :: 0 <= k < |lines| ==> cs[k] == ParseCard(lines[k])
  {
    seq(|lines|, k requires 0 <= k < |lines| => ParseCard(lines[k]))
  }

  /** The matches of every card; 0 for a line that is not one. */
  function CountsOf(cs: seq<Option<Card>>): (ns: seq<nat>)
    ensures |ns| == |cs|
    ensures forall k :: 0 <= k < |cs| && cs[k].Some? ==> ns[k] == MatchCount(cs[k].value.goal, cs[k].value.have)
  {
    seq(|cs|, k requires 0 <= k < |cs| => if cs[k].Some? then MatchCount(cs[k].value.goal, cs[k].value.have) else 0)
  }

  /** The first n lines are cards, numbered one after another: each id is one more than the last. */
  predicate GoodPrefix(cs: seq<Option<Card>>, n: nat)
  {
    n <= |cs|
    && (forall k :: 0 <= k < n ==> cs[k].Some?)
    && (forall k :: 0 <= k < n ==> cs[k].value.id == cs[0].value.id + k)
  }

  /** e names the first line that is not a card or does not follow on from the one before. */
  predicate FailsAt(cs: seq<Option<Card>>, e: CardError)
  {
    e.line < |cs| && GoodPrefix(cs, e.line) && !GoodPrefix(cs, e.line + 1)
    && (e.Unparsable? <==> cs[e.line].None?)
    && (e.BadCardId? ==> 0 < e.line && e.id == cs[e.line].value.id && e.last == cs[e.line - 1].value.id)
  }

  /** One more card, numbered on from the last, extends a good prefix. */
  lemma GoodPrefixStep(cs: seq<Option<Card>>, i: nat)
    requires i < |cs| && GoodPrefix(cs, i) && cs[i].Some?
    requires i == 0 || cs[i].value.id == cs[i - 1].value.id + 1
    ensures GoodPrefix(cs, i + 1)
  {
  }

  /** A line that is not a card, or not numbered on from the last, ends every good prefix. */
  lemma GoodPrefixBreaks(cs: seq<Option<Card>>, i: nat)
    requires i < |cs| && GoodPrefix(cs, i)
    requires cs[i].None? || (0 < i && cs[i].value.id != cs[i - 1].value.id + 1)
    ensures !GoodPrefix(cs, i + 1) && !GoodPrefix(cs, |cs|)
  {
    if cs[i].Some? {
      assert cs[i - 1].value.id == cs[0].value.id + (i - 1);
    }
  }

  /**
   * `main`: every line is read as a card and the cards are played in order (see
   * PlayCards). Reading a line has no effect, so reading them all first stops at the
   * same line with the same error.
   */
  method Play(lines: seq<string>) returns (r: Result<Tally, CardError>)
    ensures r.Ok? <==> GoodPrefix(ParseAll(lines), |lines|)
    ensures r.Ok? ==> var ns := CountsOf(ParseAll(lines));
      r.value == Tally(ScoreSum(ns, |lines|), CopiesTotal(ns, |lines|))
    ensures r.Err? ==> FailsAt(ParseAll(lines), r.error)
  {
    var cs := ParseAll(lines);
    r := PlayCards(cs);
  }

  /**
   * The loop of `main`: the total grows by the score of each card and the card count by
   * its number of copies, with the copies won further down carried in a queue. The run
   * stops at the first line that is not a card or whose id does not follow the previous one.
   */
  method PlayCards(cs: seq<Option<Card>>) returns (r: Result<Tally, CardError>)
    ensures r.Ok? <==> GoodPrefix(cs, |cs|)
    ensures r.Ok? ==> r.value == Tally(ScoreSum(CountsOf(cs), |cs|), CopiesTotal(CountsOf(cs), |cs|))
    ensures r.Err? ==> FailsAt(cs, r.error)
  {
    ghost var ns := CountsOf(cs);
    var total := 0;
    var cards := 0;
    var queue: seq<nat> := [];
    var lastId: Option<int> := None;
    for i := 0 to |cs|
      invariant GoodPrefix(cs, i)
      invariant lastId == if i == 0 then None else Some(cs[i - 1].value.id)
      invariant QueueInv(ns, i, queue)
      invariant total == ScoreSum(ns, i) && cards == CopiesTotal(ns, i)
    {
      if cs[i].None? {
        GoodPrefixBreaks(cs, i);
        return Err(Unparsable(i));
      }
      var card := cs[i].value;
      var n := MatchCount(card.goal, card.have);
      if lastId.Some? && lastId.value + 1 != card.id {
        GoodPrefixBreaks(cs, i);
        return Err(BadCardId(i, card.id, lastId.value));
      }
      GoodPrefixStep(cs, i);
      lastId := Some(card.id);
      var count;
      count, queue := Visit(ns, i, queue, n);
      cards := cards + count;
      if n > 0 {
        total := total + Pow2(n - 1);
      }
      TallyStep(ns, i);
    }
    return Ok(Tally(total, cards));
  }
}
