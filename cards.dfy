// The card system of the dice-and-cards generation (js/cards.js): building a
// deck, the in-place Fisher-Yates shuffle, rank values and the classification
// of a three-card hand.
//
// The suit and rank lists are parameters: the constants module that would
// supply them is not part of this model. A hand's value is one of the five
// kinds the source distinguishes; the bonus attached to each kind is not
// modelled.
module Cards {
  import opened Util
  import opened Sorting
  import Rand

  datatype Card = Card(suit: string, rank: string)

  datatype Hand = StraightFlush | ThreeOfAKind | Straight | Flush | Pair

  // ---------------------------------------------------------------- createDeck

  /** The cards of one suit, in rank order. */
  function SuitRow(suit: string, ranks: seq<string>): (row: seq<Card>)
    ensures |row| == |ranks|
    ensures forall j :: 0 <= j < |ranks| ==> row[j] == Card(suit, ranks[j])
  {
    seq(|ranks|, j requires 0 <= j < |ranks| => Card(suit, ranks[j]))
  }

  /** The deck `createDeck` builds: every suit's row, suit after suit. */
  function Deck(suits: seq<string>, ranks: seq<string>): seq<Card> {
    if suits == [] then []
    else Deck(suits[..|suits| - 1], ranks) + SuitRow(suits[|suits| - 1], ranks)
  }

  /** The nested loops of `createDeck`, pushing one card per (suit, rank) pair. */
  method CreateDeck(suits: seq<string>, ranks: seq<string>) returns (deck: seq<Card>)
    ensures deck == Deck(suits, ranks)
  {
    deck := [];
    var i := 0;
    while i < |suits|
      invariant 0 <= i <= |suits|
      invariant deck == Deck(suits[..i], ranks)
    {
      var j := 0;
      while j < |ranks|
        invariant 0 <= j <= |ranks|
        invariant deck == Deck(suits[..i], ranks) + SuitRow(suits[i], ranks)[..j]
      {
        deck := deck + [Card(suits[i], ranks[j])];
        j := j + 1;
      }
      assert suits[..i + 1][..i] == suits[..i];
      assert SuitRow(suits[i], ranks)[..j] == SuitRow(suits[i], ranks);
      i := i + 1;
    }
    assert suits[..i] == suits;
  }

  /** One card per (suit, rank) pair: the deck has |suits|·|ranks| cards. */
  lemma {:induction false} DeckLength(suits: seq<string>, ranks: seq<string>)
    ensures |Deck(suits, ranks)| == |suits| * |ranks|
    decreases |suits|
  {
    if suits != [] {
      var n := |suits| - 1;
      DeckLength(suits[..n], ranks);
      assert |Deck(suits, ranks)| == n * |ranks| + |ranks|;
    }
  }

  /** The card of suit i and rank j sits at position i·|ranks| + j. */
  lemma {:induction false} DeckCell(suits: seq<string>, ranks: seq<string>, i: nat, j: nat)
    requires i < |suits| && j < |ranks|
    ensures i * |ranks| + j < |Deck(suits, ranks)| && Deck(suits, ranks)[i * |ranks| + j] == Card(suits[i], ranks[j])
    decreases |suits|
  {
    var n := |suits| - 1;
    var front := suits[..n];
    DeckLength(front, ranks);
    assert Deck(suits, ranks) == Deck(front, ranks) + SuitRow(suits[n], ranks);
    if i < n {
      DeckCell(front, ranks, i, j);
      assert front[i] == suits[i];
      MulStep(i, n, |ranks|, j);
    } else {
      assert i * |ranks| == n * |ranks|;
    }
  }

  /** For a row index below `n`, the position i·r + j lies before the n·r cards of those rows. */
  lemma MulStep(i: nat, n: nat, r: nat, j: nat)
    requires i < n && j < r
    ensures i * r + j < n * r
  {
    assert (i + 1) * r <= n * r by {
      MulMonotone(i + 1, n, r);
    }
  }

  lemma {:induction false} MulMonotone(a: nat, b: nat, r: nat)
    requires a <= b
    ensures a * r <= b * r
    decreases b - a
  {
    if a < b {
      MulMonotone(a + 1, b, r);
    }
  }

  /** A card is in the deck exactly when its suit and its rank are listed. */
  lemma {:induction false} DeckMembers(suits: seq<string>, ranks: seq<string>, c: Card)
    ensures c in Deck(suits, ranks) <==> c.suit in suits && c.rank in ranks
    decreases |suits|
  {
    if suits != [] {
      var n := |suits| - 1;
      DeckMembers(suits[..n], ranks, c);
      assert suits == suits[..n] + [suits[n]];
      if c.suit == suits[n] && c.rank in ranks {
        var j :| 0 <= j < |ranks| && ranks[j] == c.rank;
        assert SuitRow(suits[n], ranks)[j] == c;
      }
    }
  }

  // --------------------------------------------------------------- shuffleDeck

  function Swap<T>(s: seq<T>, i: nat, j: nat): (r: seq<T>)
    requires i < |s| && j < |s|
    ensures |r| == |s|
  {
    s[i := s[j]][j := s[i]]
  }

  /** The Fisher-Yates pass from position `i` down to 1: position `i` is
      exchanged with position `Math.floor(Math.random() * (i + 1))`, the k-th draw. */
  function FisherYates(s: seq<Card>, i: int, rng: Rand.Stream, k: nat): seq<Card>
    requires i < |s|
    requires Rand.Unit(rng)
    decreases i
  {
    if i <= 0 then s
    else FisherYates(Swap(s, i, Rand.Index(rng(k), i + 1)), i - 1, rng, k + 1)
  }

  /** `shuffleDeck`, in place on the array. */
  method ShuffleDeck(deck: array<Card>, rng: Rand.Stream, k0: nat) returns (k: nat)
    requires Rand.Unit(rng)
    modifies deck
    ensures deck[..] == FisherYates(old(deck[..]), deck.Length - 1, rng, k0)
    ensures k == k0 + (if deck.Length > 1 then deck.Length - 1 else 0)
  {
    ghost var spec := FisherYates(deck[..], deck.Length - 1, rng, k0);
    var i := deck.Length - 1;
    k := k0;
    while i > 0
      invariant -1 <= i < deck.Length
      invariant i >= 0 || deck.Length == 0
      invariant FisherYates(deck[..], i, rng, k) == spec
      invariant k == k0 + (deck.Length - 1 - i)
    {
      var j := Rand.Index(rng(k), i + 1);
      deck[i], deck[j] := deck[j], deck[i];
      i := i - 1;
      k := k + 1;
    }
    assert FisherYates(deck[..], i, rng, k) == deck[..];
  }

  lemma SwapPermutes<T>(s: seq<T>, i: nat, j: nat)
    requires i < |s| && j < |s|
    ensures multiset(Swap(s, i, j)) == multiset(s)
  {
    if i != j {
      var t := s[i := s[j]];
      assert multiset(t) == multiset(s) - multiset{s[i]} + multiset{s[j]};
      assert multiset(t[j := s[i]]) == multiset(t) - multiset{t[j]} + multiset{s[i]};
    }
  }

  /** Whatever indices the draws pick, the shuffled deck is a permutation of the input. */
  lemma {:induction false} FisherYatesPermutes(s: seq<Card>, i: int, rng: Rand.Stream, k: nat)
    requires i < |s|
    requires Rand.Unit(rng)
    ensures |FisherYates(s, i, rng, k)| == |s|
    ensures multiset(FisherYates(s, i, rng, k)) == multiset(s)
    decreases i
  {
    if i > 0 {
      var j := Rand.Index(rng(k), i + 1);
      SwapPermutes(s, i, j);
      FisherYatesPermutes(Swap(s, i, j), i - 1, rng, k + 1);
    }
  }

  // -------------------------------------------------------------- getRankValue

  predicate IsDigit(ch: char) { '0' <= ch <= '9' }

  /** A non-empty run of decimal digits: the rank strings `isNaN` accepts and `parseInt` reads whole. */
  predicate IsNumeral(s: string) {
    |s| > 0 && forall i :: 0 <= i < |s| ==> IsDigit(s[i])
  }

  function DecimalValue(s: string): nat
    requires forall i :: 0 <= i < |s| ==> IsDigit(s[i])
  {
    if s == [] then 0
    else
      assert IsDigit(s[|s| - 1]);
      10 * DecimalValue(s[..|s| - 1]) + (s[|s| - 1] as int - '0' as int)
  }

  /** `getRankValue`: a numeral reads as its integer, a face card or ace as
      11 to 14; any other string has no value (`None`). The source gives
      `undefined` for most of those, but `NaN` for "" (which `isNaN` lets
      through to `parseInt`), and the leading digits for strings such as
      " 7" or "1e1" that `Number` reads; the deck holds none of them. */
  function RankValue(rank: string): (v: Option<int>)
    ensures v.Some? ==> v.value >= 0
  {
    if IsNumeral(rank) then Some(DecimalValue(rank))
    else if rank == "J" then Some(11)
    else if rank == "Q" then Some(12)
    else if rank == "K" then Some(13)
    else if rank == "A" then Some(14)
    else None
  }

  /** The decimal digits of `n`, as a rank list would spell the number. */
  function Numeral(n: nat): (s: string)
    ensures IsNumeral(s)
  {
    if n < 10 then [('0' as int + n) as char]
    else Numeral(n / 10) + [('0' as int + n % 10) as char]
  }

  /** Writing a number out and reading it back as a rank gives the number. */
  lemma {:induction false} NumeralRoundTrip(n: nat)
    ensures RankValue(Numeral(n)) == Some(n)
    ensures DecimalValue(Numeral(n)) == n
    decreases n
  {
    var s := Numeral(n);
    if n >= 10 {
      NumeralRoundTrip(n / 10);
      assert s[..|s| - 1] == Numeral(n / 10);
    } else {
      assert s[..0] == [];
      assert DecimalValue(s) == 10 * DecimalValue([]) + (s[0] as int - '0' as int);
    }
  }

  /** The face cards and the ace rank above every single-digit numeral and
      read 11, 12, 13 and 14 in that order. */
  lemma FaceValues()
    ensures RankValue("J") == Some(11) && RankValue("Q") == Some(12)
    ensures RankValue("K") == Some(13) && RankValue("A") == Some(14)
  {
    assert !IsNumeral("J") by { assert !IsDigit("J"[0]); }
    assert !IsNumeral("Q") by { assert !IsDigit("Q"[0]); }
    assert !IsNumeral("K") by { assert !IsDigit("K"[0]); }
    assert !IsNumeral("A") by { assert !IsDigit("A"[0]); }
  }

  // -------------------------------------------------------------- evaluateHand

  /** Every card's rank has a value (the source's rank list holds only such ranks). */
  predicate Ranked(hand: seq<Card>) {
    forall i :: 0 <= i < |hand| ==> RankValue(hand[i].rank).Some?
  }

  function Values(hand: seq<Card>): (vs: seq<int>)
    requires Ranked(hand)
    ensures |vs| == |hand|
    ensures forall i :: 0 <= i < |hand| ==> vs[i] == RankValue(hand[i].rank).value
  {
    seq(|hand|, i requires 0 <= i < |hand| => RankValue(hand[i].rank).value)
  }

  /** How many times `v` occurs in `s`. */
  function Occurrences(s: seq<int>, v: int): nat {
    multiset(s)[v]
  }

  /** `counts.includes(n)` for the rank tally: some rank occurs exactly `n` times. */
  predicate SomeCountIs(s: seq<int>, n: nat) {
    exists i :: 0 <= i < |s| && Occurrences(s, s[i]) == n
  }

  predicate AllSameSuit(hand: seq<Card>) {
    forall i :: 0 <= i < |hand| ==> hand[i].suit == hand[0].suit
  }

  predicate IsStraight(r: seq<int>)
    requires |r| == 3
  {
    (r[0] + 1 == r[1] && r[1] + 1 == r[2]) || (r[0] == 2 && r[1] == 3 && r[2] == 14)
  }

  /** The hand's rank values in ascending order. */
  function Ranks(hand: seq<Card>): (r: seq<int>)
    requires Ranked(hand)
    ensures |r| == |hand|
  {
    SortAsc(Values(hand))
  }

  /** The checks of `evaluateHand` on the sorted ranks, strongest first. */
  function Classify(ranks: seq<int>, isFlush: bool): Option<Hand>
    requires |ranks| == 3
  {
    var isStraight := IsStraight(ranks);
    if isStraight && isFlush then Some(StraightFlush)
    else if SomeCountIs(ranks, 3) then Some(ThreeOfAKind)
    else if isStraight then Some(Straight)
    else if isFlush then Some(Flush)
    else if SomeCountIs(ranks, 2) then Some(Pair)
    else None
  }

  /** `evaluateHand`, for hands whose ranks all have a value. */
  function EvaluateHand(hand: seq<Card>): Option<Hand>
    requires Ranked(hand)
  {
    if |hand| != 3 then None
    else Classify(Ranks(hand), AllSameSuit(hand))
  }

  /** Only three-card hands are classified. */
  lemma WrongSizeIsNothing(hand: seq<Card>)
    requires Ranked(hand) && |hand| != 3
    ensures EvaluateHand(hand).None?
  {
  }

  /** Any ascending arrangement of the hand's values is the one `Ranks` computes. */
  lemma RanksAre(hand: seq<Card>, r: seq<int>)
    requires Ranked(hand)
    requires Ascending(r) && multiset(r) == multiset(Values(hand))
    ensures Ranks(hand) == r
  {
    AscendingUnique(Ranks(hand), r);
  }

  /** Three cards of one rank are three of a kind, whatever their suits. */
  lemma ThreeOfOneRank(hand: seq<Card>, x: int)
    requires Ranked(hand) && |hand| == 3
    requires multiset(Values(hand)) == multiset{x, x, x}
    ensures EvaluateHand(hand) == Some(ThreeOfAKind)
  {
    RanksAre(hand, [x, x, x]);
    assert Occurrences([x, x, x], x) == 3;
  }

  /** Two cards of one rank and a third of another: a pair, or a flush when
      the suits agree. */
  lemma OnePair(hand: seq<Card>, x: int, y: int)
    requires Ranked(hand) && |hand| == 3 && x != y
    requires multiset(Values(hand)) == multiset{x, x, y}
    ensures EvaluateHand(hand) == if AllSameSuit(hand) then Some(Flush) else Some(Pair)
  {
    var r := if x < y then [x, x, y] else [y, x, x];
    RanksAre(hand, r);
    ClassifyPair(r, x, y, AllSameSuit(hand));
  }

  lemma ClassifyPair(r: seq<int>, x: int, y: int, isFlush: bool)
    requires x != y && r == if x < y then [x, x, y] else [y, x, x]
    ensures Classify(r, isFlush) == if isFlush then Some(Flush) else Some(Pair)
  {
    var m := multiset(r);
    assert m[x] == 2 && m[y] == 1;
    assert SomeCountIs(r, 2) by {
      if x < y { assert Occurrences(r, r[0]) == 2; } else { assert Occurrences(r, r[1]) == 2; }
    }
  }

  /** Three consecutive ranks: a straight, and a straight flush when the suits agree. */
  lemma Run(hand: seq<Card>, x: int)
    requires Ranked(hand) && |hand| == 3
    requires multiset(Values(hand)) == multiset{x, x + 1, x + 2}
    ensures EvaluateHand(hand) == if AllSameSuit(hand) then Some(StraightFlush) else Some(Straight)
  {
    var r := [x, x + 1, x + 2];
    RanksAre(hand, r);
    ClassifyDistinct(r, AllSameSuit(hand));
  }

  /** 2, 3 and an ace, the ace counting low: a straight, and a straight flush
      when the suits agree. */
  lemma AceLowRun(hand: seq<Card>)
    requires Ranked(hand) && |hand| == 3
    requires multiset(Values(hand)) == multiset{2, 3, 14}
    ensures EvaluateHand(hand) == if AllSameSuit(hand) then Some(StraightFlush) else Some(Straight)
  {
    var r := [2, 3, 14];
    RanksAre(hand, r);
    ClassifyDistinct(r, AllSameSuit(hand));
  }

  /** Three different ranks that do not run: a flush when the suits agree,
      otherwise nothing. */
  lemma NoMatch(hand: seq<Card>, a: int, b: int, c: int)
    requires Ranked(hand) && |hand| == 3
    requires a < b < c && multiset(Values(hand)) == multiset{a, b, c}
    requires !(b == a + 1 && c == b + 1) && !(a == 2 && b == 3 && c == 14)
    ensures EvaluateHand(hand) == if AllSameSuit(hand) then Some(Flush) else None
  {
    var r := [a, b, c];
    RanksAre(hand, r);
    ClassifyDistinct(r, AllSameSuit(hand));
  }

  /** With three different ranks only the straight and the flush checks can succeed. */
  lemma ClassifyDistinct(r: seq<int>, isFlush: bool)
    requires |r| == 3 && r[0] < r[1] < r[2]
    ensures Classify(r, isFlush) ==
      if IsStraight(r) then (if isFlush then Some(StraightFlush) else Some(Straight))
      else if isFlush then Some(Flush) else None
  {
    assert r == [r[0], r[1], r[2]];
    var m := multiset(r);
    assert m[r[0]] == 1 && m[r[1]] == 1 && m[r[2]] == 1;
  }

  /** Reordering the cards of a hand does not change its classification. */
  lemma {:induction false} EvaluateHandReorder(hand: seq<Card>, other: seq<Card>)
    requires Ranked(hand) && Ranked(other)
    requires multiset(hand) == multiset(other)
    ensures EvaluateHand(hand) == EvaluateHand(other)
  {
    assert |hand| == |multiset(hand)| == |multiset(other)| == |other|;
    if |hand| == 3 {
      ValuesPermute(hand, other);
      AscendingUnique(Ranks(hand), Ranks(other));
      SuitsPermute(hand, other);
    }
  }

  /** The rank values of two hands holding the same cards hold the same values. */
  lemma {:induction false} ValuesPermute(hand: seq<Card>, other: seq<Card>)
    requires Ranked(hand) && Ranked(other)
    requires multiset(hand) == multiset(other)
    ensures multiset(Values(hand)) == multiset(Values(other))
    decreases |hand|
  {
    if hand != [] {
      var n := |hand| - 1;
      var c := hand[n];
      assert c in multiset(other);
      var j :| 0 <= j < |other| && other[j] == c;
      var rest := other[..j] + other[j + 1..];
      RemoveAt(hand, n);
      RemoveAt(other, j);
      assert hand[..n] + hand[n + 1..] == hand[..n];
      Cancel(c, multiset(hand[..n]), multiset(rest));
      ValuesSplice(hand, n);
      ValuesSplice(other, j);
      ValuesPermute(hand[..n], rest);
    }
  }

  /** Taking card `j` out of a hand takes its value out of the value list. */
  lemma ValuesSplice(hand: seq<Card>, j: nat)
    requires Ranked(hand) && j < |hand|
    ensures Ranked(hand[..j] + hand[j + 1..])
    ensures multiset(Values(hand)) == multiset(Values(hand[..j] + hand[j + 1..])) + multiset{RankValue(hand[j].rank).value}
  {
    var rest := hand[..j] + hand[j + 1..];
    forall i | 0 <= i < |rest| ensures rest[i] == if i < j then hand[i] else hand[i + 1] {
    }
    var vs := Values(hand);
    assert Values(rest) == vs[..j] + vs[j + 1..];
    RemoveAt(vs, j);
  }

  /** Two hands holding the same cards are both flushes or both not. */
  lemma SuitsPermute(hand: seq<Card>, other: seq<Card>)
    requires multiset(hand) == multiset(other) && |hand| > 0
    ensures AllSameSuit(hand) <==> AllSameSuit(other)
  {
    assert |other| > 0 by { assert |multiset(other)| == |multiset(hand)| == |hand|; }
    if AllSameSuit(hand) { SuitsFollow(hand, other); }
    if AllSameSuit(other) { SuitsFollow(other, hand); }
  }

  lemma SuitsFollow(hand: seq<Card>, other: seq<Card>)
    requires multiset(hand) == multiset(other) && |hand| > 0
    requires AllSameSuit(hand)
    ensures AllSameSuit(other)
  {
    forall i | 0 <= i < |other| ensures other[i].suit == hand[0].suit {
      assert other[i] in multiset(hand);
      var j :| 0 <= j < |hand| && hand[j] == other[i];
    }
  }
}
