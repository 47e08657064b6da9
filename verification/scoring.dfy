/**
 The value of a Blackjack hand. Digit ranks count as their number, J, Q and K
 count 10, an Ace counts 11; when the hand holds at least one Ace and that sum
 exceeds 21, 10 is taken off ONCE, however many Aces the hand holds.
 */
module Scoring {
  import opened Cards

  /** What one card adds to the raw sum (the Ace counted as 11). */
  function Points(c: Card): (p: nat)
    ensures 2 <= p <= 11
    ensures p == 11 <==> c.rank == Ace
  {
    match c.rank
    case Ace => 11
    case Pip(n) => n
    case Jack => 10
    case Queen => 10
    case King => 10
  }

  /** The sum of the points of a hand, every Ace counted as 11. */
  function RawSum(hand: seq<Card>): (sum: nat)
  {
    if hand == [] then 0 else RawSum(hand[..|hand| - 1]) + Points(hand[|hand| - 1])
  }

  lemma RawSumAppend(hand: seq<Card>, c: Card)
    ensures RawSum(hand + [c]) == RawSum(hand) + Points(c)
  {
  }

  /** Whether some card of the hand is an Ace. */
  predicate HasAce(hand: seq<Card>)
  {
    hand != [] && (HasAce(hand[..|hand| - 1]) || hand[|hand| - 1].rank == Ace)
  }

  lemma HasAceAppend(hand: seq<Card>, c: Card)
    ensures HasAce(hand + [c]) <==> HasAce(hand) || c.rank == Ace
  {
  }

  /** The reference definition of a hand's value: the raw sum, less 10 once if an Ace makes it exceed 21. */
  function HandValue(hand: seq<Card>): (value: int)
  {
    if HasAce(hand) && RawSum(hand) > 21 then RawSum(hand) - 10 else RawSum(hand)
  }

  /** calculate_hand_value: one pass over the hand with a running value and an Ace flag. */
  method CalculateHandValue(hand: seq<Card>) returns (value: int)
    ensures value == HandValue(hand)
  {
    value := 0;
    var hasAce := false;
    for i := 0 to |hand|
      invariant value == RawSum(hand[..i])
      invariant hasAce <==> HasAce(hand[..i])
    {
      assert hand[..i + 1][..i] == hand[..i];
      match hand[i].rank
      case Pip(n) =>
        value := value + n;
      case Jack =>
        value := value + 10;
      case Queen =>
        value := value + 10;
      case King =>
        value := value + 10;
      case Ace =>
        value := value + 11;
        hasAce := true;
    }
    assert hand[..|hand|] == hand;
    if hasAce && value > 21 {
      value := value - 10;
    }
  }

  // ----- An independent account of the value: digit and face points, and Aces counted apart -----

  /** The points of the cards that are not Aces. */
  function NonAceSum(hand: seq<Card>): (sum: nat)
  {
    if hand == [] then 0
    else NonAceSum(hand[1..]) + (if hand[0].rank == Ace then 0 else Points(hand[0]))
  }

  /** The number of Aces in a hand. */
  function AceCount(hand: seq<Card>): (count: nat)
  {
    if hand == [] then 0 else AceCount(hand[1..]) + (if hand[0].rank == Ace then 1 else 0)
  }

  lemma {:induction false} NonAceSumAppend(hand: seq<Card>, c: Card)
    ensures NonAceSum(hand + [c]) == NonAceSum(hand) + (if c.rank == Ace then 0 else Points(c))
    ensures AceCount(hand + [c]) == AceCount(hand) + (if c.rank == Ace then 1 else 0)
  {
    if hand != [] {
      assert (hand + [c])[1..] == hand[1..] + [c];
      NonAceSumAppend(hand[1..], c);
    }
  }

  /** The raw sum splits into the non-Ace points and 11 per Ace, and an Ace is present iff the count is positive. */
  lemma {:induction false} RawSumSplits(hand: seq<Card>)
    ensures RawSum(hand) == NonAceSum(hand) + 11 * AceCount(hand)
    ensures HasAce(hand) <==> AceCount(hand) > 0
  {
    if hand != [] {
      var n := |hand| - 1;
      var front, last := hand[..n], hand[n];
      assert hand == front + [last];
      RawSumSplits(front);
      NonAceSumAppend(front, last);
    }
  }

  /** With no Ace, the value is the plain sum of digit and face points. */
  lemma NoAceValue(hand: seq<Card>)
    requires AceCount(hand) == 0
    ensures HandValue(hand) == NonAceSum(hand)
  {
    RawSumSplits(hand);
  }

  /** With exactly one Ace, it counts 11 unless that would pass 21, and then 1. */
  lemma OneAceValue(hand: seq<Card>)
    requires AceCount(hand) == 1
    ensures NonAceSum(hand) + 11 <= 21 ==> HandValue(hand) == NonAceSum(hand) + 11
    ensures NonAceSum(hand) + 11 > 21 ==> HandValue(hand) == NonAceSum(hand) + 1
  {
    RawSumSplits(hand);
  }

  /**
   With any number k > 0 of Aces, only one of them can be counted down: the value
   is the sum with every Ace at 11, less 10 once when that sum exceeds 21.
   */
  lemma AcesValue(hand: seq<Card>)
    requires AceCount(hand) > 0
    ensures var raw := NonAceSum(hand) + 11 * AceCount(hand);
      HandValue(hand) == if raw > 21 then raw - 10 else raw
  {
    RawSumSplits(hand);
  }

  /** Three Aces are worth 23: the single adjustment leaves such a hand bust. */
  lemma ThreeAcesAreBust(a: Suit, b: Suit, c: Suit)
    ensures HandValue([Card(Ace, a), Card(Ace, b), Card(Ace, c)]) == 23
  {
    var one, two := [Card(Ace, a)], [Card(Ace, a), Card(Ace, b)];
    var hand := two + [Card(Ace, c)];
    RawSumAppend([], Card(Ace, a));
    assert [] + [Card(Ace, a)] == one && one + [Card(Ace, b)] == two;
    RawSumAppend(one, Card(Ace, b));
    RawSumAppend(two, Card(Ace, c));
    assert hand == [Card(Ace, a), Card(Ace, b), Card(Ace, c)];
    assert hand[0] in hand;
  }

  // ----- Bounds used by the draw loops -----

  /** Every card drawn raises the raw sum by 2 at least and 11 at most. */
  lemma {:induction false} RawSumGrows(hand: seq<Card>, drawn: seq<Card>)
    ensures RawSum(hand) + 2 * |drawn| <= RawSum(hand + drawn) <= RawSum(hand) + 11 * |drawn|
  {
    if drawn != [] {
      var n := |drawn| - 1;
      assert hand + drawn == (hand + drawn[..n]) + [drawn[n]];
      RawSumAppend(hand + drawn[..n], drawn[n]);
      RawSumGrows(hand, drawn[..n]);
    } else {
      assert hand + drawn == hand;
    }
  }

  /** A bust hand stays bust whatever card is added to it. */
  lemma BustIsFinal(hand: seq<Card>, c: Card)
    requires HandValue(hand) > 21
    ensures HandValue(hand + [c]) > 21
  {
  }

  /** Adding one card raises the value by at most that card's points. */
  lemma ValueStep(hand: seq<Card>, c: Card)
    ensures HandValue(hand + [c]) <= HandValue(hand) + Points(c)
  {
  }

  /** A two-card hand is never bust: two Aces make 12. */
  lemma TwoCardsNotBust(hand: seq<Card>)
    requires |hand| == 2
    ensures 4 <= RawSum(hand) && HandValue(hand) <= 21
  {
    RawSumGrows([], hand);
    assert [] + hand == hand;
    assert hand[..1][..0] == [];
    if RawSum(hand) == 22 {
      assert hand[0] in hand;
    }
  }

  /** A two-card hand is worth 21 exactly when it is an Ace and a card worth 10. */
  lemma TwoCardTwentyOne(hand: seq<Card>)
    requires |hand| == 2
    ensures HandValue(hand) == 21 <==>
      (hand[0].rank == Ace && Points(hand[1]) == 10) || (Points(hand[0]) == 10 && hand[1].rank == Ace)
  {
    assert hand == [] + [hand[0]] + [hand[1]];
    RawSumAppend([], hand[0]);
    RawSumAppend([hand[0]], hand[1]);
    assert hand[0] in hand && hand[1] in hand;
  }
}
