/**
 The cards and the deck: the 52 rank-by-suit pairs of a standard deck, built
 in the order of create_deck's comprehension and then permuted by the shuffle.
 The shuffle is not modelled as randomness: it is a parameter, an arbitrary
 permutation of the positions 0..51.
 */
module Cards {

  datatype Suit = Spade | Heart | Diamond | Club

  /** The value of a digit rank: "2" .. "10". */
  type PipValue = n: int | 2 <= n <= 10 witness 2

  /** A rank: the Ace, a digit rank carrying its number, or a face rank. */
  datatype Rank = Ace | Pip(n: PipValue) | Jack | Queen | King

  datatype Card = Card(rank: Rank, suit: Suit)

  const SUITS: seq<Suit> := [Spade, Heart, Diamond, Club]

  const RANKS: seq<Rank> :=
    [Ace, Pip(2), Pip(3), Pip(4), Pip(5), Pip(6), Pip(7), Pip(8), Pip(9), Pip(10), Jack, Queen, King]

  /** Where a suit stands in SUITS. */
  function SuitIndex(s: Suit): (i: nat)
    ensures i < |SUITS| && SUITS[i] == s
  {
    match s
    case Spade => 0
    case Heart => 1
    case Diamond => 2
    case Club => 3
  }

  /** Where a rank stands in RANKS. */
  function RankIndex(r: Rank): (i: nat)
    ensures i < |RANKS| && RANKS[i] == r
  {
    match r
    case Ace => 0
    case Pip(n) => n - 1
    case Jack => 10
    case Queen => 11
    case King => 12
  }

  /** The deck before shuffling: for each suit in turn, every rank in turn. */
  function OrderedDeck(): (deck: seq<Card>)
  {
    seq(52, i requires 0 <= i < 52 => Card(RANKS[i % 13], SUITS[i / 13]))
  }

  /** The position of a card in the unshuffled deck. */
  function Position(c: Card): (i: nat)
    ensures i < 52 && OrderedDeck()[i] == c
  {
    var s, r := SuitIndex(c.suit), RankIndex(c.rank);
    assert (13 * s + r) % 13 == r && (13 * s + r) / 13 == s;
    13 * s + r
  }

  ghost predicate Distinct(cards: seq<Card>)
  {
    forall i, j :: 0 <= i < j < |cards| ==> cards[i] != cards[j]
  }

  /** A permutation of the positions 0..51: what the shuffle does to the deck. */
  ghost predicate IsShuffle(sigma: seq<nat>)
  {
    && |sigma| == 52
    && (forall i :: 0 <= i < 52 ==> sigma[i] < 52)
    && (forall i, j :: 0 <= i < j < 52 ==> sigma[i] != sigma[j])
    && (forall k :: 0 <= k < 52 ==> k in sigma)
  }

  /** Each position of the unshuffled deck holds the card whose position it is. */
  lemma PositionOfOrdered(i: nat)
    requires i < 52
    ensures Position(OrderedDeck()[i]) == i
  {
  }

  /** The unshuffled deck holds 52 different cards, and every card is one of them. */
  lemma OrderedDeckIsComplete()
    ensures |OrderedDeck()| == 52
    ensures Distinct(OrderedDeck())
    ensures forall c: Card :: c in OrderedDeck()
  {
    var d := OrderedDeck();
    forall i, j | 0 <= i < j < 52
      ensures d[i] != d[j]
    {
      PositionOfOrdered(i);
      PositionOfOrdered(j);
    }
    forall c: Card
      ensures c in d
    {
      assert d[Position(c)] == c;
    }
  }

  /** In a sequence without repetitions every element occurs once. */
  lemma {:induction false} DistinctCount(cards: seq<Card>, c: Card)
    requires Distinct(cards)
    ensures multiset(cards)[c] == if c in cards then 1 else 0
  {
    if cards != [] {
      var n := |cards| - 1;
      var front := cards[..n];
      assert cards == front + [cards[n]];
      assert Distinct(front);
      DistinctCount(front, c);
      assert forall k :: 0 <= k < n ==> front[k] != cards[n];
    }
  }

  /** create_deck: the comprehension over SUITS and RANKS, then shuffled by sigma. */
  function CreateDeck(sigma: seq<nat>): (deck: seq<Card>)
    requires IsShuffle(sigma)
    ensures |deck| == 52
    ensures forall c: Card :: multiset(deck)[c] == 1
    ensures multiset(deck) == multiset(OrderedDeck())
  {
    var deck := seq(52, i requires 0 <= i < 52 => OrderedDeck()[sigma[i]]);
    CreateDeckIsPermutation(sigma, deck);
    deck
  }

  lemma CreateDeckIsPermutation(sigma: seq<nat>, deck: seq<Card>)
    requires IsShuffle(sigma)
    requires |deck| == 52 && forall i :: 0 <= i < 52 ==> deck[i] == OrderedDeck()[sigma[i]]
    ensures forall c: Card :: multiset(deck)[c] == 1
    ensures multiset(deck) == multiset(OrderedDeck())
  {
    var ordered := OrderedDeck();
    OrderedDeckIsComplete();
    forall i, j | 0 <= i < j < 52
      ensures deck[i] != deck[j]
    {
      PositionOfOrdered(sigma[i]);
      PositionOfOrdered(sigma[j]);
    }
    forall c: Card
      ensures multiset(deck)[c] == 1 && multiset(ordered)[c] == 1
    {
      var p := Position(c);
      assert p in sigma;
      var i :| 0 <= i < 52 && sigma[i] == p;
      assert deck[i] == c;
      DistinctCount(deck, c);
      DistinctCount(ordered, c);
    }
    assert multiset(deck) == multiset(ordered);
  }
}
