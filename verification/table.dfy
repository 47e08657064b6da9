/**
 The table: the deck and the two hands are lists that the round changes in
 place. Cards leave the deck only from its end (a pop) and join a hand only
 at its end (an append), so everything a turn does is described by how many
 cards it moved.
 */
module Table {
  import opened Cards
  import opened Scoring

  /** The deck: a list of cards whose last element is dealt next. */
  class Deck {
    var cards: seq<Card>

    constructor (cards: seq<Card>)
      ensures this.cards == cards
    {
      this.cards := cards;
    }

    /** Removes and returns the last card; an empty list raises IndexError. */
    method Pop() returns (c: Card)
      requires cards != []
      modifies this
      ensures old(cards) == cards + [c]
    {
      c := cards[|cards| - 1];
      cards := cards[..|cards| - 1];
    }
  }

  /** A hand: a list of cards that only ever grows at its end. */
  class Hand {
    var cards: seq<Card>

    constructor (cards: seq<Card>)
      ensures this.cards == cards
    {
      this.cards := cards;
    }

    method Append(c: Card)
      modifies this
      ensures cards == old(cards) + [c]
    {
      cards := cards + [c];
    }
  }

  /** The first n cards popped from a deck, in the order they come off it. */
  function Drawn(deck: seq<Card>, n: nat): (drawn: seq<Card>)
    requires n <= |deck|
  {
    seq(n, i requires 0 <= i < n => deck[|deck| - 1 - i])
  }

  /** n cards went from the end of the deck to the end of the hand, one at a time. */
  ghost predicate Moved(deck0: seq<Card>, hand0: seq<Card>, deck1: seq<Card>, hand1: seq<Card>, n: nat)
  {
    && n <= |deck0|
    && deck1 == deck0[..|deck0| - n]
    && hand1 == hand0 + Drawn(deck0, n)
  }

  lemma DrawnNext(deck: seq<Card>, n: nat)
    requires n < |deck|
    ensures Drawn(deck, n + 1) == Drawn(deck, n) + [deck[|deck| - 1 - n]]
  {
  }

  /** Popping loses no card and creates none: what is left and what was drawn make up the deck. */
  lemma {:induction false} DrawnConserves(deck: seq<Card>, n: nat)
    requires n <= |deck|
    ensures multiset(deck[..|deck| - n]) + multiset(Drawn(deck, n)) == multiset(deck)
  {
    if n == 0 {
      assert deck[..|deck|] == deck;
    } else {
      var m := |deck| - n;
      DrawnConserves(deck, n - 1);
      DrawnNext(deck, n - 1);
      assert deck[..m + 1] == deck[..m] + [deck[m]];
    }
  }

  /** One more pop and append extends a move by one card. */
  lemma MovedNext(deck0: seq<Card>, hand0: seq<Card>, deck1: seq<Card>, hand1: seq<Card>, n: nat, c: Card)
    requires Moved(deck0, hand0, deck1 + [c], hand1, n)
    ensures Moved(deck0, hand0, deck1, hand1 + [c], n + 1)
  {
  }

  /** A turn that moves cards from the deck to a hand neither loses nor creates a card. */
  lemma MovedConserves(deck0: seq<Card>, hand0: seq<Card>, deck1: seq<Card>, hand1: seq<Card>, n: nat)
    requires Moved(deck0, hand0, deck1, hand1, n)
    ensures multiset(deck1) + multiset(hand1) == multiset(deck0) + multiset(hand0)
  {
    DrawnConserves(deck0, n);
  }

  /**
   Every hand on the way from hand to hand + drawn, that one excluded, was worth
   less than limit: the condition under which each card of drawn was taken.
   */
  ghost predicate BelowAlong(hand: seq<Card>, drawn: seq<Card>, limit: int)
  {
    drawn == [] ||
    (BelowAlong(hand, drawn[..|drawn| - 1], limit) && HandValue(hand + drawn[..|drawn| - 1]) < limit)
  }

  /** The same condition, read card by card. */
  lemma {:induction false} BelowAlongAt(hand: seq<Card>, drawn: seq<Card>, limit: int, j: nat)
    requires BelowAlong(hand, drawn, limit) && j < |drawn|
    ensures HandValue(hand + drawn[..j]) < limit
  {
    var n := |drawn| - 1;
    if j < n {
      BelowAlongAt(hand, drawn[..n], limit, j);
      assert drawn[..n][..j] == drawn[..j];
    }
  }

  lemma BelowAlongNext(hand: seq<Card>, deck: seq<Card>, n: nat, limit: int)
    requires n < |deck|
    requires BelowAlong(hand, Drawn(deck, n), limit) && HandValue(hand + Drawn(deck, n)) < limit
    ensures BelowAlong(hand, Drawn(deck, n + 1), limit)
  {
    DrawnNext(deck, n);
    assert Drawn(deck, n + 1)[..n] == Drawn(deck, n);
  }

  /**
   One draw of a turn: a card popped from the deck and appended to a hand that
   was worth less than limit extends the move and the condition by that card,
   and raises the raw sum by its points and the value by at most its points.
   */
  lemma DrawStep(deck0: seq<Card>, hand0: seq<Card>, deck1: seq<Card>, hand1: seq<Card>, n: nat, c: Card, limit: int)
    requires Moved(deck0, hand0, deck1 + [c], hand1, n)
    requires BelowAlong(hand0, Drawn(deck0, n), limit) && HandValue(hand1) < limit
    ensures Moved(deck0, hand0, deck1, hand1 + [c], n + 1)
    ensures BelowAlong(hand0, Drawn(deck0, n + 1), limit)
    ensures RawSum(hand1 + [c]) == RawSum(hand1) + Points(c)
    ensures HandValue(hand1 + [c]) <= HandValue(hand1) + Points(c)
  {
    BelowAlongNext(hand0, deck0, n, limit);
    MovedNext(deck0, hand0, deck1, hand1, n, c);
    RawSumAppend(hand1, c);
    ValueStep(hand1, c);
  }

  // ----- Keys -----

  /** Lower-casing of a key, as the program does before comparing it. */
  function ToLower(k: char): (l: char)
    ensures 'A' <= k <= 'Z' ==> l as int == k as int + 32
    ensures !('A' <= k <= 'Z') ==> l == k
  {
    if 'A' <= k <= 'Z' then (k as int - 'A' as int + 'a' as int) as char else k
  }

  predicate IsHit(k: char)
  {
    ToLower(k) == 'h'
  }

  predicate IsStand(k: char)
  {
    ToLower(k) == 's'
  }

  /** The first n keys pressed were all hits. */
  ghost predicate HitsFirst(keys: nat -> char, n: nat)
  {
    n == 0 || (HitsFirst(keys, n - 1) && IsHit(keys(n - 1)))
  }

  /** The same condition, read key by key. */
  lemma {:induction false} HitsFirstAt(keys: nat -> char, n: nat, j: nat)
    requires HitsFirst(keys, n) && j < n
    ensures IsHit(keys(j))
  {
    if j < n - 1 {
      HitsFirstAt(keys, n - 1, j);
    }
  }

  /** What handle_player_choice returns: 'stand', 'continue', or None (end the session). */
  datatype Choice = Stand | Continue | Quit

  // ----- The three turns -----

  /** deal_initial_cards: two pops for the player, then two for the dealer. */
  method DealInitialCards(deck: Deck) returns (player: Hand, dealer: Hand)
    requires |deck.cards| >= 4
    modifies deck
    ensures fresh(player) && fresh(dealer) && player != dealer
    ensures deck.cards == old(deck.cards)[..|old(deck.cards)| - 4]
    ensures player.cards == Drawn(old(deck.cards), 2)
    ensures dealer.cards == Drawn(old(deck.cards), 4)[2..]
  {
    ghost var d := deck.cards;
    var p1 := deck.Pop();
    var p2 := deck.Pop();
    player := new Hand([p1, p2]);
    var d1 := deck.Pop();
    var d2 := deck.Pop();
    dealer := new Hand([d1, d2]);
    var n := |d|;
    assert d == deck.cards + [d2, d1, p2, p1];
  }

  /**
   handle_player_choice: read a key; while it is a hit, move one card from the
   deck to the hand, and stop at once if the hand is bust (the play-again answer
   then decides between 'continue' and None), otherwise read the next key. A
   final 's' stands; any other key gives 'continue' without a new prompt.

   The precondition keeps every pop on a non-empty deck: each card adds at
   least 2 to the raw sum, and a hand whose raw sum exceeds 31 is bust.
   */
  method HandlePlayerChoice(deck: Deck, hand: Hand, keys: nat -> char, againAfterBust: bool)
    returns (choice: Choice, used: nat, ghost hits: nat)
    requires HandValue(hand.cards) <= 21
    requires RawSum(hand.cards) + 2 * |deck.cards| > 31
    modifies deck, hand
    ensures Moved(old(deck.cards), old(hand.cards), deck.cards, hand.cards, hits)
    ensures hits <= 16
    ensures HitsFirst(keys, hits)
    ensures BelowAlong(old(hand.cards), Drawn(old(deck.cards), hits), 22)
    ensures HandValue(hand.cards) > 21 ==>
      0 < hits && used == hits && choice == (if againAfterBust then Continue else Quit)
    ensures HandValue(hand.cards) <= 21 ==>
      used == hits + 1 && !IsHit(keys(used - 1)) && choice == (if IsStand(keys(used - 1)) then Stand else Continue)
  {
    ghost var deck0, hand0 := deck.cards, hand.cards;
    var key := keys(0);
    used, hits := 1, 0;
    while IsHit(key)
      invariant Moved(deck0, hand0, deck.cards, hand.cards, hits)
      invariant used == hits + 1 && key == keys(hits)
      invariant HitsFirst(keys, hits)
      invariant BelowAlong(hand0, Drawn(deck0, hits), 22) && HandValue(hand.cards) <= 21
      invariant RawSum(hand.cards) >= RawSum(hand0) + 2 * hits
      invariant hits <= 15
      decreases |deck.cards|
    {
      ghost var before := hand.cards;
      var c := deck.Pop();
      hand.Append(c);
      DrawStep(deck0, hand0, deck.cards, before, hits, c, 22);
      hits := hits + 1;
      var value := CalculateHandValue(hand.cards);
      if value > 21 {
        if againAfterBust {
          return Continue, used, hits;
        } else {
          return Quit, used, hits;
        }
      }
      key := keys(used);
      used := used + 1;
    }
    if IsStand(key) {
      choice := Stand;
    } else {
      choice := Continue;
    }
  }

  /**
   handle_dealer_play: while the dealer's hand is worth less than 17, move one
   card from the deck to it; return the value of the final hand.

   The precondition keeps every pop on a non-empty deck: each card adds at
   least 2 to the raw sum, and a hand whose raw sum reaches 27 is worth 17 or more.
   */
  method HandleDealerPlay(deck: Deck, hand: Hand) returns (value: int, ghost draws: nat)
    requires RawSum(hand.cards) + 2 * |deck.cards| >= 27
    modifies deck, hand
    ensures Moved(old(deck.cards), old(hand.cards), deck.cards, hand.cards, draws)
    ensures BelowAlong(old(hand.cards), Drawn(old(deck.cards), draws), 17)
    ensures value == HandValue(hand.cards) && 17 <= value
    ensures draws > 0 ==> value <= 27
  {
    ghost var deck0, hand0 := deck.cards, hand.cards;
    draws := 0;
    var current := CalculateHandValue(hand.cards);
    while current < 17
      invariant Moved(deck0, hand0, deck.cards, hand.cards, draws)
      invariant current == HandValue(hand.cards)
      invariant BelowAlong(hand0, Drawn(deck0, draws), 17)
      invariant RawSum(hand.cards) >= RawSum(hand0) + 2 * draws
      invariant draws > 0 ==> current <= 27
      decreases |deck.cards|
    {
      ghost var before := hand.cards;
      var c := deck.Pop();
      hand.Append(c);
      DrawStep(deck0, hand0, deck.cards, before, draws, c, 17);
      draws := draws + 1;
      current := CalculateHandValue(hand.cards);
    }
    value := CalculateHandValue(hand.cards);
  }
}
