/**
 A round and the session: the control flow of main. A round creates a deck,
 deals, ends at once on an opening 21, otherwise lets the player hit or stand
 and, after a stand, lets the dealer draw and compares the two values. The
 session repeats rounds until the player answers "no" to a play-again prompt.
 */
module Game {
  import opened Cards
  import opened Scoring
  import opened Table

  /** The four results determine_winner can announce. */
  datatype Winner = DealerBust | DealerWins | PlayerWins | Tie

  /** How a round ended, as announced to the player. */
  datatype RoundOutcome =
    | Blackjack          // the opening two cards are worth 21
    | PlayerBust         // a hit took the player's hand past 21
    | InvalidKey         // a key other than h or s: no winner is decided
    | Resolved(winner: Winner)

  /** determine_winner: dealer bust first, then the larger value wins, else a tie. */
  function DetermineWinner(dealerValue: int, playerValue: int): (w: Winner)
    ensures w == DealerBust <==> dealerValue > 21
    ensures w == DealerWins <==> dealerValue <= 21 && dealerValue > playerValue
    ensures w == PlayerWins <==> dealerValue <= 21 && dealerValue < playerValue
    ensures w == Tie <==> dealerValue <= 21 && dealerValue == playerValue
  {
    if dealerValue > 21 then DealerBust
    else if dealerValue > playerValue then DealerWins
    else if dealerValue < playerValue then PlayerWins
    else Tie
  }

  /**
   One pass of main's loop after create_deck, up to (not including) its final
   play-again prompt. full is the created deck, keys the keys pressed at the
   hit/stand prompt, and againAfterBust the answer to the play-again prompt
   shown on a bust; quit is set when handle_player_choice returns None. The
   results are the final hands and the cards left in the deck; hits and draws
   count the cards the player's and the dealer's turns took from the 48 left
   after the deal.
   */
  method PlayRound(full: seq<Card>, keys: nat -> char, againAfterBust: bool)
    returns (outcome: RoundOutcome, quit: bool, used: nat, player: seq<Card>, dealer: seq<Card>, rest: seq<Card>,
             ghost hits: nat, ghost draws: nat)
    requires |full| == 52
    ensures |player| >= 2 && |dealer| >= 2 && hits + draws <= 48
    ensures player[..2] == Drawn(full, 2) && dealer[..2] == Drawn(full, 4)[2..]
    ensures multiset(player + dealer + rest) == multiset(full)
    // The player's turn: hits cards from the end of the deck, one per hit key,
    // each taken while the hand was not bust.
    ensures Moved(full[..48], player[..2], full[..48 - hits], player, hits)
    ensures HitsFirst(keys, hits)
    ensures BelowAlong(player[..2], Drawn(full[..48], hits), 22)
    // The dealer's turn: draws cards from what the player left, each taken while below 17.
    ensures Moved(full[..48 - hits], dealer[..2], rest, dealer, draws)
    ensures BelowAlong(dealer[..2], Drawn(full[..48 - hits], draws), 17)
    ensures outcome == Blackjack <==> HandValue(player[..2]) == 21
    ensures outcome == Blackjack ==> used == 0 && hits == 0 && draws == 0
    ensures outcome == PlayerBust <==> HandValue(player) > 21
    ensures outcome == PlayerBust ==> 0 < used == hits && draws == 0
    ensures outcome == InvalidKey ==>
      && used == hits + 1 && draws == 0
      && HandValue(player) <= 21 && !IsHit(keys(used - 1)) && !IsStand(keys(used - 1))
    ensures outcome.Resolved? ==>
      && used == hits + 1 && IsStand(keys(used - 1))
      && HandValue(player) <= 21 && 17 <= HandValue(dealer)
      && outcome.winner == DetermineWinner(HandValue(dealer), HandValue(player))
    ensures quit <==> outcome == PlayerBust && !againAfterBust
  {
    var deck := new Deck(full);
    var playerHand, dealerHand := DealInitialCards(deck);
    ghost var deck0, player0, dealer0 := deck.cards, playerHand.cards, dealerHand.cards;
    DealConserves(full);
    TwoCardsNotBust(player0);
    TwoCardsNotBust(dealer0);

    quit, used := false, 0;
    hits, draws := 0, 0;
    ghost var deck1 := deck0;
    MovedNone(deck0, player0);
    MovedNone(deck0, dealer0);
    var openingValue := CalculateHandValue(playerHand.cards);
    if openingValue == 21 {
      outcome := Blackjack;
    } else {
      var choice;
      choice, used, hits := HandlePlayerChoice(deck, playerHand, keys, againAfterBust);
      quit := choice == Quit;
      deck1 := deck.cards;
      MovedNone(deck1, dealer0);
      if choice == Stand {
        var dealerValue;
        dealerValue, draws := HandleDealerPlay(deck, dealerHand);
        var playerValue := CalculateHandValue(playerHand.cards);
        if playerValue <= 21 {
          outcome := Resolved(DetermineWinner(dealerValue, playerValue));
        } else {
          assert false;
        }
      } else {
        // The round shows either the bust message or the invalid-key notice.
        var playerValue := CalculateHandValue(playerHand.cards);
        outcome := if playerValue > 21 then PlayerBust else InvalidKey;
      }
    }
    player, dealer, rest := playerHand.cards, dealerHand.cards, deck.cards;
    TurnsConserve(deck0, player0, dealer0, deck1, player, rest, dealer, hits, draws);
    assert deck0 == full[..48] && deck1 == full[..48 - hits];
  }

  /** A turn that draws nothing leaves the deck and the hand as they were. */
  lemma MovedNone(deck: seq<Card>, hand: seq<Card>)
    ensures Moved(deck, hand, deck, hand, 0)
  {
  }

  /** Dealing four cards off the full deck keeps every card: the rest plus both opening hands. */
  lemma DealConserves(full: seq<Card>)
    requires |full| >= 4
    ensures multiset(full[..|full| - 4]) + multiset(Drawn(full, 2)) + multiset(Drawn(full, 4)[2..]) == multiset(full)
  {
    DrawnConserves(full, 4);
    assert Drawn(full, 4) == Drawn(full, 2) + Drawn(full, 4)[2..];
  }

  /**
   The player's turn moves hits cards to the player's hand and the dealer's
   turn then moves draws cards to the dealer's hand: the three lists still hold
   the same cards between them, and the hands they started from are still at
   the front of the final ones.
   */
  lemma TurnsConserve(deck0: seq<Card>, player0: seq<Card>, dealer0: seq<Card>,
                      deck1: seq<Card>, player: seq<Card>, rest: seq<Card>, dealer: seq<Card>, hits: nat, draws: nat)
    requires Moved(deck0, player0, deck1, player, hits)
    requires Moved(deck1, dealer0, rest, dealer, draws)
    ensures multiset(player + dealer + rest) == multiset(deck0) + multiset(player0) + multiset(dealer0)
    ensures player[..|player0|] == player0 && dealer[..|dealer0|] == dealer0
  {
    assert multiset(player) + multiset(dealer) + multiset(rest) == multiset(deck0) + multiset(player0) + multiset(dealer0) by {
      MovedConserves(deck0, player0, deck1, player, hits);
      MovedConserves(deck1, dealer0, rest, dealer, draws);
      calc {
        multiset(player) + multiset(dealer) + multiset(rest);
        multiset(player) + (multiset(deck1) + multiset(dealer0));
        (multiset(deck1) + multiset(player)) + multiset(dealer0);
      }
    }
    assert player + dealer + rest == player + (dealer + rest);
    assert player[..|player0|] == player0;
    assert dealer[..|dealer0|] == dealer0;
  }

  /** The position of the first "no" among the play-again answers. */
  function FirstNo(answers: seq<bool>): (i: nat)
    requires false in answers
    ensures i < |answers| && !answers[i]
    ensures forall j :: 0 <= j < i ==> answers[j]
  {
    if !answers[0] then 0 else FirstNo(answers[1..]) + 1
  }

  /** Up to the first "no", an answer is "yes" exactly when it comes before it. */
  lemma FirstNoSplits(answers: seq<bool>, k: nat)
    requires false in answers && k <= FirstNo(answers)
    ensures answers[k] <==> k < FirstNo(answers)
  {
  }

  /** The total of a list of counts. */
  function Sum(counts: seq<nat>): (total: nat)
  {
    if counts == [] then 0 else Sum(counts[..|counts| - 1]) + counts[|counts| - 1]
  }

  lemma SumAppend(counts: seq<nat>, n: nat)
    ensures Sum(counts + [n]) == Sum(counts) + n
  {
  }

  /**
   How many play-again prompts a round with this outcome can ask: one, or two
   when the player went bust (one inside handle_player_choice, one in main).
   */
  predicate Prompts(outcome: RoundOutcome, n: nat)
  {
    n == 1 || (n == 2 && outcome == PlayerBust)
  }

  /** Recording one more round keeps the prompt counts and the sum in step. */
  lemma PromptsAppend(outcomes: seq<RoundOutcome>, perRound: seq<nat>, outcome: RoundOutcome, prompts: nat)
    requires |outcomes| == |perRound| && Prompts(outcome, prompts)
    requires forall i :: 0 <= i < |outcomes| ==> Prompts(outcomes[i], perRound[i])
    ensures Sum(perRound + [prompts]) == Sum(perRound) + prompts
    ensures forall i :: 0 <= i < |outcomes| + 1 ==> Prompts((outcomes + [outcome])[i], (perRound + [prompts])[i])
  {
  }

  /**
   main: play rounds until a play-again prompt is answered "no". The i-th round
   uses the shuffle shuffles(i); the hit/stand keys of all rounds come one after
   another from keys; answers are the replies to the play-again prompts in the
   order they are asked. perRound[i] is the number of prompts the i-th round
   asked: after a bust the prompt is asked inside handle_player_choice and, on
   "yes", once more by main. Requiring a "no" among the answers restricts the
   model to sessions that end.
   */
  method RunSession(shuffles: nat -> seq<nat>, keys: nat -> char, answers: seq<bool>)
    returns (outcomes: seq<RoundOutcome>, asked: nat, perRound: seq<nat>)
    requires forall i :: IsShuffle(shuffles(i))
    requires false in answers
    ensures asked == FirstNo(answers) + 1
    ensures 0 < |outcomes| == |perRound| && asked == Sum(perRound)
    ensures forall i :: 0 <= i < |outcomes| ==> Prompts(outcomes[i], perRound[i])
    ensures forall i :: 0 <= i < |outcomes| - 1 ==> (outcomes[i] == PlayerBust ==> perRound[i] == 2)
  {
    outcomes, asked, perRound := [], 0, [];
    var position := 0;
    while true
      invariant asked <= FirstNo(answers)
      invariant |outcomes| == |perRound| && asked == Sum(perRound)
      invariant forall i :: 0 <= i < |outcomes| ==> Prompts(outcomes[i], perRound[i])
      invariant forall i :: 0 <= i < |outcomes| ==> (outcomes[i] == PlayerBust ==> perRound[i] == 2)
      decreases FirstNo(answers) - asked
    {
      var full := CreateDeck(shuffles(|outcomes|));
      var start := position;
      var outcome, quit, used, _, _, _, _, _ := PlayRound(full, (k: nat) => keys(start + k), answers[asked]);
      position := position + used;
      FirstNoSplits(answers, asked);
      var prompts := 1;
      if outcome == PlayerBust {
        PromptsAppend(outcomes, perRound, outcome, 1);
        asked := asked + 1;
        if quit {
          outcomes, perRound := outcomes + [outcome], perRound + [1];
          return;
        }
        FirstNoSplits(answers, asked);
        prompts := 2;
      }
      var again := answers[asked];
      asked := asked + 1;
      PromptsAppend(outcomes, perRound, outcome, prompts);
      outcomes, perRound := outcomes + [outcome], perRound + [prompts];
      if !again {
        return;
      }
    }
  }
}
