# Blackjack engine, modelled in Dafny

This project models the game engine of a terminal Blackjack program
(`blackjack.py`) and proves what its code promises. The engine has four parts:

- it builds a shuffled 52-card deck;
- it scores a hand, counting an Ace as 11 and taking 10 off at most once;
- it deals two cards each from the end of the deck;
- it runs the player's hit/stand loop, driven by keys, and the dealer's
  "hit below 17" loop, then classifies the result.

The rounds of `main` are modelled too. The curses screen is not.

The modules follow the program's structure:

- `Cards` (`cards.dfy`): suits, ranks, cards, and `create_deck` as a pure
  function of a shuffle. The shuffle is an arbitrary permutation `sigma` of
  the positions 0..51.
- `Scoring` (`scoring.dfy`):
  - `calculate_hand_value` as a method with the same `for` loop and Ace flag;
  - the reference function `HandValue` it is proved against;
  - an independent account of the value, through non-Ace points and an Ace
    count, used to prove the "at most one adjustment" rule.
- `Table` (`table.dfy`):
  - the deck and the hands as classes whose `cards` list is changed in place
    by `Pop` and `Append`;
  - `deal_initial_cards`, `handle_player_choice` and `handle_dealer_play` as
    methods with loop invariants.

  Every turn is described by `Moved`: n cards went from the end of the deck
  to the end of a hand, one at a time. `BelowAlong` states the condition
  under which each of those cards was taken.
- `Game` (`game.dfy`):
  - `determine_winner`;
  - one pass of `main`'s loop (`PlayRound`);
  - the whole session (`RunSession`).

Inputs that come from the terminal are parameters:

- the keys pressed at the hit/stand prompt are a stream `keys: nat -> char`,
  lower-cased as the program does;
- the replies to the play-again prompt are booleans;
- the shuffle is a permutation.

On an invalid key at the hit/stand prompt, the model follows the code. The
player is not asked again. `handle_player_choice` returns `'continue'` and
`main` goes straight to the play-again prompt, with no winner decided
(`RoundOutcome.InvalidKey`).

## Model

| member | source | states |
|---|---|---|
| Cards.CreateDeck | blackjack.py:11-15 | the deck has 52 cards, every (rank, suit) card occurs in it exactly once, and it is a permutation of the unshuffled comprehension over SUITS and RANKS |
| Cards.CreateDeckIsPermutation | blackjack.py:13-14 | placing the unshuffled deck's cards by a permutation of positions puts each card in exactly once, so the result has the same multiset as the unshuffled deck |
| Cards.OrderedDeckIsComplete | blackjack.py:6-13 | the comprehension yields 52 pairwise different cards, and every card is among them |
| Cards.Position | blackjack.py:13 | every card has a position below 52 in the unshuffled deck, and that position holds that card |
| Cards.PositionOfOrdered | blackjack.py:13 | the card at position i of the unshuffled deck has position i: positions and cards correspond one to one |
| Cards.DistinctCount | blackjack.py:13 | in a list without repetitions each card occurs once if it is present and zero times otherwise |
| Cards.SuitIndex | blackjack.py:6 | every suit occurs in SUITS, at the returned index |
| Cards.RankIndex | blackjack.py:7 | every rank occurs in RANKS, at the returned index |
| Scoring.Points | blackjack.py:23-29 | a card adds between 2 and 11 to the running value, and 11 exactly when it is an Ace |
| Scoring.CalculateHandValue | blackjack.py:17-34 | the loop's result equals the reference value: the raw sum with Aces at 11, less 10 when the hand has an Ace and that sum exceeds 21 |
| Scoring.RawSumSplits | blackjack.py:22-29 | the raw sum is the non-Ace points plus 11 per Ace, and the Ace flag is set exactly when the hand has at least one Ace |
| Scoring.NoAceValue | blackjack.py:19-34 | a hand without an Ace is worth the plain sum of its digit ranks (10 included) and 10 for each J, Q and K |
| Scoring.OneAceValue | blackjack.py:27-33 | with exactly one Ace, the Ace counts 11 if that keeps the hand at 21 or below, and 1 otherwise |
| Scoring.AcesValue | blackjack.py:27-33 | with any positive number of Aces, the value is the raw sum less 10 exactly when the raw sum exceeds 21: only one adjustment, whatever the number of Aces |
| Scoring.ThreeAcesAreBust | blackjack.py:27-33 | three Aces are worth 23: the single adjustment leaves such a hand bust |
| Scoring.RawSumGrows | blackjack.py:22-29 | each added card raises the raw sum by at least 2 and at most 11 |
| Scoring.BustIsFinal | blackjack.py:17-34 | a hand worth more than 21 stays above 21 whatever card is added |
| Scoring.ValueStep | blackjack.py:17-34 | adding a card raises the value by at most that card's points |
| Scoring.TwoCardsNotBust | blackjack.py:17-34 | an opening two-card hand is never bust: its value is at most 21 (two Aces make 12) |
| Scoring.TwoCardTwentyOne | blackjack.py:170 | an opening hand is worth 21 exactly when it is an Ace and a ten-valued card, in either order |
| Table.Deck.Pop | blackjack.py:95-96 | `pop()` on a non-empty deck returns its last card, and the deck becomes every card before it |
| Table.Hand.Append | blackjack.py:106 | `append` puts the card at the end of the hand and leaves the rest as it was |
| Table.DrawnConserves | blackjack.py:93-97 | popping n cards loses and creates nothing: the remaining deck and the popped cards together are the original deck as a multiset |
| Table.MovedConserves | blackjack.py:105-106 | a turn that moves cards from the deck to a hand keeps the combined multiset of deck and hand |
| Table.BelowAlongAt | blackjack.py:105-110 | each card taken during a turn was taken while the hand was below the turn's limit |
| Table.DrawStep | blackjack.py:140-142 | one pop-and-append extends the move by that card and the limit condition by the hand it was drawn on |
| Table.ToLower | blackjack.py:103 | ASCII upper-case letters become lower-case and every other key is unchanged |
| Table.HitsFirstAt | blackjack.py:103-120 | when a turn drew n cards, each of the first n keys was a hit |
| Table.DealInitialCards | blackjack.py:93-97 | the deck loses exactly its last 4 cards; the player gets the last and then the second-to-last card; the dealer gets the next two in pop order |
| Table.HandlePlayerChoice | blackjack.py:99-128 | each hit key moves exactly one card from the end of the deck to the end of the hand. The loop stops at the first key that is not a hit or at the first bust, and every hand before the last was worth 21 or less. On a bust the answer to the play-again prompt picks 'continue' or None. Otherwise the result is 'stand' exactly when the last key is 's', and 'continue' for any other key |
| Table.HandleDealerPlay | blackjack.py:130-147 | the dealer draws from the end of the deck only while the hand is worth less than 17; the returned value is the final hand's value and is at least 17, and at most 27 when the dealer drew |
| Game.DetermineWinner | blackjack.py:149-160 | exactly one of four results, checked in the program's order: dealer bust iff d > 21, dealer wins iff d <= 21 and d > p, player wins iff d <= 21 and d < p, tie iff d <= 21 and d == p |
| Game.DealConserves | blackjack.py:164-165 | after the deal the remaining deck and both opening hands together are exactly the cards of the created deck |
| Game.TurnsConserve | blackjack.py:178-182 | the player's and the dealer's turns together keep the cards of deck and hands, and keep the opening hands at the front of the final ones |
| Game.MovedNone | blackjack.py:170-176 | a turn that is skipped moves no card |
| Game.PlayRound | blackjack.py:165-191 | for a 52-card deck: final hands plus remaining deck are exactly the deck's cards; the opening hands are the first four cards in pop order; the player's turn takes `hits` cards from the end of the rest of the deck, one per hit key, each while the hand was not bust; the dealer's turn then takes `draws` cards from what is left, each while the hand was below 17; Blackjack iff the opening hand is worth 21, and then no key is read and no card drawn; bust iff the player's hand exceeds 21, and then the dealer draws nothing; an invalid key ends the round with no dealer draw; after a stand the dealer holds at least 17 and the winner is determine_winner of the two values; `quit` (handle_player_choice returning None) iff a bust is followed by "no" |
| Game.FirstNo | blackjack.py:192-193 | the index of the first "no" among the play-again answers: that answer is "no" and all before it are "yes" |
| Game.FirstNoSplits | blackjack.py:192-193 | up to the first "no", an answer is "yes" exactly when it comes before the first "no" |
| Game.RunSession | blackjack.py:162-193 | the session ends exactly after the first "no", whether it is given at the bust prompt inside handle_player_choice or at main's own prompt; round i asks perRound[i] play-again questions, in total `asked`; that count is 1, or 2 only for a bust; every bust before the last round asked 2 (a bust answered "yes" is asked again by main) |

## Left out

- The screen: `display_cards`, `delayed_print`, `welcome_message`, the
  messages written by the engine's functions, and every clear and refresh.
  These are terminal output through curses and have no effect on the game
  state.
- `time.sleep` pacing: it only delays output.
- The distribution of `random.shuffle`: the shuffle is an arbitrary
  permutation given as a parameter, so every property holds for every
  possible shuffle.
- The key loop of `play_again` (blackjack.py:55-68) and the `curses.wrapper`
  entry point. A play-again reply is a boolean, so keys other than y and n,
  which that loop asks for again, are not modelled.
- Rank and suit strings: ranks are a datatype (`Ace`, `Pip(n)` for "2".."10",
  `Jack`, `Queen`, `King`), and the suit symbols are four constructors. The
  string tests `isdigit()`, `in ['J', 'Q', 'K']` and `== 'A'` become a match
  on the rank.
- Keys: a key is a single character and is lower-cased in ASCII. Python's
  `lower()` maps no other character to 'h' or 's'. Multi-character key names
  that `getkey` can return (arrow keys and the like) are neither 'h' nor
  's', so they behave like any other invalid key.
- Table.HandlePlayerChoice: requires a deck large enough for the player's
  largest possible turn (raw sum plus twice the deck size above 31). Python
  would raise IndexError on an empty deck; within a round the 48 cards left
  after the deal always satisfy this, so that error is not modelled.
- Table.HandleDealerPlay: requires a deck large enough for the dealer to
  reach 17 (raw sum plus twice the deck size at least 27). This is for the
  same reason as above, and a round always satisfies it.
- Table.Deck.Pop: requires a non-empty deck instead of modelling IndexError,
  because no call in the engine pops an empty deck.
- Game.RunSession: requires some reply to be "no", so only sessions that end
  are modelled. Its contract does not restate each round's outcome in terms
  of that round's deck and keys; `Game.PlayRound` states that for one round.
