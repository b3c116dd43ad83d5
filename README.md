# Blackjack round engine

A Dafny model of the round engine inside the browser blackjack game's
`BlackjackGame` class: one player against a dealer, with a 52-card deck
rebuilt and shuffled whenever it runs out, a single bet per round, and a
balance with win/game statistics.

The model has six modules:

- `Cards` covers suits, ranks and the value recorded with each card: an ace
  counts 11, a face card 10, and a number card its number.
- `Deck` has the order in which the 52 cards are built. It also has the
  Fisher–Yates shuffle as a function of its random choices, the "part of one
  deck" and "full deck" predicates, and how cards leave the end of the deck.
- `Hand` holds the hand value, with the soft-ace reduction and the hard total
  (every ace counted 1). It has the evaluator's two-loop method and the
  dealer's rule of drawing only while under 17.
- `Payout` holds the seven outcomes, the credit each pays on the bet, and the
  statistics update.
- `Game` is the class `BlackjackGame`. It has the fields `deck`,
  `playerHand`, `dealerHand`, `currentBet`, `balance`, `stats` and
  `gameState`, and one method per operation of the engine. There are two
  invariants:
  - `Consistent()` holds at every step. It says the balance is not negative,
    the deck holds distinct well-formed cards, and an active round has a bet.
  - `Valid()` holds whenever the engine waits for the player. It adds that no
    dealer turn is pending, and that a player who may still act holds less
    than 21.
- `Scenarios` plays three worked rounds through the class's methods, with
  the deck laid out by hand:
  - a 20 beating 18;
  - a natural paid at once;
  - a dealer busting from 16.

Money is a `real`: a natural credits two and a half times the bet, so the
balance can hold halves. Bets are whole chip amounts (`nat`). The random
swap position of each shuffle step is chosen with `:|` (any index in
`[0, i]`). The choices are returned as a ghost sequence, so the shuffled
deck is stated as `FisherYates(previous deck, choices)`, which is proved to
be a permutation.

The dealer's turn is re-armed by a timer after each card
(game.js:163-176). Here it is a synchronous `while` loop in `DealerDraws`.
Its termination measure is `17 - HardTotal(dealerHand)`, which falls by at
least one per card.

### Dealer naturals

A dealer natural is settled only when the player also holds 21. The deal
runs the natural check only when the player's two cards make 21
(game.js:128-129). So `checkForBlackjack`'s dealer-only branch
(game.js:186-187) cannot be reached, and no round ever ends as
`dealer-blackjack`. A dealer holding ace and ten against a player without
21 is not settled on the deal: the player acts, and the dealer's 21 only
counts when the hands are compared. An outcome table for naturals would
list dealer-only 21 as an immediate dealer blackjack. The model follows the
code: `NaturalCheck` states the full table, and `NaturalCheckAfterDeal` and
`StartNewRound` state what the deal actually does with it.

## Model

| member | source | states |
|---|---|---|
| Cards.CardValue | game.js:70-74 | An ace is worth 11 and nothing else is; jack, queen and king are worth 10; a number card is worth its number; every value lies in 2..11. |
| Cards.SuitsAndRanksComplete | game.js:47-48 | The builder's suit and rank lists each name every suit and rank exactly once. |
| Deck.FreshDeckCount | game.js:46-59 | The deck built suit by suit and rank by rank has 52 cards, holding every well-formed (suit, rank) card exactly once and nothing else. |
| Deck.FreshDeckIsFull | game.js:46-59 | The freshly built deck is a full deck: 52 distinct cards, each recording its rank's value. |
| Deck.PartOfOneDeckCounts | game.js:46-59 | A deck holds distinct well-formed cards exactly when no card occurs in it more often than in a fresh deck. |
| Deck.FullDeckIsFreshDeckReordered | game.js:46-68 | Any full deck holds exactly the cards of the fresh deck, as a multiset. |
| Deck.ReorderedFullDeck | game.js:60-68 | Reordering a full deck leaves a full deck. |
| Deck.PopKeepsPartOfOneDeck | game.js:139 | Taking the last card off a deck of distinct well-formed cards leaves one, and the card taken is well-formed. |
| Deck.Reversed | game.js:139 | The cards in the order they are drawn from the end: the same length, with the last card first. |
| Deck.DealOneMore | game.js:135-140 | Each draw takes the current last card; once the starting deck is used up, the next card is the last of a newly built full deck and later ones come off its end, so the record stays "starting deck read from the end, then the new deck read from the end". |
| Deck.DealtFromLeaves | game.js:135-140 | A draw record leaves the starting deck less the cards drawn, or, past a rebuild, 52 plus the starting deck's size less the cards drawn, still part of one deck. |
| Deck.ReversedAppend | game.js:139 | Drawing `a` and then `b` from the end of a deck lays them out as `b` reversed followed by `a` reversed. |
| Deck.DealtFromChain | game.js:135-140 | Two runs of draws in a row, from one deck to the next and on to a third, are one run of draws from the first deck, even across a rebuild. |
| Deck.Swap | game.js:66 | Exchanges the cards at the two positions and leaves every other position as it was. |
| Deck.SwapPermutes | game.js:66 | One swap keeps the multiset of cards. |
| Deck.SweptPermutes | game.js:64-67 | The shuffle steps from any index to the last keep the multiset of cards. |
| Deck.FisherYatesPermutes | game.js:63-68 | Whatever the random choices, the shuffled deck has the same length and the same multiset of cards as before. |
| Hand.Aces | game.js:82 | The number of aces never exceeds the number of cards. |
| Hand.SoftReductions | game.js:86-89 | The number of aces counted as 1 never exceeds the aces held; it is all of them whenever the total would still be over 21; and every reduction made was needed. |
| Hand.HandValue | game.js:76-92 | An empty hand is worth 0. Otherwise the value is the sum of recorded values less 10 for each reduced ace, between the hard total and the sum. It exceeds 21 only with every ace at 1, and it is only reduced while the total was over 21. |
| Hand.CalculateHandValue | game.js:76-92 | The engine's two loops (add up and count aces, then reduce while over 21) return exactly `HandValue`. |
| Hand.AppendCard | game.js:80-83 | Adding a card adds its recorded value to the sum, and one to the ace count if it is an ace. |
| Hand.HardTotalAtLeastLength | game.js:76-92 | With every ace counted as 1, a hand of well-formed cards is worth at least one per card. |
| Hand.HardTotalGrows | game.js:168-171 | Each card drawn raises the hard total by at least one, so the dealer's loop ends. |
| Hand.TwoCardValue | game.js:119-122 | Two cards are worth their sum, except two aces make 12. They never bust, and make 21 exactly when they are an ace and a ten-valued card. |
| Hand.DrawUnder17 | game.js:168-172 | Drawing onto a hand under 17 keeps the rule that every card was drawn while the hand stood under 17. |
| Hand.StopsAtSeventeen | game.js:168-175 | Under the drawing rule, once a prefix of the dealer's hand is worth 17 or more, the hand ends there. |
| Payout.VerdictOf | game.js:214-248 | The message category of an outcome: a win exactly for blackjack, win and dealer-bust, a tie exactly for a push, a loss otherwise. |
| Payout.Winnings | game.js:214-250 | The credit is never negative and never more than two and a half times the bet. |
| Payout.Record | game.js:206-232 | One more game is counted; the win count rises by one exactly for the winning outcomes and otherwise stays; wins never exceed games played. |
| Payout.WinningsMatchVerdict | game.js:214-250 | On a real bet, a winning outcome credits more than the stake, a push exactly the stake, and a loss nothing. |
| Payout.BlackjackPaysThreeToTwo | game.js:216 | A natural pays three to two on top of the returned stake. |
| Game.Winner | game.js:191-204 | A dealer over 21 gives dealer-bust whatever the player holds. Otherwise the higher value wins and equal values push. |
| Game.NaturalCheck | game.js:178-189 | Two 21s push. A player-only 21 is a blackjack and a dealer-only 21 a dealer blackjack. No outcome arises when neither side holds 21. |
| Game.NaturalCheckAfterDeal | game.js:128-129 | When the player holds 21 after the deal, the check always ends the round, as a push or a blackjack, never as a dealer blackjack. |
| Game.BlackjackGame.constructor | game.js:2-15 | The table starts with the saved balance and statistics, no bet, empty hands, the betting state and a full shuffled deck; the invariant holds. |
| Game.BlackjackGame.CreateDeck | game.js:46-61 | The deck is built in suit-then-rank order and then shuffled with some valid random choices; the result is a full deck. |
| Game.BlackjackGame.ShuffleDeck | game.js:63-68 | The in-place swap loop leaves the deck equal to `FisherYates` of the old deck for the choices it made, so it is a permutation of it. |
| Game.BlackjackGame.DrawCard | game.js:135-140 | On a non-empty deck it returns the last card and leaves the rest; on an empty deck it rebuilds a full deck and pops one, leaving 51. The card is always well-formed and the deck stays part of one deck. |
| Game.BlackjackGame.DrawNext | game.js:135-140 | A draw extends the record of the draws since a given deck by the card drawn, across the one rebuild a round can need. |
| Game.BlackjackGame.PlaceBet | game.js:94-109 | Only while betting and only if the balance covers it, the amount moves from balance to bet; otherwise nothing changes. Balance plus bet is conserved and the invariant holds. |
| Game.BlackjackGame.StartNewRound | game.js:111-133 | It does nothing without a bet. Otherwise it deals two cards each, drawn in the order player, dealer, player, dealer from the end of the deck, whatever the deck's size: a deck that runs out partway is rebuilt and the remaining deal cards come off the end of the new one. A player 21 settles the round through the natural check; else play starts with the ledger untouched. |
| Game.BlackjackGame.DealCards | game.js:118-122 | The four draws of the deal land in the hands as player-first, dealer-first, player-second, dealer-second, and the deck record says they were taken in that order from the end of the deck, across a rebuild when the deck runs out. |
| Game.BlackjackGame.Hit | game.js:142-154 | It does nothing outside play. Otherwise it adds the deck's last card to the player's hand: over 21 settles a bust with the dealer untouched; exactly 21 makes the dealer play out and settles by comparison; under 21 play continues. In every case the deck record says the player's card and then any dealer cards were taken in that order from the end of the deck. |
| Game.BlackjackGame.PlayerDraws | game.js:145 | The player's hand gains exactly the drawn card, which is the deck's last card when the deck is not empty, and the deck record holds for that one draw. |
| Game.BlackjackGame.Stand | game.js:156-161 | It does nothing outside play. Otherwise the dealer draws only while under 17, ends at 17 or more, takes at most 17 cards, from the end of the deck or of the one rebuilt deck, and the round is settled by comparing the hands. |
| Game.BlackjackGame.DealerPlay | game.js:163-176 | The dealer keeps its hand, draws at most 17 cards, only while under 17, from the end of the deck or of the one rebuilt deck, ends at 17 or more, and the round is settled by `Winner`. |
| Game.BlackjackGame.DealerDraws | game.js:166-172 | The draw loop keeps the dealer's first cards, adds cards only while the hand is under 17, stops at 17 or more, draws at most 17 cards since each raises the hard total by one, and takes each card from the end of the deck, then from the end of the rebuilt deck. |
| Game.BlackjackGame.CheckForBlackjack | game.js:178-189 | With a 21 on either side the round is settled by the natural table, push first; otherwise nothing changes. |
| Game.BlackjackGame.DetermineWinner | game.js:191-204 | The round is settled with the outcome `Winner` gives for the two hand values. |
| Game.BlackjackGame.EndRound | game.js:206-268 | The balance gains the outcome's credit, the bet is cleared, one game is counted (and a win for blackjack, win or dealer-bust). The state is betting again exactly when the balance is not zero, and stays game-over otherwise. |
| Game.BlackjackGame.ResetGame | game.js:323-336 | From any state: balance 1000, no bet, zeroed statistics, betting, empty hands, and a full shuffled deck. |
| Scenarios.DealOfFour | game.js:119-122 | The deal takes the deck's last four cards; the player gets the last and third-from-last, the dealer the second- and fourth-from-last. |
| Scenarios.DealAcrossRebuild | game.js:118-140 | A deal from a deck of three takes those three cards and then the last card of a newly built full deck, leaving 51 of it. |
| Scenarios.DealFromTwo | game.js:118-140 | A deal from a deck of two gives both second cards from one newly built full deck, so they differ, and leaves 50. |
| Scenarios.DrawFromEmpty | game.js:135-140 | A card drawn from an empty deck is the last of a newly built full deck, which keeps the other 51. |
| Scenarios.NoDrawOnSeventeenOrMore | game.js:166-175 | A dealer whose two cards already make 17 or more draws nothing. |
| Scenarios.SixteenDrawsTheSix | game.js:166-172 | Ten and six against a one-card deck holding a six: the dealer's third card is that six. |
| Scenarios.SixteenDrawsSixAndStops | game.js:166-172 | Ten and six against a one-card deck holding a six: the dealer draws that six and stops on 22. |
| Scenarios.DealTwentyAgainstEighteen | game.js:111-133 | Deals ace–nine against ten–eight on a bet of 100 and play starts, with 900 left in the balance. |
| Scenarios.DealSeventeenAgainstSixteen | game.js:111-133 | Deals ten–seven against ten–six on a bet of 100 and play starts, with the six of clubs left on the deck. |
| Scenarios.TwentyBeatsEighteen | game.js:111-268 | A bet of 100 with ace–nine against ten–eight, then a stand: the round ends won, the balance is 1100, one game and one win are counted, and betting opens again. |
| Scenarios.NaturalPaysAtOnce | game.js:111-268 | A bet of 100 dealt ace–king against two non-21 cards ends at once as a blackjack: the balance is 1150, one game and one win are counted, and betting opens again. |
| Scenarios.DealerBustsFromSixteen | game.js:111-268 | A bet of 100 with ten–seven against ten–six and a six left on the deck, then a stand: the dealer draws to 22 and busts, the balance is 1100, one game and one win are counted, and betting opens again. |

## Left out

- The page code is not part of this model: element lookup, button wiring,
  card rendering (including the hidden dealer card), the score display,
  button enabling and message text (game.js:17-44, 270-321, 354-357). The
  outcome labels stand in for the messages.
- Saving and loading the balance and statistics (game.js:338-351) go
  through browser storage. The constructor takes them as parameters. A
  saved balance is read back with integer parsing, so it is a whole number
  (`nat`) even when a natural left a half in it.
- The pause between dealer draws and the delayed bankrupt message
  (game.js:169-172, 262-264) are timers. The dealer's turn runs to its end
  in one call, so the interleavings a timer allows (a reset or a new deal
  pressed while the dealer is still drawing) are not modelled.
- The random number source (game.js:65) is left out. The shuffle picks any
  position in `[0, i]`, so every result is covered, but uniformity is not
  stated.
- Game.BlackjackGame.PlaceBet: the amount is a `nat`, because chips carry
  positive whole values. Negative or fractional amounts are not modelled.
