# Blackjack game screen — a Dafny model

This project models the rules logic of the Blackjack screen `GameScreen`
(`app/Screens/GameScreen.tsx`): the 52-card deck built suit by suit, the
in-place Fisher–Yates shuffle, the Blackjack hand value with soft aces, dealing
from the front of the deck, and the screen's state fields (`deck`,
`playerHand`, `dealerHand`, `gameStarted`, `gameResult`, `isPlayerTurn`,
`dealerDeckCount`) with the handlers that change them: `startNewGame`,
`handleHit`, `handleStand` and the effect that ends the player's turn on a bust.

Modules, one per part of the screen's logic:

- `Cards` (`cards.dfy`): `Suit`, `Rank`, `Card`, the `suits` and `ranks`
  constants and `generateDeck` as a method with the nested loops, proved equal
  to the specification function `StandardDeck`, which has 52 cards in
  suit-major order with every (suit, rank) pair exactly once.
- `Shuffle` (`shuffle.dfy`): `shuffleDeck` as a method over an `array<Card>`.
  The random index is an arbitrary choice below `currentIndex`; the method
  returns, as a ghost value, the indices it picked, so the final array is tied
  to the function `Run` of those picks, and `Run` is proved to be a
  permutation whatever the picks are.
- `Hands` (`hands.dfy`): `getHandValue` as the function `HandValue` (card
  values with aces as 11, then the reduction loop `Reduce`) and as the method
  `GetHandValue` with the source's two loops, proved equal to it; lemmas bound
  the value between the all-aces-as-1 and the all-aces-as-11 totals and show
  that an ace is reduced only while the total is over 21.
- `Blackjack` (`blackjack.dfy`): `dealCard`, the four initial deals, the
  dealer's loop (`DealerDraw`, with the method `PlayDealer` running the
  source's loop), the settlement, and the class `Game` holding the state
  fields, with one method per handler. Each method says exactly which fields
  it may change (`modifies this`field`) and what their new values are;
  `HandleHit` and `HandleStand` also state that the cards in deck and hands
  are only moved, never lost or duplicated.
- `Wrappers` (`wrappers.dfy`): `Option`, for `CardType | undefined` and
  `string | null`.

The screen's code behaves differently from a full game in one place, and the
model follows the code. The loop in `startNewGame` that is meant to push
`dealerDeckCount` decks (`app/Screens/GameScreen.tsx:91`) starts `i` at
`dealerDeckCount` and runs while `i > dealerDeckCount`, so it never runs. The
shuffle and the four deals therefore work on an empty deck: after
`startNewGame` both hands and the deck are empty, a hit draws nothing, the
dealer draws nothing and both totals are 0. The predicate
`Game.NothingDealt` (once a game is started, deck and hands are empty) holds
after the constructor and every handler keeps it; `Game.HandleStand` states
that a stand from such a state ends in a push, and `Blackjack.PlayRound`
chains a new game, a hit, the bust effect and a stand from any such state to
that push. The initial deal is still modelled for any deck (`InitialDeal`),
so its order, player, dealer, player, dealer, is proved as well. The screen
has no shoe of several decks, no cut card, no bets or bankroll, no blackjack
detection and no payouts, and the model has none either.

In Dafny the never-entered loop is written as `for i := dealerDeckCount to
dealerDeckCount`, an empty range that also runs zero times; a `while` whose
guard is false on entry would leave Dafny with a termination proof in a body
that can never be reached.

## Model

| member | source | states |
|---|---|---|
| `Cards.GenerateDeck` | app/Screens/GameScreen.tsx:13-21 | the nested loops build exactly `StandardDeck()`: 52 cards, each (suit, rank) pair once |
| `Cards.RowAt` | app/Screens/GameScreen.tsx:16-18 | the inner loop's cards for one suit are one per rank, in the order of `ranks` |
| `Cards.GridLength` | app/Screens/GameScreen.tsx:15-19 | one card per (suit, rank) pair: the number of suits times the number of ranks |
| `Cards.GridAt` | app/Screens/GameScreen.tsx:15-19 | suit-major order: for `m` ranks, position `i * m + j` exists and holds (`suits[i]`, `ranks[j]`) |
| `Cards.RowCount` | app/Screens/GameScreen.tsx:16-18 | a card occurs in one suit's row as often as its rank occurs in `ranks`, and only in that suit |
| `Cards.GridCount` | app/Screens/GameScreen.tsx:15-19 | a card whose suit is listed once occurs in the deck as often as its rank occurs in `ranks`, and not at all if its suit is absent |
| `Cards.SuitsOnce` | app/Screens/GameScreen.tsx:11 | each suit occurs once in `suits` |
| `Cards.RanksOnce` | app/Screens/GameScreen.tsx:10 | each rank occurs once in `ranks` |
| `Cards.StandardDeckBySuit` | app/Screens/GameScreen.tsx:13-21 | the deck is the hearts, diamonds, clubs and spades rows, in that order |
| `Cards.StandardDeckAt` | app/Screens/GameScreen.tsx:10-21 | the deck has 52 cards and card `13 * i + j` is (`suits[i]`, `ranks[j]`) |
| `Cards.StandardDeckOnce` | app/Screens/GameScreen.tsx:10-21 | every (suit, rank) pair occurs exactly once in the deck |
| `Shuffle.Run` | app/Screens/GameScreen.tsx:29-38 | the swap steps keep the deck's length |
| `Shuffle.SwapPermutes` | app/Screens/GameScreen.tsx:36-37 | one swap keeps the multiset of cards |
| `Shuffle.RunPermutes` | app/Screens/GameScreen.tsx:24-41 | for every sequence of in-range picks the shuffle is a permutation of the deck |
| `Shuffle.ShuffleDeck` | app/Screens/GameScreen.tsx:24-41 | the array is shuffled in place: each step swaps the decremented `currentIndex` with an index picked below the old `currentIndex`, and the result has the same multiset of cards |
| `Hands.CardValue` | app/Screens/GameScreen.tsx:48-56 | a card is worth 2 to 11; 11 exactly for an ace; 10 exactly for 10, J, Q and K; each of the ranks 2 to 10 is worth its own number (its position in `ranks` plus 2) |
| `Hands.Reduce` | app/Screens/GameScreen.tsx:59-62 | the reduction loop takes off at most 10 per ace and never adds anything |
| `Hands.HandValue` | app/Screens/GameScreen.tsx:44-64 | the hand value lies between the total with every ace as 1 and the total with every ace as 11 |
| `Hands.GetHandValue` | app/Screens/GameScreen.tsx:44-64 | the accumulating loop and the reduction loop compute `HandValue(hand)` |
| `Hands.ReduceSpec` | app/Screens/GameScreen.tsx:59-62 | the reduction takes off a multiple of 10, at most 10 per ace, only while the total was over 21, and leaves a total over 21 only after every ace |
| `Hands.SoftIsHardPlusAces` | app/Screens/GameScreen.tsx:47-58 | counting aces as 11 adds exactly 10 per ace to the all-aces-as-1 total |
| `Hands.HandValueBounds` | app/Screens/GameScreen.tsx:44-64 | the value lies between the all-aces-as-1 and all-aces-as-11 totals, and is over 21 only when every ace counts 1 |
| `Hands.HandValueReducesOnlyWhenOver` | app/Screens/GameScreen.tsx:59-63 | if any ace was reduced, the total before the last reduction was over 21 |
| `Hands.NoAcesNoReduction` | app/Screens/GameScreen.tsx:44-64 | a hand without aces is worth the plain sum of its card values |
| `Hands.HandValueExamples` | app/Screens/GameScreen.tsx:44-64 | A+6 is 17, A+6+A is 18, K+Q is 20, A+K is 21, 7+7+7 is 21, A+A+K+K is 22 |
| `Blackjack.DealCard` | app/Screens/GameScreen.tsx:82-87 | no card exactly when the deck is empty, and then the deck is unchanged; otherwise the card followed by the rest is the old deck |
| `Blackjack.DealInto` | app/Screens/GameScreen.tsx:100-102 | one deal into a hand: from an empty deck nothing changes; otherwise the deck's front card is appended to the hand and the deck loses it |
| `Blackjack.InitialDeal` | app/Screens/GameScreen.tsx:95-114 | the player gets the cards at positions 0 and 2, the dealer those at 1 and 3 (as far as the deck goes), and the rest of the deck is kept |
| `Blackjack.InitialDealFull` | app/Screens/GameScreen.tsx:98-114 | from four or more cards the hands are `[d0, d2]` and `[d1, d3]` and the deck is everything after the fourth card |
| `Blackjack.DealIntoConserves` | app/Screens/GameScreen.tsx:100-102 | one deal into a hand moves a card from deck to hand, or nothing |
| `Blackjack.InitialDealConserves` | app/Screens/GameScreen.tsx:98-114 | the four deals neither lose nor duplicate a card |
| `Blackjack.DealerDrawTakesFront` | app/Screens/GameScreen.tsx:139-148 | the dealer's old hand is a prefix of the new one, and the drawn cards followed by the new deck are the old deck |
| `Blackjack.DealerDrawStops` | app/Screens/GameScreen.tsx:140-147 | the loop ends at 17 or more or on an empty deck; from 17 or more it draws nothing; below 17 it draws at least one card when the deck has one |
| `Blackjack.DealerDrawOnlyUnder17` | app/Screens/GameScreen.tsx:140-144 | every card is drawn while the dealer's hand is worth less than 17 |
| `Blackjack.DealerDrawSpec` | app/Screens/GameScreen.tsx:139-148 | the dealer's old hand is a prefix of the new one, the drawn cards followed by the new deck are the old deck, the loop ends at 17 or more or on an empty deck, draws only while under 17, draws nothing from 17 and at least one card below 17 when the deck has one |
| `Blackjack.DealerDrawConserves` | app/Screens/GameScreen.tsx:139-150 | the dealer's drawing only moves cards from the deck into the dealer's hand |
| `Blackjack.PlayDealer` | app/Screens/GameScreen.tsx:136-148 | the source's dealer loop terminates (the deck shrinks each round) and computes `DealerDraw` |
| `Blackjack.MessagesDistinct` | app/Screens/GameScreen.tsx:77-163 | the five result texts are pairwise different, so the text shown tells which result it is |
| `Blackjack.Settle` | app/Screens/GameScreen.tsx:152-165 | dealer bust exactly when the dealer is over 21; otherwise push exactly on equal totals, dealer win exactly when the dealer is higher, player win exactly when the dealer is lower |
| `Blackjack.Game.constructor` | app/Screens/GameScreen.tsx:67-73 | the initial state: a standard deck, empty hands, no game, no result, not the player's turn, four decks |
| `Blackjack.Game.StartNewGame` | app/Screens/GameScreen.tsx:89-122 | the hands and deck are the initial deal of the shuffled deck, which is empty because the deck loop never runs; the game is started, it is the player's turn and there is no result |
| `Blackjack.Game.HandleHit` | app/Screens/GameScreen.tsx:124-131 | nothing changes unless a game is started and it is the player's turn; then a non-empty deck's front card is appended to the player's hand and the deck shrinks by one; a state with nothing dealt stays so |
| `Blackjack.Game.HandleStand` | app/Screens/GameScreen.tsx:133-166 | nothing changes unless a game is started and it is the player's turn; then the turn ends, the dealer's hand and the deck are `DealerDraw` of the old ones, and the result is `Settle` of the two hand values; with nothing dealt, that result is a push |
| `Blackjack.Game.BustEffect` | app/Screens/GameScreen.tsx:75-80 | on the player's turn of a started game, a hand worth more than 21 sets "Player Busts" and ends the turn; otherwise nothing changes, and with nothing dealt it never changes anything |
| `Blackjack.PlayRound` | app/Screens/GameScreen.tsx:89-166 | from any valid state with nothing dealt, a new game, a hit, the bust effect and a stand end in a push and keep that state valid with nothing dealt |
| `Blackjack.RoundAsWritten` | app/Screens/GameScreen.tsx:67-166 | the first round after the screen is mounted ends in a push |

Every `Game` method also keeps `Valid()` (before the first game nothing is
dealt and no result is set; afterwards it is the player's turn exactly while
no result is set); `HandleHit`, `HandleStand` and `BustEffect` keep
`NothingDealt()`, which `StartNewGame` establishes; and `HandleHit` and
`HandleStand` keep the multiset of all cards in deck and hands.

The function `Blackjack.DealerDraw` (the dealer's loop, lines 139-148) only
computes; its rows are the lemmas `DealerDrawTakesFront`, `DealerDrawStops`,
`DealerDrawOnlyUnder17`, their conjunction `DealerDrawSpec`,
`DealerDrawConserves`, and the method `PlayDealer`, which runs the loop. The
function `Blackjack.Message` gives the exact texts of lines 77 and 157-163;
its row is the lemma `MessagesDistinct`.

## Left out

- Rendering (`GameScreen.tsx:168-234`, `app/Components/Hand.tsx`,
  `app/Components/Card.tsx`, `components/`, `constants/`): layout, styles,
  card images loaded through `require`, and the face-down display flag have
  no game logic.
- `Math.random` in the shuffle: replaced by an arbitrary index below
  `currentIndex`; uniformity of the shuffle is not modelled.
- React's effect scheduling and batched, asynchronous `setState`: each
  handler and the bust effect is one synchronous state update, and the bust
  effect is a method of its own that a caller runs after a change of the
  player's hand.
- `setDealerDeckCount` is never called, so `dealerDeckCount` only ever holds
  its initial 4; the model keeps the field and no method changes it.
- `Shuffle.ShuffleDeck`: the source also returns the array it shuffled; the
  model shuffles the same array in place and does not return it again.
- `gameResult` is modelled as an optional `Outcome`; `Message` gives the exact
  text the screen shows for each outcome.
- JavaScript numbers are doubles; every total here is a small integer, so
  the model uses unbounded integers.
- Bets, bankroll, payouts, blackjack detection and a cut card do not exist in
  the code and are not modelled.
