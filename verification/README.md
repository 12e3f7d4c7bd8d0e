# Blackjack stores: side bets, split hands and betting

This project models the three client-side state stores of a browser blackjack
game and proves properties of them in Dafny:

- **Side-bet engine** (`side_bet_rules.dfy`, `side_bet_store.dfy`). It computes
  the blackjack value of a hand and scores three side bets. Perfect Pairs pays
  only when the hand passed is exactly two cards of one rank. 21+3 is a
  three-card poker hand: the two player cards and the dealer's up card. Lucky
  Ladies pays on a two-card 20. The store keeps one wager per side bet
  (Insurance, Perfect Pairs, 21+3, Lucky Ladies) and a newest-first history
  capped at 50 entries. `EvaluateBets` settles every bet with money on it in
  one step, except 21+3 when no dealer card has been dealt: that wager is
  zeroed without a history entry.
- **Split-hand state** (`split_hands.dfy`). A class holds the hands a split
  produced, a cursor on the hand being played and the split flags.
- **Betting ledger** (`betting.dfy`). A balance and a main bet, moved between
  by pure reducers. The law is that `balance + currentBet` is conserved by
  placing, clearing and pushing.

`cards.dfy` holds the card type: a rank (2–10, J, Q, K, A) and a suit. It also
holds the two numeric readings of a rank: blackjack points and poker order.

Each store keeps its source's shape:

- The hand-value computation and `EvaluateBets` are methods with loops, because
  the source accumulates and mutates step by step.
- The classifiers and the object-spread reducers are functions on values.
- The split-hand store is a class. Three of its operations replace one hand
  of its `hands` sequence with an updated copy.

Behaviour of the code worth knowing, which the model keeps:

- Winning a 50 bet from a balance of 1000 ends at 1050: the 50 leaves the
  balance when placed and 100 comes back. `Betting.WinFromStart` states this.
- `finishCurrentHand` moves to the next index whether or not that hand is done.
  It does not look for the next unfinished hand.
- `clearBet` in the betting store also sets `needsBet`.
- The history is a prefix cut to 50: the new entries are put in front and the
  list is cut to its first 50.

## Model

| member | source | states |
|---|---|---|
| Cards.Points | src/lib/stores/sideBets.ts:181-186 | a card counts 2..11: faces and tens count 10, and only an ace counts 11 |
| Cards.PokerValue | src/lib/stores/sideBets.ts:108-113 | poker order lies in 2..14; aces rank only high (14) |
| Cards.PokerValueInjective | src/lib/stores/sideBets.ts:123-128 | two ranks have equal poker values exactly when they are the same rank |
| SideBetRules.SoftIsHardPlusTens | src/lib/stores/sideBets.ts:180-187 | the all-aces-11 total equals the all-aces-1 total plus 10 per ace |
| SideBetRules.CalculateHandValue | src/lib/stores/sideBets.ts:176-195 | the summing loop followed by the ace-demoting loop yields exactly HandValue: as few aces demoted as bring the total to 21, or all of them |
| SideBetRules.HandValueIsBest | src/lib/stores/sideBets.ts:189-192 | no other choice of aces counted 1 gives a larger total that is still 21 or less |
| SideBetRules.HandValueBounds | src/lib/stores/sideBets.ts:189-194 | the value lies between the hard and soft totals; a value over 21 means every ace already counts 1, and the hand busts exactly when its hard total does |
| SideBetRules.HandValueExamples | src/lib/stores/sideBets.ts:176-195 | A+A is 12, A+K is 21, 5+5+K is 20 |
| SideBetRules.TwoCardBlackjack | src/lib/stores/sideBets.ts:240-241 | dealer blackjack (two cards, value 21) holds exactly for an ace with a ten-valued card |
| SideBetRules.TwoCardTwenty | src/lib/stores/sideBets.ts:167-168 | two cards are worth 20 exactly when both count 10 or they are an ace and a nine |
| SideBetRules.TwoCardValueSymmetric | src/lib/stores/sideBets.ts:176-195 | the value of two cards does not depend on their order |
| SideBetRules.ValidatePerfectPairs | src/lib/stores/sideBets.ts:139-156 | the result is in {0,5,12,25}; it pays only on exactly two cards of one rank; 25 exactly for identical cards, 12 for one colour in two suits, 5 for two colours |
| SideBetRules.PerfectPairsSymmetric | src/lib/stores/sideBets.ts:139-156 | the Perfect Pairs result does not depend on card order |
| SideBetRules.Sort3 | src/lib/stores/sideBets.ts:114 | the three numeric values come out ascending, as a permutation of the input |
| SideBetRules.SortedSpread | src/lib/stores/sideBets.ts:116 | the sorted last minus first is the maximum minus the minimum |
| SideBetRules.ValidatePokerHand | src/lib/stores/sideBets.ts:95-137 | the 21+3 result is always one of {0,5,10,30,40,100} |
| SideBetRules.ThreeOfAKindIsNoStraight | src/lib/stores/sideBets.ts:120-131 | three cards of one rank never pass the straight test |
| SideBetRules.PokerClassification | src/lib/stores/sideBets.ts:100-136 | first match wins: 100 iff suited three of a kind, 40 iff straight flush, 30 iff unsuited trips, 10 iff unsuited straight, 5 iff a flush that is neither, 0 iff none |
| SideBetRules.PokerOrderIrrelevant | src/lib/stores/sideBets.ts:95-137 | the 21+3 payout depends only on the three cards dealt, not on which are the player's |
| SideBetRules.SuitedTripsPayHundred | src/lib/stores/sideBets.ts:101-103 | suited 7-7-7 pays 100, never 30 or 5 |
| SideBetRules.StraightEdgeCases | src/lib/stores/sideBets.ts:123-131 | A-2-3 is no straight (aces only high); 5-5-7 is a straight, and a straight flush when suited; Q-K-A is a straight |
| SideBetRules.ValidateLuckyLadies | src/lib/stores/sideBets.ts:158-174 | the result is in {0,4,10,25,200,1000}; it pays only on two cards; 200 or more exactly for a Queen-of-Hearts pair, which pays 1000 with a dealer blackjack and 200 without |
| SideBetRules.LuckyLadiesPaysOnTwenty | src/lib/stores/sideBets.ts:164-173 | pays exactly on a two-card 20; 25 iff identical and not the Queen-of-Hearts pair, 10 iff suited but not identical, 4 iff unsuited |
| SideBetRules.LuckyLadiesSymmetric | src/lib/stores/sideBets.ts:158-174 | the Lucky Ladies result does not depend on card order |
| SideBetStore.InitialState | src/lib/stores/sideBets.ts:33-90 | the start and reset state: no wager, empty history, panel hidden, insurance closed with maximum 0, the others open with maximum 100 |
| SideBetStore.ToggleSideBets | src/lib/stores/sideBets.ts:200-203 | flips only the panel flag |
| SideBetStore.ToggleTwice | src/lib/stores/sideBets.ts:200-203 | toggling twice is the identity |
| SideBetStore.PlaceBet | src/lib/stores/sideBets.ts:204-213 | the named bet's amount grows by the (unchecked) amount; every other bet, the history and the panel flag are unchanged |
| SideBetStore.PlaceBetAccumulates | src/lib/stores/sideBets.ts:204-213 | two wagers on one bet add up |
| SideBetStore.PlaceBetsCommute | src/lib/stores/sideBets.ts:204-213 | wagers on different bets commute |
| SideBetStore.ClearBet | src/lib/stores/sideBets.ts:214-223 | only the named bet's amount changes, to 0 |
| SideBetStore.ClearUndoesPlace | src/lib/stores/sideBets.ts:204-223 | clearing after placing equals clearing alone |
| SideBetStore.SetAvailability | src/lib/stores/sideBets.ts:224-233 | only the named bet's availability changes |
| SideBetStore.Multiplier | src/lib/stores/sideBets.ts:239-291 | every multiplier is non-negative; insurance pays exactly on dealer blackjack |
| SideBetStore.Take | src/lib/stores/sideBets.ts:300 | the first n elements, or all when fewer: a prefix of at most n |
| SideBetStore.RoundEntriesSound | src/lib/stores/sideBets.ts:239-291 | one entry per active bet and no other, at most four, in order Insurance, Perfect Pairs, 21+3, Lucky Ladies; payout is amount times multiplier, non-negative, and Won iff it pays |
| SideBetStore.InsurancePayout | src/lib/stores/sideBets.ts:239-250 | insurance is settled first, paying 2 times the wager on dealer blackjack and 0 otherwise |
| SideBetStore.PokerSkippedWithoutDealerCard | src/lib/stores/sideBets.ts:266 | with no dealer card, 21+3 leaves no entry |
| SideBetStore.DealerHasBlackjack | src/lib/stores/sideBets.ts:240-241 | the store's check equals dealer blackjack: two cards worth 21 |
| SideBetStore.EvaluateBets | src/lib/stores/sideBets.ts:234-302 | the history becomes the round's entries before the old history, cut to 50; every amount is 0 afterwards; availability, maxima and panel flag are kept; mainBet plays no part |
| SplitHands.SplitHandsStore.constructor | src/lib/stores/splitHands.ts:16-24 | the store starts with no hands, cursor 0 and both flags false |
| SplitHands.SplitHandsStore.Reset | src/lib/stores/splitHands.ts:28 | restores the initial state |
| SplitHands.SplitHandsStore.InitializeSplit | src/lib/stores/splitHands.ts:30-39 | exactly the two one-card hands with score 0, not done, full bet each; cursor 0, split on, re-split off; independent of the prior state |
| SplitHands.SplitHandsStore.AddCardToCurrentHand | src/lib/stores/splitHands.ts:41-45 | appends the card to the current hand only; other hands, cursor and flags unchanged |
| SplitHands.SplitHandsStore.UpdateScore | src/lib/stores/splitHands.ts:47-51 | only the given hand's score changes |
| SplitHands.SplitHandsStore.FinishCurrentHand | src/lib/stores/splitHands.ts:53-66 | marks the current hand done; the cursor moves to the next index if it exists, else stays; it never decreases and stays in range |
| SplitHands.SplitHandsStore.CheckCanSplit | src/lib/stores/splitHands.ts:68-73 | canSplit becomes: two cards of one rank and no split under way; nothing else changes |
| SplitHands.SplitHandsStore.GetAllHandsDone | src/lib/stores/splitHands.ts:75-81 | all hands done (even none) returns the store to its initial state; otherwise nothing changes |
| SplitHands.PlaySplitOfFives | src/lib/stores/splitHands.ts:30-81 | splitting fives for 50 and finishing both hands ends in the initial state |
| Betting.InitialState | src/lib/stores/betting.ts:11-17 | balance 1000, bet 0, betting open, bet needed, controls hidden |
| Betting.PlaceBet | src/lib/stores/betting.ts:24-29 | the bet grows by the amount; balance plus bet is conserved; a bet is no longer needed |
| Betting.OverdrawnBet | src/lib/stores/betting.ts:24-29 | no bound check: betting 1500 from the start leaves a balance of -500 |
| Betting.ClearBet | src/lib/stores/betting.ts:30-35 | the bet returns to the balance; balance plus bet conserved; canBet kept |
| Betting.ClearUndoesPlace | src/lib/stores/betting.ts:24-35 | from an empty table, clearing a placed bet restores the state except that a bet is needed |
| Betting.ToggleBettingUI | src/lib/stores/betting.ts:36-39 | flips only the controls flag |
| Betting.ToggleTwice | src/lib/stores/betting.ts:36-39 | toggling twice is the identity |
| Betting.SetBetState | src/lib/stores/betting.ts:40-45 | canBet and needsBet both take the argument; controls hidden; balance and bet kept |
| Betting.Win | src/lib/stores/betting.ts:47-53 | balance plus bet grows by the bet (double paid back); table cleared, betting reopened, controls flag kept |
| Betting.Lose | src/lib/stores/betting.ts:54-59 | balance unchanged, the bet forfeited; table cleared, betting reopened |
| Betting.Push | src/lib/stores/betting.ts:60-66 | balance plus bet conserved; table cleared, betting reopened |
| Betting.RoundOutcomes | src/lib/stores/betting.ts:24-66 | from an empty table, betting a then win, lose or push moves the balance by a, -a and 0 |
| Betting.WinFromStart | src/lib/stores/betting.ts:11-53 | a 50 bet won from the initial 1000 ends at 1050 with nothing on the table |

## Left out

- The reactive store mechanism (`writable`, `subscribe`, `set`, `update`) is
  not modelled. Each store is a state value replaced by each operation, or a
  class whose methods reassign its fields.
- SideBetStore.EvaluateBets: the clock is a parameter `now`, and all entries of
  one evaluation carry that one reading. The source reads `Date.now()` once per
  entry, so its entries may differ by a millisecond.
- Display-only data is not modelled: each side bet's `id`, `name`,
  `description` and `payoutInfo`. A history entry records its bet as a
  `BetType`, not as the display label the source stores ('Perfect Pairs',
  '21+3', ...). `maxBet` is kept but, as in the source, never enforced.
- JavaScript number semantics are not modelled: amounts and scores are
  unbounded integers, not floats. The `parseInt` of a card value becomes a
  mapping from the rank datatype.
- Aliasing between snapshots is not modelled. `evaluateBets` zeroes amounts in
  bet objects it shares with the previous state. The split-hand operations
  mutate hand objects shared with the previous hands array. The model
  describes only the new state.
- SideBetRules.ValidatePokerHand requires exactly two player cards. The source
  indexes the three-card array without checking, and `evaluateBets` does not
  check the length either. `EvaluateBets` carries the same requirement when
  21+3 is settled.
- SplitHands.SplitHandsStore.AddCardToCurrentHand, UpdateScore and
  FinishCurrentHand require a valid hand index. Their source crashes when the
  index is out of range or there are no hands.
- The `Card` type's own file is not part of this model. Cards are modelled as a
  rank and suit datatype.
