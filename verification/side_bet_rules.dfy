/**
 * The payout rules of the side-bet engine: the blackjack value of a hand and the
 * three classifiers that turn dealt cards into a payout multiplier.
 */
module SideBetRules {
  import opened Cards

  // ---------------------------------------------------------------------------
  // Hand value
  // ---------------------------------------------------------------------------

  /** The total with every ace counted as 11. */
  function SoftTotal(cards: seq<Card>): int
    decreases |cards|
  {
    if cards == [] then 0
    else SoftTotal(cards[..|cards| - 1]) + Points(cards[|cards| - 1].rank)
  }

  /** The number of aces in the hand. */
  function AceCount(cards: seq<Card>): nat
    decreases |cards|
  {
    if cards == [] then 0
    else AceCount(cards[..|cards| - 1]) + (if cards[|cards| - 1].rank == Ace then 1 else 0)
  }

  /** The total with every ace counted as 1. */
  function HardTotal(cards: seq<Card>): int
    decreases |cards|
  {
    if cards == [] then 0
    else
      var r := cards[|cards| - 1].rank;
      HardTotal(cards[..|cards| - 1]) + (if r == Ace then 1 else Points(r))
  }

  lemma {:induction false} SoftIsHardPlusTens(cards: seq<Card>)
    ensures SoftTotal(cards) == HardTotal(cards) + 10 * AceCount(cards)
    decreases |cards|
  {
    if cards != [] {
      SoftIsHardPlusTens(cards[..|cards| - 1]);
    }
  }

  /** The totals of a two-card hand are the sums of the two cards' points. */
  lemma TwoCardTotals(a: Card, b: Card)
    ensures SoftTotal([a, b]) == Points(a.rank) + Points(b.rank)
    ensures AceCount([a, b]) == (if a.rank == Ace then 1 else 0) + (if b.rank == Ace then 1 else 0)
  {
    assert [a, b][..1] == [a];
    assert [a][..0] == [];
    assert SoftTotal([a]) == Points(a.rank);
    assert AceCount([a]) == (if a.rank == Ace then 1 else 0);
  }

  function Min(a: int, b: int): int {
    if a <= b then a else b
  }

  /** How many aces must drop from 11 to 1 to bring a soft total to 21 or less, if there were enough. */
  function DemotionsNeeded(soft: int): (k: nat)
    ensures soft - 10 * k <= 21
    ensures k > 0 ==> soft - 10 * (k - 1) > 21
  {
    if soft <= 21 then 0 else (soft - 12) / 10
  }

  /**
   * The blackjack value of a hand: the soft total with as few aces demoted to 1
   * as bring it to 21 or less, or with every ace demoted when that is not enough.
   */
  function HandValue(cards: seq<Card>): int {
    var soft := SoftTotal(cards);
    soft - 10 * Min(AceCount(cards), DemotionsNeeded(soft))
  }

  /**
   * HandValue is the best total: no way of counting some aces as 1 and the
   * rest as 11 gives a larger total that is still 21 or less.
   */
  lemma HandValueIsBest(cards: seq<Card>, k: nat)
    requires k <= AceCount(cards)
    requires SoftTotal(cards) - 10 * k <= 21
    ensures SoftTotal(cards) - 10 * k <= HandValue(cards) <= 21
  {
  }

  /**
   * A hand is bust only when even counting every ace as 1 busts it; then every
   * ace already counts 1. HandValue lies between the hard and the soft totals.
   */
  lemma HandValueBounds(cards: seq<Card>)
    ensures HardTotal(cards) <= HandValue(cards) <= SoftTotal(cards)
    ensures HandValue(cards) > 21 ==> HandValue(cards) == HardTotal(cards)
    ensures HandValue(cards) <= 21 <==> HardTotal(cards) <= 21
  {
    SoftIsHardPlusTens(cards);
  }

  /** The blackjack value, computed as the store does: sum, then demote aces while bust. */
  method CalculateHandValue(cards: seq<Card>) returns (total: int)
    ensures total == HandValue(cards)
  {
    total := 0;
    var aces: nat := 0;
    for i := 0 to |cards|
      invariant total == SoftTotal(cards[..i])
      invariant aces == AceCount(cards[..i])
    {
      assert cards[..i + 1][..i] == cards[..i];
      var r := cards[i].rank;
      if IsFace(r) {
        total := total + 10;
      } else if r == Ace {
        aces := aces + 1;
        total := total + 11;
      } else {
        total := total + PipValue(r);
      }
    }
    assert cards[..|cards|] == cards;
    ghost var soft, allAces := total, aces;
    while total > 21 && aces > 0
      invariant aces <= allAces
      invariant total == soft - 10 * (allAces - aces)
      invariant allAces - aces <= DemotionsNeeded(soft)
    {
      total := total - 10;
      aces := aces - 1;
    }
  }

  /** The dealer has blackjack: exactly two cards worth 21. */
  predicate DealerBlackjack(dealerCards: seq<Card>) {
    |dealerCards| == 2 && HandValue(dealerCards) == 21
  }

  /** Two cards total 21 exactly when one is an ace and the other is worth 10. */
  lemma TwoCardBlackjack(a: Card, b: Card)
    ensures DealerBlackjack([a, b]) <==>
      (a.rank == Ace && Points(b.rank) == 10) || (b.rank == Ace && Points(a.rank) == 10)
  {
    TwoCardTotals(a, b);
  }

  /** Two cards total 20 exactly when both are worth 10, or one is an ace and the other a nine. */
  lemma TwoCardTwenty(a: Card, b: Card)
    ensures HandValue([a, b]) == 20 <==>
      (Points(a.rank) == 10 && Points(b.rank) == 10) ||
      (a.rank == Ace && b.rank == Nine) || (a.rank == Nine && b.rank == Ace)
  {
    TwoCardTotals(a, b);
  }

  /** The value of two cards does not depend on their order. */
  lemma TwoCardValueSymmetric(a: Card, b: Card)
    ensures HandValue([a, b]) == HandValue([b, a])
  {
    TwoCardTotals(a, b);
    TwoCardTotals(b, a);
  }

  // ---------------------------------------------------------------------------
  // Perfect Pairs
  // ---------------------------------------------------------------------------

  /**
   * Perfect Pairs multiplier: 25 for an identical pair, 12 for a pair of one
   * colour in two suits, 5 for a pair of two colours, 0 for anything that is
   * not exactly two cards of one rank.
   */
  function ValidatePerfectPairs(cards: seq<Card>): (m: int)
    ensures m in {0, 5, 12, 25}
    ensures m > 0 <==> |cards| == 2 && cards[0].rank == cards[1].rank
    ensures m == 25 <==> |cards| == 2 && cards[0] == cards[1]
    ensures m == 12 <==> (|cards| == 2 && cards[0].rank == cards[1].rank &&
                          cards[0].suit != cards[1].suit &&
                          ColourOf(cards[0].suit) == ColourOf(cards[1].suit))
    ensures m == 5 <==> (|cards| == 2 && cards[0].rank == cards[1].rank &&
                         ColourOf(cards[0].suit) != ColourOf(cards[1].suit))
  {
    if |cards| != 2 || cards[0].rank != cards[1].rank then 0
    else if cards[0].suit == cards[1].suit then 25
    else if ColourOf(cards[0].suit) == ColourOf(cards[1].suit) then 12
    else 5
  }

  /** The Perfect Pairs payout does not depend on the order of the two cards. */
  lemma PerfectPairsSymmetric(a: Card, b: Card)
    ensures ValidatePerfectPairs([a, b]) == ValidatePerfectPairs([b, a])
  {
  }

  // ---------------------------------------------------------------------------
  // 21+3
  // ---------------------------------------------------------------------------

  /** Three values in ascending order (the store sorts the numeric values). */
  function Sort3(a: int, b: int, c: int): (s: seq<int>)
    ensures |s| == 3 && s[0] <= s[1] <= s[2]
    ensures s in {[a, b, c], [a, c, b], [b, a, c], [b, c, a], [c, a, b], [c, b, a]}
  {
    if a <= b then
      if b <= c then [a, b, c] else if a <= c then [a, c, b] else [c, a, b]
    else
      if a <= c then [b, a, c] else if b <= c then [b, c, a] else [c, b, a]
  }

  function Max3(a: int, b: int, c: int): int {
    if a >= b && a >= c then a else if b >= c then b else c
  }

  function Min3(a: int, b: int, c: int): int {
    if a <= b && a <= c then a else if b <= c then b else c
  }

  /** After sorting, the last value minus the first is the spread of the three. */
  lemma SortedSpread(a: int, b: int, c: int)
    ensures Sort3(a, b, c)[2] - Sort3(a, b, c)[0] == Max3(a, b, c) - Min3(a, b, c)
  {
  }

  predicate Flush(a: Card, b: Card, c: Card) {
    a.suit == b.suit && b.suit == c.suit
  }

  predicate ThreeOfAKind(a: Card, b: Card, c: Card) {
    a.rank == b.rank && b.rank == c.rank
  }

  /**
   * The store's straight test: highest poker value minus lowest is 2. Ranks need
   * not differ and aces are only high, so A-2-3 is not a straight and 5-5-7 is.
   */
  predicate Straight(a: Card, b: Card, c: Card) {
    var x, y, z := PokerValue(a.rank), PokerValue(b.rank), PokerValue(c.rank);
    Max3(x, y, z) - Min3(x, y, z) == 2
  }

  /**
   * 21+3 multiplier of the two player cards and the dealer's up card; the first
   * rule that matches wins: suited three of a kind 100, straight flush 40, three
   * of a kind 30, straight 10, flush 5, otherwise 0.
   */
  function ValidatePokerHand(playerCards: seq<Card>, dealerCard: Card): (m: int)
    requires |playerCards| == 2
    ensures m in {0, 5, 10, 30, 40, 100}
  {
    var cards := playerCards + [dealerCard];
    var sameSuit := cards[0].suit == cards[1].suit && cards[1].suit == cards[2].suit;
    var sameRank := cards[0].rank == cards[1].rank && cards[1].rank == cards[2].rank;
    var values := Sort3(PokerValue(cards[0].rank), PokerValue(cards[1].rank), PokerValue(cards[2].rank));
    if sameSuit && sameRank then 100
    else if sameSuit && values[2] - values[0] == 2 then 40
    else if sameRank then 30
    else if values[2] - values[0] == 2 then 10
    else if sameSuit then 5
    else 0
  }

  /** Three of a kind spreads 0, so it is never a straight. */
  lemma ThreeOfAKindIsNoStraight(a: Card, b: Card, c: Card)
    ensures ThreeOfAKind(a, b, c) ==> !Straight(a, b, c)
  {
  }

  /**
   * Every 21+3 payout, characterised by the poker categories of the three cards:
   * each category pays only when no higher-paying category also matches.
   */
  lemma PokerClassification(a: Card, b: Card, c: Card)
    ensures var m := ValidatePokerHand([a, b], c);
      && (m == 100 <==> Flush(a, b, c) && ThreeOfAKind(a, b, c))
      && (m == 40 <==> Flush(a, b, c) && Straight(a, b, c))
      && (m == 30 <==> ThreeOfAKind(a, b, c) && !Flush(a, b, c))
      && (m == 10 <==> Straight(a, b, c) && !Flush(a, b, c))
      && (m == 5 <==> Flush(a, b, c) && !ThreeOfAKind(a, b, c) && !Straight(a, b, c))
      && (m == 0 <==> !Flush(a, b, c) && !ThreeOfAKind(a, b, c) && !Straight(a, b, c))
  {
    var x, y, z := PokerValue(a.rank), PokerValue(b.rank), PokerValue(c.rank);
    SortedSpread(x, y, z);
    ThreeOfAKindIsNoStraight(a, b, c);
    assert ([a, b] + [c])[0] == a && ([a, b] + [c])[1] == b && ([a, b] + [c])[2] == c;
  }

  /** The 21+3 payout depends only on which three cards are dealt, not on who holds which. */
  lemma PokerOrderIrrelevant(a: Card, b: Card, c: Card)
    ensures ValidatePokerHand([a, b], c) == ValidatePokerHand([b, a], c)
    ensures ValidatePokerHand([a, b], c) == ValidatePokerHand([a, c], b)
    ensures ValidatePokerHand([a, b], c) == ValidatePokerHand([c, b], a)
  {
    PokerClassification(a, b, c);
    PokerClassification(b, a, c);
    PokerClassification(a, c, b);
    PokerClassification(c, b, a);
  }

  /** Suited 7-7-7 pays 100, never the 30 of three of a kind or the 5 of a flush. */
  lemma SuitedTripsPayHundred()
    ensures ValidatePokerHand([Card(Seven, Spades), Card(Seven, Spades)], Card(Seven, Spades)) == 100
  {
  }

  /** A-2-3 is no straight; 5-5-7 is a straight, and a straight flush when suited. */
  lemma StraightEdgeCases()
    ensures ValidatePokerHand([Card(Ace, Hearts), Card(Two, Clubs)], Card(Three, Diamonds)) == 0
    ensures ValidatePokerHand([Card(Five, Hearts), Card(Five, Clubs)], Card(Seven, Diamonds)) == 10
    ensures ValidatePokerHand([Card(Five, Clubs), Card(Five, Clubs)], Card(Seven, Clubs)) == 40
    ensures ValidatePokerHand([Card(Queen, Hearts), Card(Ace, Clubs)], Card(King, Hearts)) == 10
  {
  }

  // ---------------------------------------------------------------------------
  // Lucky Ladies
  // ---------------------------------------------------------------------------

  predicate IsQueenOfHearts(c: Card) {
    c.rank == Queen && c.suit == Hearts
  }

  /**
   * Lucky Ladies multiplier of the two player cards: a pair of Queens of Hearts
   * pays 1000 with a dealer blackjack and 200 without; otherwise a total of 20
   * pays 25 when the two cards are identical, 10 when suited and 4 otherwise.
   */
  function ValidateLuckyLadies(playerCards: seq<Card>, dealerHasBlackjack: bool): (m: int)
    ensures m in {0, 4, 10, 25, 200, 1000}
    ensures m > 0 ==> |playerCards| == 2
    ensures m >= 200 <==> (|playerCards| == 2 &&
                           IsQueenOfHearts(playerCards[0]) && IsQueenOfHearts(playerCards[1]))
    ensures m == 1000 ==> dealerHasBlackjack
    ensures |playerCards| == 2 && IsQueenOfHearts(playerCards[0]) && IsQueenOfHearts(playerCards[1]) ==>
              m == (if dealerHasBlackjack then 1000 else 200)
  {
    if |playerCards| != 2 then 0
    else
      var queenPair := IsQueenOfHearts(playerCards[0]) && IsQueenOfHearts(playerCards[1]);
      if queenPair && dealerHasBlackjack then 1000
      else if queenPair then 200
      else if HandValue(playerCards) != 20 then 0
      else if playerCards[0].rank == playerCards[1].rank && playerCards[0].suit == playerCards[1].suit then 25
      else if playerCards[0].suit == playerCards[1].suit then 10
      else 4
  }

  /**
   * Lucky Ladies pays exactly on a two-card 20 (a Queen-of-Hearts pair is one);
   * an identical 20 that is not that pair pays 25, a suited one 10, any other 4.
   */
  lemma LuckyLadiesPaysOnTwenty(a: Card, b: Card, dealerHasBlackjack: bool)
    ensures var m := ValidateLuckyLadies([a, b], dealerHasBlackjack);
      && (m > 0 <==> HandValue([a, b]) == 20)
      && (m == 25 <==> HandValue([a, b]) == 20 && a == b && !IsQueenOfHearts(a))
      && (m == 10 <==> HandValue([a, b]) == 20 && a != b && a.suit == b.suit)
      && (m == 4 <==> HandValue([a, b]) == 20 && a.suit != b.suit)
  {
    TwoCardTwenty(a, b);
  }

  /** The Lucky Ladies payout does not depend on the order of the two cards. */
  lemma LuckyLadiesSymmetric(a: Card, b: Card, dealerHasBlackjack: bool)
    ensures ValidateLuckyLadies([a, b], dealerHasBlackjack) == ValidateLuckyLadies([b, a], dealerHasBlackjack)
  {
    TwoCardValueSymmetric(a, b);
  }

  /** Worked values: A+A is 12, A+K is 21, 5+5+K is 20. */
  lemma HandValueExamples()
    ensures HandValue([Card(Ace, Hearts), Card(Ace, Spades)]) == 12
    ensures HandValue([Card(Ace, Hearts), Card(King, Spades)]) == 21
    ensures HandValue([Card(Five, Hearts), Card(Five, Clubs), Card(King, Spades)]) == 20
  {
    TwoCardTotals(Card(Ace, Hearts), Card(Ace, Spades));
    TwoCardTotals(Card(Ace, Hearts), Card(King, Spades));
    var fives := [Card(Five, Hearts), Card(Five, Clubs)];
    TwoCardTotals(fives[0], fives[1]);
    assert (fives + [Card(King, Spades)])[..2] == fives;
    assert [Card(Five, Hearts), Card(Five, Clubs), Card(King, Spades)] == fives + [Card(King, Spades)];
  }
}
