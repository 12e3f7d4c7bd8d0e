/**
 * The split-hand store: the hands a split produced, which of them is being
 * played, and whether a split is possible or under way.
 */
module SplitHands {
  import opened Cards

  datatype Hand = Hand(cards: seq<Card>, score: int, done: bool, bet: int)

  predicate AllDone(hands: seq<Hand>) {
    forall i :: 0 <= i < |hands| ==> hands[i].done
  }

  class SplitHandsStore {
    var hands: seq<Hand>
    var currentHandIndex: nat
    var canSplit: bool
    var isSplit: bool

    /**
     * The cursor invariant: the cursor points at a hand whenever there are hands,
     * and is 0 when there are none. Every operation preserves it; no operation
     * requires it, since the store runs them on any state.
     */
    ghost predicate Valid()
      reads this
    {
      if hands == [] then currentHandIndex == 0 else currentHandIndex < |hands|
    }

    /** The store's initial state: no hands, cursor 0, no split possible or under way. */
    predicate IsInitial()
      reads this
    {
      hands == [] && currentHandIndex == 0 && !canSplit && !isSplit
    }

    constructor ()
      ensures IsInitial() && Valid()
    {
      hands, currentHandIndex, canSplit, isSplit := [], 0, false, false;
    }

    method Reset()
      modifies this
      ensures IsInitial() && Valid()
    {
      hands, currentHandIndex, canSplit, isSplit := [], 0, false, false;
    }

    /**
     * Splits a pair: two one-card hands, each carrying the full bet, the first
     * one to play; re-splitting is switched off. Every field is overwritten.
     */
    method InitializeSplit(firstCard: Card, secondCard: Card, initialBet: int)
      modifies this
      ensures hands == [Hand([firstCard], 0, false, initialBet), Hand([secondCard], 0, false, initialBet)]
      ensures currentHandIndex == 0 && isSplit && !canSplit
      ensures Valid()
    {
      hands := [Hand([firstCard], 0, false, initialBet), Hand([secondCard], 0, false, initialBet)];
      currentHandIndex := 0;
      isSplit := true;
      canSplit := false;
    }

    /** Deals `card` onto the end of the hand being played; no other hand or field changes. */
    method AddCardToCurrentHand(card: Card)
      requires currentHandIndex < |hands|
      modifies this
      ensures |hands| == old(|hands|) && Valid()
      ensures hands[currentHandIndex].cards == old(hands[currentHandIndex].cards) + [card]
      ensures hands[currentHandIndex].score == old(hands[currentHandIndex].score)
      ensures hands[currentHandIndex].done == old(hands[currentHandIndex].done)
      ensures hands[currentHandIndex].bet == old(hands[currentHandIndex].bet)
      ensures forall i :: 0 <= i < |hands| && i != currentHandIndex ==> hands[i] == old(hands[i])
      ensures currentHandIndex == old(currentHandIndex)
      ensures canSplit == old(canSplit) && isSplit == old(isSplit)
    {
      var hand := hands[currentHandIndex];
      hands := hands[currentHandIndex := hand.(cards := hand.cards + [card])];
    }

    /** Records the score of hand `handIndex`; nothing else changes. */
    method UpdateScore(handIndex: nat, score: int)
      requires handIndex < |hands|
      modifies this
      ensures |hands| == old(|hands|)
      ensures hands[handIndex] == old(hands[handIndex]).(score := score)
      ensures forall i :: 0 <= i < |hands| && i != handIndex ==> hands[i] == old(hands[i])
      ensures currentHandIndex == old(currentHandIndex)
      ensures canSplit == old(canSplit) && isSplit == old(isSplit)
      ensures old(Valid()) ==> Valid()
    {
      hands := hands[handIndex := hands[handIndex].(score := score)];
    }

    /**
     * Marks the hand being played as done and moves to the next hand when there is
     * one; on the last hand the cursor stays. Hands already done are not skipped.
     */
    method FinishCurrentHand()
      requires currentHandIndex < |hands|
      modifies this
      ensures |hands| == old(|hands|) && Valid()
      ensures hands[old(currentHandIndex)] == old(hands[currentHandIndex]).(done := true)
      ensures forall i :: 0 <= i < |hands| && i != old(currentHandIndex) ==> hands[i] == old(hands[i])
      ensures old(currentHandIndex) + 1 < |hands| ==> currentHandIndex == old(currentHandIndex) + 1
      ensures old(currentHandIndex) + 1 == |hands| ==> currentHandIndex == old(currentHandIndex)
      ensures old(currentHandIndex) <= currentHandIndex
      ensures canSplit == old(canSplit) && isSplit == old(isSplit)
    {
      var hand := hands[currentHandIndex];
      hands := hands[currentHandIndex := hand.(done := true)];
      var nextHandIndex := currentHandIndex + 1;
      currentHandIndex := if nextHandIndex < |hands| then nextHandIndex else currentHandIndex;
    }

    /** A split is possible for two cards of one rank, and only when no split is under way. */
    method CheckCanSplit(hand: seq<Card>)
      modifies this
      ensures canSplit <==> |hand| == 2 && hand[0].rank == hand[1].rank && !isSplit
      ensures hands == old(hands) && currentHandIndex == old(currentHandIndex)
      ensures isSplit == old(isSplit)
      ensures old(Valid()) ==> Valid()
    {
      canSplit := |hand| == 2 && hand[0].rank == hand[1].rank && !isSplit;
    }

    /**
     * When every hand is done (trivially so when there are none) the store returns
     * to its initial state; otherwise nothing changes.
     */
    method GetAllHandsDone()
      modifies this
      ensures old(AllDone(hands)) ==> IsInitial()
      ensures !old(AllDone(hands)) ==> unchanged(this)
      ensures old(Valid()) ==> Valid()
    {
      var allDone := forall i :: 0 <= i < |hands| ==> hands[i].done;
      if allDone {
        hands, currentHandIndex, canSplit, isSplit := [], 0, false, false;
      }
    }
  }

  /**
   * A split of a pair of fives with a bet of 50, both hands played to the end:
   * the first finish moves to the second hand, the second stays on it, and the
   * final check returns the store to its initial state.
   */
  method PlaySplitOfFives() returns (store: SplitHandsStore)
    ensures fresh(store) && store.IsInitial()
  {
    store := new SplitHandsStore();
    store.InitializeSplit(Card(Five, Hearts), Card(Five, Clubs), 50);
    assert store.hands[0] == Hand([Card(Five, Hearts)], 0, false, 50);
    store.FinishCurrentHand();
    assert store.currentHandIndex == 1 && !store.hands[1].done;
    assert !AllDone(store.hands);
    store.GetAllHandsDone();
    assert store.hands != [] && store.isSplit;
    store.FinishCurrentHand();
    assert store.currentHandIndex == 1 && store.hands[0].done && store.hands[1].done;
    store.GetAllHandsDone();
  }
}
