/**
 * The side-bet store: one amount, availability flag and table maximum per side
 * bet, a newest-first history of settled bets, and the transitions that change them.
 */
module SideBetStore {
  import opened Cards
  import opened SideBetRules

  datatype BetType = Insurance | PerfectPairs | Poker | LuckyLadies

  /** The order in which the store settles the bets. */
  const BetOrder: seq<BetType> := [Insurance, PerfectPairs, Poker, LuckyLadies]

  function OrderIndex(t: BetType): (i: nat)
    ensures i < |BetOrder| && BetOrder[i] == t
  {
    match t
    case Insurance => 0
    case PerfectPairs => 1
    case Poker => 2
    case LuckyLadies => 3
  }

  /** One side bet; its display name, description and payout text are not modelled. */
  datatype SideBet = SideBet(amount: int, isAvailable: bool, maxBet: int)

  datatype Bets = Bets(insurance: SideBet, perfectPairs: SideBet, poker: SideBet, luckyLadies: SideBet)
  {
    function Get(t: BetType): SideBet {
      match t
      case Insurance => insurance
      case PerfectPairs => perfectPairs
      case Poker => poker
      case LuckyLadies => luckyLadies
    }

    /** These bets with the bet of type `t` replaced by `b`. */
    function Set(t: BetType, b: SideBet): (r: Bets)
      ensures r.Get(t) == b
      ensures forall u :: u != t ==> r.Get(u) == Get(u)
    {
      match t
      case Insurance => this.(insurance := b)
      case PerfectPairs => this.(perfectPairs := b)
      case Poker => this.(poker := b)
      case LuckyLadies => this.(luckyLadies := b)
    }
  }

  /** Bets that agree on every type are equal. */
  lemma BetsExtensional(x: Bets, y: Bets)
    requires forall t :: x.Get(t) == y.Get(t)
    ensures x == y
  {
    assert x.Get(Insurance) == y.Get(Insurance);
    assert x.Get(PerfectPairs) == y.Get(PerfectPairs);
    assert x.Get(Poker) == y.Get(Poker);
    assert x.Get(LuckyLadies) == y.Get(LuckyLadies);
  }

  datatype Outcome = Won | Lost

  /** A settled side bet; `timestamp` is the clock reading supplied by the caller. */
  datatype HistoryEntry = HistoryEntry(betType: BetType, amount: int, result: Outcome, payout: int, timestamp: int)

  datatype SideBetState = SideBetState(bets: Bets, history: seq<HistoryEntry>, showSideBets: bool)

  /** The history keeps at most this many entries. */
  const HistoryLimit: nat := 50

  /**
   * The state the store starts in and returns to on reset: nothing wagered, no
   * history, the panel hidden, insurance closed (maximum 0) and the other three
   * bets open with a maximum of 100.
   */
  function InitialState(): (s: SideBetState)
    ensures forall t :: s.bets.Get(t).amount == 0
    ensures forall t :: s.bets.Get(t).isAvailable <==> t != Insurance
    ensures forall t :: s.bets.Get(t).maxBet == if t == Insurance then 0 else 100
    ensures s.history == [] && !s.showSideBets
  {
    SideBetState(
      Bets(SideBet(0, false, 0), SideBet(0, true, 100), SideBet(0, true, 100), SideBet(0, true, 100)),
      [],
      false)
  }

  // ---------------------------------------------------------------------------
  // Reducers
  // ---------------------------------------------------------------------------

  /** Shows or hides the side-bet panel; nothing else changes. */
  function ToggleSideBets(s: SideBetState): (r: SideBetState)
    ensures r.showSideBets != s.showSideBets
    ensures r.bets == s.bets && r.history == s.history
  {
    s.(showSideBets := !s.showSideBets)
  }

  /** Adds `amount` (unchecked) to the wager on `t`; every other field is kept. */
  function PlaceBet(s: SideBetState, t: BetType, amount: int): (r: SideBetState)
    ensures r.bets.Get(t).amount - s.bets.Get(t).amount == amount
    ensures r.bets.Get(t).isAvailable == s.bets.Get(t).isAvailable
    ensures r.bets.Get(t).maxBet == s.bets.Get(t).maxBet
    ensures forall u :: u != t ==> r.bets.Get(u) == s.bets.Get(u)
    ensures r.history == s.history && r.showSideBets == s.showSideBets
  {
    var b := s.bets.Get(t);
    s.(bets := s.bets.Set(t, b.(amount := b.amount + amount)))
  }

  /** Withdraws the wager on `t`; every other field is kept. */
  function ClearBet(s: SideBetState, t: BetType): (r: SideBetState)
    ensures r.bets.Get(t).amount == 0
    ensures r.bets.Get(t).isAvailable == s.bets.Get(t).isAvailable
    ensures r.bets.Get(t).maxBet == s.bets.Get(t).maxBet
    ensures forall u :: u != t ==> r.bets.Get(u) == s.bets.Get(u)
    ensures r.history == s.history && r.showSideBets == s.showSideBets
  {
    s.(bets := s.bets.Set(t, s.bets.Get(t).(amount := 0)))
  }

  /** Opens or closes the bet `t`; every other field is kept. */
  function SetAvailability(s: SideBetState, t: BetType, isAvailable: bool): (r: SideBetState)
    ensures r.bets.Get(t).isAvailable == isAvailable
    ensures r.bets.Get(t).amount == s.bets.Get(t).amount
    ensures r.bets.Get(t).maxBet == s.bets.Get(t).maxBet
    ensures forall u :: u != t ==> r.bets.Get(u) == s.bets.Get(u)
    ensures r.history == s.history && r.showSideBets == s.showSideBets
  {
    s.(bets := s.bets.Set(t, s.bets.Get(t).(isAvailable := isAvailable)))
  }

  /** Toggling the panel twice restores the state. */
  lemma ToggleTwice(s: SideBetState)
    ensures ToggleSideBets(ToggleSideBets(s)) == s
  {
  }

  /** Two wagers on one bet add up. */
  lemma PlaceBetAccumulates(s: SideBetState, t: BetType, a: int, b: int)
    ensures PlaceBet(PlaceBet(s, t, a), t, b) == PlaceBet(s, t, a + b)
  {
    BetsExtensional(PlaceBet(PlaceBet(s, t, a), t, b).bets, PlaceBet(s, t, a + b).bets);
  }

  /** Clearing a bet discards whatever was wagered on it before. */
  lemma ClearUndoesPlace(s: SideBetState, t: BetType, a: int)
    ensures ClearBet(PlaceBet(s, t, a), t) == ClearBet(s, t)
  {
    BetsExtensional(ClearBet(PlaceBet(s, t, a), t).bets, ClearBet(s, t).bets);
  }

  /** Wagers on two different bets do not interfere. */
  lemma PlaceBetsCommute(s: SideBetState, t: BetType, u: BetType, a: int, b: int)
    ensures PlaceBet(PlaceBet(s, t, a), u, b) == PlaceBet(PlaceBet(s, u, b), t, a)
  {
    BetsExtensional(PlaceBet(PlaceBet(s, t, a), u, b).bets, PlaceBet(PlaceBet(s, u, b), t, a).bets);
  }

  // ---------------------------------------------------------------------------
  // Settlement
  // ---------------------------------------------------------------------------

  /** A bet is settled this round when money is on it; 21+3 also needs a dealer card. */
  predicate Active(bets: Bets, t: BetType, dealerCards: seq<Card>) {
    bets.Get(t).amount > 0 && (t == Poker ==> |dealerCards| > 0)
  }

  /** What the store needs to settle: 21+3 is scored on exactly two player cards. */
  predicate CanSettle(bets: Bets, playerCards: seq<Card>, dealerCards: seq<Card>) {
    Active(bets, Poker, dealerCards) ==> |playerCards| == 2
  }

  /** The payout multiplier of bet type `t` for the dealt cards. */
  function Multiplier(t: BetType, playerCards: seq<Card>, dealerCards: seq<Card>): (m: int)
    requires t == Poker ==> |dealerCards| > 0 && |playerCards| == 2
    ensures m >= 0
    ensures t == Insurance ==> (m > 0 <==> DealerBlackjack(dealerCards))
  {
    match t
    case Insurance => if DealerBlackjack(dealerCards) then 2 else 0
    case PerfectPairs => ValidatePerfectPairs(playerCards)
    case Poker => ValidatePokerHand(playerCards, dealerCards[0])
    case LuckyLadies => ValidateLuckyLadies(playerCards, DealerBlackjack(dealerCards))
  }

  /** The history entry for `amount` wagered on `t` at multiplier `m`. */
  function Settle(t: BetType, amount: int, m: int, now: int): HistoryEntry {
    HistoryEntry(t, amount, if m > 0 then Won else Lost, amount * m, now)
  }

  /** The entry for bet `t` if it is settled this round, else nothing. */
  function EntryFor(bets: Bets, t: BetType, playerCards: seq<Card>, dealerCards: seq<Card>, now: int): (e: seq<HistoryEntry>)
    requires CanSettle(bets, playerCards, dealerCards)
    ensures |e| <= 1
  {
    if Active(bets, t, dealerCards)
    then [Settle(t, bets.Get(t).amount, Multiplier(t, playerCards, dealerCards), now)]
    else []
  }

  /** The entries of one settlement, in settling order. */
  function RoundEntries(bets: Bets, playerCards: seq<Card>, dealerCards: seq<Card>, now: int): seq<HistoryEntry>
    requires CanSettle(bets, playerCards, dealerCards)
  {
    EntryFor(bets, Insurance, playerCards, dealerCards, now)
    + EntryFor(bets, PerfectPairs, playerCards, dealerCards, now)
    + EntryFor(bets, Poker, playerCards, dealerCards, now)
    + EntryFor(bets, LuckyLadies, playerCards, dealerCards, now)
  }

  /** The first `n` elements of `s`, or all of `s` when it is shorter. */
  function Take<T>(s: seq<T>, n: nat): (r: seq<T>)
    ensures |r| <= n && |r| <= |s|
    ensures |r| == n || |r| == |s|
    ensures r == s[..|r|]
  {
    if |s| <= n then s else s[..n]
  }

  lemma PositiveProduct(a: int, m: int)
    requires a > 0 && m >= 0
    ensures a * m >= 0
    ensures a * m > 0 <==> m > 0
  {
    if m > 0 {
      assert a * m >= m;
    }
  }

  /**
   * One entry per active bet and no other: at most four, in the order Insurance,
   * Perfect Pairs, 21+3, Lucky Ladies; each records the wager, pays wager times the
   * bet's multiplier, is Won exactly when it pays, and carries the given time.
   */
  lemma RoundEntriesSound(bets: Bets, playerCards: seq<Card>, dealerCards: seq<Card>, now: int)
    requires CanSettle(bets, playerCards, dealerCards)
    ensures var es := RoundEntries(bets, playerCards, dealerCards, now);
      && |es| <= 4
      && (forall i, j :: 0 <= i < j < |es| ==> OrderIndex(es[i].betType) < OrderIndex(es[j].betType))
      && (forall t :: Active(bets, t, dealerCards) <==> exists i :: 0 <= i < |es| && es[i].betType == t)
      && (forall i :: 0 <= i < |es| ==>
            var e := es[i];
            && Active(bets, e.betType, dealerCards)
            && e.amount == bets.Get(e.betType).amount
            && e.payout == e.amount * Multiplier(e.betType, playerCards, dealerCards)
            && e.payout >= 0
            && (e.result == Won <==> e.payout > 0)
            && e.timestamp == now)
  {
    var es := RoundEntries(bets, playerCards, dealerCards, now);
    var e0 := EntryFor(bets, Insurance, playerCards, dealerCards, now);
    var e1 := EntryFor(bets, PerfectPairs, playerCards, dealerCards, now);
    var e2 := EntryFor(bets, Poker, playerCards, dealerCards, now);
    var e3 := EntryFor(bets, LuckyLadies, playerCards, dealerCards, now);
    assert es == e0 + e1 + e2 + e3;
    forall i | 0 <= i < |es|
      ensures OrderIndex(es[i].betType) >= (if i < |e0| then 0 else if i < |e0| + |e1| then 1 else if i < |e0| + |e1| + |e2| then 2 else 3)
      ensures OrderIndex(es[i].betType) <= (if i < |e0| then 0 else if i < |e0| + |e1| then 1 else if i < |e0| + |e1| + |e2| then 2 else 3)
      ensures Active(bets, es[i].betType, dealerCards)
      ensures es[i].amount == bets.Get(es[i].betType).amount
      ensures es[i].payout == es[i].amount * Multiplier(es[i].betType, playerCards, dealerCards)
      ensures es[i].payout >= 0 && (es[i].result == Won <==> es[i].payout > 0)
      ensures es[i].timestamp == now
    {
      var t := es[i].betType;
      PositiveProduct(es[i].amount, Multiplier(t, playerCards, dealerCards));
    }
    forall t | Active(bets, t, dealerCards)
      ensures exists i :: 0 <= i < |es| && es[i].betType == t
    {
      var k := if t == Insurance then 0 else if t == PerfectPairs then |e0|
        else if t == Poker then |e0| + |e1| else |e0| + |e1| + |e2|;
      assert es[k].betType == t;
    }
  }

  /** Insurance pays twice the wager on a dealer blackjack and nothing otherwise. */
  lemma InsurancePayout(bets: Bets, playerCards: seq<Card>, dealerCards: seq<Card>, now: int)
    requires CanSettle(bets, playerCards, dealerCards)
    requires bets.insurance.amount > 0
    ensures var e := RoundEntries(bets, playerCards, dealerCards, now)[0];
      && e.betType == Insurance
      && e.payout == (if DealerBlackjack(dealerCards) then 2 * bets.insurance.amount else 0)
      && (e.result == Won <==> DealerBlackjack(dealerCards))
  {
  }

  /** Without a dealer card the 21+3 bet is not settled and leaves no entry. */
  lemma PokerSkippedWithoutDealerCard(bets: Bets, playerCards: seq<Card>, now: int)
    requires CanSettle(bets, playerCards, [])
    ensures forall e :: e in RoundEntries(bets, playerCards, [], now) ==> e.betType != Poker
  {
  }

  /** Whether the dealer holds blackjack, computed with the store's own hand-value steps. */
  method DealerHasBlackjack(dealerCards: seq<Card>) returns (b: bool)
    ensures b == DealerBlackjack(dealerCards)
  {
    b := false;
    if |dealerCards| == 2 {
      var total := CalculateHandValue(dealerCards);
      b := total == 21;
    }
  }

  /**
   * Settles every side bet with money on it against the dealt cards in one step:
   * the new entries go in front of the history, which keeps its first 50 entries;
   * every wager returns to 0 whether or not it was settled; availability, table
   * maxima and the panel flag stay. `mainBet` is accepted and has no effect; `now`
   * is the time stamped on the entries.
   */
  method EvaluateBets(state: SideBetState, playerCards: seq<Card>, dealerCards: seq<Card>, mainBet: int, now: int)
    returns (next: SideBetState)
    requires CanSettle(state.bets, playerCards, dealerCards)
    ensures next.history == Take(RoundEntries(state.bets, playerCards, dealerCards, now) + state.history, HistoryLimit)
    ensures |next.history| <= HistoryLimit
    ensures forall t :: next.bets.Get(t) == state.bets.Get(t).(amount := 0)
    ensures next.showSideBets == state.showSideBets
  {
    var results: seq<HistoryEntry> := [];
    var bets := state.bets;

    if bets.insurance.amount > 0 {
      var dealerHasBlackjack := DealerHasBlackjack(dealerCards);
      var payout := if dealerHasBlackjack then bets.insurance.amount * 2 else 0;
      results := results + [HistoryEntry(Insurance, bets.insurance.amount,
                                         if dealerHasBlackjack then Won else Lost, payout, now)];
    }
    assert results == EntryFor(state.bets, Insurance, playerCards, dealerCards, now);

    if bets.perfectPairs.amount > 0 {
      var multiplier := ValidatePerfectPairs(playerCards);
      var payout := bets.perfectPairs.amount * multiplier;
      results := results + [HistoryEntry(PerfectPairs, bets.perfectPairs.amount,
                                         if multiplier > 0 then Won else Lost, payout, now)];
    }
    assert results == EntryFor(state.bets, Insurance, playerCards, dealerCards, now)
                      + EntryFor(state.bets, PerfectPairs, playerCards, dealerCards, now);

    if bets.poker.amount > 0 && |dealerCards| > 0 {
      var multiplier := ValidatePokerHand(playerCards, dealerCards[0]);
      var payout := bets.poker.amount * multiplier;
      results := results + [HistoryEntry(Poker, bets.poker.amount,
                                         if multiplier > 0 then Won else Lost, payout, now)];
    }
    assert results == EntryFor(state.bets, Insurance, playerCards, dealerCards, now)
                      + EntryFor(state.bets, PerfectPairs, playerCards, dealerCards, now)
                      + EntryFor(state.bets, Poker, playerCards, dealerCards, now);

    if bets.luckyLadies.amount > 0 {
      var dealerHasBlackjack := DealerHasBlackjack(dealerCards);
      var multiplier := ValidateLuckyLadies(playerCards, dealerHasBlackjack);
      var payout := bets.luckyLadies.amount * multiplier;
      results := results + [HistoryEntry(LuckyLadies, bets.luckyLadies.amount,
                                         if multiplier > 0 then Won else Lost, payout, now)];
    }
    assert results == RoundEntries(state.bets, playerCards, dealerCards, now);

    // Reset all bet amounts
    for i := 0 to |BetOrder|
      invariant forall j :: 0 <= j < i ==> bets.Get(BetOrder[j]) == state.bets.Get(BetOrder[j]).(amount := 0)
      invariant forall j :: i <= j < |BetOrder| ==> bets.Get(BetOrder[j]) == state.bets.Get(BetOrder[j])
    {
      var t := BetOrder[i];
      bets := bets.Set(t, bets.Get(t).(amount := 0));
    }
    forall t ensures bets.Get(t) == state.bets.Get(t).(amount := 0) {
      assert BetOrder[OrderIndex(t)] == t;
    }

    next := SideBetState(bets, Take(results + state.history, HistoryLimit), state.showSideBets);
  }
}
