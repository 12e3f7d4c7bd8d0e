/**
 * The betting store: the player's balance, the main bet on the table and the
 * flags that drive the betting controls. Amounts are never checked.
 */
module Betting {

  datatype BettingState = BettingState(
    balance: int,
    currentBet: int,
    canBet: bool,
    showBettingUI: bool,
    needsBet: bool)

  /** The player's money, whether in hand or on the table. */
  function Stake(s: BettingState): int {
    s.balance + s.currentBet
  }

  /** The starting state, also restored by reset: 1000 in hand, nothing bet, betting open, controls hidden. */
  function InitialState(): (s: BettingState)
    ensures Stake(s) == 1000 && s.currentBet == 0
    ensures s.canBet && s.needsBet && !s.showBettingUI
  {
    BettingState(1000, 0, true, false, true)
  }

  /** Moves `amount` from the balance onto the table, unchecked; a bet is now placed. */
  function PlaceBet(s: BettingState, amount: int): (r: BettingState)
    ensures Stake(r) == Stake(s)
    ensures r.currentBet - s.currentBet == amount
    ensures !r.needsBet
    ensures r.canBet == s.canBet && r.showBettingUI == s.showBettingUI
  {
    s.(currentBet := s.currentBet + amount, balance := s.balance - amount, needsBet := false)
  }

  /** Takes the bet back into the balance; a bet is needed again. */
  function ClearBet(s: BettingState): (r: BettingState)
    ensures Stake(r) == Stake(s) && r.currentBet == 0
    ensures r.needsBet
    ensures r.canBet == s.canBet && r.showBettingUI == s.showBettingUI
  {
    s.(balance := s.balance + s.currentBet, currentBet := 0, needsBet := true)
  }

  /** Shows or hides the betting controls; nothing else changes. */
  function ToggleBettingUI(s: BettingState): (r: BettingState)
    ensures r.showBettingUI != s.showBettingUI
    ensures r.balance == s.balance && r.currentBet == s.currentBet
    ensures r.canBet == s.canBet && r.needsBet == s.needsBet
  {
    s.(showBettingUI := !s.showBettingUI)
  }

  /** Opens or closes betting, which also says whether a bet is needed, and hides the controls. */
  function SetBetState(s: BettingState, canBet: bool): (r: BettingState)
    ensures r.canBet == canBet && r.needsBet == canBet && !r.showBettingUI
    ensures r.balance == s.balance && r.currentBet == s.currentBet
  {
    s.(canBet := canBet, showBettingUI := false, needsBet := canBet)
  }

  /** A settled round leaves nothing on the table and betting open for the next one. */
  predicate Settled(r: BettingState, s: BettingState) {
    r.currentBet == 0 && r.canBet && r.needsBet && r.showBettingUI == s.showBettingUI
  }

  /** The main bet wins: the stake and as much again return to the balance. */
  function Win(s: BettingState): (r: BettingState)
    ensures Stake(r) == Stake(s) + s.currentBet
    ensures Settled(r, s)
  {
    s.(balance := s.balance + s.currentBet * 2, currentBet := 0, canBet := true, needsBet := true)
  }

  /** The main bet loses: the stake, already taken from the balance, is forfeited. */
  function Lose(s: BettingState): (r: BettingState)
    ensures Stake(r) == Stake(s) - s.currentBet && r.balance == s.balance
    ensures Settled(r, s)
  {
    s.(currentBet := 0, canBet := true, needsBet := true)
  }

  /** A tie: the stake returns to the balance. */
  function Push(s: BettingState): (r: BettingState)
    ensures Stake(r) == Stake(s)
    ensures Settled(r, s)
  {
    s.(balance := s.balance + s.currentBet, currentBet := 0, canBet := true, needsBet := true)
  }

  /**
   * From an empty table, betting `a` and then winning, losing or pushing changes
   * the balance by `a`, by `-a` and by nothing.
   */
  lemma RoundOutcomes(s: BettingState, a: int)
    requires s.currentBet == 0
    ensures Win(PlaceBet(s, a)).balance == s.balance + a
    ensures Lose(PlaceBet(s, a)).balance == s.balance - a
    ensures Push(PlaceBet(s, a)).balance == s.balance
  {
  }

  /** Nothing stops a bet larger than the balance: betting 1500 from the start leaves -500. */
  lemma OverdrawnBet()
    ensures PlaceBet(InitialState(), 1500).balance == -500
  {
  }

  /** Winning 50 bet from the starting 1000 ends at 1050 with nothing on the table. */
  lemma WinFromStart()
    ensures Win(PlaceBet(InitialState(), 50)) == InitialState().(balance := 1050)
  {
  }

  /** Clearing a bet undoes placing it, apart from the bet-needed flag it raises. */
  lemma ClearUndoesPlace(s: BettingState, a: int)
    requires s.currentBet == 0
    ensures ClearBet(PlaceBet(s, a)) == s.(needsBet := true)
  {
  }

  /** Toggling the controls twice restores the state. */
  lemma ToggleTwice(s: BettingState)
    ensures ToggleBettingUI(ToggleBettingUI(s)) == s
  {
  }
}
