/** Playing cards as the blackjack stores see them: a rank and a suit. */
module Cards {

  datatype Suit = Hearts | Diamonds | Clubs | Spades

  datatype Colour = Red | Black

  datatype Rank =
    | Two | Three | Four | Five | Six | Seven | Eight | Nine | Ten
    | Jack | Queen | King | Ace

  datatype Card = Card(rank: Rank, suit: Suit)

  /** Hearts and diamonds are red, clubs and spades black. */
  function ColourOf(s: Suit): Colour {
    if s == Hearts || s == Diamonds then Red else Black
  }

  predicate IsFace(r: Rank) {
    r == Jack || r == Queen || r == King
  }

  /** The number printed on a number card (what `parseInt` reads from its value). */
  function PipValue(r: Rank): (v: int)
    requires !IsFace(r) && r != Ace
    ensures 2 <= v <= 10
  {
    match r
    case Two => 2
    case Three => 3
    case Four => 4
    case Five => 5
    case Six => 6
    case Seven => 7
    case Eight => 8
    case Nine => 9
    case Ten => 10
  }

  /** Blackjack points before any ace is demoted: faces 10, an ace 11, a number card its number. */
  function Points(r: Rank): (p: int)
    ensures 2 <= p <= 11
    ensures p == 11 <==> r == Ace
    ensures p == 10 <==> r == Ten || IsFace(r)
  {
    if IsFace(r) then 10
    else if r == Ace then 11
    else PipValue(r)
  }

  /** Poker order used for straights: A = 14, K = 13, Q = 12, J = 11, otherwise the number; aces are only high. */
  function PokerValue(r: Rank): (v: int)
    ensures 2 <= v <= 14
    ensures v == 14 <==> r == Ace
  {
    if r == Ace then 14
    else if r == King then 13
    else if r == Queen then 12
    else if r == Jack then 11
    else PipValue(r)
  }

  /** Two ranks have the same poker value exactly when they are the same rank. */
  lemma PokerValueInjective(r: Rank, s: Rank)
    ensures PokerValue(r) == PokerValue(s) <==> r == s
  {
  }
}
