/** How a finished round is paid and recorded: the outcome labels, the
    amount credited back to the balance, and the win/game counters. */
module Payout {

  /** The seven ways a round can end. */
  datatype Outcome = Blackjack | Win | DealerBust | Push | Bust | Lose | DealerBlackjack

  /** The category under which the round's message is shown. */
  datatype Verdict = Won | Tied | Lost

  /** Cumulative statistics kept with the balance. */
  datatype Stats = Stats(wins: nat, gamesPlayed: nat)

  function VerdictOf(result: Outcome): (v: Verdict)
    ensures v == Won <==> CountsAsWin(result)
    ensures v == Tied <==> result == Push
  {
    match result
    case Blackjack | Win | DealerBust => Won
    case Push => Tied
    case Bust | Lose | DealerBlackjack => Lost
  }

  /** The outcomes that add one to the win counter. */
  predicate CountsAsWin(result: Outcome)
  {
    result == Blackjack || result == Win || result == DealerBust
  }

  /** What is credited to the balance when a round ends with `result` on a
      bet of `bet` (the bet itself was taken from the balance when placed). */
  function Winnings(result: Outcome, bet: nat): (w: real)
    ensures 0.0 <= w <= 2.5 * bet as real
  {
    match result
    case Blackjack => bet as real * 2.5
    case Win => bet as real * 2.0
    case DealerBust => bet as real * 2.0
    case Push => bet as real
    case Bust => 0.0
    case Lose => 0.0
    case DealerBlackjack => 0.0
  }

  /** The statistics after one more round ending with `result`. */
  function Record(stats: Stats, result: Outcome): (r: Stats)
    ensures r.gamesPlayed == stats.gamesPlayed + 1
    ensures r.wins == stats.wins || r.wins == stats.wins + 1
    ensures r.wins == stats.wins + 1 <==> VerdictOf(result) == Won
    ensures stats.wins <= stats.gamesPlayed ==> r.wins <= r.gamesPlayed
  {
    var won := if CountsAsWin(result) then 1 else 0;
    Stats(stats.wins + won, stats.gamesPlayed + 1)
  }

  /** On a real bet, the credit tells the category apart: a win pays back
      more than the stake, a push exactly the stake, a loss nothing. */
  lemma WinningsMatchVerdict(result: Outcome, bet: nat)
    requires bet > 0
    ensures VerdictOf(result) == Won <==> Winnings(result, bet) > bet as real
    ensures VerdictOf(result) == Tied <==> Winnings(result, bet) == bet as real
    ensures VerdictOf(result) == Lost <==> Winnings(result, bet) == 0.0
  {
  }

  /** The natural pays three to two on top of the returned stake. */
  lemma BlackjackPaysThreeToTwo(bet: nat)
    ensures 2.0 * (Winnings(Blackjack, bet) - bet as real) == 3.0 * bet as real
  {
  }
}
