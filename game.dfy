/** One player's blackjack table: the deck, the two hands, the bet, the
    balance with its statistics, and the round's state machine. */
module Game {
  import opened Cards
  import opened Deck
  import opened Hand
  import opened Payout

  datatype Option<T> = None | Some(value: T)

  /** The phases of a round. `GameOver` is entered by every round's end and
      left at once unless the balance has run out. */
  datatype GameState = Betting | Playing | DealerTurn | GameOver

  /** The result of comparing the final hands once the dealer has played. */
  function Winner(playerValue: int, dealerValue: int): (result: Outcome)
    ensures result == DealerBust <==> dealerValue > 21
    ensures dealerValue <= 21 ==> (result == Win <==> playerValue > dealerValue)
    ensures dealerValue <= 21 ==> (result == Lose <==> playerValue < dealerValue)
    ensures dealerValue <= 21 ==> (result == Push <==> playerValue == dealerValue)
  {
    if dealerValue > 21 then DealerBust
    else if playerValue > dealerValue then Win
    else if dealerValue > playerValue then Lose
    else Push
  }

  /** The check for naturals after the deal: which outcome, if any, ends the
      round at once. */
  function NaturalCheck(playerValue: int, dealerValue: int): (result: Option<Outcome>)
    ensures result == None <==> playerValue != 21 && dealerValue != 21
    ensures result == Some(Push) <==> playerValue == 21 && dealerValue == 21
    ensures result == Some(Blackjack) <==> playerValue == 21 && dealerValue != 21
    ensures result == Some(DealerBlackjack) <==> playerValue != 21 && dealerValue == 21
  {
    if playerValue == 21 && dealerValue == 21 then Some(Push)
    else if playerValue == 21 then Some(Blackjack)
    else if dealerValue == 21 then Some(DealerBlackjack)
    else None
  }

  /** The deal only runs the natural check when the player holds 21, so the
      check then always ends the round, and never as a dealer blackjack. */
  lemma NaturalCheckAfterDeal(dealerValue: int)
    ensures NaturalCheck(21, dealerValue) == if dealerValue == 21 then Some(Push) else Some(Blackjack)
  {
  }

  class BlackjackGame {
    var deck: seq<Card>
    var playerHand: seq<Card>
    var dealerHand: seq<Card>
    var currentBet: nat
    var balance: real
    var stats: Stats
    var gameState: GameState

    /** What holds at every step of the engine, including inside the dealer's turn. */
    ghost predicate Consistent()
      reads this
    {
      && balance >= 0.0
      && PartOfOneDeck(deck)
      && AllWellFormed(playerHand)
      && AllWellFormed(dealerHand)
      && (gameState == GameOver ==> balance == 0.0 && currentBet == 0)
      && (gameState == Playing || gameState == DealerTurn ==> currentBet > 0)
    }

    /** What holds whenever the engine waits for the player: the dealer's
      turn is never pending, and a player who may still act is under 21. */
    ghost predicate Valid()
      reads this
    {
      && Consistent()
      && gameState != DealerTurn
      && (gameState == Playing ==> HandValue(playerHand) < 21)
    }

    /** A round has been settled with `result`, from the balance, bet and
      statistics it started from. */
    ghost predicate Settled(result: Outcome, balance0: real, bet0: nat, stats0: Stats)
      reads this
    {
      && balance == balance0 + Winnings(result, bet0)
      && currentBet == 0
      && stats == Record(stats0, result)
      && gameState == (if balance == 0.0 then GameOver else Betting)
    }

    /** The dealer kept `before` and drew only while under 17, ending at 17 or more. */
    ghost predicate DealerDrewTo17(before: seq<Card>)
      reads this
    {
      DrawnUnder17(before, dealerHand) && HandValue(dealerHand) >= 17
    }

    /** A table restored with a saved balance and statistics, a shuffled
      deck, empty hands and no bet. */
    constructor (savedBalance: nat, savedStats: Stats)
      ensures Valid()
      ensures |deck| == 52 && FullDeck(deck)
      ensures playerHand == [] && dealerHand == [] && currentBet == 0
      ensures balance == savedBalance as real && stats == savedStats && gameState == Betting
    {
      deck := [];
      playerHand := [];
      dealerHand := [];
      currentBet := 0;
      balance := savedBalance as real;
      stats := savedStats;
      gameState := Betting;
      new;
      ghost var built, picks := CreateDeck();
    }

    /** Builds the 52 cards suit by suit and rank by rank, then shuffles them. */
    method CreateDeck() returns (ghost built: seq<Card>, ghost picks: seq<nat>)
      modifies this`deck
      ensures built == FreshDeck() && FullDeck(built)
      ensures ValidPicks(picks, 52) && deck == FisherYates(built, picks)
      ensures |deck| == 52 && FullDeck(deck)
    {
      deck := [];
      for i := 0 to |Suits|
        invariant deck == DeckOf(Suits[..i], Ranks)
      {
        for j := 0 to |Ranks|
          invariant deck == DeckOf(Suits[..i], Ranks) + Row(Suits[i], Ranks[..j])
        {
          assert Ranks[..j + 1][..j] == Ranks[..j];
          deck := deck + [Card(Suits[i], Ranks[j], CardValue(Ranks[j]))];
        }
        assert Suits[..i + 1][..i] == Suits[..i];
        assert Ranks[..|Ranks|] == Ranks;
      }
      assert Suits[..|Suits|] == Suits;
      assert deck == FreshDeck();
      FreshDeckIsFull();
      built := deck;
      picks := ShuffleDeck();
      ReorderedFullDeck(built, deck);
    }

    /** The in-place Fisher–Yates loop: for each index from the last down to
      1, swap it with a position chosen at random in [0, i]. */
    method ShuffleDeck() returns (ghost picks: seq<nat>)
      modifies this`deck
      ensures ValidPicks(picks, |old(deck)|)
      ensures deck == FisherYates(old(deck), picks)
      ensures |deck| == |old(deck)| && multiset(deck) == multiset(old(deck))
    {
      ghost var s := deck;
      picks := seq(|deck|, k => 0);
      var i := |deck| - 1;
      while i > 0
        invariant 0 <= i + 1 <= |s| && (|s| > 0 ==> i >= 0)
        invariant ValidPicks(picks, |s|)
        invariant i + 1 >= 1 ==> deck == Swept(s, picks, i + 1)
        invariant i + 1 == 0 ==> deck == s
      {
        var j :| 0 <= j <= i;
        SweptFrame(s, picks, picks[i := j], i + 1);
        picks := picks[i := j];
        deck := deck[i := deck[j]][j := deck[i]];
        i := i - 1;
      }
      FisherYatesPermutes(s, picks);
    }

    /** Takes the last card of the deck, first rebuilding the deck if it is empty. */
    method DrawCard() returns (card: Card)
      requires PartOfOneDeck(deck)
      modifies this`deck
      ensures PartOfOneDeck(deck)
      ensures WellFormed(card)
      ensures old(deck) != [] ==> old(deck) == deck + [card]
      ensures old(deck) == [] ==>
                |deck| == 51 && FullDeck(deck + [card])
    {
      if |deck| == 0 {
        ghost var built, picks := CreateDeck();
      }
      card := deck[|deck| - 1];
      assert deck == deck[..|deck| - 1] + [card];
      deck := deck[..|deck| - 1];
      PopKeepsPartOfOneDeck(deck, card);
    }

    /** `DrawCard`, with a record of the draws since `deck0` extended by
      the card; the deck may have been rebuilt once, but not run out again. */
    method DrawNext(ghost deck0: seq<Card>, ghost drawn: seq<Card>) returns (card: Card)
      requires PartOfOneDeck(deck) && DealtFrom(deck0, deck, drawn) && |drawn| < |deck0| + 52
      modifies this`deck
      ensures PartOfOneDeck(deck) && WellFormed(card)
      ensures DealtFrom(deck0, deck, drawn + [card])
    {
      ghost var rest := deck;
      DealtFromLeaves(deck0, rest, drawn);
      card := DrawCard();
      DealOneMore(deck0, rest, drawn, deck, card);
    }

    /** Moves `amount` from the balance to the bet, but only while betting
      and only if the balance covers it. */
    method PlaceBet(amount: nat)
      requires Valid()
      modifies this`currentBet, this`balance
      ensures Valid()
      ensures balance + currentBet as real == old(balance + currentBet as real)
      ensures if old(gameState) == Betting && amount as real <= old(balance)
              then currentBet == old(currentBet) + amount && balance == old(balance) - amount as real
              else currentBet == old(currentBet) && balance == old(balance)
    {
      if gameState != Betting {
        return;
      }
      if amount as real > balance {
        return;
      }
      currentBet := currentBet + amount;
      balance := balance - amount as real;
    }

    /** Deals a new round when a bet stands: two cards each, in the order
      player, dealer, player, dealer; a player natural settles at once. */
    method StartNewRound()
      requires Valid()
      modifies this
      ensures Valid()
      ensures old(currentBet) == 0 ==> unchanged(this)
      ensures old(currentBet) != 0 ==> |playerHand| == 2 && |dealerHand| == 2
      ensures old(currentBet) != 0 ==>
                DealtFrom(old(deck), deck, [playerHand[0], dealerHand[0], playerHand[1], dealerHand[1]])
      ensures old(currentBet) != 0 ==>
                if HandValue(playerHand) == 21
                then Settled(NaturalCheck(21, HandValue(dealerHand)).value, old(balance), old(currentBet), old(stats))
                else gameState == Playing && balance == old(balance) && currentBet == old(currentBet) && stats == old(stats)
    {
      if currentBet == 0 {
        return;
      }
      gameState := Playing;
      playerHand := [];
      dealerHand := [];
      var c1, c2, c3, c4 := DealCards();
      TwoCardValue(c1, c3);
      var playerValue := CalculateHandValue(playerHand);
      if playerValue == 21 {
        CheckForBlackjack();
      }
    }

    /** The four draws of a deal, pushed alternately to the player's and the
      dealer's (empty) hands. */
    method DealCards() returns (c1: Card, c2: Card, c3: Card, c4: Card)
      requires PartOfOneDeck(deck) && playerHand == [] && dealerHand == []
      modifies this`deck, this`playerHand, this`dealerHand
      ensures PartOfOneDeck(deck)
      ensures playerHand == [c1, c3] && dealerHand == [c2, c4]
      ensures WellFormed(c1) && WellFormed(c2) && WellFormed(c3) && WellFormed(c4)
      ensures DealtFrom(old(deck), deck, [c1, c2, c3, c4])
    {
      ghost var d := deck;
      assert DealtFrom(d, d, []);
      c1 := DrawNext(d, []);
      playerHand := playerHand + [c1];
      c2 := DrawNext(d, [] + [c1]);
      dealerHand := dealerHand + [c2];
      c3 := DrawNext(d, [] + [c1] + [c2]);
      playerHand := playerHand + [c3];
      c4 := DrawNext(d, [] + [c1] + [c2] + [c3]);
      dealerHand := dealerHand + [c4];
      assert [] + [c1] + [c2] + [c3] + [c4] == [c1, c2, c3, c4];
      assert playerHand == [c1, c3] && dealerHand == [c2, c4];
    }

    /** The player takes a card: over 21 busts, exactly 21 stands. */
    method Hit()
      requires Valid()
      modifies this
      ensures Valid()
      ensures old(gameState) != Playing ==> unchanged(this)
      ensures old(gameState) == Playing ==>
                && |playerHand| == |old(playerHand)| + 1
                && playerHand[..|old(playerHand)|] == old(playerHand)
                && (old(deck) != [] ==> playerHand[|old(playerHand)|] == old(deck)[|old(deck)| - 1])
                && |old(dealerHand)| <= |dealerHand|
                && DealtFrom(old(deck), deck, playerHand[|old(playerHand)|..] + dealerHand[|old(dealerHand)|..])
      ensures old(gameState) == Playing && HandValue(playerHand) > 21 ==>
                dealerHand == old(dealerHand) && Settled(Bust, old(balance), old(currentBet), old(stats))
      ensures old(gameState) == Playing && HandValue(playerHand) == 21 ==>
                && DealerDrewTo17(old(dealerHand))
                && Settled(Winner(21, HandValue(dealerHand)), old(balance), old(currentBet), old(stats))
      ensures old(gameState) == Playing && HandValue(playerHand) < 21 ==>
                && gameState == Playing && dealerHand == old(dealerHand)
                && balance == old(balance) && currentBet == old(currentBet) && stats == old(stats)
    {
      if gameState != Playing {
        return;
      }
      ghost var deck0 := deck;
      var card := PlayerDraws();
      assert playerHand[|old(playerHand)|..] == [card] && dealerHand[|dealerHand|..] == [];
      ghost var deck1 := deck;
      var playerValue := CalculateHandValue(playerHand);
      if playerValue > 21 {
        EndRound(Bust);
      } else if playerValue == 21 {
        Stand();
        DealtFromLeaves(deck0, deck1, [card]);
        DealtFromChain(deck0, deck1, deck, [card], dealerHand[|old(dealerHand)|..]);
      }
    }

    /** The draw of a hit: the deck's last card pushed onto the player's hand. */
    method PlayerDraws() returns (card: Card)
      requires PartOfOneDeck(deck) && AllWellFormed(playerHand)
      modifies this`deck, this`playerHand
      ensures PartOfOneDeck(deck) && AllWellFormed(playerHand)
      ensures playerHand == old(playerHand) + [card]
      ensures old(deck) != [] ==> card == old(deck)[|old(deck)| - 1]
      ensures DealtFrom(old(deck), deck, [card])
    {
      ghost var deck0 := deck;
      assert DealtFrom(deck0, deck0, []);
      card := DrawCard();
      DealOneMore(deck0, deck0, [], deck, card);
      WellFormedAppend(playerHand, card);
      playerHand := playerHand + [card];
    }

    /** The player stops drawing; the dealer plays out the hand and the round is settled. */
    method Stand()
      requires Consistent() && gameState != DealerTurn
      modifies this
      ensures Valid()
      ensures old(gameState) != Playing ==> unchanged(this)
      ensures old(gameState) == Playing ==>
                && playerHand == old(playerHand)
                && DealerDrewTo17(old(dealerHand))
                && |dealerHand| <= |old(dealerHand)| + 17
                && DealtFrom(old(deck), deck, dealerHand[|old(dealerHand)|..])
                && Settled(Winner(HandValue(playerHand), HandValue(dealerHand)), old(balance), old(currentBet), old(stats))
    {
      if gameState != Playing {
        return;
      }
      gameState := DealerTurn;
      DealerPlay();
    }

    /** The dealer draws while under 17, then the hands are compared. */
    method DealerPlay()
      requires Consistent() && gameState == DealerTurn
      modifies this
      ensures Valid()
      ensures playerHand == old(playerHand)
      ensures DealerDrewTo17(old(dealerHand))
      ensures |dealerHand| <= |old(dealerHand)| + 17
      ensures DealtFrom(old(deck), deck, dealerHand[|old(dealerHand)|..])
      ensures Settled(Winner(HandValue(playerHand), HandValue(dealerHand)), old(balance), old(currentBet), old(stats))
    {
      DealerDraws();
      DetermineWinner();
    }

    /** The drawing loop of the dealer's turn: one card at a time, the hand
      re-evaluated after each, until it is worth 17 or more. */
    method DealerDraws()
      requires PartOfOneDeck(deck) && AllWellFormed(dealerHand)
      modifies this`deck, this`dealerHand
      ensures PartOfOneDeck(deck) && AllWellFormed(dealerHand)
      ensures DealerDrewTo17(old(dealerHand))
      ensures |dealerHand| <= |old(dealerHand)| + 17
      ensures DealtFrom(old(deck), deck, dealerHand[|old(dealerHand)|..])
    {
      ghost var before, drawn := dealerHand, [];
      HardTotalAtLeastLength(before);
      var dealerValue := CalculateHandValue(dealerHand);
      while dealerValue < 17
        invariant PartOfOneDeck(deck) && AllWellFormed(dealerHand)
        invariant dealerValue == HandValue(dealerHand)
        invariant DrawnUnder17(before, dealerHand)
        invariant dealerHand == before + drawn && DealtFrom(old(deck), deck, drawn)
        invariant HardTotal(dealerHand) >= HardTotal(before) + |drawn| && |drawn| <= 17
        decreases 17 - HardTotal(dealerHand)
      {
        var card := DrawNext(old(deck), drawn);
        HardTotalGrows(dealerHand, card);
        DrawUnder17(before, dealerHand, card);
        WellFormedAppend(dealerHand, card);
        dealerHand := dealerHand + [card];
        drawn := drawn + [card];
        dealerValue := CalculateHandValue(dealerHand);
      }
      assert dealerHand[|before|..] == drawn;
    }

    /** Settles the round for the player (21 with two cards) when either side
      holds 21 after the deal; does nothing otherwise. */
    method CheckForBlackjack()
      requires Consistent()
      modifies this`gameState, this`stats, this`balance, this`currentBet
      ensures Consistent()
      ensures match NaturalCheck(HandValue(playerHand), HandValue(dealerHand))
              case Some(result) => Settled(result, old(balance), old(currentBet), old(stats))
              case None => gameState == old(gameState) && balance == old(balance)
                           && currentBet == old(currentBet) && stats == old(stats)
    {
      var playerValue := CalculateHandValue(playerHand);
      var dealerValue := CalculateHandValue(dealerHand);
      var playerBlackjack := playerValue == 21;
      var dealerBlackjack := dealerValue == 21;
      if playerBlackjack && dealerBlackjack {
        EndRound(Push);
      } else if playerBlackjack {
        EndRound(Blackjack);
      } else if dealerBlackjack {
        EndRound(DealerBlackjack);
      }
    }

    /** Compares the final hands and settles the round. */
    method DetermineWinner()
      requires Consistent()
      modifies this`gameState, this`stats, this`balance, this`currentBet
      ensures Consistent()
      ensures Settled(Winner(HandValue(playerHand), HandValue(dealerHand)), old(balance), old(currentBet), old(stats))
    {
      var playerValue := CalculateHandValue(playerHand);
      var dealerValue := CalculateHandValue(dealerHand);
      if dealerValue > 21 {
        EndRound(DealerBust);
      } else if playerValue > dealerValue {
        EndRound(Win);
      } else if dealerValue > playerValue {
        EndRound(Lose);
      } else {
        EndRound(Push);
      }
    }

    /** Counts the game, credits the winnings, clears the bet, and reopens
      betting unless the balance is exhausted. */
    method EndRound(result: Outcome)
      requires Consistent()
      modifies this`gameState, this`stats, this`balance, this`currentBet
      ensures Consistent()
      ensures Settled(result, old(balance), old(currentBet), old(stats))
    {
      gameState := GameOver;
      stats := stats.(gamesPlayed := stats.gamesPlayed + 1);

      var winnings := 0.0;
      match result {
        case Blackjack =>
          winnings := currentBet as real * 2.5;
          stats := stats.(wins := stats.wins + 1);
        case Win =>
          winnings := currentBet as real * 2.0;
          stats := stats.(wins := stats.wins + 1);
        case DealerBust =>
          winnings := currentBet as real * 2.0;
          stats := stats.(wins := stats.wins + 1);
        case Push =>
          winnings := currentBet as real;
        case Bust =>
        case Lose =>
        case DealerBlackjack =>
      }

      balance := balance + winnings;
      currentBet := 0;

      if balance != 0.0 {
        gameState := Betting;
      }
    }

    /** Starts over from any state: 1000 in the balance, no bet, zeroed
      statistics, empty hands and a new shuffled deck. */
    method ResetGame()
      modifies this
      ensures Valid()
      ensures balance == 1000.0 && currentBet == 0 && stats == Stats(0, 0)
      ensures gameState == Betting && playerHand == [] && dealerHand == []
      ensures |deck| == 52 && FullDeck(deck)
    {
      balance := 1000.0;
      currentBet := 0;
      stats := Stats(0, 0);
      gameState := Betting;
      playerHand := [];
      dealerHand := [];
      ghost var built, picks := CreateDeck();
    }
  }
}
