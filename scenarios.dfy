/** Three rounds played through the engine's operations, with the deck laid
    out by hand in place of the shuffle so that the deal is known. Each
    round creates its own table and returns the balance, statistics and
    state it ends with, known from the operations' contracts alone. */
module Scenarios {
  import opened Cards
  import opened Deck
  import opened Hand
  import opened Payout
  import opened Game

  /** A table with 1000 in the balance, no statistics yet, and `deck` laid
      out in place of the shuffled one. */
  method TableWith(deck: seq<Card>) returns (g: BlackjackGame)
    requires PartOfOneDeck(deck)
    ensures fresh(g) && g.Valid() && g.deck == deck
    ensures g.balance == 1000.0 && g.currentBet == 0 && g.stats == Stats(0, 0)
    ensures g.gameState == Betting && g.playerHand == [] && g.dealerHand == []
  {
    g := new BlackjackGame(1000, Stats(0, 0));
    g.deck := deck;
  }

  /** A deal from a deck of four cards or more takes its last four, and the
      cards land in the hands in the order the deal draws them. */
  lemma DealOfFour(deck0: seq<Card>, rest: seq<Card>, player: seq<Card>, dealer: seq<Card>)
    requires |deck0| >= 4 && |player| == 2 && |dealer| == 2
    requires DealtFrom(deck0, rest, [player[0], dealer[0], player[1], dealer[1]])
    ensures rest == deck0[..|deck0| - 4]
    ensures player == [deck0[|deck0| - 1], deck0[|deck0| - 3]]
    ensures dealer == [deck0[|deck0| - 2], deck0[|deck0| - 4]]
  {
    var n := |deck0|;
    var order := Reversed([player[0], dealer[0], player[1], dealer[1]]);
    assert deck0 == rest + order;
    assert deck0[n - 1] == order[3] == player[0];
    assert deck0[n - 2] == order[2] == dealer[0];
    assert deck0[n - 3] == order[1] == player[1];
    assert deck0[n - 4] == order[0] == dealer[1];
    assert deck0[..n - 4] == rest;
  }

  /** A deal from a deck of three takes those three, then the last card of
      a newly built full deck, leaving 51 of it. */
  lemma DealAcrossRebuild(deck0: seq<Card>, rest: seq<Card>, player: seq<Card>, dealer: seq<Card>)
    requires |deck0| == 3 && |player| == 2 && |dealer| == 2
    requires DealtFrom(deck0, rest, [player[0], dealer[0], player[1], dealer[1]])
    ensures player == [deck0[2], deck0[0]] && dealer[0] == deck0[1]
    ensures |rest| == 51 && FullDeck(rest + [dealer[1]])
  {
    var drawn := [player[0], dealer[0], player[1], dealer[1]];
    var early := Reversed(drawn[..3]);
    assert deck0[0] == early[0] && deck0[1] == early[1] && deck0[2] == early[2];
    assert drawn[3..] == [dealer[1]] && Reversed([dealer[1]]) == [dealer[1]];
  }

  /** A deal from a deck of two gives the player and the dealer their
      second cards from a newly built full deck, so those two differ. */
  lemma DealFromTwo(deck0: seq<Card>, rest: seq<Card>, player: seq<Card>, dealer: seq<Card>)
    requires |deck0| == 2 && |player| == 2 && |dealer| == 2
    requires DealtFrom(deck0, rest, [player[0], dealer[0], player[1], dealer[1]])
    ensures player[0] == deck0[1] && dealer[0] == deck0[0]
    ensures |rest| == 50 && player[1] != dealer[1]
  {
    var drawn := [player[0], dealer[0], player[1], dealer[1]];
    var early := Reversed(drawn[..2]);
    assert deck0[0] == early[0] && deck0[1] == early[1];
    var built := rest + Reversed(drawn[2..]);
    assert built[50] == dealer[1] && built[51] == player[1];
  }

  /** A card drawn from an empty deck is the last of a newly built full
      deck; 51 of it are left. */
  lemma DrawFromEmpty(rest: seq<Card>, card: Card)
    requires DealtFrom([], rest, [card])
    ensures |rest| == 51 && FullDeck(rest + [card]) && card !in rest
  {
    assert [card][0..] == [card] && Reversed([card]) == [card];
    var built := rest + [card];
    forall i | 0 <= i < |rest| ensures rest[i] != card {
      assert built[i] == rest[i] && built[51] == card;
    }
  }

  /** A dealer hand that already stands keeps its two cards. */
  lemma NoDrawOnSeventeenOrMore(dealt: seq<Card>, hand: seq<Card>)
    requires |dealt| == 2 && HandValue(dealt) >= 17 && DrawnUnder17(dealt, hand)
    ensures hand == dealt
  {
  }

  /** The first card drawn from a one-card deck is that card. */
  lemma FirstDrawOfOne(c: Card, rest: seq<Card>, drawn: seq<Card>)
    requires DealtFrom([c], rest, drawn) && drawn != []
    ensures drawn[0] == c
  {
    if |drawn| == 1 {
      assert [c][0] == Reversed(drawn)[0];
    } else {
      assert [c][0] == Reversed(drawn[..1])[0];
    }
  }

  /** Ten, six and six make 22. */
  lemma TenSixSix(tenS: Card, sixD: Card, sixC: Card)
    requires tenS == Card(Spades, Ten, 10) && sixD == Card(Diamonds, Six, 6) && sixC == Card(Clubs, Six, 6)
    ensures HandValue([tenS, sixD] + [sixC]) == 22
  {
    AppendCard([tenS, sixD], sixC);
    AppendCard([tenS], sixD);
    AppendCard([], tenS);
    assert [] + [tenS] == [tenS] && [tenS] + [sixD] == [tenS, sixD];
  }

  /** Ten–six stands on 16, so the dealer draws, and the first card comes
      from the one-card deck. */
  lemma SixteenDrawsTheSix(tenS: Card, sixD: Card, sixC: Card, rest: seq<Card>, hand: seq<Card>)
    requires tenS == Card(Spades, Ten, 10) && sixD == Card(Diamonds, Six, 6) && sixC == Card(Clubs, Six, 6)
    requires DrawnUnder17([tenS, sixD], hand) && HandValue(hand) >= 17
    requires DealtFrom([sixC], rest, hand[2..])
    ensures |hand| >= 3 && hand[..3] == [tenS, sixD] + [sixC]
  {
    TwoCardValue(tenS, sixD);
    // Two cards would be the 16 the dealer must draw on.
    assert hand != hand[..2];
    FirstDrawOfOne(sixC, rest, hand[2..]);
    assert hand[..3] == hand[..2] + [hand[2]];
  }

  /** Ten–six stands on 16; the draw from a one-card deck is that card, and
      a six takes the hand to 22, where the dealer stops. */
  lemma SixteenDrawsSixAndStops(tenS: Card, sixD: Card, sixC: Card, rest: seq<Card>, hand: seq<Card>)
    requires tenS == Card(Spades, Ten, 10) && sixD == Card(Diamonds, Six, 6) && sixC == Card(Clubs, Six, 6)
    requires DrawnUnder17([tenS, sixD], hand) && HandValue(hand) >= 17
    requires DealtFrom([sixC], rest, hand[2..])
    ensures hand == [tenS, sixD, sixC] && HandValue(hand) == 22
  {
    SixteenDrawsTheSix(tenS, sixD, sixC, rest, hand);
    TenSixSix(tenS, sixD, sixC);
    StopsAtSeventeen([tenS, sixD], hand, 3);
  }

  /** Deals ace–nine to the player and ten–eight to the dealer on a bet of 100. */
  method DealTwentyAgainstEighteen() returns (g: BlackjackGame)
    ensures fresh(g) && g.Valid() && g.gameState == Playing
    ensures g.playerHand == [Card(Spades, Ace, 11), Card(Diamonds, Nine, 9)]
    ensures g.dealerHand == [Card(Hearts, Ten, 10), Card(Clubs, Eight, 8)]
    ensures g.balance == 900.0 && g.currentBet == 100 && g.stats == Stats(0, 0)
  {
    var aceS := Card(Spades, Ace, 11);
    var tenH := Card(Hearts, Ten, 10);
    var nineD := Card(Diamonds, Nine, 9);
    var eightC := Card(Clubs, Eight, 8);
    g := TableWith([eightC, nineD, tenH, aceS]);

    g.PlaceBet(100);
    g.StartNewRound();
    DealOfFour([eightC, nineD, tenH, aceS], g.deck, g.playerHand, g.dealerHand);
    TwoCardValue(aceS, nineD);
  }

  /** Ace–nine against ten–eight: the dealer already stands on 18, so it
      draws nothing, and the player's 20 wins twice the bet back. */
  method TwentyBeatsEighteen() returns (balance: real, stats: Stats, state: GameState)
    ensures balance == 1100.0 && stats == Stats(1, 1) && state == Betting
  {
    var g := DealTwentyAgainstEighteen();
    TwoCardValue(g.playerHand[0], g.playerHand[1]);
    TwoCardValue(g.dealerHand[0], g.dealerHand[1]);
    assert HandValue(g.playerHand) == 20 && HandValue(g.dealerHand) == 18;

    ghost var dealt := g.dealerHand;
    g.Stand();
    NoDrawOnSeventeenOrMore(dealt, g.dealerHand);
    assert Winner(20, 18) == Win;
    balance, stats, state := g.balance, g.stats, g.gameState;
  }

  /** Ace–king on the deal is a natural: the round is settled before the
      player acts, paying two and a half times the bet. */
  method NaturalPaysAtOnce() returns (balance: real, stats: Stats, state: GameState)
    ensures balance == 1150.0 && stats == Stats(1, 1) && state == Betting
  {
    var aceS := Card(Spades, Ace, 11);
    var fiveH := Card(Hearts, Five, 5);
    var kingH := Card(Hearts, King, 10);
    var sevenC := Card(Clubs, Seven, 7);
    var g := TableWith([sevenC, kingH, fiveH, aceS]);

    g.PlaceBet(100);
    g.StartNewRound();
    DealOfFour([sevenC, kingH, fiveH, aceS], g.deck, g.playerHand, g.dealerHand);
    TwoCardValue(aceS, kingH);
    TwoCardValue(fiveH, sevenC);
    assert HandValue(g.playerHand) == 21 && HandValue(g.dealerHand) == 12;
    assert NaturalCheck(21, 12) == Some(Blackjack);
    balance, stats, state := g.balance, g.stats, g.gameState;
  }

  /** Deals ten–seven to the player and ten–six to the dealer on a bet of
      100, leaving the six of clubs on the deck. */
  method DealSeventeenAgainstSixteen() returns (g: BlackjackGame)
    ensures fresh(g) && g.Valid() && g.gameState == Playing
    ensures g.playerHand == [Card(Hearts, Ten, 10), Card(Hearts, Seven, 7)]
    ensures g.dealerHand == [Card(Spades, Ten, 10), Card(Diamonds, Six, 6)]
    ensures g.deck == [Card(Clubs, Six, 6)]
    ensures g.balance == 900.0 && g.currentBet == 100 && g.stats == Stats(0, 0)
  {
    var tenH := Card(Hearts, Ten, 10);
    var tenS := Card(Spades, Ten, 10);
    var sevenH := Card(Hearts, Seven, 7);
    var sixD := Card(Diamonds, Six, 6);
    var sixC := Card(Clubs, Six, 6);
    g := TableWith([sixC, sixD, sevenH, tenS, tenH]);

    g.PlaceBet(100);
    g.StartNewRound();
    DealOfFour([sixC, sixD, sevenH, tenS, tenH], g.deck, g.playerHand, g.dealerHand);
    TwoCardValue(tenH, sevenH);
    TwoCardValue(tenS, sixD);
  }

  /** Ten–seven against ten–six: the dealer must draw on 16, takes the six
      left on the deck and busts with 22, so the player's 17 wins. */
  method DealerBustsFromSixteen() returns (balance: real, stats: Stats, state: GameState)
    ensures balance == 1100.0 && stats == Stats(1, 1) && state == Betting
  {
    var g := DealSeventeenAgainstSixteen();
    TwoCardValue(g.playerHand[0], g.playerHand[1]);
    assert HandValue(g.playerHand) == 17;

    g.Stand();
    SixteenDrawsSixAndStops(Card(Spades, Ten, 10), Card(Diamonds, Six, 6), Card(Clubs, Six, 6), g.deck, g.dealerHand);
    assert Winner(17, 22) == DealerBust;
    balance, stats, state := g.balance, g.stats, g.gameState;
  }
}
