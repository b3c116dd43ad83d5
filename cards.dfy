/** Playing cards as the blackjack engine builds them: a suit, a rank and
    the numeric value recorded with the card when the deck is created. */
module Cards {

  datatype Suit = Spades | Hearts | Diamonds | Clubs

  datatype Rank = Ace | Two | Three | Four | Five | Six | Seven | Eight | Nine | Ten | Jack | Queen | King

  /** A card. `numericValue` is stored with the card, not recomputed. */
  datatype Card = Card(suit: Suit, rank: Rank, numericValue: int)

  /** The suits in the order the deck builder walks them. */
  const Suits: seq<Suit> := [Spades, Hearts, Diamonds, Clubs]

  /** The ranks in the order the deck builder walks them. */
  const Ranks: seq<Rank> := [Ace, Two, Three, Four, Five, Six, Seven, Eight, Nine, Ten, Jack, Queen, King]

  /** The number printed on a number card (Two to Ten); 0 for the others. */
  function Pips(rank: Rank): nat
  {
    match rank
    case Two => 2
    case Three => 3
    case Four => 4
    case Five => 5
    case Six => 6
    case Seven => 7
    case Eight => 8
    case Nine => 9
    case Ten => 10
    case _ => 0
  }

  /** The value a rank counts for before any soft-ace reduction:
      an ace 11, a face card 10, a number card its number. */
  function CardValue(rank: Rank): (v: int)
    ensures 2 <= v <= 11
    ensures v == 11 <==> rank == Ace
    ensures rank in {Jack, Queen, King} ==> v == 10
    ensures Pips(rank) != 0 ==> v == Pips(rank)
  {
    if rank == Ace then 11
    else if rank in {Jack, Queen, King} then 10
    else Pips(rank)
  }

  /** A card whose recorded value is the value of its rank. */
  predicate WellFormed(c: Card)
  {
    c.numericValue == CardValue(c.rank)
  }

  predicate AllWellFormed(cards: seq<Card>)
  {
    forall i :: 0 <= i < |cards| ==> WellFormed(cards[i])
  }

  lemma WellFormedAppend(cards: seq<Card>, c: Card)
    requires AllWellFormed(cards) && WellFormed(c)
    ensures AllWellFormed(cards + [c])
  {
    assert forall i :: 0 <= i < |cards| ==> (cards + [c])[i] == cards[i];
  }

  predicate Distinct<T(==)>(s: seq<T>)
  {
    forall i, j :: 0 <= i < j < |s| ==> s[i] != s[j]
  }

  /** Every suit and every rank is listed exactly once. */
  lemma SuitsAndRanksComplete()
    ensures Distinct(Suits) && Distinct(Ranks)
    ensures forall s: Suit :: s in Suits
    ensures forall r: Rank :: r in Ranks
  {
    forall r: Rank ensures r in Ranks {
      match r
      case Ace => assert Ranks[0] == r;
      case Two => assert Ranks[1] == r;
      case Three => assert Ranks[2] == r;
      case Four => assert Ranks[3] == r;
      case Five => assert Ranks[4] == r;
      case Six => assert Ranks[5] == r;
      case Seven => assert Ranks[6] == r;
      case Eight => assert Ranks[7] == r;
      case Nine => assert Ranks[8] == r;
      case Ten => assert Ranks[9] == r;
      case Jack => assert Ranks[10] == r;
      case Queen => assert Ranks[11] == r;
      case King => assert Ranks[12] == r;
    }
    forall s: Suit ensures s in Suits {
      match s
      case Spades => assert Suits[0] == s;
      case Hearts => assert Suits[1] == s;
      case Diamonds => assert Suits[2] == s;
      case Clubs => assert Suits[3] == s;
    }
  }
}
