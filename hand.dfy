/** The value of a blackjack hand: the recorded card values added up, then
    ten taken off per ace, one ace at a time, while the total is over 21. */
module Hand {
  import opened Cards

  /** The recorded values of the cards, added up (every ace as 11). */
  function Sum(hand: seq<Card>): int
  {
    if hand == [] then 0
    else Sum(hand[..|hand| - 1]) + hand[|hand| - 1].numericValue
  }

  /** The number of aces in the hand. */
  function Aces(hand: seq<Card>): (n: nat)
    ensures n <= |hand|
  {
    if hand == [] then 0
    else Aces(hand[..|hand| - 1]) + (if hand[|hand| - 1].rank == Ace then 1 else 0)
  }

  /** The total with every ace counted as 1. */
  function HardTotal(hand: seq<Card>): int
  {
    Sum(hand) - 10 * Aces(hand)
  }

  function Min(a: int, b: int): int
  {
    if a <= b then a else b
  }

  /** How many of `aces` aces must count 1 instead of 11 to bring `total`
      to 21 or below, or all of them when that is not enough. */
  function SoftReductions(total: int, aces: nat): (k: nat)
    ensures k <= aces
    ensures total - 10 * k > 21 ==> k == aces
    ensures k > 0 ==> total - 10 * (k - 1) > 21
  {
    if total <= 21 then 0 else Min(aces, (total - 12) / 10)
  }

  /** The value of a hand: the sum less ten for each ace that had to be
      reduced. It is over 21 (a bust) only when every ace counts 1, and
      no ace is reduced that did not need to be. */
  function HandValue(hand: seq<Card>): (v: int)
    ensures hand == [] ==> v == 0
    ensures HardTotal(hand) <= v <= Sum(hand)
    ensures (Sum(hand) - v) % 10 == 0
    ensures v > 21 ==> v == HardTotal(hand)
    ensures v < Sum(hand) ==> v + 10 > 21
  {
    Sum(hand) - 10 * SoftReductions(Sum(hand), Aces(hand))
  }

  /** The evaluator as the engine runs it: one pass adding up values and
      counting aces, then a loop reducing aces while the total is over 21. */
  method CalculateHandValue(hand: seq<Card>) returns (value: int)
    ensures value == HandValue(hand)
  {
    value := 0;
    var aces := 0;
    for i := 0 to |hand|
      invariant value == Sum(hand[..i])
      invariant aces == Aces(hand[..i])
    {
      assert hand[..i + 1][..i] == hand[..i];
      value := value + hand[i].numericValue;
      if hand[i].rank == Ace {
        aces := aces + 1;
      }
    }
    assert hand[..|hand|] == hand;

    ghost var total, allAces := value, aces;
    while value > 21 && aces > 0
      invariant 0 <= aces <= allAces
      invariant value == total - 10 * (allAces - aces)
      invariant aces < allAces ==> value + 10 > 21
    {
      value := value - 10;
      aces := aces - 1;
    }
    // The loop stopped at the only admissible number of reductions.
    assert allAces - aces == SoftReductions(total, allAces);
  }

  lemma {:induction false} AppendCard(hand: seq<Card>, c: Card)
    ensures Sum(hand + [c]) == Sum(hand) + c.numericValue
    ensures Aces(hand + [c]) == Aces(hand) + (if c.rank == Ace then 1 else 0)
  {
    assert (hand + [c])[..|hand|] == hand;
  }

  /** Drawing a well-formed card raises the all-aces-as-1 total by at least 1. */
  lemma HardTotalGrows(hand: seq<Card>, c: Card)
    requires WellFormed(c)
    ensures HardTotal(hand + [c]) >= HardTotal(hand) + 1
  {
    AppendCard(hand, c);
  }

  /** With every ace counted as 1, a hand of well-formed cards is worth at
      least one per card. */
  lemma {:induction false} HardTotalAtLeastLength(hand: seq<Card>)
    requires AllWellFormed(hand)
    ensures HardTotal(hand) >= |hand|
  {
    if hand != [] {
      var init, last := hand[..|hand| - 1], hand[|hand| - 1];
      assert init + [last] == hand;
      HardTotalAtLeastLength(init);
      HardTotalGrows(init, last);
    }
  }

  /** Two well-formed cards are worth their values added up, except that two
      aces make 12; they never bust, and they make 21 exactly when one is an
      ace and the other a ten-valued card. */
  lemma TwoCardValue(a: Card, b: Card)
    requires WellFormed(a) && WellFormed(b)
    ensures HandValue([a, b]) ==
            if a.rank == Ace && b.rank == Ace then 12 else a.numericValue + b.numericValue
    ensures HandValue([a, b]) <= 21
    ensures HandValue([a, b]) == 21 <==>
            (a.rank == Ace && b.numericValue == 10) || (b.rank == Ace && a.numericValue == 10)
  {
    AppendCard([a], b);
    AppendCard([], a);
    assert [a] + [b] == [a, b];
    assert [] + [a] == [a];
  }

  /** `hand` is `before` followed by cards each drawn while the hand stood under 17. */
  ghost predicate DrawnUnder17(before: seq<Card>, hand: seq<Card>)
  {
    && |before| <= |hand|
    && hand[..|before|] == before
    && forall k :: |before| <= k < |hand| ==> HandValue(hand[..k]) < 17
  }

  /** Drawing one more card onto a hand under 17 keeps the drawing rule. */
  lemma DrawUnder17(before: seq<Card>, hand: seq<Card>, c: Card)
    requires DrawnUnder17(before, hand) && HandValue(hand) < 17
    ensures DrawnUnder17(before, hand + [c])
  {
    var next := hand + [c];
    assert next[..|hand|] == hand;
    assert next[..|before|] == before by {
      assert next[..|before|] == hand[..|before|];
    }
    forall k | |before| <= k < |next|
      ensures HandValue(next[..k]) < 17
    {
      if k < |hand| {
        assert next[..k] == hand[..k];
      }
    }
  }

  /** Under the drawing rule, the hand ends at the first length worth 17 or more. */
  lemma StopsAtSeventeen(before: seq<Card>, hand: seq<Card>, k: nat)
    requires DrawnUnder17(before, hand)
    requires |before| <= k <= |hand| && HandValue(hand[..k]) >= 17
    ensures hand == hand[..k]
  {
    assert |hand| == k;
  }
}
