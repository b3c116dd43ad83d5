/** The 52-card deck: the order in which it is built and the Fisher–Yates
    shuffle that is then applied to it. */
module Deck {
  import opened Cards

  /** The cards of one suit, one per rank in `ranks`, each recording its rank's value. */
  function Row(suit: Suit, ranks: seq<Rank>): (row: seq<Card>)
    ensures |row| == |ranks|
  {
    if ranks == [] then []
    else
      var r := ranks[|ranks| - 1];
      Row(suit, ranks[..|ranks| - 1]) + [Card(suit, r, CardValue(r))]
  }

  /** The rows for `suits`, suit after suit, in the order the builder pushes them. */
  function DeckOf(suits: seq<Suit>, ranks: seq<Rank>): (deck: seq<Card>)
    ensures |deck| == |suits| * |ranks|
  {
    if suits == [] then []
    else DeckOf(suits[..|suits| - 1], ranks) + Row(suits[|suits| - 1], ranks)
  }

  /** The deck before it is shuffled: spades, hearts, diamonds, clubs, each from ace to king. */
  function FreshDeck(): seq<Card>
  {
    DeckOf(Suits, Ranks)
  }

  lemma {:induction false} RowCount(suit: Suit, ranks: seq<Rank>, c: Card)
    requires Distinct(ranks)
    ensures multiset(Row(suit, ranks))[c] ==
            if c.suit == suit && c.rank in ranks && WellFormed(c) then 1 else 0
  {
    if ranks != [] {
      var init, r := ranks[..|ranks| - 1], ranks[|ranks| - 1];
      assert ranks == init + [r];
      RowCount(suit, init, c);
      assert r !in init;
    }
  }

  lemma {:induction false} DeckOfCount(suits: seq<Suit>, ranks: seq<Rank>, c: Card)
    requires Distinct(suits) && Distinct(ranks)
    ensures multiset(DeckOf(suits, ranks))[c] ==
            if c.suit in suits && c.rank in ranks && WellFormed(c) then 1 else 0
  {
    if suits != [] {
      var init, s := suits[..|suits| - 1], suits[|suits| - 1];
      assert suits == init + [s];
      DeckOfCount(init, ranks, c);
      RowCount(s, ranks, c);
      assert s !in init;
    }
  }

  /** A fresh deck holds 52 cards: every (suit, rank) pair exactly once, with
      the value of its rank, and nothing else. */
  lemma FreshDeckCount()
    ensures |FreshDeck()| == 52
    ensures forall c :: multiset(FreshDeck())[c] == if WellFormed(c) then 1 else 0
  {
    SuitsAndRanksComplete();
    forall c ensures multiset(FreshDeck())[c] == if WellFormed(c) then 1 else 0 {
      DeckOfCount(Suits, Ranks, c);
    }
  }

  /** A deck that could have come out of one fresh deck: well-formed cards, none twice. */
  predicate PartOfOneDeck(deck: seq<Card>)
  {
    AllWellFormed(deck) && Distinct(deck)
  }

  /** A deck holding all 52 cards of a fresh deck, in some order. */
  predicate FullDeck(deck: seq<Card>)
  {
    |deck| == 52 && PartOfOneDeck(deck)
  }

  /** Being part of one deck means holding each card at most as often as a
      fresh deck does: at most once, and only well-formed cards. */
  lemma PartOfOneDeckCounts(deck: seq<Card>)
    ensures PartOfOneDeck(deck) <==>
            forall c :: multiset(deck)[c] <= if WellFormed(c) then 1 else 0
  {
    if PartOfOneDeck(deck) {
      forall c ensures multiset(deck)[c] <= if WellFormed(c) then 1 else 0 {
        DistinctCount(deck, c);
        if c in deck {
          var i :| 0 <= i < |deck| && deck[i] == c;
        }
      }
    }
    if forall c :: multiset(deck)[c] <= if WellFormed(c) then 1 else 0 {
      forall i | 0 <= i < |deck| ensures WellFormed(deck[i]) {
        assert deck[i] in multiset(deck);
      }
      forall i, j | 0 <= i < j < |deck| ensures deck[i] != deck[j] {
        RepeatedCount(deck, i, j);
      }
    }
  }

  lemma RepeatedCount(deck: seq<Card>, i: nat, j: nat)
    requires i < j < |deck|
    ensures deck[i] == deck[j] ==> multiset(deck)[deck[i]] >= 2
  {
    var front := deck[..j];
    assert deck == front + deck[j..];
    assert front[i] == deck[i];
    assert deck[j..][0] == deck[j];
  }

  lemma {:induction false} DistinctCount(cards: seq<Card>, c: Card)
    requires Distinct(cards)
    ensures multiset(cards)[c] == if c in cards then 1 else 0
  {
    if cards != [] {
      var init, last := cards[..|cards| - 1], cards[|cards| - 1];
      assert cards == init + [last];
      DistinctCount(init, c);
      assert last !in init;
    }
  }

  /** The unshuffled deck is a full deck. */
  lemma FreshDeckIsFull()
    ensures FullDeck(FreshDeck())
  {
    FreshDeckCount();
    PartOfOneDeckCounts(FreshDeck());
  }

  /** A full deck holds exactly the cards of a fresh deck, each (suit, rank)
      pair once with its rank's value. */
  lemma FullDeckIsFreshDeckReordered(deck: seq<Card>)
    requires FullDeck(deck)
    ensures multiset(deck) == multiset(FreshDeck())
  {
    FreshDeckCount();
    PartOfOneDeckCounts(deck);
    var have, all := multiset(deck), multiset(FreshDeck());
    assert have <= all;
    assert all == have + (all - have);
    assert |all - have| == 0;
  }

  /** Reordering a full deck leaves a full deck. */
  lemma ReorderedFullDeck(deck: seq<Card>, reordered: seq<Card>)
    requires FullDeck(deck) && multiset(reordered) == multiset(deck)
    ensures FullDeck(reordered)
  {
    PartOfOneDeckCounts(deck);
    PartOfOneDeckCounts(reordered);
    assert |reordered| == |multiset(reordered)|;
  }

  /** Taking the last card of a deck that is part of one deck leaves one. */
  lemma PopKeepsPartOfOneDeck(deck: seq<Card>, card: Card)
    requires PartOfOneDeck(deck + [card])
    ensures PartOfOneDeck(deck) && WellFormed(card)
  {
    assert (deck + [card])[|deck|] == card;
    forall i, j | 0 <= i < j < |deck| ensures deck[i] != deck[j] {
      assert (deck + [card])[i] == deck[i] && (deck + [card])[j] == deck[j];
    }
    forall i | 0 <= i < |deck| ensures WellFormed(deck[i]) {
      assert (deck + [card])[i] == deck[i];
    }
  }

  // ---------------------------------------------------------------------
  // Drawing from the top

  /** The cards of `s` from last to first: the order in which they are drawn. */
  function Reversed(s: seq<Card>): (r: seq<Card>)
    ensures |r| == |s|
    ensures forall i :: 0 <= i < |s| ==> r[i] == s[|s| - 1 - i]
  {
    if s == [] then [] else [s[|s| - 1]] + Reversed(s[..|s| - 1])
  }

  /** `drawn` were taken one by one from the end of `deck0`, leaving `rest`;
      once `deck0` ran out, a full deck was built and the later cards came
      from its end, leaving `rest` of it. */
  ghost predicate DealtFrom(deck0: seq<Card>, rest: seq<Card>, drawn: seq<Card>)
  {
    && (|drawn| <= |deck0| ==> deck0 == rest + Reversed(drawn))
    && (|drawn| > |deck0| ==>
          && deck0 == Reversed(drawn[..|deck0|])
          && FullDeck(rest + Reversed(drawn[|deck0|..])))
  }

  /** One more draw: the last card of `rest` when there is one; from an
      empty deck, the last card of a freshly built full deck. The record
      covers one rebuild, so a rebuilt deck must not run out in turn. */
  lemma DealOneMore(deck0: seq<Card>, rest: seq<Card>, drawn: seq<Card>, rest1: seq<Card>, card: Card)
    requires DealtFrom(deck0, rest, drawn)
    requires rest != [] ==> rest == rest1 + [card]
    requires rest == [] ==> FullDeck(rest1 + [card])
    requires |drawn| > |deck0| ==> rest != []
    ensures DealtFrom(deck0, rest1, drawn + [card])
  {
    var more := drawn + [card];
    assert more[..|drawn|] == drawn;
    if |drawn| < |deck0| {
      assert Reversed(more) == [card] + Reversed(drawn);
    } else if |drawn| == |deck0| {
      assert more[|deck0|..] == [card] && Reversed([card]) == [card];
      assert rest1 + Reversed(more[|deck0|..]) == rest1 + [card];
    } else {
      assert more[..|deck0|] == drawn[..|deck0|];
      assert more[|deck0|..] == drawn[|deck0|..] + [card];
      ReversedAppend(drawn[|deck0|..], [card]);
      assert Reversed([card]) == [card];
      assert rest1 + Reversed(more[|deck0|..]) == rest + Reversed(drawn[|deck0|..]);
    }
  }

  /** How many cards a draw record leaves: the rest of the first deck, or
      of the one deck built when it ran out. */
  lemma DealtFromLeaves(deck0: seq<Card>, rest: seq<Card>, drawn: seq<Card>)
    requires DealtFrom(deck0, rest, drawn)
    ensures |drawn| <= |deck0| ==> |rest| == |deck0| - |drawn|
    ensures |drawn| > |deck0| ==> |rest| == 52 + |deck0| - |drawn| && PartOfOneDeck(rest)
  {
    if |drawn| > |deck0| {
      var built := rest + Reversed(drawn[|deck0|..]);
      forall i, j | 0 <= i < j < |rest| ensures rest[i] != rest[j] {
        assert built[i] == rest[i] && built[j] == rest[j];
      }
      forall i | 0 <= i < |rest| ensures WellFormed(rest[i]) {
        assert built[i] == rest[i];
      }
    }
  }

  lemma ReversedAppend(a: seq<Card>, b: seq<Card>)
    ensures Reversed(a + b) == Reversed(b) + Reversed(a)
  {
    var r, t := Reversed(a + b), Reversed(b) + Reversed(a);
    forall i | 0 <= i < |r| ensures r[i] == t[i] {
      if i < |b| {
        assert t[i] == b[|b| - 1 - i];
      } else {
        assert t[i] == Reversed(a)[i - |b|];
      }
    }
  }

  /** Two draw records in a row make one: the cards drawn from `deck0` down
      to `deck1`, then those drawn from `deck1` down to `deck2`. */
  lemma DealtFromChain(deck0: seq<Card>, deck1: seq<Card>, deck2: seq<Card>, a: seq<Card>, b: seq<Card>)
    requires DealtFrom(deck0, deck1, a) && DealtFrom(deck1, deck2, b)
    requires |a| > |deck0| ==> |b| <= |deck1|
    ensures DealtFrom(deck0, deck2, a + b)
  {
    var ab := a + b;
    if |a| <= |deck0| {
      ReversedAppend(a, b);
      if |b| > |deck1| {
        assert ab[..|deck0|] == a + b[..|deck1|];
        assert ab[|deck0|..] == b[|deck1|..];
        ReversedAppend(a, b[..|deck1|]);
      }
    } else {
      assert ab[..|deck0|] == a[..|deck0|];
      assert ab[|deck0|..] == a[|deck0|..] + b;
      ReversedAppend(a[|deck0|..], b);
      assert deck2 + Reversed(ab[|deck0|..]) == deck1 + Reversed(a[|deck0|..]);
    }
  }

  // ---------------------------------------------------------------------
  // Fisher–Yates shuffle

  /** The random choices of one shuffle: for each index `i` from the last
      down to 1, the position `picks[i]` in [0, i] it is swapped with
      (`picks[0]` is never used). */
  predicate ValidPicks(picks: seq<nat>, n: nat)
  {
    |picks| == n && forall i :: 0 <= i < n ==> picks[i] <= i
  }

  /** Exchanges the cards at `i` and `j`. */
  function Swap(s: seq<Card>, i: nat, j: nat): (r: seq<Card>)
    requires i < |s| && j < |s|
    ensures |r| == |s|
    ensures r[i] == s[j] && r[j] == s[i]
    ensures forall k :: 0 <= k < |s| && k != i && k != j ==> r[k] == s[k]
  {
    s[i := s[j]][j := s[i]]
  }

  lemma SwapPermutes(s: seq<Card>, i: nat, j: nat)
    requires i < |s| && j < |s|
    ensures multiset(Swap(s, i, j)) == multiset(s)
  {
    var t := s[i := s[j]];
    assert multiset(t) == multiset(s) - multiset{s[i]} + multiset{s[j]};
  }

  /** The deck once the shuffle steps for indices |s| - 1 down to `i` have
      run, each swapping index k with picks[k]. */
  function Swept(s: seq<Card>, picks: seq<nat>, i: nat): (r: seq<Card>)
    requires ValidPicks(picks, |s|) && 1 <= i <= |s|
    ensures |r| == |s|
    decreases |s| - i
  {
    if i == |s| then s else Swap(Swept(s, picks, i + 1), i, picks[i])
  }

  /** The deck the in-place Fisher–Yates loop produces from `s` with the choices `picks`. */
  function FisherYates(s: seq<Card>, picks: seq<nat>): (r: seq<Card>)
    requires ValidPicks(picks, |s|)
  {
    if s == [] then s else Swept(s, picks, 1)
  }

  /** The deck after the steps down to `i` depends only on the choices at indices `i` and above. */
  lemma {:induction false} SweptFrame(s: seq<Card>, p: seq<nat>, q: seq<nat>, i: nat)
    requires ValidPicks(p, |s|) && ValidPicks(q, |s|) && 1 <= i <= |s|
    requires forall k :: i <= k < |s| ==> p[k] == q[k]
    ensures Swept(s, p, i) == Swept(s, q, i)
    decreases |s| - i
  {
    if i < |s| {
      SweptFrame(s, p, q, i + 1);
    }
  }

  lemma {:induction false} SweptPermutes(s: seq<Card>, picks: seq<nat>, i: nat)
    requires ValidPicks(picks, |s|) && 1 <= i <= |s|
    ensures multiset(Swept(s, picks, i)) == multiset(s)
    decreases |s| - i
  {
    if i < |s| {
      SweptPermutes(s, picks, i + 1);
      SwapPermutes(Swept(s, picks, i + 1), i, picks[i]);
    }
  }

  /** Whatever the random choices, the shuffle yields a permutation of its input. */
  lemma FisherYatesPermutes(s: seq<Card>, picks: seq<nat>)
    requires ValidPicks(picks, |s|)
    ensures |FisherYates(s, picks)| == |s|
    ensures multiset(FisherYates(s, picks)) == multiset(s)
  {
    if s != [] {
      SweptPermutes(s, picks, 1);
    }
  }
}
