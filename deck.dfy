/** The deck of deck.py: the 52 distinct cards, shuffled in place, dealt by
    popping the last card of the list. */
module Decks {
  import opened Util
  import opened Cards

  /** `[Card(rank, suit) for rank in Rank for suit in Suit]`: ranks from Two
      up to Ace, and within one rank the suits in declaration order. */
  function FullDeck(): (d: seq<Card>)
    ensures |d| == 52
    ensures forall i :: 0 <= i < 52 ==> Hash(d[i]) == i
  {
    seq(52, i requires 0 <= i < 52 => Card(i / 4 + 2, SuitAt(i % 4)))
  }

  /** A fresh deck holds every (rank, suit) pair exactly once. */
  lemma FullDeckExactlyOnce(c: Card)
    ensures c in FullDeck()
    ensures Distinct(FullDeck())
    ensures multiset(FullDeck())[c] == 1
  {
    var d := FullDeck();
    forall i, j | 0 <= i < j < |d| ensures d[i] != d[j] {
      assert Hash(d[i]) != Hash(d[j]);
    }
    var k := Hash(c);
    HashMatchesEquality(d[k], c);
    assert d[k] == c;
    DistinctCounts(d);
    assert c in multiset(d);
  }

  /** What a deck built by `Deck()` keeps: the undealt cards and the dealt
      ones together are exactly a fresh deck. */
  predicate DeckInvariant(cards: seq<Card>, dealt: seq<Card>) {
    multiset(cards) + multiset(dealt) == multiset(FullDeck())
  }

  /** Under the invariant, no card is dealt twice, none of the dealt cards is
      still in the deck, and the deck length is the number not yet dealt. */
  lemma {:induction false} DealtCardsDistinct(cards: seq<Card>, dealt: seq<Card>)
    requires DeckInvariant(cards, dealt)
    ensures Distinct(cards + dealt)
    ensures Distinct(dealt)
    ensures forall c :: c in dealt ==> c !in cards
    ensures |cards| + |dealt| == 52
  {
    var all := cards + dealt;
    assert multiset(all) == multiset(FullDeck());
    forall c ensures multiset(all)[c] <= 1 {
      FullDeckExactlyOnce(c);
    }
    DistinctMultiset(all);
    forall i, j | 0 <= i < j < |dealt| ensures dealt[i] != dealt[j] {
      assert all[|cards| + i] == dealt[i] && all[|cards| + j] == dealt[j];
    }
    forall c | c in dealt ensures c !in cards {
      FullDeckExactlyOnce(c);
      assert multiset(cards)[c] + multiset(dealt)[c] == 1;
    }
    assert |multiset(all)| == |all| && |multiset(FullDeck())| == 52;
  }

  lemma DeckLength(cards: seq<Card>, dealt: seq<Card>)
    ensures DeckInvariant(cards, dealt) ==> |cards| + |dealt| == 52
  {
    if DeckInvariant(cards, dealt) {
      DealtCardsDistinct(cards, dealt);
    }
  }

  /** Exchanging two positions keeps the multiset of elements. */
  lemma SwapKeepsMultiset(s: seq<Card>, i: nat, j: nat)
    requires i < |s| && j < |s|
    ensures multiset(s[i := s[j]][j := s[i]]) == multiset(s)
  {
    var t1 := s[i := s[j]];
    assert multiset(t1) == multiset(s) - multiset{s[i]} + multiset{s[j]};
    assert t1[j] == s[j];
    assert multiset(t1[j := s[i]]) == multiset(t1) - multiset{s[j]} + multiset{s[i]};
  }

  /** The Fisher-Yates pass of `random.shuffle` over the first i positions:
      position i - 1 is exchanged with position rand(i - 1) % i, then the
      pass goes on with the first i - 1 positions; rand(k) stands for the
      draw `randbelow(k + 1)` that CPython makes for position k. */
  function FisherYates(s: seq<Card>, i: nat, rand: nat -> nat): (r: seq<Card>)
    requires i <= |s|
    ensures |r| == |s|
    decreases i
  {
    if i <= 1 then s
    else
      var k := i - 1;
      var j := rand(k) % (k + 1);
      FisherYates(s[k := s[j]][j := s[k]], k, rand)
  }

  /** Shuffling permutes the cards. */
  lemma {:induction false} FisherYatesPermutes(s: seq<Card>, i: nat, rand: nat -> nat)
    requires i <= |s|
    ensures multiset(FisherYates(s, i, rand)) == multiset(s)
    decreases i
  {
    if i > 1 {
      var k := i - 1;
      var j := rand(k) % (k + 1);
      SwapKeepsMultiset(s, k, j);
      FisherYatesPermutes(s[k := s[j]][j := s[k]], k, rand);
    }
  }

  class Deck {
    var cards: seq<Card>
    /** The cards dealt so far, in order. */
    ghost var dealt: seq<Card>

    ghost predicate Valid()
      reads this
    {
      DeckInvariant(cards, dealt)
    }

    /** `Deck.__init__`: a full deck, then shuffled with the random source. */
    constructor (rand: nat -> nat)
      ensures cards == FisherYates(FullDeck(), 52, rand)
      ensures Valid() && dealt == []
    {
      cards := FullDeck();
      dealt := [];
      new;
      Shuffle(rand);
    }

    /** `Deck.shuffle`: the Fisher-Yates pass of `random.shuffle`, which for
        i from the last position down to 1 exchanges position i with a
        position j <= i drawn at random; rand(i) stands for that draw. */
    method Shuffle(rand: nat -> nat)
      modifies this
      ensures cards == FisherYates(old(cards), |old(cards)|, rand)
      ensures multiset(cards) == multiset(old(cards))
      ensures dealt == old(dealt)
      ensures old(Valid()) ==> Valid()
    {
      var i: nat := |cards|;
      FisherYatesPermutes(cards, i, rand);
      while i > 1
        invariant i <= |cards| == |old(cards)|
        invariant FisherYates(cards, i, rand) == FisherYates(old(cards), |old(cards)|, rand)
        invariant dealt == old(dealt)
      {
        ghost var before := cards;
        i := i - 1;
        var j := rand(i) % (i + 1);
        assert FisherYates(before, i + 1, rand) == FisherYates(before[i := before[j]][j := before[i]], i, rand);
        cards := cards[i := cards[j]][j := cards[i]];
      }
    }

    /** `Deck.deal`: removes and returns the last card, or None when empty. */
    method Deal() returns (c: Option<Card>)
      modifies this
      ensures old(Valid()) ==> Valid()
      ensures old(cards) == [] ==> c == None && cards == [] && dealt == old(dealt)
      ensures old(cards) != [] ==>
        && c == Some(old(cards)[|old(cards)| - 1])
        && cards == old(cards)[..|old(cards)| - 1]
        && dealt == old(dealt) + [c.value]
    {
      if cards == [] {
        c := None;
      } else {
        var last := cards[|cards| - 1];
        assert cards == cards[..|cards| - 1] + [last];
        c := Some(last);
        cards := cards[..|cards| - 1];
        dealt := dealt + [last];
      }
    }

    /** `Deck.__len__`: the number of cards not yet dealt. */
    function Length(): (n: nat)
      reads this
      ensures Valid() ==> n == 52 - |dealt|
    {
      DeckLength(cards, dealt);
      |cards|
    }
  }
}
