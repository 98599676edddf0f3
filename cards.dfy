/** Playing cards: the Suit enumeration (suit.py), the Rank values 2..14 and
    the immutable Card value with its equality, hash and printed form (card.py). */
module Cards {

  /** The four suits in the declaration order of suit.py. */
  datatype Suit = Hearts | Diamonds | Clubs | Spades {

    /** `suit.value`: the symbol printed after the rank. */
    function Symbol(): char {
      match this
      case Hearts => '♥'
      case Diamonds => '♦'
      case Clubs => '♣'
      case Spades => '♠'
    }

    /** Position in the declaration order. */
    function Index(): (k: nat)
      ensures k < 4
    {
      match this
      case Hearts => 0
      case Diamonds => 1
      case Clubs => 2
      case Spades => 3
    }
  }

  /** `Rank.value`: 2..10, then Jack 11, Queen 12, King 13 and Ace 14. */
  type Rank = r: int | 2 <= r <= 14 witness 2

  const Ace: Rank := 14

  /** The suit with the given declaration index. */
  function SuitAt(k: nat): (s: Suit)
    requires k < 4
    ensures s.Index() == k
  {
    if k == 0 then Hearts else if k == 1 then Diamonds else if k == 2 then Clubs else Spades
  }

  /** `Rank.name` of a court card or the Ace (the names of rank.py). */
  function CourtName(r: Rank): string
    requires r > 10
  {
    if r == 11 then "JACK" else if r == 12 then "QUEEN" else if r == 13 then "KING" else "ACE"
  }

  datatype Card = Card(rank: Rank, suit: Suit)

  /** `Card.__eq__`: two cards are equal when rank and suit both match. */
  function SameCard(a: Card, b: Card): (same: bool)
    ensures same <==> a == b
  {
    a.rank == b.rank && a.suit == b.suit
  }

  /** `Card.__hash__`, a hash of the (rank, suit) pair. CPython's tuple hash is
      not reproduced: the code used here is the card's position in a fresh
      deck, a function of the same pair. */
  function Hash(c: Card): (h: int)
    ensures 0 <= h < 52
  {
    (c.rank - 2) * 4 + c.suit.Index()
  }

  /** Equal cards have equal hashes (the contract of `__hash__`), and here
      different cards also have different ones. */
  lemma HashMatchesEquality(a: Card, b: Card)
    ensures SameCard(a, b) ==> Hash(a) == Hash(b)
    ensures Hash(a) == Hash(b) ==> a == b
  {
    assert Hash(a) / 4 == a.rank - 2 && Hash(a) % 4 == a.suit.Index();
    assert Hash(b) / 4 == b.rank - 2 && Hash(b) % 4 == b.suit.Index();
    assert SuitAt(a.suit.Index()) == a.suit && SuitAt(b.suit.Index()) == b.suit;
  }

  /** `str(n)` for the values 2..10 that the printed form uses. */
  function SmallDecimal(n: int): string
    requires 2 <= n <= 10
  {
    if n < 10 then [('0' as int + n) as char] else "10"
  }

  /** The value of a string of decimal digits. */
  function DigitsValue(ds: string): int {
    if ds == [] then 0 else DigitsValue(ds[..|ds| - 1]) * 10 + (ds[|ds| - 1] as int - '0' as int)
  }

  predicate AllDigits(ds: string) {
    forall k :: 0 <= k < |ds| ==> '0' <= ds[k] <= '9'
  }

  /** `Card.__repr__`: the rank as a number up to 10, otherwise the first
      letter of the rank's name, followed by the suit symbol. */
  function Show(c: Card): (s: string)
    ensures 2 <= |s| <= 3 && s[|s| - 1] == c.suit.Symbol()
    ensures c.rank <= 10 ==> AllDigits(s[..|s| - 1]) && DigitsValue(s[..|s| - 1]) == c.rank
    ensures c.rank > 10 ==> |s| == 2 && s[0] == CourtName(c.rank)[0]
  {
    var rankText := if c.rank <= 10 then SmallDecimal(c.rank) else [CourtName(c.rank)[0]];
    var s := rankText + [c.suit.Symbol()];
    assert s[..|s| - 1] == rankText;
    assert c.rank == 10 ==> DigitsValue(rankText) == DigitsValue("1") * 10 + 0 == 10;
    s
  }

  /** Different cards print differently. */
  lemma ShowInjective(a: Card, b: Card)
    ensures Show(a) == Show(b) ==> a == b
  {
    if Show(a) == Show(b) {
      var s := Show(a);
      assert a.suit.Symbol() == b.suit.Symbol();
      assert (a.rank <= 10) == (b.rank <= 10) by {
        assert a.rank <= 10 ==> '0' <= s[..|s| - 1][0] <= '9';
        assert b.rank <= 10 ==> '0' <= s[..|s| - 1][0] <= '9';
      }
      if a.rank <= 10 {
        assert DigitsValue(s[..|s| - 1]) == a.rank == b.rank;
      } else {
        assert CourtName(a.rank)[0] == CourtName(b.rank)[0];
      }
    }
  }
}
