/** The player of player.py: a name, a stack of chips, the hole cards, the
    amount wagered in the current betting round, and the folded and all-in
    flags. A Seat is the value of those fields; the Player class holds them
    as mutable fields and its methods are proved against the Seat functions. */
module Players {
  import opened Cards

  datatype Seat = Seat(name: string, chips: int, hand: seq<Card>, currentBet: int,
                       folded: bool, allIn: bool)

  /** `Player.__init__`: empty hand, no wager, neither folded nor all-in. */
  function NewSeat(name: string, chips: int): Seat {
    Seat(name, chips, [], 0, false, false)
  }

  /** `reset_hand`: the per-hand fields cleared, name and chips kept. */
  function SeatReset(s: Seat): (r: Seat)
    ensures r.name == s.name && r.chips == s.chips
    ensures r.hand == [] && r.currentBet == 0 && !r.folded && !r.allIn
  {
    s.(hand := [], currentBet := 0, folded := false, allIn := false)
  }

  /** `bet(amount)`: pays min(amount, chips), moves it from the stack to the
      wager, and marks the seat all-in once the stack is empty. Returns the
      new seat and the amount actually paid. */
  function SeatBet(s: Seat, amount: int): (r: (Seat, int))
    ensures r.1 <= amount && r.1 <= s.chips && (r.1 == amount || r.1 == s.chips)
    ensures r.0.chips == s.chips - r.1 && r.0.currentBet == s.currentBet + r.1
    ensures r.0.chips >= 0
    ensures r.0.allIn <==> s.allIn || r.0.chips == 0
    ensures r.0.name == s.name && r.0.hand == s.hand && r.0.folded == s.folded
  {
    var paid := if amount <= s.chips then amount else s.chips;
    var left := s.chips - paid;
    (s.(chips := left, currentBet := s.currentBet + paid, allIn := if left == 0 then true else s.allIn), paid)
  }

  /** `receive_cards`: the cards are appended, in order, to the hand. */
  function SeatReceive(s: Seat, cards: seq<Card>): (r: Seat)
    ensures |r.hand| == |s.hand| + |cards|
    ensures r.hand[..|s.hand|] == s.hand && r.hand[|s.hand|..] == cards
    ensures r == s.(hand := r.hand)
  {
    s.(hand := s.hand + cards)
  }

  /** `is_active`: neither folded nor all-in. */
  predicate SeatActive(s: Seat) {
    !s.folded && !s.allIn
  }

  /** A bet that empties the stack leaves the seat inactive, and nothing but
      a new hand makes it active again: betting never clears all-in. */
  lemma BetThatEmptiesDeactivates(s: Seat, amount: int)
    ensures SeatBet(s, amount).0.chips == 0 ==> !SeatActive(SeatBet(s, amount).0)
    ensures !SeatActive(s) ==> !SeatActive(SeatBet(s, amount).0)
    ensures SeatActive(SeatReset(s))
  {
  }

  class Player {
    var name: string
    var chips: int
    var hand: seq<Card>
    var currentBet: int
    var folded: bool
    var allIn: bool

    /** The player's fields as a value. */
    function Snapshot(): Seat
      reads this
    {
      Seat(name, chips, hand, currentBet, folded, allIn)
    }

    /** `Player(name, chips=1000)`. */
    constructor (name: string, chips: int := 1000)
      ensures Snapshot() == NewSeat(name, chips)
    {
      this.name := name;
      this.chips := chips;
      hand := [];
      currentBet := 0;
      folded := false;
      allIn := false;
    }

    method ResetHand()
      modifies this
      ensures Snapshot() == SeatReset(old(Snapshot()))
    {
      hand := [];
      currentBet := 0;
      folded := false;
      allIn := false;
    }

    method Bet(amount: int) returns (paid: int)
      modifies this
      ensures (Snapshot(), paid) == SeatBet(old(Snapshot()), amount)
    {
      paid := if amount <= chips then amount else chips;
      chips := chips - paid;
      currentBet := currentBet + paid;
      if chips == 0 {
        allIn := true;
      }
    }

    method ReceiveCards(cards: seq<Card>)
      modifies this
      ensures Snapshot() == SeatReceive(old(Snapshot()), cards)
    {
      hand := hand + cards;
    }

    function IsActive(): (active: bool)
      reads this
      ensures active <==> SeatActive(Snapshot())
    {
      !folded && !allIn
    }
  }
}
