/** The fixed-heuristic strategies of strategy.py: a hand-strength scalar
    from the two hole cards, and three decision rules (basic, aggressive,
    conservative) that differ only in their thresholds and bet fractions. */
module Strategy {
  import opened Util
  import opened Cards
  import opened Actions
  import opened Players

  /** `_calculate_hand_strength` in hundredths: the base for the shape of
      the two cards plus the high-card bonus (the higher rank value). */
  datatype Strength = Strength(base: int, bonus: int)

  /** The strength as a number of hundredths, capped at 100 (`min(1.0, …)`). */
  function Hundredths(h: Strength): int {
    Min(100, h.base + h.bonus)
  }

  /** `_calculate_hand_strength(hand, community_cards)`: 0 with fewer than
      two cards; otherwise 0.8 for a pair, 0.3 suited, 0.2 for adjacent
      ranks, 0.1 else, plus the higher rank over 100. The community cards
      play no part. The source unpacks the hand into two cards, so it needs
      at most two. */
  function HandStrength(hand: seq<Card>): (h: Strength)
    requires |hand| <= 2
    ensures 0 <= Hundredths(h) <= 100
    ensures |hand| < 2 <==> Hundredths(h) == 0
    ensures |hand| == 2 ==> h.bonus == Max(hand[0].rank, hand[1].rank)
  {
    if |hand| < 2 then Strength(0, 0)
    else
      var a := hand[0];
      var b := hand[1];
      var base :=
        if a.rank == b.rank then 80
        else if a.suit == b.suit then 30
        else if a.rank - b.rank == 1 || b.rank - a.rank == 1 then 20
        else 10;
      Strength(base, Max(a.rank, b.rank))
  }

  /** `hand_strength > t / 100` as the doubles compute it. For every strength
      the two cards can give the comparison is exact, but one: 0.2 + 10/100
      rounds to 0.30000000000000004, which is above 0.3. */
  predicate Above(h: Strength, t: int) {
    Hundredths(h) > t || (h == Strength(20, 10) && t == 30)
  }

  /** The constants that tell the three strategies apart: the strength
      above which each branch is taken and the pot fraction bet, in
      hundredths of the pot. */
  datatype Profile = Profile(raiseAbove: int, callAbove: int, raiseShare: nat,
                             betAbove: int, betShare: nat)

  /** `BasicStrategy`: raise above 0.7 for half the pot, call above 0.3;
      bet above 0.6 for 0.3 of the pot. */
  const Basic := Profile(70, 30, 50, 60, 30)

  /** `AggressiveStrategy`: raise above 0.5 for 0.75 of the pot, call above
      0.2; bet above 0.4 for half the pot. */
  const Aggressive := Profile(50, 20, 75, 40, 50)

  /** `ConservativeStrategy`: raise above 0.6 for 0.3 of the pot, call
      above 0.4; bet above 0.7 for 0.2 of the pot. */
  const Conservative := Profile(60, 40, 30, 70, 20)

  /** `max(min_raise, min(int(pot_size * share), player.chips))`. */
  function Sizing(share: nat, seat: Seat, view: View): int {
    Max(view.minRaise, Min(Truncate(view.pot * share, 100), seat.chips))
  }

  /** True when the table bet is above the seat's wager. */
  predicate Facing(seat: Seat, view: View) {
    view.currentBet > seat.currentBet
  }

  /** The `decide` of every strategy. Facing a bet: raise when strong and
      the stack covers more than the call plus the minimum raise, call when
      fair and the stack covers the call, fold otherwise. Not facing a bet:
      bet when strong, check otherwise. */
  function Decide(p: Profile, seat: Seat, view: View): (d: Decision)
    requires |seat.hand| <= 2
    ensures Facing(seat, view) ==> d.action in {Raise, Call, Fold}
    ensures !Facing(seat, view) ==> d.action in {Raise, Check}
    ensures d.action == Raise ==> d.amount >= view.minRaise
    ensures d.action == Raise ==> d.amount <= seat.chips || d.amount == view.minRaise
    ensures d.action == Raise && Facing(seat, view) ==>
      seat.chips > view.currentBet - seat.currentBet + view.minRaise
    ensures d.action == Call ==>
      d.amount == view.currentBet - seat.currentBet <= seat.chips
    ensures d.action in {Fold, Check} ==> d.amount == 0
  {
    var h := HandStrength(seat.hand);
    if Facing(seat, view) then
      var call := view.currentBet - seat.currentBet;
      if Above(h, p.raiseAbove) && seat.chips > call + view.minRaise then
        Decision(Raise, Sizing(p.raiseShare, seat, view))
      else if Above(h, p.callAbove) && seat.chips >= call then Decision(Call, call)
      else Decision(Fold, 0)
    else if Above(h, p.betAbove) then Decision(Raise, Sizing(p.betShare, seat, view))
    else Decision(Check, 0)
  }

  /** The order of the two hole cards does not matter. */
  lemma StrengthSymmetric(a: Card, b: Card)
    ensures Hundredths(HandStrength([a, b])) == Hundredths(HandStrength([b, a]))
  {
  }

  /** A pair is stronger than any two unpaired cards: at least 0.82 against
      at most 0.44. */
  lemma PairBeatsUnpaired(pair: seq<Card>, other: seq<Card>)
    requires |pair| == 2 && pair[0].rank == pair[1].rank
    requires |other| <= 2 && (|other| == 2 ==> other[0].rank != other[1].rank)
    ensures Hundredths(HandStrength(pair)) >= 82
    ensures Hundredths(HandStrength(other)) <= 44
    ensures Hundredths(HandStrength(other)) < Hundredths(HandStrength(pair))
  {
  }

  /** Whenever the basic strategy raises, the aggressive one raises too:
      its thresholds (0.5 facing a bet, 0.4 otherwise) are below the basic
      ones (0.7 and 0.6), and the stack test is the same. */
  lemma BasicRaiseAggressiveRaises(seat: Seat, view: View)
    requires |seat.hand| <= 2
    ensures Decide(Basic, seat, view).action == Raise ==>
      Decide(Aggressive, seat, view).action == Raise
  {
  }

  /** Whenever the conservative strategy bets into an unopened pot, the
      basic one bets too (0.7 against 0.6). */
  lemma ConservativeBetBasicBets(seat: Seat, view: View)
    requires |seat.hand| <= 2 && !Facing(seat, view)
    ensures Decide(Conservative, seat, view).action == Raise ==>
      Decide(Basic, seat, view).action == Raise
  {
  }

  /** The rounding quirk: a nine and a ten of different suits, facing a bet
      the stack covers but not with a minimum raise on top, are called by
      the basic strategy, whose threshold is 0.3 and whose strength in exact
      arithmetic is exactly 0.3. */
  lemma BasicCallsNineTenOffsuit(chips: int, wager: int, view: View)
    requires view.currentBet > wager && chips >= view.currentBet - wager
    requires chips <= view.currentBet - wager + view.minRaise
    ensures var seat := Seat("", chips, [Card(9, Hearts), Card(10, Spades)], wager, false, false);
      Hundredths(HandStrength(seat.hand)) == 30 &&
      Decide(Basic, seat, view) == Decision(Call, view.currentBet - wager)
  {
  }
}
