/** The deterministic pieces of the GTO policy (gtoStrategy.py): the street
    classifier, the draw-potential classifier, the hand-range table, the
    clamp that ends every bet-sizing helper, and the action shape of the
    pre-flop and post-flop branches. The decision score, the hand
    playability and the random draws are floating-point inputs here. */
module GtoStrategy {
  import opened Util
  import opened Cards
  import opened Actions

  // ---------------------------------------------------------------------
  // The street

  datatype Stage = Preflop | Flop | Turn | River

  /** `_get_game_stage`: no board is pre-flop, three cards the flop, four
      the turn, and every other count the river. */
  function GameStage(community: seq<Card>): (s: Stage)
    ensures s == Preflop <==> |community| == 0
    ensures s == Flop <==> |community| == 3
    ensures s == Turn <==> |community| == 4
    ensures s == River <==> |community| !in {0, 3, 4}
  {
    if |community| == 0 then Preflop
    else if |community| == 3 then Flop
    else if |community| == 4 then Turn
    else River
  }

  // ---------------------------------------------------------------------
  // Draw potential

  /** How many of the cards have suit s. */
  function SuitTally(cards: seq<Card>, s: Suit): (n: nat)
    ensures n <= |cards|
  {
    if cards == [] then 0
    else SuitTally(cards[..|cards| - 1], s) + (if cards[|cards| - 1].suit == s then 1 else 0)
  }

  /** The size of the largest suit among the cards. */
  function MostOfOneSuit(cards: seq<Card>): int {
    Max(Max(SuitTally(cards, Hearts), SuitTally(cards, Diamonds)),
        Max(SuitTally(cards, Clubs), SuitTally(cards, Spades)))
  }

  /** `flush_draw`: the largest suit holds exactly four cards. */
  predicate FlushDraw(cards: seq<Card>) {
    MostOfOneSuit(cards) == 4
  }

  /** The rank values of the cards, in order. */
  function RanksOf(cards: seq<Card>): (rs: seq<int>)
    ensures |rs| == |cards|
    ensures forall i :: 0 <= i < |cards| ==> rs[i] == cards[i].rank as int
  {
    seq(|cards|, i requires 0 <= i < |cards| => cards[i].rank as int)
  }

  /** The list read backwards. */
  function Backwards(d: seq<int>): (r: seq<int>)
    ensures |r| == |d|
    ensures forall i :: 0 <= i < |d| ==> r[i] == d[|d| - 1 - i]
  {
    seq(|d|, i requires 0 <= i < |d| => d[|d| - 1 - i])
  }

  /** Reading a list backwards keeps its elements and turns a strictly
      decreasing list into a strictly increasing one. */
  lemma BackwardsFacts(d: seq<int>)
    ensures forall x :: x in Backwards(d) <==> x in d
    ensures Decreasing(d) ==> Increasing(Backwards(d))
  {
    var r := Backwards(d);
    forall x | x in d ensures x in r {
      var k :| 0 <= k < |d| && d[k] == x;
      assert r[|d| - 1 - k] == x;
    }
  }

  /** `sorted(set(card.rank.value for card in all_cards))`: the distinct
      rank values, from the lowest up. */
  function SortedRanks(cards: seq<Card>): (rs: seq<int>)
    ensures Increasing(rs)
    ensures forall x :: x in rs <==> x in RanksOf(cards)
  {
    var distinct := Dedup(RanksOf(cards));
    SortDescDistinct(distinct);
    SortDescMembers(distinct);
    BackwardsFacts(SortDesc(distinct));
    Backwards(SortDesc(distinct))
  }

  /** `straight_draw`: four consecutive entries of the sorted ranks span at
      most four. */
  predicate StraightDraw(rs: seq<int>) {
    exists i :: 0 <= i && i + 3 < |rs| && rs[i + 3] - rs[i] <= 4
  }

  /** `open_ended`: five consecutive entries of the sorted ranks span
      exactly four. */
  predicate OpenEnded(rs: seq<int>) {
    exists i :: 0 <= i && i + 4 < |rs| && rs[i + 4] - rs[i] == 4
  }

  /** `_calculate_draw_potential` in hundredths: 0.5 before the flop;
      otherwise 0.9 for a flush draw with an open-ended straight draw, 0.7
      for one of the two, 0.5 for a gapped straight draw, and 0.3 else. */
  function DrawPotential(hand: seq<Card>, community: seq<Card>): (p: nat)
    ensures |community| < 3 ==> p == 50
    ensures p in {30, 50, 70, 90}
  {
    if |community| < 3 then 50
    else
      var cards := hand + community;
      var rs := SortedRanks(cards);
      if FlushDraw(cards) && OpenEnded(rs) then 90
      else if FlushDraw(cards) || OpenEnded(rs) then 70
      else if StraightDraw(rs) then 50
      else 30
  }

  /** `suit_count.get(s, 0)`. */
  function CountOf(m: map<Suit, nat>, s: Suit): nat {
    if s in m then m[s] else 0
  }

  /** `_calculate_draw_potential` as the source computes it: a dictionary
      of suit counts filled by a loop, its largest value, then two scans
      of the sorted ranks that stop at the first hit. */
  method CalculateDrawPotential(hand: seq<Card>, community: seq<Card>) returns (p: nat)
    ensures p == DrawPotential(hand, community)
  {
    if |community| < 3 {
      return 50;
    }
    var cards := hand + community;
    var suitCount := CountSuits(cards);
    var most := Max(Max(CountOf(suitCount, Hearts), CountOf(suitCount, Diamonds)),
                    Max(CountOf(suitCount, Clubs), CountOf(suitCount, Spades)));
    var flushDraw := most == 4;
    var ranks := SortedRanks(cards);
    var straightDraw := FindStraightDraw(ranks);
    var openEnded := FindOpenEnded(ranks);
    if flushDraw && openEnded {
      p := 90;
    } else if flushDraw || openEnded {
      p := 70;
    } else if straightDraw {
      p := 50;
    } else {
      p := 30;
    }
  }

  /** The `suit_count` loop: one more for the suit of every card. */
  method CountSuits(cards: seq<Card>) returns (suitCount: map<Suit, nat>)
    ensures forall s :: CountOf(suitCount, s) == SuitTally(cards, s)
  {
    suitCount := map[];
    for k := 0 to |cards|
      invariant forall s :: CountOf(suitCount, s) == SuitTally(cards[..k], s)
    {
      assert cards[..k + 1][..k] == cards[..k];
      suitCount := suitCount[cards[k].suit := CountOf(suitCount, cards[k].suit) + 1];
    }
    assert cards[..|cards|] == cards;
  }

  /** The `straight_draw` loop, leaving at the first window of four that
      spans at most four. */
  method FindStraightDraw(ranks: seq<int>) returns (straightDraw: bool)
    ensures straightDraw == StraightDraw(ranks)
  {
    straightDraw := false;
    var i := 0;
    while i + 3 < |ranks|
      invariant forall j :: 0 <= j < i && j + 3 < |ranks| ==> ranks[j + 3] - ranks[j] > 4
    {
      if ranks[i + 3] - ranks[i] <= 4 {
        return true;
      }
      i := i + 1;
    }
  }

  /** The `open_ended` loop, leaving at the first window of five that spans
      exactly four. */
  method FindOpenEnded(ranks: seq<int>) returns (openEnded: bool)
    ensures openEnded == OpenEnded(ranks)
  {
    openEnded := false;
    var i := 0;
    while i + 4 < |ranks|
      invariant forall j :: 0 <= j < i && j + 4 < |ranks| ==> ranks[j + 4] - ranks[j] != 4
    {
      if ranks[i + 4] - ranks[i] == 4 {
        return true;
      }
      i := i + 1;
    }
  }

  /** Five or more cards of one suit are a made flush, not a flush draw. */
  lemma MadeFlushIsNoDraw(cards: seq<Card>, s: Suit)
    requires SuitTally(cards, s) >= 5
    ensures !FlushDraw(cards)
  {
  }

  /** In a strictly increasing list of integers, entries b - a places
      apart differ by at least b - a. */
  lemma {:induction false} IncreasingGap(rs: seq<int>, a: nat, b: nat)
    requires Increasing(rs) && a <= b < |rs|
    ensures rs[b] - rs[a] >= b - a
    decreases b - a
  {
    if a < b {
      IncreasingGap(rs, a, b - 1);
    }
  }

  /** An open-ended straight draw is also a straight draw. */
  lemma OpenEndedIsStraightDraw(rs: seq<int>)
    requires Increasing(rs)
    ensures OpenEnded(rs) ==> StraightDraw(rs)
  {
    if OpenEnded(rs) {
      var i :| 0 <= i && i + 4 < |rs| && rs[i + 4] - rs[i] == 4;
      assert rs[i + 3] < rs[i + 4];
    }
  }

  /** The five values from lo up all occur. */
  predicate RunFrom(rs: seq<int>, lo: int) {
    lo in rs && lo + 1 in rs && lo + 2 in rs && lo + 3 in rs && lo + 4 in rs
  }

  /** The entry after v in a strictly increasing list is v + 1 when v + 1
      occurs at all. */
  lemma NextIsSuccessor(rs: seq<int>, j: nat)
    requires Increasing(rs) && j < |rs| && rs[j] + 1 in rs
    ensures j + 1 < |rs| && rs[j + 1] == rs[j] + 1
  {
    var m :| 0 <= m < |rs| && rs[m] == rs[j] + 1;
    assert j < m;
    assert rs[j + 1] <= rs[m];
  }

  /** Five entries of a strictly increasing list that span four are five
      consecutive values. */
  lemma OpenEndedGivesRun(rs: seq<int>, i: nat)
    requires Increasing(rs) && i + 4 < |rs| && rs[i + 4] - rs[i] == 4
    ensures RunFrom(rs, rs[i])
  {
    IncreasingGap(rs, i, i + 1);
    IncreasingGap(rs, i + 1, i + 4);
    IncreasingGap(rs, i + 2, i + 4);
    IncreasingGap(rs, i + 3, i + 4);
    IncreasingGap(rs, i, i + 2);
    IncreasingGap(rs, i, i + 3);
    assert rs[i + 1] == rs[i] + 1 && rs[i + 2] == rs[i] + 2 && rs[i + 3] == rs[i] + 3;
  }

  /** Five consecutive values in a strictly increasing list sit at five
      consecutive places. */
  lemma RunGivesOpenEnded(rs: seq<int>, lo: int)
    requires Increasing(rs) && RunFrom(rs, lo)
    ensures OpenEnded(rs)
  {
    var j :| 0 <= j < |rs| && rs[j] == lo;
    NextIsSuccessor(rs, j);
    NextIsSuccessor(rs, j + 1);
    NextIsSuccessor(rs, j + 2);
    NextIsSuccessor(rs, j + 3);
    assert rs[j + 4] - rs[j] == 4;
  }

  /** `open_ended` holds exactly when five consecutive rank values all
      occur among the sorted ranks. */
  lemma OpenEndedIsRun(rs: seq<int>)
    requires Increasing(rs)
    ensures OpenEnded(rs) <==> exists lo :: RunFrom(rs, lo)
  {
    if OpenEnded(rs) {
      var i :| 0 <= i && i + 4 < |rs| && rs[i + 4] - rs[i] == 4;
      OpenEndedGivesRun(rs, i);
    }
    if lo :| RunFrom(rs, lo) {
      RunGivesOpenEnded(rs, lo);
    }
  }

  /** After the flop, the draw potential is 0.9 exactly when the largest
      suit has four cards and five consecutive rank values are held. */
  lemma BestDrawIsFlushAndRun(hand: seq<Card>, community: seq<Card>)
    requires |community| >= 3
    ensures var cards := hand + community;
      DrawPotential(hand, community) == 90 <==>
        FlushDraw(cards) && exists lo :: RunFrom(SortedRanks(cards), lo)
  {
    OpenEndedIsRun(SortedRanks(hand + community));
  }

  // ---------------------------------------------------------------------
  // Hand ranges

  /** The nine keys of the range table: six positions, three post-flop
      classes. */
  datatype RangeName = UTG | MP | CO | BTN | SB | BB | ValueHands | BluffHands | MediumHands

  predicate IsPosition(n: RangeName) {
    !(n.ValueHands? || n.BluffHands? || n.MediumHands?)
  }

  /** A `(rank1, rank2, suited)` tuple. */
  datatype HandClass = HandClass(high: int, low: int, suited: bool)

  /** Every class with 2 <= low <= high <= 14, suited or not. */
  function AllClasses(): set<HandClass> {
    set a: int, b: int, s: bool | 2 <= b <= a <= 14 :: HandClass(a, b, s)
  }

  /** The classes the nested loops have added before reaching (r1, r2). */
  function ClassesBefore(r1: int, r2: int): set<HandClass> {
    set a: int, b: int, s: bool | 2 <= b <= a <= 14 && (a < r1 || (a == r1 && b < r2)) ::
      HandClass(a, b, s)
  }

  /** The number of (high, low) pairs with 2 <= low <= high < r. */
  function PairsBelow(r: int): nat {
    if r <= 2 then 0 else PairsBelow(r - 1) + (r - 2)
  }

  /** The number of lows b with 2 <= b < r2 and b <= r1. */
  function LowsBefore(r1: int, r2: int): nat {
    if r2 <= 2 || r1 < 2 then 0 else Min(r2 - 2, r1 - 1)
  }

  /** Every position's range after the loops have visited (r1, r2). */
  ghost predicate RangesAt(ranges: map<RangeName, set<HandClass>>, r1: int, r2: int) {
    (forall n :: n in ranges) &&
    (forall n :: IsPosition(n) ==> ranges[n] == ClassesBefore(r1, r2)) &&
    (forall n :: !IsPosition(n) ==> ranges[n] == {}) &&
    |ClassesBefore(r1, r2)| == 2 * (PairsBelow(r1) + LowsBefore(r1, r2))
  }

  /** `ranges[pos].add(h)` for each of the six positions. */
  function AddToPositions(ranges: map<RangeName, set<HandClass>>, h: HandClass)
    : (r: map<RangeName, set<HandClass>>)
    requires forall n :: n in ranges
    ensures forall n :: n in r && r[n] == if IsPosition(n) then ranges[n] + {h} else ranges[n]
  {
    ranges[UTG := ranges[UTG] + {h}][MP := ranges[MP] + {h}][CO := ranges[CO] + {h}]
          [BTN := ranges[BTN] + {h}][SB := ranges[SB] + {h}][BB := ranges[BB] + {h}]
  }

  /** `_initialize_hand_ranges`: every position gets all 182 classes (each
      rank pair with high >= low, suited and offsuit), and the three
      post-flop classes stay empty. */
  method InitializeHandRanges() returns (ranges: map<RangeName, set<HandClass>>)
    ensures forall n :: n in ranges
    ensures forall n :: IsPosition(n) ==> ranges[n] == AllClasses() && |ranges[n]| == 182
    ensures forall n :: !IsPosition(n) ==> ranges[n] == {}
  {
    ranges := map[UTG := {}, MP := {}, CO := {}, BTN := {}, SB := {}, BB := {},
                  ValueHands := {}, BluffHands := {}, MediumHands := {}];
    forall n ensures n in ranges {
      match n
      case UTG => case MP => case CO => case BTN => case SB => case BB =>
      case ValueHands => case BluffHands => case MediumHands =>
    }
    assert ClassesBefore(2, 2) == {} by {
      forall h | h in ClassesBefore(2, 2) ensures false { }
    }
    for r1 := 2 to 15
      invariant RangesAt(ranges, r1, 2)
    {
      for r2 := 2 to 15
        invariant RangesAt(ranges, r1, r2)
      {
        if r1 >= r2 {
          ranges := AddPair(ranges, r1, r2);
        } else {
          assert ClassesBefore(r1, r2 + 1) == ClassesBefore(r1, r2);
        }
      }
      assert ClassesBefore(r1, 15) == ClassesBefore(r1 + 1, 2);
    }
    assert ClassesBefore(15, 2) == AllClasses();
    assert PairsBelow(15) == 91;
  }

  /** One visit with r1 >= r2: the suited and the offsuit class added to
      every position. */
  method AddPair(ranges: map<RangeName, set<HandClass>>, r1: int, r2: int)
    returns (next: map<RangeName, set<HandClass>>)
    requires 2 <= r2 <= r1 <= 14 && RangesAt(ranges, r1, r2)
    ensures RangesAt(next, r1, r2 + 1)
  {
    ClassesStep(r1, r2);
    next := AddToPositions(ranges, HandClass(r1, r2, true));
    next := AddToPositions(next, HandClass(r1, r2, false));
  }

  /** Visiting (r1, r2) with r1 >= r2 adds two classes not added before. */
  lemma ClassesStep(r1: int, r2: int)
    requires 2 <= r2 <= r1 <= 14
    ensures HandClass(r1, r2, true) !in ClassesBefore(r1, r2)
    ensures HandClass(r1, r2, false) !in ClassesBefore(r1, r2)
    ensures ClassesBefore(r1, r2 + 1) ==
      ClassesBefore(r1, r2) + {HandClass(r1, r2, true)} + {HandClass(r1, r2, false)}
    ensures |ClassesBefore(r1, r2 + 1)| == |ClassesBefore(r1, r2)| + 2
    ensures LowsBefore(r1, r2 + 1) == LowsBefore(r1, r2) + 1
  {
    var before := ClassesBefore(r1, r2);
    var next := ClassesBefore(r1, r2 + 1);
    var more := before + {HandClass(r1, r2, true)} + {HandClass(r1, r2, false)};
    forall h | h in next ensures h in more {
      if h.high != r1 || h.low != r2 {
        assert h in before;
      }
    }
    assert |before + {HandClass(r1, r2, true)}| == |before| + 1;
  }

  // ---------------------------------------------------------------------
  // Bet sizing and the branches

  /** The tail of every bet-sizing helper: `min(max(min_raise, x), chips)`,
      whatever pot share x the random draw produced. */
  function Clamp(x: int, minRaise: int, chips: int): (r: int)
    ensures r <= chips
    ensures r >= Min(minRaise, chips)
    ensures minRaise <= chips ==> minRaise <= r
    ensures minRaise <= x <= chips ==> r == x
  {
    Min(Max(minRaise, x), chips)
  }

  /** `_preflop_strategy` for a decision score: facing a bet, raise above
      0.7, call (all-in when the stack is short) above 0.4, fold else; with
      nothing to call, bet above 0.6 and check else. `raiseX` and `betX`
      are the pot shares the sizing helpers drew before clamping. */
  function PreflopStrategy(chips: int, callAmount: int, minRaise: int, score: real,
                           raiseX: int, betX: int): (d: Decision)
    ensures callAmount > 0 ==> d.action != Check
    ensures callAmount <= 0 ==> d.action !in {Call, Fold}
    ensures d.action == AllIn ==> callAmount > chips && d.amount == chips
    ensures d.action == Call ==> d.amount == callAmount <= chips
    ensures d.action == Raise ==> d.amount <= chips
    ensures d.action in {Fold, Check} ==> d.amount == 0
  {
    if callAmount > 0 then
      if score > 0.7 then Decision(Raise, Clamp(raiseX, minRaise, chips))
      else if score > 0.4 then
        if callAmount <= chips then Decision(Call, callAmount) else Decision(AllIn, chips)
      else Decision(Fold, 0)
    else if score > 0.6 then Decision(Raise, Clamp(betX, minRaise, chips))
    else Decision(Check, 0)
  }

  /** `call_amount` itself when the stack covers it, else all-in. */
  function CallOrAllIn(chips: int, callAmount: int): (d: Decision)
    ensures d.action in {Call, AllIn}
    ensures d.action == Call <==> callAmount <= chips
    ensures d.amount == Min(callAmount, chips)
  {
    if callAmount <= chips then Decision(Call, callAmount) else Decision(AllIn, chips)
  }

  /** `_postflop_strategy` for a decision score, the hand playability and
      the mixing draw `mix` (the `random.random()` of the branch taken):
      facing a bet, above 0.8 raise (or call 30% of the time), above 0.5
      call, else fold unless a playable hand calls 20% of the time; with
      nothing to call, above 0.7 bet (or check 20% of the time), above 0.4
      check, else bluff 10% of the time. */
  function PostflopStrategy(chips: int, callAmount: int, minRaise: int, score: real,
                            playability: real, mix: real,
                            raiseX: int, betX: int, bluffX: int): (d: Decision)
    ensures callAmount > 0 ==> d.action != Check
    ensures callAmount <= 0 ==> d.action !in {Call, Fold}
    ensures d.action == AllIn ==> callAmount > chips && d.amount == chips
    ensures d.action == Call ==> d.amount == callAmount <= chips
    ensures d.action == Raise ==> d.amount <= chips
    ensures d.action in {Fold, Check} ==> d.amount == 0
  {
    if callAmount > 0 then
      if score > 0.8 then
        if mix < 0.3 then CallOrAllIn(chips, callAmount)
        else Decision(Raise, Clamp(raiseX, minRaise, chips))
      else if score > 0.5 then CallOrAllIn(chips, callAmount)
      else if playability > 0.7 && mix < 0.2 then CallOrAllIn(chips, callAmount)
      else Decision(Fold, 0)
    else if score > 0.7 then
      if mix < 0.2 then Decision(Check, 0) else Decision(Raise, Clamp(betX, minRaise, chips))
    else if score > 0.4 then Decision(Check, 0)
    else if mix < 0.1 then Decision(Raise, Clamp(bluffX, minRaise, chips))
    else Decision(Check, 0)
  }

  /** `_gto_mixed_strategy` once the score is known: the pre-flop branch
      before the flop, the post-flop branch after it. Neither checks when
      facing a bet nor calls or folds when there is nothing to call. */
  function MixedStrategy(stage: Stage, chips: int, callAmount: int, minRaise: int,
                         score: real, playability: real, mix: real,
                         raiseX: int, betX: int, bluffX: int): (d: Decision)
    ensures callAmount > 0 ==> d.action != Check
    ensures callAmount <= 0 ==> d.action !in {Call, Fold}
    ensures d.action == AllIn ==> callAmount > chips && d.amount == chips
    ensures d.action in {Raise, Call, AllIn} ==> d.amount <= chips
  {
    if stage == Preflop then PreflopStrategy(chips, callAmount, minRaise, score, raiseX, betX)
    else PostflopStrategy(chips, callAmount, minRaise, score, playability, mix, raiseX, betX, bluffX)
  }
}
