/** The hand evaluator of handEvaluator.py: a card list is scored as a
    (category, kickers) pair, 9 royal flush, 8 straight flush, 7 four of a
    kind, 6 full house, 5 flush, 4 straight, 3 three of a kind, 2 two pair,
    1 one pair, 0 high card; and two scores are compared. */
module HandEvaluator {
  import opened Util
  import opened Cards

  datatype HandScore = HandScore(category: int, kickers: seq<int>)

  /** `card.rank.value` of every card, in order. */
  function RankValues(cards: seq<Card>): seq<int> {
    seq(|cards|, i requires 0 <= i < |cards| => cards[i].rank as int)
  }

  /** `card.suit` of every card, in order. */
  function SuitsOf(cards: seq<Card>): seq<Suit> {
    seq(|cards|, i requires 0 <= i < |cards| => cards[i].suit)
  }

  /** The value stored under r in the `rank_count` dictionary. */
  function Count(rs: seq<int>, r: int): nat {
    multiset(rs)[r]
  }

  /** The conditions the evaluator tests on dictionary keys and list items. */
  function HasCount(rs: seq<int>, n: nat): int -> bool {
    r => Count(rs, r) == n
  }

  function FlushSized(suits: seq<Suit>): Suit -> bool {
    s => multiset(suits)[s] >= 5
  }

  function OfSuit(s: Suit): Card -> bool {
    (c: Card) => c.suit == s
  }

  function InWindow(high: int): Card -> bool {
    (c: Card) => high - 4 <= c.rank <= high
  }

  function NotIn(excluded: seq<int>): int -> bool {
    r => r !in excluded
  }

  /** The first suit, in dictionary order, held by five or more cards. */
  function FlushSuit(cards: seq<Card>): Option<Suit> {
    FirstWith(Dedup(SuitsOf(cards)), FlushSized(SuitsOf(cards)))
  }

  function FlushCards(cards: seq<Card>, s: Suit): seq<Card> {
    Filter(cards, OfSuit(s))
  }

  /** The distinct rank values, from the highest down. */
  function SortedRanks(cards: seq<Card>): seq<int> {
    SortDesc(Dedup(RankValues(cards)))
  }

  /** The search of the straight loop from position i on: the first position
      whose value is 4 above the value four places later. */
  function RunScan(s: seq<int>, i: nat): Option<int>
    decreases |s| - i
  {
    if i + 4 >= |s| then None
    else if s[i] - s[i + 4] == 4 then Some(s[i])
    else RunScan(s, i + 1)
  }

  /** Ace, Two, Three, Four and Five are all present. */
  predicate Wheel(rs: seq<int>) {
    14 in rs && 2 in rs && 3 in rs && 4 in rs && 5 in rs
  }

  /** `straight_high`: the run found by the loop, otherwise 5 for the wheel. */
  function StraightHigh(cards: seq<Card>): Option<int> {
    var s := SortedRanks(cards);
    match RunScan(s, 0)
    case Some(h) => Some(h)
    case None => if Wheel(s) then Some(5) else None
  }

  /** The flush-suit cards whose rank lies in the window of the straight. */
  function StraightFlushCards(cards: seq<Card>, s: Suit, high: int): seq<Card> {
    Filter(FlushCards(cards, s), InWindow(high))
  }

  /** The test of the straight-flush branch: a flush suit, a straight, and
      five flush-suit cards ranked within the straight's window. */
  predicate IsStraightFlush(cards: seq<Card>) {
    var a := Analyze(cards);
    a.flush.Some? && a.straight.Some? && a.windowCount >= 5
  }

  /** The distinct rank values not in excluded, in dictionary order. */
  function Others(rs: seq<int>, excluded: seq<int>): seq<int> {
    Filter(Dedup(rs), NotIn(excluded))
  }

  /** The first rank held exactly four times. */
  function Quad(rs: seq<int>): Option<int> {
    FirstWith(Dedup(rs), HasCount(rs, 4))
  }

  /** The last rank held exactly three times: the trips loop has no break. */
  function Trips(rs: seq<int>): Option<int> {
    LastWith(Dedup(rs), HasCount(rs, 3))
  }

  /** The ranks held exactly twice, in dictionary order. */
  function PairRanks(rs: seq<int>): seq<int> {
    Filter(Dedup(rs), HasCount(rs, 2))
  }

  /** `pairs` after `pairs.sort(reverse=True)`. */
  function Pairs(rs: seq<int>): seq<int> {
    SortDesc(PairRanks(rs))
  }

  /** What `evaluate_hand` has computed when it reaches the straight-flush
      test: the rank values, the flush suit with its cards' ranks, the
      straight, the size of the straight-flush window, and the results of
      the quad, trips and pair loops. */
  datatype Analysis = Analysis(
    ranks: seq<int>,
    flush: Option<Suit>,
    flushRanks: seq<int>,
    straight: Option<int>,
    windowCount: nat,
    quad: Option<int>,
    trips: Option<int>,
    pairs: seq<int>)

  function Analyze(cards: seq<Card>): Analysis {
    var rs := RankValues(cards);
    var f := FlushSuit(cards);
    var st := StraightHigh(cards);
    Analysis(rs, f,
             if f.Some? then RankValues(FlushCards(cards, f.value)) else [],
             st,
             if f.Some? && st.Some? then |StraightFlushCards(cards, f.value, st.value)| else 0,
             Quad(rs), Trips(rs), Pairs(rs))
  }

  /** `evaluate_hand`. */
  function Evaluate(cards: seq<Card>): HandScore {
    if |cards| < 5 then HandScore(0, []) else Score(Analyze(cards))
  }

  /** The priority chain of `evaluate_hand`, from the straight flush down. */
  function Score(a: Analysis): HandScore {
    if a.flush.Some? && a.straight.Some? && a.windowCount >= 5 then
      HandScore(if a.straight.value == 14 then 9 else 8, [a.straight.value])
    else if a.quad.Some? then
      HandScore(7, [a.quad.value] + Take(SortDesc(Others(a.ranks, [a.quad.value])), 1))
    else if a.trips.Some? && a.pairs != [] then HandScore(6, [a.trips.value, a.pairs[0]])
    else if a.flush.Some? then HandScore(5, Take(SortDesc(a.flushRanks), 5))
    else if a.straight.Some? then HandScore(4, [a.straight.value])
    else if a.trips.Some? then
      HandScore(3, [a.trips.value] + Take(SortDesc(Others(a.ranks, [a.trips.value])), 2))
    else if |a.pairs| >= 2 then
      HandScore(2, a.pairs[..2] + Take(SortDesc(Others(a.ranks, a.pairs[..2])), 1))
    else if a.pairs != [] then
      HandScore(1, [a.pairs[0]] + Take(SortDesc(Others(a.ranks, [a.pairs[0]])), 3))
    else HandScore(0, Take(SortDesc(a.ranks), 5))
  }

  /** `evaluate_hand` as the source computes it: the two count dictionaries
      (a key list in insertion order and a map) are filled by one loop, then
      the flush suit, the straight and the quad are searched with loops that
      stop early, and one more loop collects the trips and the pairs. */
  method EvaluateHand(cards: seq<Card>) returns (score: HandScore)
    ensures score == Evaluate(cards)
  {
    if |cards| < 5 {
      return HandScore(0, []);
    }
    var rs := RankValues(cards);
    var rankKeys, rankCount, suitKeys, suitCount := CountCards(rs, SuitsOf(cards));
    var flush := FindFlushSuit(suitKeys, suitCount, SuitsOf(cards));
    var flushRanks := if flush.Some? then RankValues(FlushCards(cards, flush.value)) else [];
    var straight := FindStraight(SortDesc(rankKeys));
    var windowCount := 0;
    if flush.Some? && straight.Some? {
      windowCount := |StraightFlushCards(cards, flush.value, straight.value)|;
    }
    var quad := FindQuad(rankKeys, rankCount, rs);
    var trips, pairs := TripsAndPairs(rankKeys, rankCount, rs);
    score := Score(Analysis(rs, flush, flushRanks, straight, windowCount, quad, trips, pairs));
  }

  /** The counting loop over the cards, given as their rank values and their
      suits: `rank_count` and `suit_count`, each a key list in insertion order
      and a map from key to count. */
  method CountCards(rs: seq<int>, suits: seq<Suit>)
    returns (rankKeys: seq<int>, rankCount: map<int, nat>, suitKeys: seq<Suit>, suitCount: map<Suit, nat>)
    requires |rs| == |suits|
    ensures rankKeys == Dedup(rs) && suitKeys == Dedup(suits)
    ensures forall r :: r in rankKeys ==> r in rankCount && rankCount[r] == multiset(rs)[r]
    ensures forall s :: s in suitKeys ==> s in suitCount && suitCount[s] == multiset(suits)[s]
  {
    rankKeys, rankCount, suitKeys, suitCount := [], map[], [], map[];
    for i := 0 to |rs|
      invariant Tally(rankKeys, rankCount, rs[..i])
      invariant Tally(suitKeys, suitCount, suits[..i])
    {
      assert rs[..i + 1] == rs[..i] + [rs[i]] && suits[..i + 1] == suits[..i] + [suits[i]];
      TallyStep(rankKeys, rankCount, rs[..i], rs[i]);
      TallyStep(suitKeys, suitCount, suits[..i], suits[i]);
      rankKeys, rankCount := AddKey(rankKeys, rankCount, rs[i]), Bump(rankCount, rs[i]);
      suitKeys, suitCount := AddKey(suitKeys, suitCount, suits[i]), Bump(suitCount, suits[i]);
    }
    assert rs[..|rs|] == rs && suits[..|suits|] == suits;
    TallyCounts(rankKeys, rankCount, rs);
    TallyCounts(suitKeys, suitCount, suits);
  }

  /** The straight search over the distinct ranks sorted from the highest:
      the wheel test first, then the loop that stops at the first run. */
  method FindStraight(sortedRanks: seq<int>) returns (straight: Option<int>)
    ensures straight == match RunScan(sortedRanks, 0)
                        case Some(h) => Some(h)
                        case None => if Wheel(sortedRanks) then Some(5) else None
  {
    straight := None;
    if 14 in sortedRanks && 2 in sortedRanks && 3 in sortedRanks && 4 in sortedRanks && 5 in sortedRanks {
      straight := Some(5);
    }
    var k := 0;
    while k + 4 < |sortedRanks|
      invariant RunScan(sortedRanks, 0) == RunScan(sortedRanks, k)
      invariant straight == if Wheel(sortedRanks) then Some(5) else None
      decreases |sortedRanks| - k
    {
      if sortedRanks[k] - sortedRanks[k + 4] == 4 {
        straight := Some(sortedRanks[k]);
        break;
      }
      k := k + 1;
    }
  }

  /** The loop that remembers the last rank counted three times and appends
      every rank counted twice, followed by the descending sort of `pairs`. */
  method TripsAndPairs(rankKeys: seq<int>, rankCount: map<int, nat>, ghost rs: seq<int>)
    returns (trips: Option<int>, pairs: seq<int>)
    requires forall r :: r in rankKeys ==> r in rankCount && rankCount[r] == multiset(rs)[r]
    ensures trips == LastWith(rankKeys, HasCount(rs, 3))
    ensures pairs == SortDesc(Filter(rankKeys, HasCount(rs, 2)))
  {
    trips, pairs := None, [];
    for j := 0 to |rankKeys|
      invariant trips == LastWith(rankKeys[..j], HasCount(rs, 3))
      invariant pairs == Filter(rankKeys[..j], HasCount(rs, 2))
    {
      var key := rankKeys[j];
      assert key in rankKeys;
      var count := rankCount[key];
      assert rankKeys[..j + 1][..j] == rankKeys[..j] && rankKeys[..j + 1][j] == key;
      if count == 3 {
        trips := Some(key);
      } else if count == 2 {
        pairs := pairs + [key];
      }
    }
    assert rankKeys[..|rankKeys|] == rankKeys;
    pairs := SortDesc(pairs);
  }

  /** The flush-suit loop: the first key of the suit dictionary counted five
      or more times. */
  method FindFlushSuit(suitKeys: seq<Suit>, suitCount: map<Suit, nat>, ghost suits: seq<Suit>)
    returns (flush: Option<Suit>)
    requires forall s :: s in suitKeys ==> s in suitCount && suitCount[s] == multiset(suits)[s]
    ensures flush == FirstWith(suitKeys, FlushSized(suits))
  {
    flush := None;
    var j := 0;
    while j < |suitKeys|
      invariant j <= |suitKeys|
      invariant FirstWith(suitKeys, FlushSized(suits)) == FirstWith(suitKeys[j..], FlushSized(suits))
    {
      assert suitKeys[j..][1..] == suitKeys[j + 1..];
      if suitCount[suitKeys[j]] >= 5 {
        flush := Some(suitKeys[j]);
        break;
      }
      j := j + 1;
    }
  }

  /** The four-of-a-kind loop: the first key of the rank dictionary counted
      exactly four times. */
  method FindQuad(rankKeys: seq<int>, rankCount: map<int, nat>, ghost rs: seq<int>)
    returns (quad: Option<int>)
    requires forall r :: r in rankKeys ==> r in rankCount && rankCount[r] == multiset(rs)[r]
    ensures quad == FirstWith(rankKeys, HasCount(rs, 4))
  {
    quad := None;
    var j := 0;
    while j < |rankKeys|
      invariant j <= |rankKeys|
      invariant FirstWith(rankKeys, HasCount(rs, 4)) == FirstWith(rankKeys[j..], HasCount(rs, 4))
    {
      assert rankKeys[j..][1..] == rankKeys[j + 1..];
      if rankCount[rankKeys[j]] == 4 {
        quad := Some(rankKeys[j]);
        break;
      }
      j := j + 1;
    }
  }

  /** `compare_hands` on the kicker lists: the first difference within the
      common prefix decides (the loop over `zip`). */
  function CompareKickers(k1: seq<int>, k2: seq<int>): (c: int)
    ensures c == -1 || c == 0 || c == 1
  {
    if k1 == [] || k2 == [] then 0
    else if k1[0] > k2[0] then 1
    else if k1[0] < k2[0] then -1
    else CompareKickers(k1[1..], k2[1..])
  }

  /** `compare_hands`: the category first, then the kickers. The result is
      1 when the first hand is stronger, -1 when the second is, 0 on a tie;
      a tie needs equal categories. */
  function CompareHands(h1: HandScore, h2: HandScore): (c: int)
    ensures c == -1 || c == 0 || c == 1
    ensures c == 0 ==> h1.category == h2.category
  {
    if h1.category > h2.category then 1
    else if h1.category < h2.category then -1
    else CompareKickers(h1.kickers, h2.kickers)
  }

  // ---------------------------------------------------------------------
  // The straight search

  /** h and the four values below it are all present: five consecutive
      rank values topped by h. */
  predicate RunAt(rs: seq<int>, h: int) {
    h in rs && h - 1 in rs && h - 2 in rs && h - 3 in rs && h - 4 in rs
  }

  /** In a strictly decreasing list, the loop's test at position k holds
      exactly when the value there tops a run. */
  lemma RunAtIndex(s: seq<int>, k: nat)
    requires Decreasing(s) && k < |s|
    ensures RunAt(s, s[k]) <==> k + 4 < |s| && s[k] - s[k + 4] == 4
  {
    if k + 4 < |s| && s[k] - s[k + 4] == 4 {
      assert s[k] > s[k + 1] > s[k + 2] > s[k + 3] > s[k + 4];
      assert s[k + 1] == s[k] - 1 && s[k + 2] == s[k] - 2 && s[k + 3] == s[k] - 3;
    }
    if RunAt(s, s[k]) {
      var h := s[k];
      var j1 :| 0 <= j1 < |s| && s[j1] == h - 1;
      var j2 :| 0 <= j2 < |s| && s[j2] == h - 2;
      var j3 :| 0 <= j3 < |s| && s[j3] == h - 3;
      var j4 :| 0 <= j4 < |s| && s[j4] == h - 4;
      assert k < j1 < j2 < j3 < j4;
      assert s[k] > s[k + 1] > s[k + 2] > s[k + 3] > s[k + 4] >= s[j4];
    }
  }

  /** The scan from position i finds the highest run top among the values
      from position i on. */
  lemma {:induction false} ScanFindsHighest(s: seq<int>, i: nat)
    requires Decreasing(s) && i <= |s|
    ensures RunScan(s, i).Some? ==> RunAt(s, RunScan(s, i).value)
    ensures forall k :: i <= k < |s| && RunAt(s, s[k]) ==>
      RunScan(s, i).Some? && s[k] <= RunScan(s, i).value
    decreases |s| - i
  {
    if i + 4 >= |s| {
      forall k | i <= k < |s| ensures !RunAt(s, s[k]) {
        RunAtIndex(s, k);
      }
    } else if s[i] - s[i + 4] == 4 {
      RunAtIndex(s, i);
      assert RunScan(s, i) == Some(s[i]);
      forall k | i <= k < |s| ensures s[k] <= s[i] {
      }
    } else {
      RunAtIndex(s, i);
      assert RunScan(s, i) == RunScan(s, i + 1);
      ScanFindsHighest(s, i + 1);
    }
  }

  /** `straight_high` is the top of the highest run of five consecutive rank
      values; when there is no such run it is 5 for the wheel and None
      otherwise. */
  lemma StraightHighIsHighestRun(cards: seq<Card>)
    ensures var rs := RankValues(cards); var st := StraightHigh(cards);
      (exists h :: RunAt(rs, h)) ==>
        st.Some? && RunAt(rs, st.value) && forall h :: RunAt(rs, h) ==> h <= st.value
    ensures var rs := RankValues(cards);
      (forall h :: !RunAt(rs, h)) ==> StraightHigh(cards) == if Wheel(rs) then Some(5) else None
  {
    var rs := RankValues(cards);
    var s := SortedRanks(cards);
    SortDescMembers(Dedup(rs));
    SortDescDistinct(Dedup(rs));
    assert forall x :: x in s <==> x in rs;
    ScanFindsHighest(s, 0);
    forall h | RunAt(s, h) ensures RunScan(s, 0).Some? && h <= RunScan(s, 0).value {
      var k :| 0 <= k < |s| && s[k] == h;
    }
    assert forall h :: RunAt(s, h) <==> RunAt(rs, h);
    assert Wheel(s) <==> Wheel(rs);
  }

  // ---------------------------------------------------------------------
  // The shapes of the result

  lemma OthersMembers(rs: seq<int>, excluded: seq<int>)
    ensures forall x :: x in Others(rs, excluded) <==> x in rs && x !in excluded
  {
  }

  lemma PairRanksMembers(rs: seq<int>)
    ensures forall x :: x in PairRanks(rs) <==> x in rs && Count(rs, x) == 2
    ensures forall x :: x in Pairs(rs) <==> x in rs && Count(rs, x) == 2
  {
    SortDescMembers(PairRanks(rs));
  }

  /** The values `evaluate_hand` computes before its priority chain. */
  lemma Unfold(cards: seq<Card>)
    ensures var a := Analyze(cards); var rs := RankValues(cards);
      && a.ranks == rs && a.flush == FlushSuit(cards) && a.straight == StraightHigh(cards)
      && a.quad == Quad(rs) && a.trips == Trips(rs) && a.pairs == Pairs(rs)
      && (a.flush.Some? ==> a.flushRanks == RankValues(FlushCards(cards, a.flush.value)))
      && (IsStraightFlush(cards) <==> a.flush.Some? && a.straight.Some? && a.windowCount >= 5)
      && (a.flush.Some? && a.straight.Some? ==>
            a.windowCount == |StraightFlushCards(cards, a.flush.value, a.straight.value)|)
      && Evaluate(cards) == if |cards| < 5 then HandScore(0, []) else Score(a)
  {
  }

  /** Which branch of the priority chain gives each category. */
  lemma ScoreCategory(a: Analysis)
    ensures var sf := a.flush.Some? && a.straight.Some? && a.windowCount >= 5;
      var full := a.trips.Some? && a.pairs != [];
      var c := Score(a).category;
      && 0 <= c <= 9
      && (c >= 8 <==> sf)
      && (c == 9 <==> sf && a.straight.value == 14)
      && (c == 7 <==> !sf && a.quad.Some?)
      && (c == 6 <==> !sf && a.quad.None? && full)
      && (c == 5 <==> !sf && a.quad.None? && !full && a.flush.Some?)
      && (c == 4 <==> !sf && a.quad.None? && !full && a.flush.None? && a.straight.Some?)
      && (c == 3 <==> a.quad.None? && !full && a.flush.None? && a.straight.None? && a.trips.Some?)
      && (c == 2 <==> a.quad.None? && a.flush.None? && a.straight.None? && a.trips.None? && |a.pairs| >= 2)
      && (c == 1 <==> a.quad.None? && a.flush.None? && a.straight.None? && a.trips.None? && |a.pairs| == 1)
      && (c == 0 <==> a.quad.None? && a.flush.None? && a.straight.None? && a.trips.None? && a.pairs == [])
  {
  }

  /** The straight-flush categories are given exactly when the straight-flush
      test passes, the royal one exactly when the straight tops at the Ace. */
  lemma StraightFlushCategory(cards: seq<Card>)
    ensures Evaluate(cards).category >= 8 <==> |cards| >= 5 && IsStraightFlush(cards)
    ensures Evaluate(cards).category == 9 <==>
      |cards| >= 5 && IsStraightFlush(cards) && StraightHigh(cards) == Some(14)
  {
    Unfold(cards);
    ScoreCategory(Analyze(cards));
  }

  /** With Ace stored as 14 the window of a wheel is 1..5, so among distinct
      cards at most four flush cards fall into it: a suited A-2-3-4-5 whose
      best straight is the wheel never scores as a straight flush. */
  lemma SuitedWheelIsNotStraightFlush(cards: seq<Card>)
    requires Distinct(cards)
    ensures StraightHigh(cards) == Some(5) ==> !IsStraightFlush(cards) && Evaluate(cards).category < 8
  {
    Unfold(cards);
    ScoreCategory(Analyze(cards));
    if FlushSuit(cards).Some? {
      WheelWindowHoldsFour(cards, FlushSuit(cards).value);
    }
  }

  /** Distinct cards of one suit ranked at most 5 are at most four:
      the Two, Three, Four and Five of that suit. */
  lemma WheelWindowHoldsFour(cards: seq<Card>, f: Suit)
    requires Distinct(cards)
    ensures |StraightFlushCards(cards, f, 5)| <= 4
  {
    var sf := StraightFlushCards(cards, f, 5);
    FilterDistinct(cards, OfSuit(f));
    FilterDistinct(FlushCards(cards, f), InWindow(5));
    var w := LowCards(f);
    forall c | c in sf ensures c in w {
      assert c.suit == f && 2 <= c.rank <= 5;
    }
    DistinctWithin(sf, w);
  }

  /** The Two, Three, Four and Five of a suit. */
  function LowCards(f: Suit): (w: set<Card>)
    ensures |w| == 4
    ensures forall c: Card :: c.suit == f && c.rank <= 5 ==> c in w
  {
    var w2 := {Card(2, f)};
    var w3 := w2 + {Card(3, f)};
    var w4 := w3 + {Card(4, f)};
    assert |w3| == 2 by { assert Card(3, f) !in w2; }
    assert |w4| == 3 by { assert Card(4, f) !in w3; }
    assert |w4 + {Card(5, f)}| == 4 by { assert Card(5, f) !in w4; }
    w4 + {Card(5, f)}
  }

  /** Four of a kind: the first rank held four times, then the highest other
      distinct rank. */
  lemma QuadsShape(cards: seq<Card>)
    requires |cards| >= 5 && !IsStraightFlush(cards) && Quad(RankValues(cards)).Some?
    ensures var rs := RankValues(cards); var q := Quad(rs).value; var e := Evaluate(cards);
      && Count(rs, q) == 4
      && e.category == 7 && |e.kickers| == 2 && e.kickers[0] == q
      && e.kickers[1] in rs && e.kickers[1] != q
      && forall r :: r in rs && r != q ==> r <= e.kickers[1]
  {
    Unfold(cards);
    ScoreCategory(Analyze(cards));
    var rs := RankValues(cards);
    var q := Quad(rs).value;
    var others := Others(rs, [q]);
    OthersMembers(rs, [q]);
    CountBelowLength(rs, q);
    var y :| y in rs && y != q;
    assert y in others;
    SortDescHeadIsMax(others);
    SortDescMembers(others);
  }

  /** Full house: a rank held three times and one held exactly twice, scored
      as the last such triple and the highest pair. */
  lemma FullHouseShape(cards: seq<Card>)
    requires |cards| >= 5 && !IsStraightFlush(cards) && Quad(RankValues(cards)).None?
    ensures var rs := RankValues(cards); var e := Evaluate(cards);
      e.category == 6 <==> Trips(rs).Some? && exists r :: r in rs && Count(rs, r) == 2
    ensures var rs := RankValues(cards); var e := Evaluate(cards);
      e.category == 6 ==>
        && |e.kickers| == 2 && e.kickers[0] == Trips(rs).value && Count(rs, e.kickers[0]) == 3
        && e.kickers[1] in rs && Count(rs, e.kickers[1]) == 2
        && forall r :: r in rs && Count(rs, r) == 2 ==> r <= e.kickers[1]
  {
    Unfold(cards);
    ScoreCategory(Analyze(cards));
    var rs := RankValues(cards);
    PairRanksMembers(rs);
    if Pairs(rs) != [] {
      SortDescHeadIsMax(PairRanks(rs));
    }
  }

  /** A rank held three times is never the pair of a full house: without a
      rank held exactly twice there is no full house, however many triples. */
  lemma SecondTripsIsNoPair(cards: seq<Card>)
    ensures var rs := RankValues(cards);
      (forall r :: r in rs ==> Count(rs, r) != 2) ==> Evaluate(cards).category != 6
  {
    Unfold(cards);
    ScoreCategory(Analyze(cards));
    var rs := RankValues(cards);
    PairRanksMembers(rs);
    if (forall r :: r in rs ==> Count(rs, r) != 2) && Pairs(rs) != [] {
      assert Pairs(rs)[0] in Pairs(rs);
    }
  }

  /** Flush: the five highest ranks of the flush suit. */
  lemma FlushShape(cards: seq<Card>)
    ensures var e := Evaluate(cards); e.category == 5 ==>
      && FlushSuit(cards).Some?
      && TopOf(e.kickers, RankValues(FlushCards(cards, FlushSuit(cards).value)), 5)
  {
    Unfold(cards);
    ScoreCategory(Analyze(cards));
    if FlushSuit(cards).Some? {
      TakeSortDescIsTop(RankValues(FlushCards(cards, FlushSuit(cards).value)), 5);
    }
  }

  /** Straight: only its top rank, and no flush suit. */
  lemma StraightShape(cards: seq<Card>)
    ensures var e := Evaluate(cards); e.category == 4 ==>
      FlushSuit(cards).None? && StraightHigh(cards).Some? && e.kickers == [StraightHigh(cards).value]
  {
    Unfold(cards);
    ScoreCategory(Analyze(cards));
  }

  /** Three of a kind: the triple and the two highest other distinct ranks. */
  lemma TripsShape(cards: seq<Card>)
    ensures var rs := RankValues(cards); var e := Evaluate(cards); e.category == 3 ==>
      && Trips(rs).Some? && |e.kickers| >= 1 && e.kickers[0] == Trips(rs).value
      && Count(rs, e.kickers[0]) == 3
      && TopOf(e.kickers[1..], Others(rs, [e.kickers[0]]), 2)
      && FlushSuit(cards).None? && StraightHigh(cards).None?
  {
    Unfold(cards);
    ScoreCategory(Analyze(cards));
    var rs := RankValues(cards);
    if Trips(rs).Some? {
      var t := Trips(rs).value;
      TakeSortDescIsTop(Others(rs, [t]), 2);
      var e := Evaluate(cards);
      if e.category == 3 {
        assert e.kickers[1..] == Take(SortDesc(Others(rs, [t])), 2);
      }
    }
  }

  /** Two pair: the two highest pairs, then the highest rank that is neither. */
  lemma TwoPairShape(cards: seq<Card>)
    ensures var rs := RankValues(cards); var e := Evaluate(cards); e.category == 2 ==>
      && |PairRanks(rs)| >= 2 && |e.kickers| >= 2
      && TopOf(e.kickers[..2], PairRanks(rs), 2)
      && TopOf(e.kickers[2..], Others(rs, e.kickers[..2]), 1)
  {
    Unfold(cards);
    ScoreCategory(Analyze(cards));
    var rs := RankValues(cards);
    var e := Evaluate(cards);
    if e.category == 2 {
      var top := Pairs(rs)[..2];
      assert top == Take(SortDesc(PairRanks(rs)), 2);
      TakeSortDescIsTop(PairRanks(rs), 2);
      TakeSortDescIsTop(Others(rs, top), 1);
      assert e.kickers[..2] == top;
      assert e.kickers[2..] == Take(SortDesc(Others(rs, top)), 1);
    }
  }

  /** One pair: the only pair, then the three highest other distinct ranks. */
  lemma OnePairShape(cards: seq<Card>)
    ensures var rs := RankValues(cards); var e := Evaluate(cards); e.category == 1 ==>
      && |PairRanks(rs)| == 1 && |e.kickers| >= 1 && e.kickers[0] in rs
      && Count(rs, e.kickers[0]) == 2
      && TopOf(e.kickers[1..], Others(rs, [e.kickers[0]]), 3)
  {
    Unfold(cards);
    ScoreCategory(Analyze(cards));
    var rs := RankValues(cards);
    var e := Evaluate(cards);
    PairRanksMembers(rs);
    if e.category == 1 {
      var p := Pairs(rs)[0];
      assert p in Pairs(rs);
      TakeSortDescIsTop(Others(rs, [p]), 3);
      assert e.kickers[1..] == Take(SortDesc(Others(rs, [p])), 3);
    }
  }

  /** High card: the five highest rank values, when nothing else applies. */
  lemma HighCardShape(cards: seq<Card>)
    ensures var rs := RankValues(cards); var e := Evaluate(cards); e.category == 0 ==>
      if |cards| < 5 then e.kickers == []
      else
        && TopOf(e.kickers, rs, 5)
        && PairRanks(rs) == [] && Trips(rs).None? && Quad(rs).None?
        && FlushSuit(cards).None? && StraightHigh(cards).None?
  {
    var e := Evaluate(cards);
    if e.category == 0 && |cards| >= 5 {
      var a := Analyze(cards);
      Unfold(cards);
      ScoreCategory(a);
      assert a.quad.None? && a.flush.None? && a.straight.None? && a.trips.None? && a.pairs == [];
      assert e.kickers == Take(SortDesc(a.ranks), 5);
      TakeSortDescIsTop(a.ranks, 5);
    }
  }

  // ---------------------------------------------------------------------
  // Comparing scores

  /** Kickers agree on their common prefix. */
  predicate SamePrefix(k1: seq<int>, k2: seq<int>) {
    forall i :: 0 <= i < |k1| && i < |k2| ==> k1[i] == k2[i]
  }

  /** At position i, the first where they differ, k1 holds the larger kicker. */
  predicate FirstGreaterAt(k1: seq<int>, k2: seq<int>, i: int) {
    0 <= i < |k1| && i < |k2| && k1[..i] == k2[..i] && k1[i] > k2[i]
  }

  lemma {:induction false} KickersPrefix(k1: seq<int>, k2: seq<int>)
    ensures CompareKickers(k1, k2) == 0 <==> SamePrefix(k1, k2)
    ensures CompareKickers(k1, k2) == 1 <==> exists i :: FirstGreaterAt(k1, k2, i)
    ensures CompareKickers(k1, k2) == -1 <==> exists i :: FirstGreaterAt(k2, k1, i)
  {
    if k1 == [] || k2 == [] {
    } else {
      var t1, t2 := k1[1..], k2[1..];
      KickersPrefix(t1, t2);
      assert forall i :: 1 <= i < |k1| ==> k1[i] == t1[i - 1];
      assert forall i :: 1 <= i < |k2| ==> k2[i] == t2[i - 1];
      if k1[0] > k2[0] {
        assert FirstGreaterAt(k1, k2, 0);
        assert !SamePrefix(k1, k2) by { assert k1[0] != k2[0]; }
        forall i ensures !FirstGreaterAt(k2, k1, i) {
          PrefixHeads(k1, k2, i);
        }
      } else if k1[0] < k2[0] {
        assert FirstGreaterAt(k2, k1, 0);
        assert !SamePrefix(k1, k2) by { assert k1[0] != k2[0]; }
        forall i ensures !FirstGreaterAt(k1, k2, i) {
          PrefixHeads(k1, k2, i);
        }
      } else {
        assert SamePrefix(k1, k2) <==> SamePrefix(t1, t2);
        PrefixShift(k1, k2);
        PrefixShift(k2, k1);
      }
    }
  }

  lemma PrefixHeads(k1: seq<int>, k2: seq<int>, i: int)
    ensures 0 < i <= |k1| && i <= |k2| && k1[..i] == k2[..i] ==> k1[0] == k2[0]
  {
    if 0 < i <= |k1| && i <= |k2| && k1[..i] == k2[..i] {
      assert k1[..i][0] == k2[..i][0];
    }
  }

  /** With equal heads, a first difference at i + 1 is one at i in the tails. */
  lemma PrefixShift(k1: seq<int>, k2: seq<int>)
    requires k1 != [] && k2 != [] && k1[0] == k2[0]
    ensures (exists i :: FirstGreaterAt(k1, k2, i)) <==> exists i :: FirstGreaterAt(k1[1..], k2[1..], i)
  {
    var t1, t2 := k1[1..], k2[1..];
    if i :| FirstGreaterAt(k1, k2, i) {
      assert i != 0;
      assert t1[..i - 1] == k1[1..i] && t2[..i - 1] == k2[1..i];
      assert k1[..i] == [k1[0]] + k1[1..i] && k2[..i] == [k2[0]] + k2[1..i];
      assert FirstGreaterAt(t1, t2, i - 1);
    }
    if j :| FirstGreaterAt(t1, t2, j) {
      assert k1[..j + 1] == [k1[0]] + t1[..j] && k2[..j + 1] == [k2[0]] + t2[..j];
      assert FirstGreaterAt(k1, k2, j + 1);
    }
  }

  /** `compare_hands` returns -1, 0 or 1: 1 when the first hand has the higher
      category, or the same category and the larger kicker at the first
      difference of the common prefix; 0 when the categories are equal and
      the common prefix agrees. */
  lemma CompareHandsMeaning(h1: HandScore, h2: HandScore)
    ensures var c := CompareHands(h1, h2); c == -1 || c == 0 || c == 1
    ensures CompareHands(h1, h2) == 0 <==>
      h1.category == h2.category && SamePrefix(h1.kickers, h2.kickers)
    ensures CompareHands(h1, h2) == 1 <==>
      h1.category > h2.category ||
      (h1.category == h2.category && exists i :: FirstGreaterAt(h1.kickers, h2.kickers, i))
  {
    KickersPrefix(h1.kickers, h2.kickers);
  }

  lemma {:induction false} CompareReflexive(h: HandScore)
    ensures CompareHands(h, h) == 0
  {
    CompareHandsMeaning(h, h);
  }

  lemma CompareAntisymmetric(h1: HandScore, h2: HandScore)
    ensures CompareHands(h1, h2) == -CompareHands(h2, h1)
  {
    KickersPrefix(h1.kickers, h2.kickers);
    KickersPrefix(h2.kickers, h1.kickers);
  }

  /** "Stronger than" is transitive, whatever the kicker-list lengths. */
  lemma CompareTransitive(h1: HandScore, h2: HandScore, h3: HandScore)
    ensures CompareHands(h1, h2) == 1 && CompareHands(h2, h3) == 1 ==> CompareHands(h1, h3) == 1
  {
    if h1.category == h2.category == h3.category {
      KickersTransitive(h1.kickers, h2.kickers, h3.kickers);
    }
  }

  lemma {:induction false} KickersTransitive(a: seq<int>, b: seq<int>, c: seq<int>)
    ensures CompareKickers(a, b) == 1 && CompareKickers(b, c) == 1 ==> CompareKickers(a, c) == 1
  {
    if a != [] && b != [] && c != [] && a[0] == b[0] == c[0] {
      KickersTransitive(a[1..], b[1..], c[1..]);
    }
  }
}
