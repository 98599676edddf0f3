/** One whole hand of texasHoldem.py on values: dealing the hole and
    community cards from the end of the deck, posting the blinds, the four
    streets, the showdown, the even pot split and the history record. */
module HoldemHand {
  import opened Util
  import opened Cards
  import opened Players
  import opened Actions
  import opened HandEvaluator
  import opened Decks
  import opened HoldemRules

  // ---------------------------------------------------------------------
  // Dealing

  /** `deck.deal()` appended to the community cards: the last card of the
      deck moves to the end of the board. */
  function DealCard(t: Table): Table
    requires t.deck != []
  {
    t.(community := t.community + [t.deck[|t.deck| - 1]], deck := t.deck[..|t.deck| - 1])
  }

  /** `_deal_community_cards(count)`: the board grows by the last `count`
      cards of the deck, the last one first, and the deck loses them. */
  function DealCommunity(t: Table, count: nat): (r: Table)
    requires count <= |t.deck|
    ensures r == t.(community := r.community, deck := r.deck)
    ensures r.deck == t.deck[..|t.deck| - count]
    ensures |r.community| == |t.community| + count && r.community[..|t.community|] == t.community
    ensures forall k :: |t.community| <= k < |r.community| ==>
      r.community[k] == t.deck[|t.deck| - 1 - (k - |t.community|)]
  {
    if count == 0 then t else DealCard(DealCommunity(t, count - 1))
  }

  /** The last k cards of the deck, the last one first: what k deals take. */
  function Drawn(deck: seq<Card>, k: nat): (r: seq<Card>)
    requires k <= |deck|
    ensures |r| == k
  {
    if k == 0 then [] else Drawn(deck, k - 1) + [deck[|deck| - k]]
  }

  /** Dealing count community cards appends the count cards drawn from the
      end of the deck to the board and leaves the rest of the deck. */
  lemma {:induction false} DealCommunityDrawn(t: Table, count: nat)
    requires count <= |t.deck|
    ensures DealCommunity(t, count) ==
      t.(community := t.community + Drawn(t.deck, count), deck := t.deck[..|t.deck| - count])
  {
    if count > 0 {
      DealCommunityDrawn(t, count - 1);
    }
  }

  /** One pass of `_deal_hole_cards` over the first k seats: every seat not
      folded receives `[deck.deal()]`. */
  function DealPass(t: Table, k: nat): (r: Table)
    requires k <= |t.seats| && k <= |t.deck|
    ensures r == t.(seats := r.seats, deck := r.deck)
    ensures |r.seats| == |t.seats| && |r.deck| >= |t.deck| - k
  {
    if k == 0 then t
    else
      var u := DealPass(t, k - 1);
      var s := u.seats[k - 1];
      if s.folded then u
      else
        u.(seats := u.seats[k - 1 := SeatReceive(s, [u.deck[|u.deck| - 1]])],
           deck := u.deck[..|u.deck| - 1])
  }

  /** `_deal_hole_cards`: two passes over the seats. */
  function DealHoleCards(t: Table): (r: Table)
    requires 2 * |t.seats| <= |t.deck|
    ensures r == t.(seats := r.seats, deck := r.deck)
    ensures |r.seats| == |t.seats| && |r.deck| >= |t.deck| - 2 * |t.seats|
  {
    DealPass(DealPass(t, |t.seats|), |t.seats|)
  }

  /** A pass changes nothing of a seat but its hole cards, and nothing at
      all of the seats from position k on. */
  lemma {:induction false} DealPassSeat(t: Table, k: nat, j: nat)
    requires k <= |t.seats| && k <= |t.deck| && j < |t.seats|
    ensures var s := DealPass(t, k).seats[j];
      && s == t.seats[j].(hand := s.hand)
      && (k <= j ==> s == t.seats[j])
  {
    if k > 0 {
      DealPassSeat(t, k - 1, j);
    }
  }

  /** With no seat folded, a pass of k seats takes exactly k cards. */
  lemma {:induction false} DealPassDeckNoneFolded(t: Table, k: nat)
    requires k <= |t.seats| && k <= |t.deck|
    requires forall j :: 0 <= j < |t.seats| ==> !t.seats[j].folded
    ensures DealPass(t, k).deck == t.deck[..|t.deck| - k]
  {
    if k > 0 {
      var d := t.deck;
      var u := DealPass(t, k - 1);
      DealPassDeckNoneFolded(t, k - 1);
      DealPassSeat(t, k - 1, k - 1);
      assert !u.seats[k - 1].folded;
      assert DealPass(t, k).deck == u.deck[..|u.deck| - 1];
      assert u.deck[..|u.deck| - 1] == d[..|d| - (k - 1)][..|d| - k] == d[..|d| - k];
    }
  }

  /** With no seat folded, a pass gives seat j the card j places from the
      end of the deck. */
  lemma {:induction false} DealPassSeatNoneFolded(t: Table, k: nat, j: nat)
    requires j < k <= |t.seats| && k <= |t.deck|
    requires forall i :: 0 <= i < |t.seats| ==> !t.seats[i].folded
    ensures DealPass(t, k).seats[j] == SeatReceive(t.seats[j], [t.deck[|t.deck| - 1 - j]])
  {
    var u := DealPass(t, k - 1);
    DealPassSeat(t, k - 1, k - 1);
    assert !u.seats[k - 1].folded;
    var r := DealPass(t, k);
    assert r.seats == u.seats[k - 1 := SeatReceive(u.seats[k - 1], [u.deck[|u.deck| - 1]])];
    if j < k - 1 {
      DealPassSeatNoneFolded(t, k - 1, j);
      assert r.seats[j] == u.seats[j];
    } else {
      DealPassDeckNoneFolded(t, k - 1);
      assert u.deck[|u.deck| - 1] == t.deck[|t.deck| - 1 - j];
    }
  }

  /** With no seat folded, a pass gives seat j the card j places from the end
      of the deck and takes exactly k cards. */
  lemma DealPassNoneFolded(t: Table, k: nat)
    requires k <= |t.seats| && k <= |t.deck|
    requires forall j :: 0 <= j < |t.seats| ==> !t.seats[j].folded
    ensures var r := DealPass(t, k);
      && r.deck == t.deck[..|t.deck| - k]
      && forall j :: 0 <= j < k ==> r.seats[j] == SeatReceive(t.seats[j], [t.deck[|t.deck| - 1 - j]])
  {
    DealPassDeckNoneFolded(t, k);
    forall j | 0 <= j < k
      ensures DealPass(t, k).seats[j] == SeatReceive(t.seats[j], [t.deck[|t.deck| - 1 - j]])
    {
      DealPassSeatNoneFolded(t, k, j);
    }
  }

  /** At a new hand every seat gets the card j from the end of the deck and
      then the card n + j from the end, n the number of seats, and the deck
      loses 2n cards. */
  lemma HoleCardsOrder(t: Table)
    requires 2 * |t.seats| <= |t.deck|
    requires forall j :: 0 <= j < |t.seats| ==> !t.seats[j].folded
    ensures var r := DealHoleCards(t); var n := |t.seats|; var d := t.deck;
      && r.deck == d[..|d| - 2 * n]
      && forall j :: 0 <= j < n ==>
           r.seats[j].hand == t.seats[j].hand + [d[|d| - 1 - j], d[|d| - 1 - n - j]]
  {
    var n := |t.seats|;
    var u := DealPass(t, n);
    DealPassNoneFolded(t, n);
    forall j | 0 <= j < n ensures !u.seats[j].folded {
      DealPassSeat(t, n, j);
    }
    DealPassNoneFolded(u, n);
    assert u.deck[..|u.deck| - n] == t.deck[..|t.deck| - 2 * n];
  }

  // ---------------------------------------------------------------------
  // Blinds

  function SmallBlindPosition(t: Table): (p: nat)
    requires |t.seats| > 0
    ensures p < |t.seats|
  {
    (t.dealer + 1) % |t.seats|
  }

  function BigBlindPosition(t: Table): (p: nat)
    requires |t.seats| > 0
    ensures p < |t.seats|
  {
    (t.dealer + 2) % |t.seats|
  }

  /** `_post_blinds`: the seat after the dealer bets the small blind, the
      next one the big blind; the pot grows by both payments and the table
      bet is what the big blind actually paid. */
  function PostBlinds(t: Table, smallBlind: int, bigBlind: int): (r: Table)
    requires |t.seats| > 0
    ensures r == t.(seats := r.seats, pot := r.pot, currentBet := r.currentBet)
    ensures |r.seats| == |t.seats|
  {
    var sbPos, bbPos := SmallBlindPosition(t), BigBlindPosition(t);
    var sb := SeatBet(t.seats[sbPos], smallBlind);
    var seats := t.seats[sbPos := sb.0];
    var bb := SeatBet(seats[bbPos], bigBlind);
    t.(seats := seats[bbPos := bb.0], pot := t.pot + sb.1 + bb.1, currentBet := bb.1)
  }

  /** Each blind seat pays the blind or its whole stack when that is
      smaller; the pot grows by the sum and the table bet equals the big
      blind actually posted, which makes a short big blind all-in. */
  lemma BlindsPosted(t: Table, smallBlind: int, bigBlind: int)
    requires |t.seats| >= 2 && smallBlind >= 0 && bigBlind >= 0
    ensures var r := PostBlinds(t, smallBlind, bigBlind);
      var sbPos, bbPos := SmallBlindPosition(t), BigBlindPosition(t);
      var sbPaid := Min(smallBlind, t.seats[sbPos].chips);
      var bbPaid := Min(bigBlind, t.seats[bbPos].chips);
      && sbPos != bbPos
      && r.seats[sbPos].chips == t.seats[sbPos].chips - sbPaid
      && r.seats[sbPos].currentBet == t.seats[sbPos].currentBet + sbPaid
      && r.seats[bbPos].chips == t.seats[bbPos].chips - bbPaid
      && r.seats[bbPos].currentBet == t.seats[bbPos].currentBet + bbPaid
      && r.pot == t.pot + sbPaid + bbPaid
      && r.currentBet == bbPaid
      && (t.seats[bbPos].chips <= bigBlind ==> r.seats[bbPos].allIn)
      && (forall j :: 0 <= j < |t.seats| && j != sbPos && j != bbPos ==> r.seats[j] == t.seats[j])
      && r.pot + ChipTotal(r.seats) == t.pot + ChipTotal(t.seats)
  {
    var sbPos, bbPos := SmallBlindPosition(t), BigBlindPosition(t);
    NextSeatDiffers(t.dealer + 1, |t.seats|);
    var sb := SeatBet(t.seats[sbPos], smallBlind);
    var seats := t.seats[sbPos := sb.0];
    assert seats[bbPos] == t.seats[bbPos];
    PostBlindsConserves(t, smallBlind, bigBlind);
  }

  /** With two or more seats, the seat after position x is another one. */
  lemma NextSeatDiffers(x: nat, n: nat)
    requires n >= 2
    ensures x % n != (x + 1) % n
  {
    ModStep(x, n);
    var a := x % n;
    if a + 1 == n {
      assert (a + 1) % n == 0;
    } else {
      assert (a + 1) % n == a + 1;
    }
  }

  lemma PostBlindsConserves(t: Table, smallBlind: int, bigBlind: int)
    requires |t.seats| > 0
    ensures var r := PostBlinds(t, smallBlind, bigBlind);
      && r == t.(seats := r.seats, pot := r.pot, currentBet := r.currentBet)
      && |r.seats| == |t.seats|
      && r.pot + ChipTotal(r.seats) == t.pot + ChipTotal(t.seats)
      && forall j :: 0 <= j < |t.seats| ==>
           r.seats[j].name == t.seats[j].name && r.seats[j].hand == t.seats[j].hand
           && r.seats[j].folded == t.seats[j].folded
  {
    var sbPos, bbPos := SmallBlindPosition(t), BigBlindPosition(t);
    var sb := SeatBet(t.seats[sbPos], smallBlind);
    var seats := t.seats[sbPos := sb.0];
    var bb := SeatBet(seats[bbPos], bigBlind);
    ChipTotalUpdate(t.seats, sbPos, sb.0);
    ChipTotalUpdate(seats, bbPos, bb.0);
  }

  /** The quirk of the round reset: the per-round clearing of wagers runs
      before the pre-flop betting too. After the blinds the big-blind seat's
      wager is back to 0 while the table bet is still the big blind it
      paid, so a call from that seat in the pre-flop round pays the big
      blind (or what is left of its stack) a second time. */
  lemma BlindWagersWiped(t: Table, smallBlind: int, bigBlind: int)
    requires |t.seats| >= 2 && smallBlind >= 0 && bigBlind >= 0
    requires !t.seats[BigBlindPosition(t)].folded
    ensures var bb := BigBlindPosition(t);
      var r := PostBlinds(t, smallBlind, bigBlind);
      var cleared := r.(seats := ClearWagers(r.seats));
      var called := Execute(cleared, bb, Decision(Call, 0));
      var again := Min(r.currentBet, r.seats[bb].chips);
      && r.seats[bb].currentBet == t.seats[bb].currentBet + r.currentBet
      && cleared.seats[bb].currentBet == 0
      && r.currentBet == Min(bigBlind, t.seats[bb].chips)
      && called.pot == r.pot + again
      && called.seats[bb].chips == t.seats[bb].chips - r.currentBet - again
  {
    var bb := BigBlindPosition(t);
    BlindsPosted(t, smallBlind, bigBlind);
    var r := PostBlinds(t, smallBlind, bigBlind);
    var cleared := r.(seats := ClearWagers(r.seats));
    assert cleared.seats[bb] == r.seats[bb].(currentBet := 0);
  }

  // ---------------------------------------------------------------------
  // The streets

  /** `_active_players_count`: the seats that have not folded. */
  function ActivePlayersCount(seats: seq<Seat>): (k: nat)
    ensures k <= |seats|
  {
    if seats == [] then 0
    else ActivePlayersCount(seats[..|seats| - 1]) + (if seats[|seats| - 1].folded then 0 else 1)
  }

  /** The community cards dealt before street k (0 pre-flop, 1 flop, 2 turn,
      3 river): 0, 3, 1 and 1. */
  function StreetCards(k: nat): nat
    requires k < 4
  {
    if k == 0 then 0 else if k == 1 then 3 else 1
  }

  /** The community cards still to come from street k on. */
  function CardsStillToDeal(k: nat): nat
    requires k <= 4
  {
    if k <= 1 then 5 else if k == 2 then 2 else if k == 3 then 1 else 0
  }

  /** `_run_betting_rounds` from street k on: stop as soon as at most one
      seat has not folded; otherwise deal the street's cards and play its
      betting round. None when a round runs out of fuel. */
  function RunStreets(t: Table, k: nat, bigBlind: int, decide: Decider, fuel: nat): (r: Option<Table>)
    requires k <= 4 && |t.seats| > 0 && CardsStillToDeal(k) <= |t.deck|
    ensures r.Some? ==> |r.value.seats| == |t.seats|
    decreases 4 - k
  {
    if k == 4 || ActivePlayersCount(t.seats) <= 1 then Some(t)
    else
      var dealt := DealCommunity(t, StreetCards(k));
      BettingRoundKeepsDeck(dealt, bigBlind, decide, fuel);
      match BettingRound(dealt, bigBlind, decide, fuel)
      case None => None
      case Some(next) => RunStreets(next, k + 1, bigBlind, decide, fuel)
  }

  /** Across the streets chips only move between the seats and the pot, the
      names, hole cards, dealer and history stay, a folded seat stays
      folded, and the board grows from the deck; when every street is
      played it holds five cards, otherwise at most one seat is left in. */
  lemma {:induction false} RunStreetsKeeps(t: Table, k: nat, bigBlind: int, decide: Decider, fuel: nat)
    requires k <= 4 && |t.seats| > 0 && CardsStillToDeal(k) <= |t.deck|
    requires |t.community| == 5 - CardsStillToDeal(k)
    ensures var r := RunStreets(t, k, bigBlind, decide, fuel); r.Some? ==>
      && StreetsKept(t, r.value)
      && |r.value.community| <= 5
      && (|r.value.community| == 5 || ActivePlayersCount(r.value.seats) <= 1)
    decreases 4 - k
  {
    if k < 4 && ActivePlayersCount(t.seats) > 1 {
      var dealt := DealCommunity(t, StreetCards(k));
      BettingRoundResult(dealt, bigBlind, decide, fuel);
      var b := BettingRound(dealt, bigBlind, decide, fuel);
      if b.Some? {
        var next := b.value;
        assert next.community[..|t.community|] == t.community;
        assert StreetsKept(t, next);
        assert |next.community| == 5 - CardsStillToDeal(k + 1) <= 5 - |next.deck| + |next.deck|;
        RunStreetsKeeps(next, k + 1, bigBlind, decide, fuel);
        var r := RunStreets(t, k, bigBlind, decide, fuel);
        if r.Some? {
          StreetsKeptTransitive(t, next, r.value);
        }
      }
    } else {
      StreetsKeptReflexive(t);
    }
  }

  /** What playing streets keeps between a table t and a later table r:
      chips only move between the seats and the pot, the dealer and history
      stay, the board only grows, taking its cards from the deck, and every
      seat keeps its name and hole cards and stays folded once folded. */
  predicate StreetsKept(t: Table, r: Table) {
    && |r.seats| == |t.seats|
    && r.pot + ChipTotal(r.seats) == t.pot + ChipTotal(t.seats)
    && r.dealer == t.dealer && r.history == t.history
    && |t.community| <= |r.community| && r.community[..|t.community|] == t.community
    && |r.deck| + |r.community| == |t.deck| + |t.community|
    && forall j :: 0 <= j < |t.seats| ==>
         r.seats[j].name == t.seats[j].name && r.seats[j].hand == t.seats[j].hand
         && (t.seats[j].folded ==> r.seats[j].folded)
  }

  lemma StreetsKeptReflexive(t: Table)
    ensures StreetsKept(t, t)
  {
    assert t.community[..|t.community|] == t.community;
  }

  lemma StreetsKeptTransitive(a: Table, b: Table, c: Table)
    requires StreetsKept(a, b) && StreetsKept(b, c)
    ensures StreetsKept(a, c)
  {
    assert c.community[..|a.community|] == c.community[..|b.community|][..|a.community|];
  }

  // ---------------------------------------------------------------------
  // The showdown

  /** Python's `a > b` on two lists of integers: the first difference
      decides, and a proper prefix is the smaller list. */
  predicate ListGreater(a: seq<int>, b: seq<int>) {
    if a == [] then false
    else if b == [] then true
    else a[0] > b[0] || (a[0] == b[0] && ListGreater(a[1..], b[1..]))
  }

  /** `>` on lists is a strict total order. */
  lemma ListGreaterOrder(a: seq<int>, b: seq<int>, c: seq<int>)
    ensures !ListGreater(a, a)
    ensures ListGreater(a, b) ==> !ListGreater(b, a)
    ensures a != b ==> ListGreater(a, b) || ListGreater(b, a)
    ensures ListGreater(a, b) && ListGreater(b, c) ==> ListGreater(a, c)
  {
    ListGreaterIrreflexive(a);
    ListGreaterAsymmetric(a, b);
    ListGreaterTotal(a, b);
    ListGreaterTransitive(a, b, c);
  }

  lemma {:induction false} ListGreaterIrreflexive(a: seq<int>)
    ensures !ListGreater(a, a)
  {
    if a != [] {
      ListGreaterIrreflexive(a[1..]);
    }
  }

  lemma {:induction false} ListGreaterAsymmetric(a: seq<int>, b: seq<int>)
    ensures ListGreater(a, b) ==> !ListGreater(b, a)
  {
    if a != [] && b != [] {
      ListGreaterAsymmetric(a[1..], b[1..]);
    }
  }

  lemma {:induction false} ListGreaterTotal(a: seq<int>, b: seq<int>)
    ensures a != b ==> ListGreater(a, b) || ListGreater(b, a)
  {
    if a != [] && b != [] && a[0] == b[0] {
      ListGreaterTotal(a[1..], b[1..]);
      assert a == [a[0]] + a[1..] && b == [b[0]] + b[1..];
    }
  }

  lemma {:induction false} ListGreaterTransitive(a: seq<int>, b: seq<int>, c: seq<int>)
    ensures ListGreater(a, b) && ListGreater(b, c) ==> ListGreater(a, c)
  {
    if a != [] && b != [] && c != [] {
      ListGreaterTransitive(a[1..], b[1..], c[1..]);
    }
  }

  /** A list that `>` does not rank below another is never beaten by it
      under `compare_hands`' kicker loop. */
  lemma {:induction false} NotBelowCompares(a: seq<int>, b: seq<int>)
    ensures !ListGreater(b, a) ==> CompareKickers(a, b) >= 0
  {
    if a != [] && b != [] && a[0] == b[0] {
      NotBelowCompares(a[1..], b[1..]);
    }
  }

  /** The score `evaluate_hand(hand + community_cards)` of the seat at i. */
  function SeatScore(t: Table, i: nat): HandScore
    requires i < |t.seats|
  {
    Evaluate(t.seats[i].hand + t.community)
  }

  /** The positions of the first k seats that have not folded, in order. */
  function NotFoldedUpTo(seats: seq<Seat>, k: nat): (r: seq<nat>)
    requires k <= |seats|
    ensures Increasing(r)
    ensures forall q :: 0 <= q < |r| ==> r[q] < k && !seats[r[q]].folded
    ensures forall i :: 0 <= i < k && !seats[i].folded ==> i in r
  {
    if k == 0 then []
    else
      var r := NotFoldedUpTo(seats, k - 1);
      if seats[k - 1].folded then r else r + [k - 1]
  }

  /** `active_players`: the positions of the seats that have not folded,
      in seat order, each seat not folded among them. */
  function NotFolded(seats: seq<Seat>): (r: seq<nat>)
    ensures Increasing(r) && SeatPositions(r, |seats|)
    ensures forall q :: 0 <= q < |r| ==> !seats[r[q]].folded
    ensures forall i :: 0 <= i < |seats| && !seats[i].folded ==> i in r
  {
    NotFoldedUpTo(seats, |seats|)
  }

  /** `_active_players_count` counts exactly the seats of `active_players`:
      the seats that have not folded. */
  lemma ActivePlayersAreNotFolded(seats: seq<Seat>)
    ensures ActivePlayersCount(seats) == |NotFolded(seats)|
  {
    ActiveCountUpTo(seats, |seats|);
    assert seats[..|seats|] == seats;
  }

  lemma {:induction false} ActiveCountUpTo(seats: seq<Seat>, k: nat)
    requires k <= |seats|
    ensures ActivePlayersCount(seats[..k]) == |NotFoldedUpTo(seats, k)|
    decreases k
  {
    if k > 0 {
      ActiveCountUpTo(seats, k - 1);
      assert seats[..k][..k - 1] == seats[..k - 1];
    }
  }

  /** `player_hands`: the score of every seat still in, in seat order. */
  function PlayerHands(t: Table, active: seq<nat>): (sc: seq<HandScore>)
    requires SeatPositions(active, |t.seats|)
    ensures |sc| == |active|
  {
    seq(|active|, p requires 0 <= p < |active| => SeatScore(t, active[p]))
  }

  /** `max(hand_rank for ...)`: a category some score has and none exceeds. */
  function MaxCategory(sc: seq<HandScore>): (m: int)
    requires sc != []
    ensures exists p :: 0 <= p < |sc| && sc[p].category == m
    ensures forall p :: 0 <= p < |sc| ==> sc[p].category <= m
  {
    var last := sc[|sc| - 1].category;
    if |sc| == 1 then last
    else
      var init := sc[..|sc| - 1];
      var m := MaxCategory(init);
      assert forall p :: 0 <= p < |init| ==> init[p] == sc[p];
      if last > m then last else m
  }

  /** The `best_kickers` loop: over the scores of category `best`, the kicker
      list replaces the one kept so far when none is kept or it is `>`. */
  function BestKickers(sc: seq<HandScore>, best: int): seq<int> {
    if sc == [] then []
    else
      var b := BestKickers(sc[..|sc| - 1], best);
      var last := sc[|sc| - 1];
      if last.category == best && (b == [] || ListGreater(last.kickers, b)) then last.kickers else b
  }

  /** The `best_kickers` loop of `_determine_winner`, over the scores in
      order. */
  method FindBestKickers(sc: seq<HandScore>, best: int) returns (kickers: seq<int>)
    ensures kickers == BestKickers(sc, best)
  {
    kickers := [];
    var p := 0;
    while p < |sc|
      invariant p <= |sc| && kickers == BestKickers(sc[..p], best)
    {
      assert sc[..p + 1][..p] == sc[..p];
      if sc[p].category == best && (kickers == [] || ListGreater(sc[p].kickers, kickers)) {
        kickers := sc[p].kickers;
      }
      p := p + 1;
    }
    assert sc[..p] == sc;
  }

  /** The kept kicker list is that of a score of category `best`, and no such
      score has a `>` one; with no such score it is empty. */
  lemma {:induction false} BestKickersIsMax(sc: seq<HandScore>, best: int)
    ensures var b := BestKickers(sc, best);
      && ((exists p :: 0 <= p < |sc| && sc[p].category == best) ==>
            exists p :: 0 <= p < |sc| && sc[p].category == best && sc[p].kickers == b)
      && ((forall p :: 0 <= p < |sc| ==> sc[p].category != best) ==> b == [])
      && forall p :: 0 <= p < |sc| && sc[p].category == best ==> !ListGreater(sc[p].kickers, b)
  {
    if sc != [] {
      var init := sc[..|sc| - 1];
      var last := sc[|sc| - 1];
      BestKickersIsMax(init, best);
      assert forall p :: 0 <= p < |init| ==> init[p] == sc[p];
      var b0 := BestKickers(init, best);
      var b := BestKickers(sc, best);
      forall p | 0 <= p < |sc| && sc[p].category == best ensures !ListGreater(sc[p].kickers, b) {
        var k := sc[p].kickers;
        ListGreaterOrder(k, b0, last.kickers);
        ListGreaterOrder(last.kickers, b0, k);
        ListGreaterOrder(k, k, k);
        ListGreaterOrder(b0, b0, b0);
        ListGreaterOrder(last.kickers, k, k);
      }
    }
  }

  /** A score of category `best` and, when given, exactly the kicker list. */
  predicate Matches(s: HandScore, best: int, kickers: Option<seq<int>>) {
    s.category == best && (kickers.None? || s.kickers == kickers.value)
  }

  /** The places p < k, in order, whose score matches. */
  function Chosen(sc: seq<HandScore>, k: nat, best: int, kickers: Option<seq<int>>): (r: seq<nat>)
    requires k <= |sc|
    ensures Increasing(r)
    ensures forall q :: 0 <= q < |r| ==> r[q] < k && Matches(sc[r[q]], best, kickers)
    ensures forall p :: 0 <= p < k && Matches(sc[p], best, kickers) ==> p in r
  {
    if k == 0 then []
    else
      var r := Chosen(sc, k - 1, best, kickers);
      if Matches(sc[k - 1], best, kickers) then r + [k - 1] else r
  }

  /** The places of the best scores among two or more: those of the
      highest category, narrowed to the ones holding the best kicker list
      when there are several. */
  function BestPlaces(sc: seq<HandScore>): (r: seq<nat>)
    requires sc != []
    ensures Increasing(r)
    ensures forall q :: 0 <= q < |r| ==> r[q] < |sc|
  {
    var best := MaxCategory(sc);
    var top := Chosen(sc, |sc|, best, None);
    if |top| > 1 then Chosen(sc, |sc|, best, Some(BestKickers(sc, best))) else top
  }

  /** A place is chosen exactly when its category is the highest and its
      kicker list is the `>`-greatest among the scores of that category. */
  lemma BestPlacesAreBest(sc: seq<HandScore>)
    requires sc != []
    ensures var best := MaxCategory(sc); var top := BestKickers(sc, best);
      forall p :: 0 <= p < |sc| ==>
        (p in BestPlaces(sc) <==> sc[p].category == best && sc[p].kickers == top)
  {
    var best := MaxCategory(sc);
    var top0 := Chosen(sc, |sc|, best, None);
    if |top0| <= 1 {
      var top := BestKickers(sc, best);
      var p0 := BestKickersHolder(sc, best);
      ChosenMembers(sc, |sc|, best, None);
      SingleChoice(sc, top0, best, top, p0);
    } else {
      var top := BestKickers(sc, best);
      assert BestPlaces(sc) == Chosen(sc, |sc|, best, Some(top));
      ChosenMembers(sc, |sc|, best, Some(top));
    }
  }

  /** A place below k is chosen exactly when its score matches. */
  lemma ChosenMembers(sc: seq<HandScore>, k: nat, best: int, kickers: Option<seq<int>>)
    requires k <= |sc|
    ensures forall p :: 0 <= p < k ==> (p in Chosen(sc, k, best, kickers) <==> Matches(sc[p], best, kickers))
  {
    var r := Chosen(sc, k, best, kickers);
    forall p | 0 <= p < k && p in r ensures Matches(sc[p], best, kickers) {
      var q :| 0 <= q < |r| && r[q] == p;
    }
  }

  /** A place holding the highest category and the kept kicker list. */
  lemma BestKickersHolder(sc: seq<HandScore>, best: int) returns (p0: nat)
    requires sc != [] && best == MaxCategory(sc)
    ensures p0 < |sc| && sc[p0].category == best && sc[p0].kickers == BestKickers(sc, best)
  {
    BestKickersIsMax(sc, best);
    p0 :| 0 <= p0 < |sc| && sc[p0].category == best && sc[p0].kickers == BestKickers(sc, best);
  }

  /** When at most one place is chosen for category `best` and p0 has that
      category and the kicker list `top`, then exactly p0 is chosen. */
  lemma SingleChoice(sc: seq<HandScore>, c: seq<nat>, best: int, top: seq<int>, p0: nat)
    requires |c| <= 1
    requires forall q :: 0 <= q < |c| ==> c[q] < |sc| && sc[c[q]].category == best
    requires forall p :: 0 <= p < |sc| && sc[p].category == best ==> p in c
    requires p0 < |sc| && sc[p0].category == best && sc[p0].kickers == top
    ensures forall p :: 0 <= p < |sc| ==> (p in c <==> sc[p].category == best && sc[p].kickers == top)
  {
    assert p0 in c;
  }

  /** The winners hold the best scores: each ties or beats every score. */
  lemma BestPlacesBeatTheRest(sc: seq<HandScore>)
    requires sc != []
    ensures var w := BestPlaces(sc);
      forall q, p :: 0 <= q < |w| && 0 <= p < |sc| ==> CompareHands(sc[w[q]], sc[p]) >= 0
  {
    BestPlacesAreBest(sc);
    BestKickersIsMax(sc, MaxCategory(sc));
    var w := BestPlaces(sc);
    forall q, p | 0 <= q < |w| && 0 <= p < |sc| ensures CompareHands(sc[w[q]], sc[p]) >= 0 {
      assert w[q] in w;
      NotBelowCompares(sc[w[q]].kickers, sc[p].kickers);
    }
  }

  /** The entries of `active` at the chosen places. */
  function Pick(active: seq<nat>, chosen: seq<nat>): (r: seq<nat>)
    requires forall q :: 0 <= q < |chosen| ==> chosen[q] < |active|
    ensures |r| == |chosen|
    ensures forall q :: 0 <= q < |chosen| ==> r[q] == active[chosen[q]]
    ensures Increasing(active) && Increasing(chosen) ==> Increasing(r)
  {
    seq(|chosen|, q requires 0 <= q < |chosen| => active[chosen[q]])
  }

  /** With distinct entries, `active[p]` is picked exactly when p is chosen. */
  lemma PickMembers(active: seq<nat>, chosen: seq<nat>)
    requires forall q :: 0 <= q < |chosen| ==> chosen[q] < |active|
    requires Increasing(active)
    ensures forall p :: 0 <= p < |active| ==> (active[p] in Pick(active, chosen) <==> p in chosen)
  {
    var r := Pick(active, chosen);
    forall p | 0 <= p < |active| ensures active[p] in r <==> p in chosen {
      if active[p] in r {
        var q :| 0 <= q < |r| && r[q] == active[p];
        assert active[chosen[q]] == active[p];
      }
      if p in chosen {
        var q :| 0 <= q < |chosen| && chosen[q] == p;
        assert r[q] == active[p];
      }
    }
  }

  /** `_determine_winner`: nobody when every seat folded, the survivor alone
      when one seat is left, otherwise the seats still in whose scores are
      the best. The winners are seats still in the hand, in seat order. */
  function Winners(t: Table): (w: seq<nat>)
    ensures Increasing(w) && SeatPositions(w, |t.seats|)
    ensures forall q :: 0 <= q < |w| ==> w[q] in NotFolded(t.seats)
  {
    var active := NotFolded(t.seats);
    if |active| == 0 then []
    else if |active| == 1 then [active[0]]
    else Pick(active, BestPlaces(PlayerHands(t, active)))
  }

  /** The `player_hands` loop: `evaluate_hand(hand + community_cards)` for
      each seat still in. */
  method ScoreHands(t: Table, active: seq<nat>) returns (scores: seq<HandScore>)
    requires SeatPositions(active, |t.seats|)
    ensures scores == PlayerHands(t, active)
  {
    ghost var goal := PlayerHands(t, active);
    scores := [];
    var p := 0;
    while p < |active|
      invariant p <= |active| && PrefixOf(scores, goal, p)
    {
      scores := ScoreNext(t, active, scores, p);
      p := p + 1;
    }
  }

  /** The first p entries of scores are those of goal, and there are no others. */
  ghost predicate PrefixOf(scores: seq<HandScore>, goal: seq<HandScore>, p: nat) {
    p <= |goal| && |scores| == p && forall q :: 0 <= q < p ==> scores[q] == goal[q]
  }

  /** One pass of the `player_hands` loop: the next seat's score appended. */
  method ScoreNext(t: Table, active: seq<nat>, scores: seq<HandScore>, p: nat)
    returns (next: seq<HandScore>)
    requires SeatPositions(active, |t.seats|) && p < |active|
    requires PrefixOf(scores, PlayerHands(t, active), p)
    ensures PrefixOf(next, PlayerHands(t, active), p + 1)
  {
    var score := EvaluateHand(t.seats[active[p]].hand + t.community);
    assert score == PlayerHands(t, active)[p];
    next := scores + [score];
    PrefixStep(scores, PlayerHands(t, active), p, score);
  }

  /** Appending the next entry of goal extends the prefix by one. */
  lemma PrefixStep(scores: seq<HandScore>, goal: seq<HandScore>, p: nat, score: HandScore)
    requires PrefixOf(scores, goal, p) && p < |goal| && score == goal[p]
    ensures PrefixOf(scores + [score], goal, p + 1)
  {
    var next := scores + [score];
    assert forall q :: 0 <= q < p ==> next[q] == scores[q];
  }

  /** The comparison part of `_determine_winner` for two or more seats
      still in: the best category, the places holding it, narrowed by the
      `best_kickers` loop when there are several, then their seats. */
  method PickBest(active: seq<nat>, sc: seq<HandScore>) returns (w: seq<nat>)
    requires |sc| == |active| > 0
    ensures w == Pick(active, BestPlaces(sc))
  {
    var best := MaxCategory(sc);
    var top := Chosen(sc, |sc|, best, None);
    if |top| > 1 {
      var kickers := FindBestKickers(sc, best);
      top := Chosen(sc, |sc|, best, Some(kickers));
    }
    w := Pick(active, top);
  }

  /** With one seat left it wins alone, with none nobody wins. */
  lemma WinnersFewSeats(t: Table)
    ensures |NotFolded(t.seats)| == 0 ==> Winners(t) == []
    ensures |NotFolded(t.seats)| == 1 ==> Winners(t) == NotFolded(t.seats)
  {
  }

  /** With two or more seats in the hand, a seat still in is a winner exactly
      when its category is the highest among them and its kicker list is the
      `>`-greatest among the scores of that category. */
  lemma WinnersAreBest(t: Table)
    requires |NotFolded(t.seats)| >= 2
    ensures var active := NotFolded(t.seats);
      var sc := PlayerHands(t, active);
      var best := MaxCategory(sc);
      var top := BestKickers(sc, best);
      forall p :: 0 <= p < |active| ==>
        (active[p] in Winners(t) <==> sc[p].category == best && sc[p].kickers == top)
  {
    var active := NotFolded(t.seats);
    var sc := PlayerHands(t, active);
    BestPlacesAreBest(sc);
    PickMembers(active, BestPlaces(sc));
  }

  /** Every winner ties or beats every seat still in the hand under
      `compare_hands`. */
  lemma WinnersBeatTheRest(t: Table)
    ensures var w := Winners(t);
      forall q, j :: 0 <= q < |w| && 0 <= j < |t.seats| && !t.seats[j].folded ==>
        CompareHands(SeatScore(t, w[q]), SeatScore(t, j)) >= 0
  {
    var w := Winners(t);
    forall q, j | 0 <= q < |w| && 0 <= j < |t.seats| && !t.seats[j].folded
      ensures CompareHands(SeatScore(t, w[q]), SeatScore(t, j)) >= 0
    {
      WinnerBeats(t, q, j);
    }
  }

  /** One winner against one seat still in the hand. */
  lemma WinnerBeats(t: Table, q: nat, j: nat)
    requires q < |Winners(t)| && j < |t.seats| && !t.seats[j].folded
    ensures CompareHands(SeatScore(t, Winners(t)[q]), SeatScore(t, j)) >= 0
  {
    var active := NotFolded(t.seats);
    var w := Winners(t);
    assert j in active;
    if |active| == 1 {
      CompareReflexive(SeatScore(t, j));
    } else {
      var sc := PlayerHands(t, active);
      var chosen := BestPlaces(sc);
      BestPlacesBeatTheRest(sc);
      var pj :| 0 <= pj < |active| && active[pj] == j;
      assert w[q] == active[chosen[q]];
      assert sc[chosen[q]] == SeatScore(t, w[q]) && sc[pj] == SeatScore(t, j);
    }
  }

  // ---------------------------------------------------------------------
  // The pot

  /** Every entry of w is the position of a seat among n. */
  predicate SeatPositions(w: seq<nat>, n: nat) {
    forall p :: 0 <= p < |w| ==> w[p] < n
  }

  /** What the i-th of k winners receives from the pot: the even share, plus
      one chip for each of the first `pot % k` winners. */
  function Payout(pot: int, k: nat, i: nat): int
    requires k > 0
  {
    pot / k + (if i < pot % k then 1 else 0)
  }

  /** The payouts of the first j of k winners. */
  function PaidOut(pot: int, k: nat, j: nat): int
    requires k > 0
  {
    if j == 0 then 0 else PaidOut(pot, k, j - 1) + Payout(pot, k, j - 1)
  }

  /** The payouts add up to the pot: the first j winners together receive
      j even shares plus the remainder chips among them. */
  lemma {:induction false} PaidOutSum(pot: int, k: nat, j: nat)
    requires k > 0
    ensures PaidOut(pot, k, j) == j * (pot / k) + (if j < pot % k then j else pot % k)
  {
    if j > 0 {
      PaidOutSum(pot, k, j - 1);
      assert j * (pot / k) == (j - 1) * (pot / k) + pot / k;
    }
  }

  lemma PayoutsMakeThePot(pot: int, k: nat)
    requires k > 0
    ensures PaidOut(pot, k, k) == pot
  {
    PaidOutSum(pot, k, k);
  }

  /** The loop of `_distribute_pot` over its first j winners: the i-th one
      has its payout added to its stack. */
  function PayWinners(seats: seq<Seat>, winners: seq<nat>, pot: int, j: nat): (r: seq<Seat>)
    requires 0 < |winners| && j <= |winners|
    requires SeatPositions(winners, |seats|)
    ensures |r| == |seats|
  {
    if j == 0 then seats
    else
      var s := PayWinners(seats, winners, pot, j - 1);
      var w := winners[j - 1];
      s[w := s[w].(chips := s[w].chips + Payout(pot, |winners|, j - 1))]
  }

  /** `_distribute_pot`: with no winners nothing changes (the pot is kept);
      otherwise every winner is paid and the pot becomes 0. */
  function DistributePot(t: Table, winners: seq<nat>): (r: Table)
    requires SeatPositions(winners, |t.seats|)
    ensures |r.seats| == |t.seats|
  {
    if winners == [] then t
    else t.(seats := PayWinners(t.seats, winners, t.pot, |winners|), pot := 0)
  }

  /** Paying the first j winners adds their payouts to the chip total. */
  lemma {:induction false} PayWinnersChips(seats: seq<Seat>, winners: seq<nat>, pot: int, j: nat)
    requires 0 < |winners| && j <= |winners|
    requires SeatPositions(winners, |seats|)
    ensures ChipTotal(PayWinners(seats, winners, pot, j)) == ChipTotal(seats) + PaidOut(pot, |winners|, j)
  {
    if j > 0 {
      PayWinnersChips(seats, winners, pot, j - 1);
      var s := PayWinners(seats, winners, pot, j - 1);
      var w := winners[j - 1];
      var pay := Payout(pot, |winners|, j - 1);
      assert w in winners;
      assert PayWinners(seats, winners, pot, j) == s[w := s[w].(chips := s[w].chips + pay)];
      assert PaidOut(pot, |winners|, j) == PaidOut(pot, |winners|, j - 1) + pay;
      ChipTotalUpdate(s, w, s[w].(chips := s[w].chips + pay));
    }
  }

  /** Paying winners changes nothing of a seat but its stack. */
  lemma {:induction false} PayWinnersStacksOnly(seats: seq<Seat>, winners: seq<nat>, pot: int, j: nat, i: nat)
    requires 0 < |winners| && j <= |winners|
    requires SeatPositions(winners, |seats|) && i < |seats|
    ensures var r := PayWinners(seats, winners, pot, j); r[i] == seats[i].(chips := r[i].chips)
  {
    if j > 0 {
      PayWinnersStacksOnly(seats, winners, pot, j - 1, i);
    }
  }

  /** Paying the first j winners adds their payouts to the chip total and
      changes nothing but stacks. */
  lemma PayWinnersTotal(seats: seq<Seat>, winners: seq<nat>, pot: int, j: nat)
    requires 0 < |winners| && j <= |winners|
    requires SeatPositions(winners, |seats|)
    ensures var r := PayWinners(seats, winners, pot, j);
      && ChipTotal(r) == ChipTotal(seats) + PaidOut(pot, |winners|, j)
      && forall i :: 0 <= i < |seats| ==> r[i] == seats[i].(chips := r[i].chips)
  {
    PayWinnersChips(seats, winners, pot, j);
    forall i | 0 <= i < |seats|
      ensures PayWinners(seats, winners, pot, j)[i] ==
        seats[i].(chips := PayWinners(seats, winners, pot, j)[i].chips)
    {
      PayWinnersStacksOnly(seats, winners, pot, j, i);
    }
  }

  /** A seat not among the first j winners keeps its stack. */
  lemma {:induction false} PayWinnersLoser(seats: seq<Seat>, winners: seq<nat>, pot: int, j: nat, i: nat)
    requires 0 < |winners| && j <= |winners| && SeatPositions(winners, |seats|)
    requires i < |seats| && i !in winners[..j]
    ensures PayWinners(seats, winners, pot, j)[i] == seats[i]
  {
    if j > 0 {
      assert winners[j - 1] in winners[..j];
      assert forall x :: x in winners[..j - 1] ==> x in winners[..j];
      PayWinnersLoser(seats, winners, pot, j - 1, i);
    }
  }

  /** With distinct winners, the winner in place p, once the first j > p
      winners are paid, holds its stack plus its payout. */
  lemma {:induction false} PayWinnersWinner(seats: seq<Seat>, winners: seq<nat>, pot: int, j: nat, p: nat)
    requires p < j <= |winners| && Distinct(winners)
    requires SeatPositions(winners, |seats|)
    ensures PayWinners(seats, winners, pot, j)[winners[p]].chips ==
      seats[winners[p]].chips + Payout(pot, |winners|, p)
  {
    var w := winners[j - 1];
    if p == j - 1 {
      assert forall q :: 0 <= q < j - 1 ==> winners[q] != w;
      assert w !in winners[..j - 1];
      PayWinnersLoser(seats, winners, pot, j - 1, w);
    } else {
      assert winners[p] != w;
      PayWinnersWinner(seats, winners, pot, j - 1, p);
    }
  }

  /** With distinct winners, the winner in place p of the list ends with its
      stack plus its payout, and a seat that did not win keeps its stack. */
  lemma PayWinnersEach(seats: seq<Seat>, winners: seq<nat>, pot: int, j: nat)
    requires 0 < |winners| && j <= |winners| && Distinct(winners)
    requires SeatPositions(winners, |seats|)
    ensures var r := PayWinners(seats, winners, pot, j);
      && (forall p :: 0 <= p < j ==>
            r[winners[p]].chips == seats[winners[p]].chips + Payout(pot, |winners|, p))
      && (forall i :: 0 <= i < |seats| && i !in winners[..j] ==> r[i] == seats[i])
  {
    forall p | 0 <= p < j
      ensures PayWinners(seats, winners, pot, j)[winners[p]].chips ==
        seats[winners[p]].chips + Payout(pot, |winners|, p)
    {
      PayWinnersWinner(seats, winners, pot, j, p);
    }
    forall i | 0 <= i < |seats| && i !in winners[..j]
      ensures PayWinners(seats, winners, pot, j)[i] == seats[i]
    {
      PayWinnersLoser(seats, winners, pot, j, i);
    }
  }

  /** The pot split: with k >= 1 distinct winners the first `pot % k` receive
      `pot / k + 1`, the others `pot / k`, losers keep their stacks, the pot
      becomes 0 and no chip is created or lost; with none nothing changes. */
  lemma DistributePotSplits(t: Table, winners: seq<nat>)
    requires SeatPositions(winners, |t.seats|)
    requires Distinct(winners)
    ensures var r := DistributePot(t, winners);
      && (winners == [] ==> r == t)
      && (winners != [] ==>
            && r.pot == 0
            && r == t.(seats := r.seats, pot := 0)
            && ChipTotal(r.seats) == ChipTotal(t.seats) + t.pot
            && (forall p :: 0 <= p < |winners| ==>
                  r.seats[winners[p]].chips == t.seats[winners[p]].chips +
                    t.pot / |winners| + (if p < t.pot % |winners| then 1 else 0))
            && (forall i :: 0 <= i < |t.seats| && i !in winners ==> r.seats[i] == t.seats[i]))
  {
    if winners != [] {
      PayWinnersTotal(t.seats, winners, t.pot, |winners|);
      PayWinnersEach(t.seats, winners, t.pot, |winners|);
      PayoutsMakeThePot(t.pot, |winners|);
      assert winners[..|winners|] == winners;
    }
  }

  /** `_record_hand_history`: the board, each winner's name and hole cards,
      and the pot as it stands now, appended to the history. */
  function RecordHandHistory(t: Table, winners: seq<nat>): (r: Table)
    requires SeatPositions(winners, |t.seats|)
    ensures r == t.(history := r.history)
    ensures |r.history| == |t.history| + 1 && r.history[..|t.history|] == t.history
    ensures var rec := r.history[|t.history|];
      && rec.community == t.community && rec.pot == t.pot && |rec.winners| == |winners|
      && forall p :: 0 <= p < |winners| ==>
           rec.winners[p] == (t.seats[winners[p]].name, t.seats[winners[p]].hand)
  {
    var names := seq(|winners|, p requires 0 <= p < |winners| =>
      (t.seats[winners[p]].name, t.seats[winners[p]].hand));
    t.(history := t.history + [HandRecord(t.community, names, t.pot)])
  }

  // ---------------------------------------------------------------------
  // The whole hand

  /** Every seat cleared by `reset_hand`. */
  function ResetAll(seats: seq<Seat>): (r: seq<Seat>)
    ensures |r| == |seats| && forall j :: 0 <= j < |seats| ==> r[j] == SeatReset(seats[j])
  {
    seq(|seats|, j requires 0 <= j < |seats| => SeatReset(seats[j]))
  }

  /** The state after the opening lines of `start_hand`: the new shuffled
      deck (built by `Decks.Deck`), no board, empty pot, table bet 0, minimum
      raise the big blind, every seat reset. */
  function NewHand(t: Table, bigBlind: int, shuffled: seq<Card>): (r: Table)
    requires |shuffled| == 52
    ensures |r.deck| == 52 && |r.seats| == |t.seats|
  {
    t.(deck := shuffled, community := [], pot := 0, currentBet := 0,
       minRaise := bigBlind, seats := ResetAll(t.seats))
  }

  /** `start_hand` up to the first betting round: a new hand, the hole cards
      and the blinds. */
  function OpenHand(t: Table, smallBlind: int, bigBlind: int, shuffled: seq<Card>): (r: Table)
    requires 0 < |t.seats| <= 23 && |shuffled| == 52
    ensures |r.seats| == |t.seats| && r.community == [] && |r.deck| >= 52 - 2 * |t.seats|
    ensures r.dealer == t.dealer && r.history == t.history
  {
    PostBlinds(DealHoleCards(NewHand(t, bigBlind, shuffled)), smallBlind, bigBlind)
  }

  /** The close of `start_hand` for the given winners: the pot, the history
      record, and the dealer button moves one seat on. */
  function Settle(t: Table, winners: seq<nat>): (r: Table)
    requires |t.seats| > 0 && SeatPositions(winners, |t.seats|)
    ensures |r.seats| == |t.seats|
  {
    var recorded := RecordHandHistory(DistributePot(t, winners), winners);
    recorded.(dealer := (recorded.dealer + 1) % |recorded.seats|)
  }

  /** `start_hand` after the streets: the showdown, then settling. */
  function CloseHand(t: Table): (r: Table)
    requires |t.seats| > 0
    ensures |r.seats| == |t.seats|
  {
    Settle(t, Winners(t))
  }

  /** `start_hand` with the shuffled deck, the seats' decisions and
      at most `fuel` turns per betting round: reset, deal, blinds, streets,
      showdown, pot, history, button. None when a betting round does not
      finish within its fuel. */
  function StartHand(t: Table, smallBlind: int, bigBlind: int, shuffled: seq<Card>,
                     decide: Decider, fuel: nat): Option<Table>
    requires 0 < |t.seats| <= 23 && |shuffled| == 52
  {
    match RunStreets(OpenHand(t, smallBlind, bigBlind, shuffled), 0, bigBlind, decide, fuel)
    case None => None
    case Some(played) => Some(CloseHand(played))
  }

  /** Opening a hand takes any chips left in the pot off the table (a new
      hand starts from an empty pot) and otherwise only moves the blinds
      from the stacks into the pot. */
  lemma OpenHandChips(t: Table, smallBlind: int, bigBlind: int, shuffled: seq<Card>)
    requires 0 < |t.seats| <= 23 && |shuffled| == 52
    ensures var r := OpenHand(t, smallBlind, bigBlind, shuffled);
      r.pot + ChipTotal(r.seats) == ChipTotal(t.seats)
  {
    var begun := NewHand(t, bigBlind, shuffled);
    ChipTotalSameStacks(begun.seats, t.seats);
    var dealt := DealHoleCards(begun);
    DealHoleCardsKeeps(begun);
    PostBlindsConserves(dealt, smallBlind, bigBlind);
  }

  /** After the opening every seat keeps its name, is in the hand again and
      holds two cards. */
  lemma OpenHandSeats(t: Table, smallBlind: int, bigBlind: int, shuffled: seq<Card>)
    requires 0 < |t.seats| <= 23 && |shuffled| == 52
    ensures var r := OpenHand(t, smallBlind, bigBlind, shuffled);
      forall j :: 0 <= j < |t.seats| ==>
        r.seats[j].name == t.seats[j].name && !r.seats[j].folded && |r.seats[j].hand| == 2
  {
    var begun := NewHand(t, bigBlind, shuffled);
    var dealt := DealHoleCards(begun);
    DealHoleCardsKeeps(begun);
    PostBlindsConserves(dealt, smallBlind, bigBlind);
  }

  /** Dealing the hole cards at a new hand keeps stacks, names and fold
      flags and gives every seat its two cards. */
  lemma DealHoleCardsKeeps(t: Table)
    requires 2 * |t.seats| <= |t.deck| == 52
    requires forall j :: 0 <= j < |t.seats| ==> !t.seats[j].folded && t.seats[j].hand == []
    ensures var r := DealHoleCards(t); var n := |t.seats|; var d := t.deck;
      && ChipTotal(r.seats) == ChipTotal(t.seats)
      && forall j :: 0 <= j < n ==>
           && r.seats[j].name == t.seats[j].name && !r.seats[j].folded
           && r.seats[j].hand == [d[51 - j], d[51 - n - j]] && |r.seats[j].hand| == 2
  {
    var n := |t.seats|;
    var r := DealHoleCards(t);
    var d := t.deck;
    forall j | 0 <= j < n ensures r.seats[j] == t.seats[j].(hand := [d[51 - j], d[51 - n - j]]) {
      DealHoleCardsSeat(t, j);
    }
    ChipTotalSameStacks(r.seats, t.seats);
  }

  /** Seat j of a new hand ends the hole-card deal with the (j+1)-th card
      from the top and the one n places below it, and nothing else changed. */
  lemma DealHoleCardsSeat(t: Table, j: nat)
    requires 2 * |t.seats| <= |t.deck| == 52 && j < |t.seats|
    requires forall j :: 0 <= j < |t.seats| ==> !t.seats[j].folded && t.seats[j].hand == []
    ensures var n := |t.seats|; var d := t.deck;
      DealHoleCards(t).seats[j] == t.seats[j].(hand := [d[51 - j], d[51 - n - j]])
  {
    var u := DealPass(t, |t.seats|);
    HoleCardsOrder(t);
    DealPassSeat(t, |t.seats|, j);
    DealPassSeat(u, |t.seats|, j);
  }

  /** Settling keeps the chips: the pot goes to the winners, or stays when
      there are none, and then the new record names no winner; the record
      holds the board, the button moves one seat on, and the seats keep
      their names, cards and fold flags. */
  lemma SettleKeeps(t: Table, winners: seq<nat>)
    requires |t.seats| > 0 && SeatPositions(winners, |t.seats|) && Distinct(winners)
    ensures var r := Settle(t, winners);
      && ChipTotal(r.seats) + r.pot == ChipTotal(t.seats) + t.pot
      && (r.pot != 0 ==> r.history[|t.history|].winners == [])
      && r.dealer == (t.dealer + 1) % |t.seats|
      && |r.history| == |t.history| + 1 && r.history[..|t.history|] == t.history
      && r.history[|t.history|].community == t.community
      && r.community == t.community
      && forall j :: 0 <= j < |t.seats| ==>
           && r.seats[j].name == t.seats[j].name && r.seats[j].hand == t.seats[j].hand
           && r.seats[j].folded == t.seats[j].folded
  {
    DistributePotSplits(t, winners);
    if winners != [] {
      PayWinnersTotal(t.seats, winners, t.pot, |winners|);
    }
  }

  lemma CloseHandKeeps(t: Table)
    requires |t.seats| > 0
    ensures var r := CloseHand(t);
      && ChipTotal(r.seats) + r.pot == ChipTotal(t.seats) + t.pot
      && (r.pot != 0 ==> r.history[|t.history|].winners == [])
      && r.dealer == (t.dealer + 1) % |t.seats|
      && |r.history| == |t.history| + 1 && r.history[..|t.history|] == t.history
      && r.community == t.community
      && forall j :: 0 <= j < |t.seats| ==>
           r.seats[j].name == t.seats[j].name && r.seats[j].folded == t.seats[j].folded
  {
    var winners := Winners(t);
    IncreasingDistinct(winners);
    SettleKeeps(t, winners);
  }

  /** What the opening and the streets keep of the table t: chips only
      move between the seats and the pot, the history is untouched, the
      seats keep their names, and the board is complete unless at most one
      seat is left. */
  ghost predicate PlayKept(t: Table, played: Table) {
    && |played.seats| == |t.seats|
    && played.pot + ChipTotal(played.seats) == ChipTotal(t.seats)
    && played.history == t.history
    && (|played.community| == 5 || ActivePlayersCount(played.seats) <= 1)
    && forall j :: 0 <= j < |t.seats| ==> played.seats[j].name == t.seats[j].name
  }

  /** The opening and the streets keep PlayKept. */
  lemma OpenAndPlayKeeps(t: Table, smallBlind: int, bigBlind: int, shuffled: seq<Card>,
                         decide: Decider, fuel: nat)
    requires 0 < |t.seats| <= 23 && |shuffled| == 52
    ensures var r := RunStreets(OpenHand(t, smallBlind, bigBlind, shuffled), 0, bigBlind, decide, fuel);
      r.Some? ==> PlayKept(t, r.value)
  {
    var start := OpenHand(t, smallBlind, bigBlind, shuffled);
    OpenHandChips(t, smallBlind, bigBlind, shuffled);
    OpenHandSeats(t, smallBlind, bigBlind, shuffled);
    RunStreetsKeeps(start, 0, bigBlind, decide, fuel);
  }

  /** What a finished hand r keeps of the table t it started from: what the
      seats hold plus what is left in the pot equals what the seats held;
      chips are left in the pot only when every seat folded, and then the
      hand's record names no winner; one record is added; the seats keep
      their names; the board holds five cards unless at most one seat was
      left in. */
  ghost predicate HandKept(t: Table, r: Table) {
    && |r.seats| == |t.seats|
    && ChipTotal(r.seats) + r.pot == ChipTotal(t.seats)
    && |r.history| == |t.history| + 1 && r.history[..|t.history|] == t.history
    && (r.pot != 0 ==> r.history[|t.history|].winners == [])
    && (|r.community| == 5 || ActivePlayersCount(r.seats) <= 1)
    && forall j :: 0 <= j < |t.seats| ==> r.seats[j].name == t.seats[j].name
  }

  /** A whole hand keeps the chips, and the rest of HandKept. */
  lemma StartHandKeepsChips(t: Table, smallBlind: int, bigBlind: int, shuffled: seq<Card>,
                            decide: Decider, fuel: nat)
    requires 0 < |t.seats| <= 23 && |shuffled| == 52
    ensures var r := StartHand(t, smallBlind, bigBlind, shuffled, decide, fuel);
      r.Some? ==> HandKept(t, r.value)
  {
    var r := RunStreets(OpenHand(t, smallBlind, bigBlind, shuffled), 0, bigBlind, decide, fuel);
    OpenAndPlayKeeps(t, smallBlind, bigBlind, shuffled, decide, fuel);
    if r.Some? {
      PlayedThenClosed(t, r.value);
    }
  }

  /** The close of a hand whose streets kept the chips of t keeps them too. */
  lemma PlayedThenClosed(t: Table, played: Table)
    requires |t.seats| > 0 && PlayKept(t, played)
    ensures HandKept(t, CloseHand(played))
  {
    CloseHandKeeps(played);
    ActiveCountSameFolds(CloseHand(played).seats, played.seats);
  }

  /** Only the fold flags decide how many seats are in the hand. */
  lemma {:induction false} ActiveCountSameFolds(a: seq<Seat>, b: seq<Seat>)
    requires |a| == |b| && forall j :: 0 <= j < |a| ==> a[j].folded == b[j].folded
    ensures ActivePlayersCount(a) == ActivePlayersCount(b)
    decreases |a|
  {
    if a != [] {
      ActiveCountSameFolds(a[..|a| - 1], b[..|b| - 1]);
    }
  }

  lemma IncreasingDistinct(s: seq<nat>)
    requires Increasing(s)
    ensures Distinct(s)
  {
  }
}
