/** The TexasHoldem engine of texasHoldem.py as an object: its fields are
    updated in place by the methods of `start_hand`, and every method is
    proved to leave the table in the state the value-level functions of
    HoldemRules and HoldemHand compute from the old one. */
module TexasHoldem {
  import opened Util
  import opened Cards
  import opened Players
  import opened Actions
  import opened HandEvaluator
  import opened Decks
  import opened HoldemRules
  import opened HoldemHand

  class Game {
    /** The players list, the blinds: set by the constructor, never reassigned. */
    const players: seq<Player>
    const smallBlind: int
    const bigBlind: int
    var deck: Deck
    var community: seq<Card>
    var pot: int
    var currentBet: int
    var minRaise: int
    var dealer: nat
    var history: seq<HandRecord>

    /** Every seat holds its own Player object. */
    ghost predicate Valid() {
      Distinct(players)
    }

    /** The players' fields, seat by seat. */
    function Seats(): (s: seq<Seat>)
      reads players
      ensures |s| == |players|
      ensures forall j :: 0 <= j < |players| ==> s[j] == players[j].Snapshot()
    {
      seq(|players|, j requires 0 <= j < |players| reads players => players[j].Snapshot())
    }

    /** The engine's fields as a Table value. */
    function State(): (t: Table)
      reads this, players, deck
      ensures |t.seats| == |players|
    {
      Table(Seats(), pot, currentBet, minRaise, community, deck.cards, dealer, history)
    }

    /** `TexasHoldem(players, small_blind=10, big_blind=20)`: a shuffled deck,
        no board, empty pot, table bet 0, minimum raise the big blind, dealer
        at seat 0 and no history. The random source comes first so that the
        blinds can keep their defaults. */
    constructor (players: seq<Player>, rand: nat -> nat, smallBlind: int := 10, bigBlind: int := 20)
      requires Distinct(players)
      ensures State() == Table(Seats(), 0, 0, bigBlind, [], FisherYates(FullDeck(), 52, rand), 0, [])
      ensures this.players == players && this.smallBlind == smallBlind && this.bigBlind == bigBlind
    {
      this.players := players;
      this.smallBlind := smallBlind;
      this.bigBlind := bigBlind;
      deck := new Deck(rand);
      community := [];
      pot := 0;
      currentBet := 0;
      minRaise := bigBlind;
      dealer := 0;
      history := [];
    }

    /** A fold, or a check facing a bet: the player at seat i folds. */
    method FoldPlayer(i: nat)
      requires Valid() && i < |players|
      modifies players[i]
      ensures State() == FoldSeat(old(State()), i)
    {
      players[i].folded := true;
      OneSeatChanged(i);
    }

    /** A call, or a raise that does not top the table bet: the player at
        seat i bets the difference to the table bet and the pot takes what
        was paid. */
    method CallPlayer(i: nat)
      requires Valid() && i < |players|
      modifies this, players[i]
      ensures deck == old(deck)
      ensures State() == CallBet(old(State()), i)
    {
      var p := players[i];
      var paid := p.Bet(currentBet - p.currentBet);
      pot := pot + paid;
      OneSeatChanged(i);
    }

    /** `_execute_action(player, action, amount)` for the player at seat i. */
    method ExecuteAction(i: nat, d: Decision)
      requires Valid() && i < |players|
      modifies this, players[i]
      ensures deck == old(deck)
      ensures State() == Execute(old(State()), i, d)
    {
      var p := players[i];
      match d.action {
        case Fold =>
          FoldPlayer(i);
        case Check =>
          if currentBet > p.currentBet {
            FoldPlayer(i);
          }
        case Call =>
          CallPlayer(i);
        case Raise =>
          var total := p.currentBet + d.amount;
          if total <= currentBet {
            CallPlayer(i);
          } else {
            var paid := p.Bet(d.amount);
            pot := pot + paid;
            currentBet := total;
            minRaise := d.amount;
            OneSeatChanged(i);
          }
        case AllIn =>
          var amount := p.chips;
          var _ := p.Bet(amount);
          pot := pot + amount;
          var total := p.currentBet;
          if total > currentBet {
            currentBet := total;
            minRaise := total - currentBet;
          }
          OneSeatChanged(i);
      }
    }

    /** The reset loop of `start_hand`: `reset_hand` on every player. */
    method ResetPlayers()
      requires Valid()
      modifies players
      ensures Seats() == ResetAll(old(Seats()))
    {
      ghost var s0 := Seats();
      var i := 0;
      while i < |players|
        invariant i <= |players|
        invariant forall j :: 0 <= j < |players| ==>
          players[j].Snapshot() == if j < i then SeatReset(s0[j]) else s0[j]
      {
        players[i].ResetHand();
        i := i + 1;
      }
    }

    /** `_deal_hole_cards`: two passes over the players. */
    method DealHoleCards()
      requires Valid() && 2 * |players| <= |deck.cards|
      modifies players, deck
      ensures State() == HoldemHand.DealHoleCards(old(State()))
    {
      DealOneEach();
      DealOneEach();
    }

    /** One pass of `_deal_hole_cards`: each player not folded receives
        `[deck.deal()]`. */
    method DealOneEach()
      requires Valid() && |players| <= |deck.cards|
      modifies players, deck
      ensures State() == DealPass(old(State()), |players|)
    {
      ghost var t := State();
      var i := 0;
      while i < |players|
        invariant i <= |players| && DealtUpTo(t, i)
        modifies players, deck
      {
        DealStep(t, i);
        i := i + 1;
      }
    }

    /** One pass of the dealing loop: seat i gets a card unless folded. */
    method DealStep(ghost t: Table, i: nat)
      requires Valid() && i < |players| && |players| <= |t.deck| && DealtUpTo(t, i)
      modifies players, deck
      ensures DealtUpTo(t, i + 1)
    {
      if !players[i].folded {
        DealTo(i);
      }
    }

    /** The players and the deck are those of `t` after a pass over its
        first i seats. */
    ghost predicate DealtUpTo(t: Table, i: nat)
      reads this, players, deck
    {
      i <= |t.seats| && i <= |t.deck| && t.(seats := Seats(), deck := deck.cards) == DealPass(t, i)
    }

    /** `player.receive_cards([self.deck.deal()])` for the player at seat i. */
    method DealTo(i: nat)
      requires Valid() && i < |players| && deck.cards != []
      modifies players[i], deck
      ensures var s, d := old(Seats()), old(deck.cards);
        Seats() == s[i := SeatReceive(s[i], [d[|d| - 1]])] && deck.cards == d[..|d| - 1]
    {
      var c := deck.Deal();
      players[i].ReceiveCards([c.value]);
      OneSeatChanged(i);
    }

    /** `_post_blinds`: the player after the dealer bets the small blind,
        the next one the big blind. */
    method PostBlinds()
      requires Valid() && |players| > 0
      modifies this, players
      ensures deck == old(deck)
      ensures State() == HoldemHand.PostBlinds(old(State()), smallBlind, bigBlind)
    {
      var n := |players|;
      PostBlind((dealer + 1) % n, smallBlind);
      PostBlind((dealer + 2) % n, bigBlind);
    }

    /** One blind: the player at seat i bets `amount`, the pot takes what
        was paid and the table bet becomes that payment. */
    method PostBlind(i: nat, amount: int)
      requires Valid() && i < |players|
      modifies this, players[i]
      ensures deck == old(deck)
      ensures var t := old(State()); var bet := SeatBet(t.seats[i], amount);
        State() == t.(seats := t.seats[i := bet.0], pot := t.pot + bet.1, currentBet := bet.1)
    {
      var paid := players[i].Bet(amount);
      pot := pot + paid;
      currentBet := paid;
      OneSeatChanged(i);
    }

    /** `_deal_community_cards(count)`: `count` times, `deck.deal()` appended
        to the community cards. */
    method DealCommunityCards(count: nat)
      requires Valid() && count <= |deck.cards|
      modifies this, deck
      ensures deck == old(deck)
      ensures State() == DealCommunity(old(State()), count)
    {
      ghost var t := State();
      community := DrawOnto(community, count);
      DealCommunityDrawn(t, count);
    }

    /** The `_deal_community_cards` loop: count cards dealt from the deck,
        each appended to board. */
    method DrawOnto(board: seq<Card>, count: nat) returns (r: seq<Card>)
      requires count <= |deck.cards|
      modifies deck
      ensures deck.cards == old(deck.cards)[..|old(deck.cards)| - count]
      ensures r == board + Drawn(old(deck.cards), count)
    {
      ghost var d := deck.cards;
      var k := 0;
      r := board;
      while k < count
        invariant k <= count && deck.cards == d[..|d| - k]
        invariant r == board + Drawn(d, k)
      {
        var c := deck.Deal();
        assert d[..|d| - k][..|d| - k - 1] == d[..|d| - (k + 1)];
        r := r + [c.value];
        k := k + 1;
      }
    }

    /** The reset at the head of `_betting_round`: every player not folded
        has its wager set to 0. */
    method ResetWagers()
      requires Valid()
      modifies players
      ensures Seats() == ClearWagers(old(Seats()))
    {
      ghost var s0 := Seats();
      var i := 0;
      while i < |players|
        invariant i <= |players|
        invariant forall j :: 0 <= j < |players| ==>
          players[j].Snapshot() == if j < i && !s0[j].folded then s0[j].(currentBet := 0) else s0[j]
      {
        if !players[i].folded {
          players[i].currentBet := 0;
        }
        i := i + 1;
      }
    }

    /** `_betting_round`, with the loop given at most `fuel` passes: false
        when the fuel runs out before the loop condition fails. */
    method BettingRound(decide: Decider, fuel: nat) returns (finished: bool)
      requires Valid() && |players| > 0
      modifies this, players
      ensures deck == old(deck)
      ensures var r := HoldemRules.BettingRound(old(State()), bigBlind, decide, fuel);
        finished == r.Some? && (finished ==> State() == r.value)
    {
      ghost var t0 := State();
      var start := (dealer + 3) % |players|;
      ResetWagers();
      assert Cursor(State(), start, 0, None) == Cursor(t0.(seats := ClearWagers(t0.seats)), StartPosition(t0), 0, None);
      finished := BettingLoop(start, decide, fuel);
      if finished {
        currentBet := 0;
        minRaise := bigBlind;
      }
    }

    /** The `while` loop of `_betting_round` from seat `start`, given at
        most `fuel` passes: false when the fuel runs out first. */
    method BettingLoop(start: nat, decide: Decider, fuel: nat) returns (finished: bool)
      requires Valid() && start < |players|
      modifies this, players
      ensures deck == old(deck)
      ensures var r := RoundLoop(Cursor(old(State()), start, 0, None), decide, fuel);
        finished == r.Some? && (finished ==> State() == r.value.table)
    {
      var n := |players|;
      ghost var goal := RoundLoop(Cursor(State(), start, 0, None), decide, fuel);
      var pos: nat, taken: nat, lastRaiser: Option<nat>, left: nat := start, 0, None, fuel;
      while (taken < n || (lastRaiser.Some? && pos != lastRaiser.value)) && left > 0
        invariant deck == old(deck) && LoopAt(pos, taken, lastRaiser, decide, left, goal)
        decreases left
      {
        pos, taken, lastRaiser := TakeTurn(pos, taken, lastRaiser, decide);
        left := left - 1;
      }
      finished := !(taken < n || (lastRaiser.Some? && pos != lastRaiser.value));
      if finished {
        assert goal == Some(Cursor(State(), pos, taken, lastRaiser));
      }
    }

    /** The betting loop from cursor (pos, taken, lastRaiser) with `left`
        passes ends as `goal`. */
    ghost predicate LoopAt(pos: nat, taken: nat, lastRaiser: Option<nat>, decide: Decider, left: nat,
                           goal: Option<Cursor>)
      reads this, players, deck
    {
      pos < |players| && RoundLoop(Cursor(State(), pos, taken, lastRaiser), decide, left) == goal
    }

    /** One pass of the `_betting_round` loop at seat `pos`: a player neither
        folded nor all-in decides on the `game_state` view and the action is
        executed; a RAISE or ALL_IN makes it the last raiser. */
    method TakeTurn(pos: nat, taken: nat, lastRaiser: Option<nat>, decide: Decider)
      returns (nextPos: nat, nextTaken: nat, last: Option<nat>)
      requires Valid() && pos < |players|
      modifies this, players[pos]
      ensures deck == old(deck)
      ensures Turn(Cursor(old(State()), pos, taken, lastRaiser), decide) == Cursor(State(), nextPos, nextTaken, last)
    {
      var p := players[pos];
      last := lastRaiser;
      if !p.folded && !p.allIn {
        var d := decide(taken, pos, p.Snapshot(), View(community, currentBet, minRaise, pot));
        ExecuteAction(pos, d);
        if d.action == Raise || d.action == AllIn {
          last := Some(pos);
        }
      }
      nextPos := (pos + 1) % |players|;
      nextTaken := taken + 1;
    }

    /** `_run_betting_rounds`: for the pre-flop, flop, turn and river, stop
        once at most one player has not folded, else deal the street's
        community cards and play its betting round. False when a round runs
        out of fuel. */
    method RunBettingRounds(decide: Decider, fuel: nat) returns (finished: bool)
      requires Valid() && |players| > 0 && 5 <= |deck.cards|
      modifies this, players, deck
      ensures var r := RunStreets(old(State()), 0, bigBlind, decide, fuel);
        finished == r.Some? && (finished ==> State() == r.value)
    {
      ghost var goal := RunStreets(State(), 0, bigBlind, decide, fuel);
      var k := 0;
      while k < 4
        invariant deck == old(deck) && StreetsAt(k, decide, fuel, goal)
      {
        if ActivePlayersCount(Seats()) <= 1 {
          break;
        }
        var done := PlayStreet(k, decide, fuel);
        if !done {
          return false;
        }
        k := k + 1;
      }
      assert goal == Some(State());
      return true;
    }

    /** The streets from k on, played from the current state, end as `goal`. */
    ghost predicate StreetsAt(k: nat, decide: Decider, fuel: nat, goal: Option<Table>)
      reads this, players, deck
    {
      && k <= 4 && 0 < |players| && CardsStillToDeal(k) <= |deck.cards|
      && RunStreets(State(), k, bigBlind, decide, fuel) == goal
    }

    /** One pass of the `_run_betting_rounds` loop with two or more players
        left: the street's community cards, then its betting round; the
        streets from k on then play as the streets from k + 1 on from the
        new state, or not to the end when the round runs out of fuel. */
    method PlayStreet(k: nat, decide: Decider, fuel: nat) returns (done: bool)
      requires Valid() && k < 4 && 0 < |players| && CardsStillToDeal(k) <= |deck.cards|
      requires ActivePlayersCount(Seats()) > 1
      modifies this, players, deck
      ensures deck == old(deck) && CardsStillToDeal(k + 1) <= |deck.cards|
      ensures var r := RunStreets(old(State()), k, bigBlind, decide, fuel);
        if done then r == RunStreets(State(), k + 1, bigBlind, decide, fuel) else r == None
    {
      ghost var t := State();
      if StreetCards(k) > 0 {
        DealCommunityCards(StreetCards(k));
      }
      ghost var dealt := State();
      assert dealt == DealCommunity(t, StreetCards(k));
      done := BettingRound(decide, fuel);
      BettingRoundKeepsDeck(dealt, bigBlind, decide, fuel);
    }

    /** `_determine_winner`: the positions of the winning players, in seat
        order (the source pairs each winner with its hole cards). */
    method DetermineWinner() returns (winners: seq<nat>)
      ensures winners == Winners(State())
    {
      var active := NotFolded(Seats());
      if |active| == 0 {
        return [];
      }
      if |active| == 1 {
        return [active[0]];
      }
      var scores := ScoreHands(State(), active);
      winners := PickBest(active, scores);
    }

    /** `_distribute_pot(winners)`: nothing with no winners; otherwise each
        winner's stack grows by the even share, the first `pot % k` by one
        chip more, and the pot becomes 0. */
    method DistributePot(winners: seq<nat>)
      requires Valid() && SeatPositions(winners, |players|)
      modifies this, players
      ensures deck == old(deck)
      ensures State() == HoldemHand.DistributePot(old(State()), winners)
    {
      if winners == [] {
        return;
      }
      PayWinnersOut(winners);
      pot := 0;
    }

    /** The payout loop of `_distribute_pot`: winner i gets the even share
        of the pot, plus one chip while i is below the remainder. */
    method PayWinnersOut(winners: seq<nat>)
      requires Valid() && winners != [] && SeatPositions(winners, |players|)
      modifies players
      ensures Seats() == PayWinners(old(Seats()), winners, pot, |winners|)
    {
      var k := |winners|;
      var share := pot / k;
      var remainder := pot % k;
      ghost var s0 := Seats();
      var i := 0;
      while i < k
        invariant i <= k && Seats() == PayWinners(s0, winners, pot, i)
      {
        var amount := share + (if i < remainder then 1 else 0);
        var w := winners[i];
        ghost var before := Seats();
        assert PayWinners(s0, winners, pot, i + 1) ==
          before[w := before[w].(chips := before[w].chips + amount)];
        Credit(w, amount);
        i := i + 1;
      }
    }

    /** `winner.chips += amount` for the player at seat i. */
    method Credit(i: nat, amount: int)
      requires Valid() && i < |players|
      modifies players[i]
      ensures var s := old(Seats()); Seats() == s[i := s[i].(chips := s[i].chips + amount)]
    {
      players[i].chips := players[i].chips + amount;
      OneSeatChanged(i);
    }

    /** `_record_hand_history(winners)`: the board, each winner's name and
        hole cards and the pot appended to the history. */
    method RecordHandHistory(winners: seq<nat>)
      requires SeatPositions(winners, |players|)
      modifies this
      ensures deck == old(deck)
      ensures State() == HoldemHand.RecordHandHistory(old(State()), winners)
    {
      var seats := Seats();
      var names := seq(|winners|, p requires 0 <= p < |winners| =>
        (seats[winners[p]].name, seats[winners[p]].hand));
      history := history + [HandRecord(community, names, pot)];
    }

    /** `start_hand`, dealt from `shuffled`, the `Deck()` it builds (a new
        deck shuffled by the random source), with the players' decisions and
        at most `fuel` passes per betting loop: false when a betting loop
        runs out of fuel, the hand then being abandoned where it stands. */
    method StartHand(shuffled: Deck, decide: Decider, fuel: nat) returns (finished: bool)
      requires Valid() && 0 < |players| <= 23 && |shuffled.cards| == 52
      modifies this, players, shuffled
      ensures var r := HoldemHand.StartHand(old(State()), smallBlind, bigBlind, old(shuffled.cards), decide, fuel);
        finished == r.Some? && (finished ==> State() == r.value)
    {
      OpenTable(shuffled);
      finished := PlayHand(decide, fuel);
    }

    /** `start_hand` up to the first betting round: the new deck and
        players reset, the hole cards, and the blinds. */
    method OpenTable(shuffled: Deck)
      requires Valid() && 0 < |players| <= 23 && |shuffled.cards| == 52
      modifies this, players, shuffled
      ensures deck == shuffled && 5 <= |deck.cards|
      ensures State() == OpenHand(old(State()), smallBlind, bigBlind, old(shuffled.cards))
    {
      NewHand(shuffled);
      DealHoleCards();
      PostBlinds();
    }

    /** `start_hand` from the first betting round on: the streets, then,
        when every betting loop finished, the showdown and the pot. */
    method PlayHand(decide: Decider, fuel: nat) returns (finished: bool)
      requires Valid() && |players| > 0 && 5 <= |deck.cards|
      modifies this, players, deck
      ensures var r := RunStreets(old(State()), 0, bigBlind, decide, fuel);
        finished == r.Some? && (finished ==> State() == HoldemHand.CloseHand(r.value))
    {
      finished := RunBettingRounds(decide, fuel);
      if finished {
        CloseHand();
      }
    }

    /** The opening lines of `start_hand`: the new deck, no board, empty
        pot, table bet 0, minimum raise the big blind, and `reset_hand` on
        every player. */
    method NewHand(shuffled: Deck)
      requires Valid() && |shuffled.cards| == 52
      modifies this, players
      ensures deck == shuffled
      ensures State() == HoldemHand.NewHand(old(State()), bigBlind, shuffled.cards)
    {
      deck := shuffled;
      community := [];
      pot := 0;
      currentBet := 0;
      minRaise := bigBlind;
      ResetPlayers();
    }

    /** The closing lines of `start_hand`: the winners, the pot split, the
        history record, and the dealer button one seat on. */
    method CloseHand()
      requires Valid() && |players| > 0
      modifies this, players
      ensures State() == HoldemHand.CloseHand(old(State()))
    {
      var winners := DetermineWinner();
      Settle(winners);
    }

    /** The pot paid to the winners, the hand recorded, and the dealer
        button moved one seat on. */
    method Settle(winners: seq<nat>)
      requires Valid() && |players| > 0 && SeatPositions(winners, |players|)
      modifies this, players
      ensures State() == HoldemHand.Settle(old(State()), winners)
    {
      DistributePot(winners);
      RecordHandHistory(winners);
      dealer := (dealer + 1) % |players|;
    }

    /** When only the player at seat i changed, only seat i of the table did. */
    twostate lemma OneSeatChanged(i: nat)
      requires Distinct(players) && i < |players|
      requires forall j :: 0 <= j < |players| && j != i ==> unchanged(players[j])
      ensures Seats() == old(Seats())[i := players[i].Snapshot()]
    {
    }
  }
}
