/** The rules of one hand of texasHoldem.py, stated on values: the table
    (seats, pot, table bet, minimum raise), the execution of one action, the
    betting loop, the winner selection, the pot split and the whole hand.
    The Game class of module TexasHoldem is proved against these functions. */
module HoldemRules {
  import opened Util
  import opened Cards
  import opened Players
  import opened Actions
  import opened HandEvaluator

  /** One record of `hand_history`: the community cards, the winners' names
      and hole cards, and the pot as it stands when the record is made. */
  datatype HandRecord = HandRecord(community: seq<Card>, winners: seq<(string, seq<Card>)>, pot: int)

  /** The fields of a TexasHoldem object as a value: the seats in order,
      `pot`, `current_bet`, `min_raise`, `community_cards`, the cards left in
      the deck, `dealer_position` and `hand_history`. */
  datatype Table = Table(seats: seq<Seat>, pot: int, currentBet: int, minRaise: int,
                         community: seq<Card>, deck: seq<Card>, dealer: nat,
                         history: seq<HandRecord>)

  /** The chips held by all seats together. */
  function ChipTotal(seats: seq<Seat>): int {
    if seats == [] then 0 else ChipTotal(seats[..|seats| - 1]) + seats[|seats| - 1].chips
  }

  /** Replacing one seat changes the total by the difference of its stacks. */
  lemma {:induction false} ChipTotalUpdate(seats: seq<Seat>, i: nat, s: Seat)
    requires i < |seats|
    ensures ChipTotal(seats[i := s]) == ChipTotal(seats) - seats[i].chips + s.chips
    decreases |seats|
  {
    var last := |seats| - 1;
    if i == last {
      assert seats[i := s][..last] == seats[..last];
    } else {
      assert seats[i := s][..last] == seats[..last][i := s];
      ChipTotalUpdate(seats[..last], i, s);
    }
  }

  /** Seats whose stacks agree have the same total. */
  lemma {:induction false} ChipTotalSameStacks(a: seq<Seat>, b: seq<Seat>)
    requires |a| == |b|
    requires forall j :: 0 <= j < |a| ==> a[j].chips == b[j].chips
    ensures ChipTotal(a) == ChipTotal(b)
    decreases |a|
  {
    if a != [] {
      ChipTotalSameStacks(a[..|a| - 1], b[..|b| - 1]);
    }
  }

  /** A FOLD, or a CHECK facing a bet: the seat is marked folded. */
  function FoldSeat(t: Table, i: nat): Table
    requires i < |t.seats|
  {
    t.(seats := t.seats[i := t.seats[i].(folded := true)])
  }

  /** A CALL: the seat bets the difference to the table bet, and the pot grows
      by what it actually paid. */
  function CallBet(t: Table, i: nat): Table
    requires i < |t.seats|
  {
    var p := t.seats[i];
    var bet := SeatBet(p, t.currentBet - p.currentBet);
    t.(seats := t.seats[i := bet.0], pot := t.pot + bet.1)
  }

  /** `_execute_action(player, action, amount)` for the seat at position i.
      Only the seats, the pot, the table bet and the minimum raise change,
      and of the seats only the acting one. */
  function Execute(t: Table, i: nat, d: Decision): (r: Table)
    requires i < |t.seats|
    ensures r == t.(seats := r.seats, pot := r.pot, currentBet := r.currentBet, minRaise := r.minRaise)
    ensures |r.seats| == |t.seats|
    ensures forall j :: 0 <= j < |t.seats| && j != i ==> r.seats[j] == t.seats[j]
    ensures r.seats[i].name == t.seats[i].name && r.seats[i].hand == t.seats[i].hand
  {
    var p := t.seats[i];
    match d.action
    case Fold => FoldSeat(t, i)
    case Check => if t.currentBet > p.currentBet then FoldSeat(t, i) else t
    case Call => CallBet(t, i)
    case Raise =>
      if p.currentBet + d.amount <= t.currentBet then CallBet(t, i)
      else
        var bet := SeatBet(p, d.amount);
        t.(seats := t.seats[i := bet.0], pot := t.pot + bet.1,
           currentBet := p.currentBet + d.amount, minRaise := d.amount)
    case AllIn =>
      var bet := SeatBet(p, p.chips);
      var total := bet.0.currentBet;
      if total > t.currentBet then
        // `min_raise = total_bet - self.current_bet` reads the bet just set
        t.(seats := t.seats[i := bet.0], pot := t.pot + p.chips,
           currentBet := total, minRaise := total - total)
      else
        t.(seats := t.seats[i := bet.0], pot := t.pot + p.chips)
  }

  /** FOLD folds the seat; CHECK folds it when it faces a bet and is otherwise
      a no-op; neither moves a chip nor touches the betting fields. */
  lemma FoldAndCheck(t: Table, i: nat, d: Decision)
    requires i < |t.seats|
    ensures var r := Execute(t, i, d);
      (d.action == Fold || (d.action == Check && t.currentBet > t.seats[i].currentBet)) ==>
        r == t.(seats := t.seats[i := t.seats[i].(folded := true)])
    ensures d.action == Check && t.currentBet <= t.seats[i].currentBet ==> Execute(t, i, d) == t
  {
  }

  /** A CALL pays the difference to the table bet, capped by the stack, and
      changes neither the table bet nor the minimum raise. */
  lemma CallPaysDifference(t: Table, i: nat, amount: int)
    requires i < |t.seats| && t.seats[i].chips >= 0 && t.seats[i].currentBet <= t.currentBet
    ensures var r := Execute(t, i, Decision(Call, amount)); var p := t.seats[i];
      var owed := t.currentBet - p.currentBet;
      && r.pot - t.pot == (if owed <= p.chips then owed else p.chips)
      && r.seats[i].currentBet == (if owed <= p.chips then t.currentBet else p.currentBet + p.chips)
      && (owed >= p.chips ==> r.seats[i].allIn)
      && r.currentBet == t.currentBet && r.minRaise == t.minRaise
  {
  }

  /** A raise that does not lift the seat's wager above the table bet is
      executed exactly as a call. */
  lemma RaiseNotAboveIsCall(t: Table, i: nat, amount: int, other: int)
    requires i < |t.seats|
    requires t.seats[i].currentBet + amount <= t.currentBet
    ensures Execute(t, i, Decision(Raise, amount)) == Execute(t, i, Decision(Call, other))
  {
  }

  /** A valid raise sets the table bet to wager + amount and the minimum raise
      to amount, although the seat's own wager only grows by what its stack
      covers and can stay below the new table bet. */
  lemma ValidRaise(t: Table, i: nat, amount: int)
    requires i < |t.seats|
    requires t.seats[i].currentBet + amount > t.currentBet
    ensures var r := Execute(t, i, Decision(Raise, amount));
      && r.currentBet == t.seats[i].currentBet + amount
      && r.minRaise == amount
      && r.seats[i].currentBet == t.seats[i].currentBet + (if amount <= t.seats[i].chips then amount else t.seats[i].chips)
      && (t.seats[i].chips < amount ==> r.seats[i].currentBet < r.currentBet)
  {
  }

  /** An all-in pays the whole stack; when it lifts the wager above the table
      bet, the table bet follows it and the minimum raise becomes 0. */
  lemma AllInRaise(t: Table, i: nat, amount: int)
    requires i < |t.seats|
    ensures var r := Execute(t, i, Decision(AllIn, amount));
      && r.pot == t.pot + t.seats[i].chips
      && r.seats[i].chips == 0 && r.seats[i].allIn
      && (t.seats[i].currentBet + t.seats[i].chips > t.currentBet ==>
            r.currentBet == t.seats[i].currentBet + t.seats[i].chips && r.minRaise == 0)
      && (t.seats[i].currentBet + t.seats[i].chips <= t.currentBet ==>
            r.currentBet == t.currentBet && r.minRaise == t.minRaise)
  {
  }

  /** Every action moves chips only between the acting seat and the pot. */
  lemma ExecuteConservesChips(t: Table, i: nat, d: Decision)
    requires i < |t.seats|
    ensures var r := Execute(t, i, d); r.pot + ChipTotal(r.seats) == t.pot + ChipTotal(t.seats)
  {
    var r := Execute(t, i, d);
    ChipTotalUpdate(t.seats, i, r.seats[i]);
    assert r.seats == t.seats[i := r.seats[i]];
  }

  /** What the table keeps while a round is played: no stack is negative and
      no seat still in the hand has wagered more than the table bet. */
  predicate Sound(t: Table) {
    && (forall j :: 0 <= j < |t.seats| ==> t.seats[j].chips >= 0)
    && (forall j :: 0 <= j < |t.seats| && !t.seats[j].folded ==> t.seats[j].currentBet <= t.currentBet)
  }

  /** From a sound table an action of a seat still in the hand keeps it
      sound and never shrinks the pot: the amount a seat pays is never
      negative. */
  lemma ExecuteKeepsSound(t: Table, i: nat, d: Decision)
    requires i < |t.seats| && Sound(t) && !t.seats[i].folded
    ensures Sound(Execute(t, i, d)) && Execute(t, i, d).pot >= t.pot
  {
    var r := Execute(t, i, d);
    forall j | 0 <= j < |r.seats| && !r.seats[j].folded
      ensures r.seats[j].currentBet <= r.currentBet
    {
      if j != i {
        assert r.seats[j] == t.seats[j];
      }
    }
  }

  // ---------------------------------------------------------------------
  // The betting round

  /** A seat's decision: for the number of turns already taken in the round,
      the seat's position, the seat and the `game_state` view, the action and
      amount it plays. It stands for `make_decision` of the seat (a strategy,
      a prompt, a random source), which the engine cannot see into. */
  type Decider = (nat, nat, Seat, View) -> Decision

  /** The `game_state` dictionary built for a deciding seat. */
  function ViewOf(t: Table): View {
    View(t.community, t.currentBet, t.minRaise, t.pot)
  }

  /** The variables of the `_betting_round` loop: the table, `current_pos`,
      `actions_taken` and `last_raiser`. */
  datatype Cursor = Cursor(table: Table, pos: nat, taken: nat, lastRaiser: Option<nat>)

  /** The loop condition: fewer turns than seats, or a last raiser that the
      cursor has not come back to. */
  predicate Continues(c: Cursor) {
    c.taken < |c.table.seats| || (c.lastRaiser.Some? && c.pos != c.lastRaiser.value)
  }

  /** One pass of the loop body: a seat neither folded nor all-in decides and
      its action is executed, a RAISE or ALL_IN making it the last raiser;
      then the cursor moves to the next seat, skipped seats included. */
  function Turn(c: Cursor, decide: Decider): (r: Cursor)
    requires c.pos < |c.table.seats|
    ensures |r.table.seats| == |c.table.seats| && r.pos < |r.table.seats|
    ensures r.pos == (c.pos + 1) % |c.table.seats| && r.taken == c.taken + 1
  {
    var n := |c.table.seats|;
    var p := c.table.seats[c.pos];
    if !p.folded && !p.allIn then
      var d := decide(c.taken, c.pos, p, ViewOf(c.table));
      Cursor(Execute(c.table, c.pos, d), (c.pos + 1) % n, c.taken + 1,
             if d.action == Raise || d.action == AllIn then Some(c.pos) else c.lastRaiser)
    else
      Cursor(c.table, (c.pos + 1) % n, c.taken + 1, c.lastRaiser)
  }

  /** The `while` loop of `_betting_round`, given at most `fuel` passes: the
      source's loop runs until raises stop, which need not happen (two
      seats that keep raising), so a run out of fuel gives None. */
  function RoundLoop(c: Cursor, decide: Decider, fuel: nat): Option<Cursor>
    requires c.pos < |c.table.seats|
    decreases fuel
  {
    if !Continues(c) then Some(c)
    else if fuel == 0 then None
    else RoundLoop(Turn(c, decide), decide, fuel - 1)
  }

  /** The seat where every street's action starts: three after the dealer. */
  function StartPosition(t: Table): (pos: nat)
    requires |t.seats| > 0
    ensures pos < |t.seats|
  {
    (t.dealer + 3) % |t.seats|
  }

  /** The reset at the head of `_betting_round`: every seat still in the hand
      has its wager set to 0. The table bet is left as it is. */
  function ClearWagers(seats: seq<Seat>): (r: seq<Seat>)
    ensures |r| == |seats|
    ensures forall j :: 0 <= j < |seats| ==>
      r[j] == if seats[j].folded then seats[j] else seats[j].(currentBet := 0)
  {
    seq(|seats|, j requires 0 <= j < |seats| =>
      if seats[j].folded then seats[j] else seats[j].(currentBet := 0))
  }

  /** `_betting_round`: clear the wagers, run the loop from the start seat,
      then reset the table bet to 0 and the minimum raise to the big blind.
      None when the loop runs out of fuel. */
  function BettingRound(t: Table, bigBlind: int, decide: Decider, fuel: nat): Option<Table>
    requires |t.seats| > 0
  {
    var start := Cursor(t.(seats := ClearWagers(t.seats)), StartPosition(t), 0, None);
    match RoundLoop(start, decide, fuel)
    case None => None
    case Some(e) => Some(e.table.(currentBet := 0, minRaise := bigBlind))
  }

  /** What one pass of the loop keeps: only the betting fields change, chips
      move only between the seats and the pot, and a sound table stays sound. */
  lemma TurnKeeps(c: Cursor, decide: Decider)
    requires c.pos < |c.table.seats|
    ensures var r := Turn(c, decide).table;
      && r == c.table.(seats := r.seats, pot := r.pot, currentBet := r.currentBet, minRaise := r.minRaise)
      && r.pot + ChipTotal(r.seats) == c.table.pot + ChipTotal(c.table.seats)
      && (Sound(c.table) ==> Sound(r) && r.pot >= c.table.pot)
      && forall j :: 0 <= j < |r.seats| ==>
           r.seats[j].name == c.table.seats[j].name && r.seats[j].hand == c.table.seats[j].hand
  {
    var p := c.table.seats[c.pos];
    if !p.folded && !p.allIn {
      var d := decide(c.taken, c.pos, p, ViewOf(c.table));
      ExecuteConservesChips(c.table, c.pos, d);
      if Sound(c.table) {
        ExecuteKeepsSound(c.table, c.pos, d);
      }
    }
  }

  /** A finished loop has taken at least one turn per seat and stopped with
      no raise in the round or with the cursor back at the last raiser, the
      cursor having moved one seat per turn from where it started. */
  lemma {:induction false} RoundLoopEnds(c: Cursor, decide: Decider, fuel: nat, start: nat)
    requires c.pos < |c.table.seats|
    requires c.pos == (start + c.taken) % |c.table.seats|
    ensures var n := |c.table.seats|; var r := RoundLoop(c, decide, fuel);
      r.Some? ==>
        var e := r.value;
        && |e.table.seats| == n && e.pos < n
        && !Continues(e)
        && e.taken >= n
        && (e.lastRaiser.None? || e.pos == e.lastRaiser.value)
        && e.taken >= c.taken
        && e.pos == (start + e.taken) % n
        && (c.lastRaiser.Some? ==> e.lastRaiser.Some?)
    decreases fuel
  {
    if Continues(c) && fuel > 0 {
      var n := |c.table.seats|;
      ModStep(start + c.taken, n);
      RoundLoopEnds(Turn(c, decide), decide, fuel - 1, start);
    }
  }

  /** Over a finished loop chips only moved between the seats and the pot,
      the pot never shrank from a sound table, and nothing but the betting
      fields changed. */
  lemma {:induction false} RoundLoopKeeps(c: Cursor, decide: Decider, fuel: nat)
    requires c.pos < |c.table.seats|
    ensures var n := |c.table.seats|; var r := RoundLoop(c, decide, fuel);
      r.Some? ==>
        var e := r.value.table;
        && |e.seats| == n
        && e == c.table.(seats := e.seats, pot := e.pot, currentBet := e.currentBet, minRaise := e.minRaise)
        && e.pot + ChipTotal(e.seats) == c.table.pot + ChipTotal(c.table.seats)
        && (Sound(c.table) ==> Sound(e) && e.pot >= c.table.pot)
        && forall j :: 0 <= j < n ==>
             && e.seats[j].name == c.table.seats[j].name && e.seats[j].hand == c.table.seats[j].hand
             && (c.table.seats[j].folded ==> e.seats[j].folded)
    decreases fuel
  {
    if Continues(c) && fuel > 0 {
      TurnKeeps(c, decide);
      RoundLoopKeeps(Turn(c, decide), decide, fuel - 1);
    }
  }

  /** Moving the cursor one seat on from x % n lands on (x + 1) % n. */
  lemma ModStep(x: nat, n: nat)
    requires n > 0
    ensures (x % n + 1) % n == (x + 1) % n
  {
    var q, r := x / n, x % n;
    assert x == q * n + r;
    if r + 1 < n {
      DivModUnique(x + 1, n, q, r + 1);
      DivModUnique(r + 1, n, 0, r + 1);
    } else {
      assert x + 1 == (q + 1) * n + 0;
      DivModUnique(x + 1, n, q + 1, 0);
      DivModUnique(r + 1, n, 1, 0);
    }
  }

  /** The remainder of x by n is the r of any x == q * n + r with 0 <= r < n. */
  lemma DivModUnique(x: int, n: int, q: int, r: int)
    requires n > 0 && 0 <= r < n && x == q * n + r
    ensures x % n == r
  {
    var q0, r0 := x / n, x % n;
    assert x == q0 * n + r0;
    if q0 > q {
      MulAtLeast(q0 - q, n);
    } else if q0 < q {
      MulAtLeast(q - q0, n);
    }
  }

  lemma {:induction false} MulAtLeast(k: int, n: int)
    requires k >= 1 && n > 0
    ensures k * n >= n
    decreases k
  {
    if k > 1 {
      MulAtLeast(k - 1, n);
      assert k * n == (k - 1) * n + n;
    }
  }

  /** A decider that never raises nor goes all-in. */
  ghost predicate NeverRaises(decide: Decider) {
    forall k, j, s, v :: decide(k, j, s, v).action != Raise && decide(k, j, s, v).action != AllIn
  }

  /** With no raise in the round the loop stops after exactly one turn per
      seat, given that much fuel. */
  lemma {:induction false} NoRaiseOnePass(c: Cursor, decide: Decider, fuel: nat)
    requires c.pos < |c.table.seats|
    requires NeverRaises(decide) && c.lastRaiser.None?
    requires c.taken <= |c.table.seats| && fuel >= |c.table.seats| - c.taken
    ensures RoundLoop(c, decide, fuel).Some?
    ensures RoundLoop(c, decide, fuel).value.taken == |c.table.seats|
    ensures RoundLoop(c, decide, fuel).value.lastRaiser.None?
    decreases fuel
  {
    if c.taken < |c.table.seats| {
      var c1 := Turn(c, decide);
      var p := c.table.seats[c.pos];
      if !p.folded && !p.allIn {
        var d := decide(c.taken, c.pos, p, ViewOf(c.table));
        assert d.action != Raise && d.action != AllIn;
      }
      NoRaiseOnePass(c1, decide, fuel - 1);
    }
  }

  /** A street with no raise is one full pass over the table from the seat
      three after the dealer, back to it. */
  lemma NoRaiseRoundCompletes(t: Table, bigBlind: int, decide: Decider, fuel: nat)
    requires |t.seats| > 0 && NeverRaises(decide) && fuel >= |t.seats|
    ensures BettingRound(t, bigBlind, decide, fuel).Some?
  {
    var start := Cursor(t.(seats := ClearWagers(t.seats)), StartPosition(t), 0, None);
    NoRaiseOnePass(start, decide, fuel);
  }

  /** After a finished round the table bet is 0 and the minimum raise is the
      big blind; chips moved only between the seats and the pot, names and
      hole cards, community cards, deck, dealer and history are untouched. */
  lemma BettingRoundResult(t: Table, bigBlind: int, decide: Decider, fuel: nat)
    requires |t.seats| > 0
    ensures var r := BettingRound(t, bigBlind, decide, fuel); r.Some? ==>
      && r.value.currentBet == 0 && r.value.minRaise == bigBlind
      && |r.value.seats| == |t.seats|
      && r.value.community == t.community && r.value.deck == t.deck
      && r.value.dealer == t.dealer && r.value.history == t.history
      && r.value.pot + ChipTotal(r.value.seats) == t.pot + ChipTotal(t.seats)
      && (forall j :: 0 <= j < |t.seats| ==>
            r.value.seats[j].name == t.seats[j].name && r.value.seats[j].hand == t.seats[j].hand
            && (t.seats[j].folded ==> r.value.seats[j].folded))
  {
    var cleared := ClearWagers(t.seats);
    var start := Cursor(t.(seats := cleared), StartPosition(t), 0, None);
    RoundLoopKeeps(start, decide, fuel);
    ChipTotalSameStacks(cleared, t.seats);
  }

  /** A finished round keeps the seat count and the deck. */
  lemma BettingRoundKeepsDeck(t: Table, bigBlind: int, decide: Decider, fuel: nat)
    requires |t.seats| > 0
    ensures var r := BettingRound(t, bigBlind, decide, fuel);
      r.Some? ==> |r.value.seats| == |t.seats| && r.value.deck == t.deck
  {
    BettingRoundResult(t, bigBlind, decide, fuel);
  }
}
