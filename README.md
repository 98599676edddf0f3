# Texas Hold'em engine — a Dafny model

This project models the core of a Python Texas Hold'em engine and proves properties of the model.

- **Hand evaluator** (`handEvaluator.py`): scores five to seven cards as a (category, kickers) pair through the priority chain straight flush → four of a kind → full house → flush → straight → three of a kind → two pair → one pair → high card, and compares two such pairs.
- **Betting engine** (`texasHoldem.py`, `player.py`): one hand from the fresh shuffled deck to the hand-history record. That is the hole-card deal, the blinds, four streets of betting with the cursor / last-raiser loop, the showdown, the even pot split with a remainder, and the dealer button.
- **Fixed-heuristic strategies** (`strategy.py`): the two-card strength scalar and the basic, aggressive and conservative decision rules.
- **Deterministic parts of the GTO policy** (`gtoStrategy.py`): the street classifier, the draw-potential classifier, the hand-range table, the clamp that ends every bet-sizing helper, and the action shape of the pre-flop and post-flop branches.
- **Value types** (`deck.py`, `card.py`): the 52-card deck dealt from the end of its list, card equality, hash and printing.

Where the code works by changing state, the model is imperative Dafny:

- `TexasHoldem.Game` is a class whose fields are the engine's.
- `Players.Player` and `Decks.Deck` are classes whose methods update their fields.
- `_betting_round`, `_deal_hole_cards`, `_distribute_pot`, the shuffle, the counting loops of `evaluate_hand`, `_calculate_draw_potential` and `_initialize_hand_ranges` are `while` or `for` loops with invariants.

Every state-changing method is proved to leave exactly the state that a value-level function computes from the old state. Those functions live in `HoldemRules` (one action, one betting round) and `HoldemHand` (a whole hand). The lemmas about them carry the properties: chips conserved, the winners are the best hands, and the pot split adds up.

Behaviour that looks unintended is modelled as written:

- The straight-flush test reuses the overall highest straight. With the Ace stored as 14, the window of a wheel is 1..5, so a suited A-2-3-4-5 scores as a flush (`SuitedWheelIsNotStraightFlush`).
- A second three of a kind is not the pair of a full house (`SecondTripsIsNoPair`).
- The trips rank is the last rank held three times in dictionary order, because that loop has no `break`. The quad rank and the flush suit are the first ones found.
- Every street starts three seats after the dealer. The per-round wager reset also wipes the blind wagers before the pre-flop round (`BlindWagersWiped`).
- A valid raise sets the table bet to wager + amount, even when the stack covered less (`ValidRaise`). An all-in that raises leaves the minimum raise at 0 (`AllInRaise`).
- When every seat has folded there is no winner and the pot stays. The next hand starts from an empty pot, so those chips leave the table (`OpenHandChips`, `HandKept`).
- In double-precision arithmetic 0.2 + 10/100 is above 0.3. So the basic strategy calls with an offsuit nine-ten facing a bet, where exact arithmetic would fold (`BasicCallsNineTenOffsuit`).

Nondeterminism and foreign code become parameters:

- The shuffle takes a random source `rand: nat -> nat` that stands for `random.randrange`. The Fisher-Yates pass is the one `random.shuffle` performs.
- `TexasHoldem.Game.StartHand` receives the freshly shuffled `Deck`.
- A seat's `make_decision` is a `Decider` function of the turn count, the seat position, the seat and the `game_state` view.
- Each betting loop is given `fuel` passes, because the loop ends only when the raises stop.
- In the GTO branches the decision score, the hand playability, the mixing draw and the amounts drawn by the sizing helpers are inputs.

## Model

| member | source | states |
|---|---|---|
| Cards.SameCard | card.py:26-28 | true exactly when the two cards agree in rank and suit |
| Cards.Hash | card.py:30-32 | a value in 0..51 determined by rank and suit alone |
| Cards.HashMatchesEquality | card.py:26-32 | equal cards have equal hashes; here different cards also hash differently |
| Cards.Show | card.py:19-25 | the printed form ends with the suit symbol; for rank values up to 10 it starts with decimal digits whose value is the rank; above 10 it is two characters, the first letter of the rank name then the symbol |
| Cards.ShowInjective | card.py:19-25 | two different cards never print the same |
| Decks.FullDeck | deck.py:13 | 52 cards, ranks from Two up, suits in declaration order within a rank: card i is the one whose hash is i |
| Decks.FullDeckExactlyOnce | deck.py:13 | every (rank, suit) card occurs in the fresh deck exactly once, and no card twice |
| Decks.FisherYatesPermutes | deck.py:16-18 | the shuffle only permutes: the multiset of cards is unchanged, for every random source |
| Decks.DealtCardsDistinct | deck.py:20-31 | under the deck invariant, the cards dealt so far are pairwise distinct, none of them is still in the deck, and dealt plus remaining make 52 |
| Decks.DeckLength | deck.py:29-31 | under the deck invariant, remaining plus dealt cards number 52 |
| Decks.Deck.constructor | deck.py:11-14 | the cards are the full deck after the shuffle, nothing is dealt yet, and the invariant holds |
| Decks.Deck.Shuffle | deck.py:16-18 | the cards become the Fisher-Yates permutation of the old ones; the multiset and the dealt cards are unchanged and the invariant is kept |
| Decks.Deck.Deal | deck.py:20-27 | on a non-empty deck returns the last card, removes it and records it as dealt; on an empty deck returns None and the deck stays empty; the invariant is kept |
| Decks.Deck.Length | deck.py:29-31 | the number of undealt cards, 52 minus the cards dealt |
| Players.SeatReset | player.py:27-32 | the hand is empty, the wager 0, neither folded nor all-in; name and chips unchanged |
| Players.SeatBet | player.py:34-52 | pays min(amount, chips) and returns it; the stack drops and the wager grows by exactly that; the stack stays non-negative; all-in exactly when it was already or the stack reached 0; nothing else changes |
| Players.SeatReceive | player.py:54-61 | the given cards are appended in order after the old hand; nothing else changes |
| Players.BetThatEmptiesDeactivates | player.py:44-70 | a bet that empties the stack leaves the player inactive, a bet never reactivates an inactive player, and a reset player is active |
| Players.Player.constructor | player.py:9-25 | the new player has the name and chips given (1000 by default), an empty hand, no wager, and is neither folded nor all-in |
| Players.Player.ResetHand | player.py:27-32 | the player's fields become SeatReset of the old ones |
| Players.Player.Bet | player.py:34-52 | the fields and the returned payment are SeatBet of the old fields and the amount |
| Players.Player.ReceiveCards | player.py:54-61 | the fields become SeatReceive of the old ones: the cards appended to the hand |
| Players.Player.IsActive | player.py:63-70 | true exactly when the player is neither folded nor all-in |
| Util.Dedup | handEvaluator.py:27-32 | the key order of a dictionary filled along a list: each element once, nothing else, at most as many as the list |
| Util.TallyStep | handEvaluator.py:30-32 | one pass of `d[x] = d.get(x, 0) + 1` keeps the keys in first-occurrence order with each count equal to the occurrences seen |
| Util.TallyCounts | handEvaluator.py:30-32 | after the counting loop every key maps to its number of occurrences |
| Util.FirstWith | handEvaluator.py:36-39 | a loop that stops at its first hit: the result is an element satisfying the test |
| Util.FirstWithIsFirst | handEvaluator.py:36-39 | the result is the element at the first position that passes the test, and None exactly when no element passes |
| Util.LastWith | handEvaluator.py:87-89 | a loop without `break` keeps overwriting: the result is an element satisfying the test |
| Util.LastWithIsLast | handEvaluator.py:87-89 | the result is the element at the last position that passes, and None exactly when none passes |
| Util.Filter | handEvaluator.py:80 | a list comprehension with a condition: each element that passes occurs as often as in the list, no other element occurs |
| Util.FilterSnoc | handEvaluator.py:80 | the kept elements stay in list order: one more element at the end lands at the end of the result exactly when it passes |
| Util.SortDesc | handEvaluator.py:81 | `sort(reverse=True)`: non-increasing, same multiset, same length |
| Util.SortDescHeadIsMax | handEvaluator.py:93-96 | the first element after the sort is a member and the maximum |
| Util.Take | handEvaluator.py:82 | the slice `[:k]`: min(k, length) elements, the leading ones |
| Util.TakeSortDescIsTop | handEvaluator.py:128-129 | the first k after a descending sort are the k largest, with multiplicity, in order |
| Util.Min | player.py:44 | `min` of two integers: one of them, not above either |
| Util.Max | strategy.py:54 | `max` of two integers: one of them, not below either |
| Util.Truncate | strategy.py:85 | `int(pot * share)` for an exact quotient: truncation toward zero, bounded on both sides for either sign |
| HandEvaluator.EvaluateHand | handEvaluator.py:11-129 | the loops of `evaluate_hand` compute exactly the function Evaluate, about which the lemmas below are proved |
| HandEvaluator.CountCards | handEvaluator.py:27-32 | the rank and suit dictionaries: keys in first-occurrence order, each count the number of cards with that key |
| HandEvaluator.FindFlushSuit | handEvaluator.py:35-39 | the first suit key, in dictionary order, counted five or more times |
| HandEvaluator.FindStraight | handEvaluator.py:45-60 | the first run found by the loop over the descending distinct ranks, otherwise 5 when A-2-3-4-5 are all present, otherwise None |
| HandEvaluator.FindQuad | handEvaluator.py:73-77 | the first rank key counted exactly four times |
| HandEvaluator.TripsAndPairs | handEvaluator.py:85-93 | the last rank key counted three times (no `break`), and the keys counted exactly twice sorted descending |
| HandEvaluator.ScoreCategory | handEvaluator.py:63-129 | the category lies in 0..9, and each category is given exactly under the conditions of its branch in the priority chain |
| HandEvaluator.RunAtIndex | handEvaluator.py:57-59 | in a strictly decreasing list the test `s[k] - s[k+4] == 4` holds exactly when s[k] tops five consecutive values that all occur |
| HandEvaluator.ScanFindsHighest | handEvaluator.py:57-60 | the loop's hit tops a run of five, and no position from the scan start on tops a higher run |
| HandEvaluator.StraightHighIsHighestRun | handEvaluator.py:45-60 | `straight_high` is the top of the highest run of five consecutive rank values; with no run it is 5 for the wheel and None otherwise |
| HandEvaluator.StraightFlushCategory | handEvaluator.py:63-70 | category 8 or 9 exactly when five or more cards and the straight-flush test passes; 9 exactly when, in addition, the straight tops at the Ace |
| HandEvaluator.SuitedWheelIsNotStraightFlush | handEvaluator.py:63-70 | for distinct cards whose best straight is the wheel, the straight-flush test fails and the category is below 8 |
| HandEvaluator.WheelWindowHoldsFour | handEvaluator.py:64-66 | among distinct cards at most four of one suit fall in the window up to 5 |
| HandEvaluator.QuadsShape | handEvaluator.py:73-82 | with a quad and no straight flush: (7, [quad rank, highest other rank]), the quad rank held four times |
| HandEvaluator.FullHouseShape | handEvaluator.py:85-96 | without a quad or straight flush, category 6 exactly when there are trips and a rank held exactly twice; then (6, [trips rank, highest pair rank]) |
| HandEvaluator.SecondTripsIsNoPair | handEvaluator.py:85-96 | with no rank held exactly twice there is no full house, however many ranks are held three times |
| HandEvaluator.FlushShape | handEvaluator.py:99-102 | category 5 carries the five highest ranks of the flush suit, in descending order |
| HandEvaluator.StraightShape | handEvaluator.py:105-106 | category 4 has no flush suit and carries only the straight top |
| HandEvaluator.TripsShape | handEvaluator.py:109-112 | category 3: the trips rank, then the two highest other distinct ranks; no flush and no straight |
| HandEvaluator.TwoPairShape | handEvaluator.py:115-119 | category 2: the two highest pair ranks, then the highest rank outside them |
| HandEvaluator.OnePairShape | handEvaluator.py:122-125 | category 1: the only pair rank, then the three highest other distinct ranks |
| HandEvaluator.HighCardShape | handEvaluator.py:128-129 | category 0: no kickers below five cards; otherwise the five highest rank values, with no pair, trips, quad, flush or straight |
| HandEvaluator.CompareKickers | handEvaluator.py:154-159 | the kicker loop returns only -1, 0 or 1 |
| HandEvaluator.KickersPrefix | handEvaluator.py:154-159 | 0 exactly when the lists agree on their common prefix; 1 or -1 exactly when the first difference favours the first or the second list |
| HandEvaluator.CompareHands | handEvaluator.py:132-159 | the result is -1, 0 or 1, and a tie needs equal categories; CompareHandsMeaning and the three order lemmas below state the full meaning: category first, then the kickers |
| HandEvaluator.CompareHandsMeaning | handEvaluator.py:145-159 | -1, 0 or 1; 0 exactly for equal categories and agreeing kicker prefixes; 1 exactly for a higher category or, with equal categories, the larger kicker at the first difference |
| HandEvaluator.CompareReflexive | handEvaluator.py:145-159 | every hand compares equal to itself |
| HandEvaluator.CompareAntisymmetric | handEvaluator.py:145-159 | swapping the hands negates the result |
| HandEvaluator.CompareTransitive | handEvaluator.py:145-159 | stronger-than is transitive, whatever the kicker-list lengths |
| HandEvaluator.KickersTransitive | handEvaluator.py:154-159 | the kicker comparison is transitive |
| HoldemRules.Execute | texasHoldem.py:173-222 | an action changes only the acting seat, the pot and the betting fields, and keeps that seat's name and hole cards |
| HoldemRules.FoldAndCheck | texasHoldem.py:175-186 | FOLD, or CHECK facing a bet, marks the seat folded and changes nothing else; any other CHECK changes nothing |
| HoldemRules.CallPaysDifference | texasHoldem.py:188-192 | CALL pays the difference to the table bet, capped by the stack, into the pot; a short stack goes all-in; table bet and minimum raise unchanged |
| HoldemRules.RaiseNotAboveIsCall | texasHoldem.py:194-201 | a raise that does not lift the wager above the table bet is executed exactly as a call |
| HoldemRules.ValidRaise | texasHoldem.py:202-209 | a valid raise sets the table bet to wager + amount and the minimum raise to amount, while the seat pays only what its stack covers and can stay below the new table bet |
| HoldemRules.AllInRaise | texasHoldem.py:211-222 | ALL_IN moves the whole stack into the pot and marks the seat all-in; above the table bet, the table bet follows the wager and the minimum raise becomes 0; otherwise both are unchanged |
| HoldemRules.ExecuteConservesChips | texasHoldem.py:173-222 | pot plus all stacks is the same before and after any action |
| HoldemRules.ExecuteKeepsSound | texasHoldem.py:173-222 | from a table with no negative stack and no live wager above the table bet, an action of a live seat keeps both and never shrinks the pot |
| HoldemRules.StartPosition | texasHoldem.py:127 | the first seat of every street, three after the dealer, is a seat of the table |
| HoldemRules.ClearWagers | texasHoldem.py:130-132 | every seat not folded has its wager set to 0; folded seats and every other field are unchanged |
| HoldemRules.Turn | texasHoldem.py:140-167 | one pass of the loop moves the cursor to the next seat (skipped seats included) and counts one action |
| HoldemRules.TurnKeeps | texasHoldem.py:140-167 | one pass changes only the betting fields, conserves pot plus stacks, keeps names and hole cards, never unfolds a seat, and keeps a sound table sound |
| HoldemRules.RoundLoopEnds | texasHoldem.py:135-167 | a finished loop took at least one action per seat and stopped with no raiser or with the cursor back at the last raiser, the cursor having moved one seat per action |
| HoldemRules.RoundLoopKeeps | texasHoldem.py:135-167 | over a finished loop pot plus stacks is conserved, only the betting fields changed, names and hole cards kept, folded seats stay folded, and a sound table stays sound with a pot that never shrank |
| HoldemRules.NoRaiseOnePass | texasHoldem.py:139-167 | when nobody raises, the loop ends after exactly one action per seat, given that much fuel |
| HoldemRules.NoRaiseRoundCompletes | texasHoldem.py:125-171 | a street with no raise finishes within fuel equal to the number of seats |
| HoldemRules.BettingRoundResult | texasHoldem.py:125-171 | after a finished round the table bet is 0 and the minimum raise the big blind; pot plus stacks conserved; board, deck, dealer and history untouched; names and hole cards kept; folded seats stay folded |
| HoldemRules.BettingRoundKeepsDeck | texasHoldem.py:125-171 | a finished round keeps the seat count and the deck |
| HoldemHand.DealCommunity | texasHoldem.py:117-121 | the board grows by `count` cards, the last card of the deck first; the deck loses exactly them; nothing else changes |
| HoldemHand.DealCommunityDrawn | texasHoldem.py:117-121 | dealing `count` community cards appends the cards drawn from the end of the deck |
| HoldemHand.DealPass | texasHoldem.py:69-71 | one pass over the seats changes only the seats and the deck, and takes at most one card per seat |
| HoldemHand.DealHoleCards | texasHoldem.py:66-71 | the two passes change only the seats and the deck, and take at most two cards per seat |
| HoldemHand.DealPassSeat | texasHoldem.py:69-71 | a pass changes nothing of a seat but its hole cards |
| HoldemHand.DealPassDeckNoneFolded | texasHoldem.py:68-71 | with no seat folded, a pass of k seats takes exactly the last k cards |
| HoldemHand.DealPassNoneFolded | texasHoldem.py:68-71 | with no seat folded, seat j receives the card j places from the end of the deck |
| HoldemHand.HoleCardsOrder | texasHoldem.py:66-71 | at a new hand, seat j receives the card j places from the end, then the card n + j places from the end |
| HoldemHand.DealHoleCardsKeeps | texasHoldem.py:66-71 | dealing at a new hand keeps stacks, names and fold flags, and gives seat j exactly the two cards `[d[51-j], d[51-n-j]]` |
| HoldemHand.DealHoleCardsSeat | texasHoldem.py:66-71 | seat j of a new hand changes only its hand, to `[d[51-j], d[51-n-j]]` |
| HoldemHand.PostBlinds | texasHoldem.py:73-89 | only the seats, the pot and the table bet change; the seat count is kept |
| HoldemHand.BlindsPosted | texasHoldem.py:73-89 | seats dealer+1 and dealer+2 (mod n, distinct when n >= 2) each pay min(blind, stack); the pot grows by the sum; the table bet equals the big blind actually paid; a short big blind is all-in; other seats unchanged; chips conserved |
| HoldemHand.PostBlindsConserves | texasHoldem.py:73-89 | posting blinds conserves pot plus stacks and keeps names, hole cards and fold flags |
| HoldemHand.BlindWagersWiped | texasHoldem.py:127-132 | after the blinds the reset puts the big-blind seat's wager back to 0 while the table bet stays min(big blind, its stack); a call from that seat then pays min(table bet, remaining stack) into the pot a second time |
| HoldemHand.ActivePlayersCount | texasHoldem.py:224-226 | the number of seats not folded is at most the seat count |
| HoldemHand.ActivePlayersAreNotFolded | texasHoldem.py:224-230 | the count is exactly the number of positions in `active_players`, the seats that have not folded |
| HoldemHand.ActiveCountSameFolds | texasHoldem.py:224-226 | the count depends only on the fold flags |
| HoldemHand.RunStreets | texasHoldem.py:94-115 | the four streets end with the seat count kept, or None when a round runs out of fuel |
| HoldemHand.RunStreetsKeeps | texasHoldem.py:94-115 | across the streets pot plus stacks, dealer, history, names and hole cards are kept, folded seats stay folded, the board grows from the deck, and it ends with five cards unless at most one seat is left |
| HoldemHand.ListGreaterOrder | texasHoldem.py:256 | Python's `>` on kicker lists is irreflexive, asymmetric, total on different lists and transitive |
| HoldemHand.NotBelowCompares | texasHoldem.py:256-260 | a kicker list not ranked below another by `>` is never beaten by it under the kicker comparison |
| HoldemHand.NotFolded | texasHoldem.py:230 | `active_players`: the positions of exactly the seats not folded, in increasing order |
| HoldemHand.ScoreHands | texasHoldem.py:240-244 | the loop yields `evaluate_hand(hand + community_cards)` of every live seat, in seat order |
| HoldemHand.ScoreNext | texasHoldem.py:241-244 | one pass of that loop appends the next live seat's score |
| HoldemHand.MaxCategory | texasHoldem.py:247 | a category held by some score and exceeded by none |
| HoldemHand.FindBestKickers | texasHoldem.py:252-257 | the `best_kickers` loop computes BestKickers |
| HoldemHand.BestKickersIsMax | texasHoldem.py:252-257 | the kept kicker list belongs to a score of the best category, and no score of that category has a list greater under `>` |
| HoldemHand.Chosen | texasHoldem.py:259-260 | the places whose score matches the category and kickers, in increasing order, and all of them |
| HoldemHand.BestPlaces | texasHoldem.py:247-260 | increasing places within the score list |
| HoldemHand.BestPlacesAreBest | texasHoldem.py:247-260 | a place is chosen exactly when its category is the highest and its kickers are the greatest list of that category |
| HoldemHand.BestPlacesBeatTheRest | texasHoldem.py:247-260 | every chosen score ties or beats every score under `compare_hands` |
| HoldemHand.Winners | texasHoldem.py:228-262 | the winners are live seats, listed in increasing seat order |
| HoldemHand.PickBest | texasHoldem.py:247-262 | the comparison part of `_determine_winner` picks the seats at the best places |
| HoldemHand.WinnersFewSeats | texasHoldem.py:232-237 | no live seat gives no winner; a single live seat wins alone |
| HoldemHand.WinnersAreBest | texasHoldem.py:238-262 | with two or more live seats, a live seat wins exactly when its category is the highest and its kickers are the greatest of that category |
| HoldemHand.WinnersBeatTheRest | texasHoldem.py:228-262 | every winner ties or beats every live seat under `compare_hands` |
| HoldemHand.PaidOutSum | texasHoldem.py:271-276 | the first j of k winners receive j * (pot / k) plus min(j, pot % k) in total |
| HoldemHand.PayoutsMakeThePot | texasHoldem.py:271-276 | the k payouts add up to the pot exactly |
| HoldemHand.PayWinnersTotal | texasHoldem.py:274-276 | paying the first j winners adds their payouts to the chip total and changes nothing of a seat but its stack |
| HoldemHand.PayWinnersEach | texasHoldem.py:274-276 | with distinct winners, the winner in place p gains pot / k, plus one when p < pot % k; other seats are unchanged |
| HoldemHand.DistributePotSplits | texasHoldem.py:264-279 | no winners change nothing (the pot stays); otherwise the first pot % k winners gain pot / k + 1 and the rest pot / k, losers are unchanged, the pot becomes 0 and the stacks gain exactly the old pot |
| HoldemHand.RecordHandHistory | texasHoldem.py:281-288 | exactly one record is appended, holding the board, each winner's name and hole cards, and the pot as it stands |
| HoldemHand.ResetAll | texasHoldem.py:44-45 | every seat is `reset_hand` of the old one |
| HoldemHand.OpenHand | texasHoldem.py:37-51 | the opening of a hand leaves an empty board, at least 52 - 2n cards in the deck, and dealer and history unchanged |
| HoldemHand.OpenHandChips | texasHoldem.py:37-51 | after the opening, pot plus stacks equals the stacks before: the blinds moved into a pot that started empty |
| HoldemHand.OpenHandSeats | texasHoldem.py:37-51 | after the opening every seat keeps its name, is back in the hand and holds two cards |
| HoldemHand.SettleKeeps | texasHoldem.py:57-64 | the pot goes to the distinct winners, or stays when there are none and then the record names no winner; one record holding the board is appended; the button moves one seat on; names, cards and fold flags kept |
| HoldemHand.CloseHandKeeps | texasHoldem.py:57-64 | the showdown and settling conserve pot plus stacks, move the button one seat on, append one record, and keep names and fold flags |
| HoldemHand.OpenAndPlayKeeps | texasHoldem.py:37-54 | after the opening and the streets, pot plus stacks equals the stacks before, history and names are kept, and the board is complete unless at most one seat is left |
| HoldemHand.PlayedThenClosed | texasHoldem.py:57-64 | closing a hand whose streets kept the chips keeps everything HandKept states |
| HoldemHand.StartHandKeepsChips | texasHoldem.py:34-64 | a whole hand: stacks plus leftover pot equal the stacks before; chips stay in the pot only when nobody won; one record appended; names kept; full board unless at most one seat was left |
| TexasHoldem.Game.constructor | texasHoldem.py:12-32 | blinds as given (10 and 20 by default), empty pot and board, table bet 0, minimum raise the big blind, dealer 0, no history, and the full deck shuffled by the random source |
| TexasHoldem.Game.FoldPlayer | texasHoldem.py:175-186 | the table becomes FoldSeat of the old one |
| TexasHoldem.Game.CallPlayer | texasHoldem.py:188-201 | the table becomes CallBet of the old one; the deck object is kept |
| TexasHoldem.Game.ExecuteAction | texasHoldem.py:173-222 | the table becomes Execute of the old table, the seat and the decision |
| TexasHoldem.Game.ResetPlayers | texasHoldem.py:44-45 | the seats become ResetAll of the old seats |
| TexasHoldem.Game.DealHoleCards | texasHoldem.py:66-71 | the table becomes the DealHoleCards function of the old one |
| TexasHoldem.Game.DealOneEach | texasHoldem.py:69-71 | the table becomes one DealPass over all seats |
| TexasHoldem.Game.DealStep | texasHoldem.py:69-71 | one more seat of the pass is dealt: the pass invariant advances by one |
| TexasHoldem.Game.DealTo | texasHoldem.py:71 | seat i receives the last card of the deck, which loses it; other seats unchanged |
| TexasHoldem.Game.PostBlinds | texasHoldem.py:73-89 | the table becomes the PostBlinds function of the old one |
| TexasHoldem.Game.PostBlind | texasHoldem.py:77-89 | seat i bets the blind; the pot grows by the payment, which becomes the table bet |
| TexasHoldem.Game.DealCommunityCards | texasHoldem.py:117-121 | the table becomes DealCommunity of the old one |
| TexasHoldem.Game.DrawOnto | texasHoldem.py:119-121 | the loop appends the last `count` deck cards, last first, and removes them from the deck |
| TexasHoldem.Game.ResetWagers | texasHoldem.py:130-132 | the seats become ClearWagers of the old ones |
| TexasHoldem.Game.BettingRound | texasHoldem.py:125-171 | reports whether the round finished within its fuel, exactly as the BettingRound function does, and then leaves its result |
| TexasHoldem.Game.BettingLoop | texasHoldem.py:135-167 | the `while` loop ends as RoundLoop from the start seat does, and reports whether it finished within its fuel |
| TexasHoldem.Game.TakeTurn | texasHoldem.py:140-167 | one pass moves the engine and the loop variables exactly as Turn does |
| TexasHoldem.Game.RunBettingRounds | texasHoldem.py:94-115 | the streets end as RunStreets does from the old state, and the method reports whether every round finished |
| TexasHoldem.Game.PlayStreet | texasHoldem.py:103-115 | one street: the remaining streets from the old state equal those from the new state, or the round ran out of fuel |
| TexasHoldem.Game.DetermineWinner | texasHoldem.py:228-262 | returns the Winners of the current table |
| TexasHoldem.Game.DistributePot | texasHoldem.py:264-279 | the table becomes DistributePot of the old one |
| TexasHoldem.Game.PayWinnersOut | texasHoldem.py:271-276 | the payout loop leaves the seats as PayWinners over all winners |
| TexasHoldem.Game.Credit | texasHoldem.py:276 | only seat i's stack grows, by the amount |
| TexasHoldem.Game.RecordHandHistory | texasHoldem.py:281-288 | the table becomes RecordHandHistory of the old one |
| TexasHoldem.Game.StartHand | texasHoldem.py:34-64 | a whole hand leaves the StartHand function's result and reports whether every betting loop finished |
| TexasHoldem.Game.OpenTable | texasHoldem.py:37-51 | the new deck, the reset, the hole cards and the blinds leave OpenHand of the old table |
| TexasHoldem.Game.PlayHand | texasHoldem.py:54-64 | the streets, then the showdown, pot and history, leave CloseHand of RunStreets' result |
| TexasHoldem.Game.NewHand | texasHoldem.py:37-45 | the table becomes NewHand of the old one, with the given deck object |
| TexasHoldem.Game.CloseHand | texasHoldem.py:57-64 | the table becomes CloseHand of the old one |
| TexasHoldem.Game.Settle | texasHoldem.py:58-64 | the table becomes Settle of the old one for the given winners |
| Strategy.HandStrength | strategy.py:24-56 | the strength lies in [0, 1], is 0 exactly with fewer than two cards, and its bonus is the higher rank value |
| Strategy.Decide | strategy.py:61-197 | facing a bet only RAISE, CALL or FOLD, otherwise only RAISE or CHECK; a raise is at least the minimum raise and within the stack unless the minimum raise exceeds it; a raise facing a bet needs a stack above call + minimum raise; CALL is exactly the difference and only when covered; FOLD and CHECK carry 0 |
| Strategy.StrengthSymmetric | strategy.py:35-56 | the order of the two hole cards does not change the strength |
| Strategy.PairBeatsUnpaired | strategy.py:42-56 | a pair is at least 0.82 and two unpaired cards at most 0.44 |
| Strategy.BasicRaiseAggressiveRaises | strategy.py:80-153 | whenever the basic strategy raises, the aggressive one raises too |
| Strategy.ConservativeBetBasicBets | strategy.py:96-197 | with nothing to call, whenever the conservative strategy bets, the basic one bets too |
| Strategy.BasicCallsNineTenOffsuit | strategy.py:84-90 | an offsuit nine-ten has strength 0.3 yet the basic strategy calls with it facing a covered bet it cannot raise |
| GtoStrategy.GameStage | gtoStrategy.py:133-142 | preflop exactly for 0 cards, flop for 3, turn for 4, river for every other count |
| GtoStrategy.SortedRanks | gtoStrategy.py:271 | the distinct rank values in strictly increasing order, all of them |
| GtoStrategy.DrawPotential | gtoStrategy.py:256-293 | 0.5 before the flop; always one of 0.3, 0.5, 0.7, 0.9 |
| GtoStrategy.CalculateDrawPotential | gtoStrategy.py:256-293 | the counting and flag-setting loops compute DrawPotential |
| GtoStrategy.CountSuits | gtoStrategy.py:264-266 | the dictionary gives each suit its number of cards, 0 when absent |
| GtoStrategy.FindStraightDraw | gtoStrategy.py:272-277 | the loop finds a window of four sorted ranks spanning at most 4 exactly when one exists |
| GtoStrategy.FindOpenEnded | gtoStrategy.py:280-284 | the loop finds a window of five sorted ranks spanning 4 exactly when one exists |
| GtoStrategy.MadeFlushIsNoDraw | gtoStrategy.py:264-268 | five or more cards of one suit are not a flush draw |
| GtoStrategy.OpenEndedIsStraightDraw | gtoStrategy.py:271-284 | an open-ended draw is also a straight draw |
| GtoStrategy.OpenEndedIsRun | gtoStrategy.py:280-284 | open-ended holds exactly when five consecutive rank values are all held |
| GtoStrategy.BestDrawIsFlushAndRun | gtoStrategy.py:264-287 | after the flop the potential is 0.9 exactly when the largest suit has four cards and five consecutive ranks are held |
| GtoStrategy.InitializeHandRanges | gtoStrategy.py:66-97 | each of the six position ranges is the set of all (r1, r2, suited) with 2 <= r2 <= r1 <= 14, 182 classes; the other three are empty |
| GtoStrategy.AddPair | gtoStrategy.py:79-95 | one visit with r1 >= r2 adds the suited and offsuit class to each position and keeps the loop invariant |
| GtoStrategy.ClassesStep | gtoStrategy.py:77-95 | each visit adds two classes not added before, so the count grows by exactly two |
| GtoStrategy.Clamp | gtoStrategy.py:611-613 | `min(max(min_raise, x), chips)`, the same tail as lines 634-636, 647-649 and 784-786: at most the stack, at least min(min_raise, stack), x itself when between |
| GtoStrategy.PreflopStrategy | gtoStrategy.py:465-493 | facing a bet never CHECK; with nothing to call never CALL or FOLD; an uncovered call becomes ALL_IN of the stack; CALL is the call amount; raises within the stack; FOLD and CHECK carry 0 |
| GtoStrategy.CallOrAllIn | gtoStrategy.py:511-514 | CALL of the call amount exactly when the stack covers it, else ALL_IN of the stack |
| GtoStrategy.PostflopStrategy | gtoStrategy.py:495-557 | for every score, playability and random draw, the same action shape as the pre-flop branch |
| GtoStrategy.MixedStrategy | gtoStrategy.py:433-436 | whichever branch the street selects, facing a bet never CHECK, with nothing to call never CALL or FOLD, and ALL_IN only of the whole stack when the call is not covered |

## Left out

- Console I/O and session control: the game loop and prompts (`gameManager.py`, `humanPlayer.py`, `main.py`), every `print` of `texasHoldem.py` and the players' `__repr__`.
- `get_game_stats` (texasHoldem.py:290-296): a report that reads the state and changes nothing.
- `aiPlayer.py`, the `hasattr(player, 'make_decision')` test and the `BasicStrategy` fallback are not modelled. A seat's decision is the `Decider` parameter, which may be `Strategy.Decide` or anything else.
- `action.py` and `suit.py` are plain enumerations, modelled as the datatypes `Actions.Action` and `Cards.Suit`. `rank.py` is not part of this model: ranks are the values 2..14, the Ace 14.
- The imports missing from `texasHoldem.py` (`Action`, `BasicStrategy`, `Dict`, `Any`) are taken as intended. `Action` is the enumeration of `action.py`.
- Randomness: `random.shuffle` is the Fisher-Yates pass driven by an arbitrary `rand` function, and the GTO draws are inputs. No probability is stated.
- Floating-point GTO scoring is not modelled. This covers hand strength, playability, blocker effect, range and position advantage, pot and implied odds, the decision score, `_calculate_bet_sizing`, the position weights and range charts, and all of `MonteCarloGTOStrategy`. Only the deterministic classifiers, the range table, the clamp and the branch shapes are modelled.
- Strategy.HandStrength: the strength is kept exactly in hundredths, with the double-precision comparison that differs from exact arithmetic written out in `Above`. The community cards are not an argument, because the source ignores them. The hand must hold at most two cards, because the source unpacks exactly two.
- Util.Truncate: `int(pot * 0.3)` and the other float products are exact truncations of pot * share / 100. Double rounding could differ only for pots far above any stack in play.
- GtoStrategy.DrawPotential: the result is in hundredths (30, 50, 70, 90) instead of floats.
- Side pots are not part of the source: the pot is always split evenly among the winners.
- TexasHoldem.Game.StartHand: at most 23 players, so the 52-card deck never runs out. The source would deal `None` past that point.
- TexasHoldem.Game.BettingLoop: each betting loop gets a `fuel` bound, and running out of fuel abandons the hand. A loop that never ends is not modelled.
- Cards.Hash: a fixed hash of rank and suit instead of CPython's tuple hash. Only the property that equal cards hash equally is relied on.
- HoldemHand.Winners: winners are seat positions. The source's (player, cards) pairs carry the same player objects, because each seat holds its own distinct `Player`.
- HoldemHand.StartHandKeepsChips: does not state the dealer rotation. CloseHandKeeps and SettleKeeps state it.
- HoldemHand.OpenHandSeats: states only that every seat holds two cards. DealHoleCardsKeeps states which two.
- HoldemHand.ActivePlayersCount: its own contract only bounds the count. ActivePlayersAreNotFolded states that it counts exactly the seats in NotFolded.
