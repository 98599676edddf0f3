/** The actions of action.py, the (action, amount) pair a decision returns,
    and the `game_state` view a seat's decision reads. */
module Actions {
  import opened Cards

  datatype Action = Fold | Check | Call | Raise | AllIn

  /** What `decide` / `make_decision` returns: an action and an amount. */
  datatype Decision = Decision(action: Action, amount: int)

  /** The `game_state` dictionary handed to a deciding seat: the community
      cards, `current_bet`, `min_raise` and `pot`. */
  datatype View = View(community: seq<Card>, currentBet: int, minRaise: int, pot: int)
}
