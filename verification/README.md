# The cash-game hand engine, verified

A Dafny model of the No-Limit Hold'em cash tables of this repository: what events do to players and
the table, who is to act and what they may do, how a hand goes from the blinds over the streets to
the showdown and the payout, how the table gets from one hand to the next, and so whole sessions.
Four smaller parts stand beside it: hand ranking, the bank, earned chips and levels, and the
difference of nested dictionaries.

`dafny verify dfyconfig.toml` checks everything.

## How it is built

| files | what they model |
|---|---|
| `Basics` | options and results; searches, filters, sums and the stable sort over index lists |
| `Players`, `Tables` | a player's row and the table, the handlers' change lists and what they amount to, seat order |
| `Accessors`, `Requests` | whose turn it is, bet sizes, available actions; the requests and the events they turn into |
| `Betting`, `BettingSteps`, `OutOfTurn` | the betting invariant, and that every kind of request keeps it |
| `Streets`, `Hands`, `Play` | uncalled bets and new streets, the hand invariant, the measure, `step` and whole runs |
| `Pots`, `Showdown`, `Settlement`, `Endings` | side pots, winners, and the end of a hand |
| `Joining` | `join_table`: a newcomer's seat, buy-in and way of sitting in |
| `Deals`, `Openings`, `WholeHands` | blinds and starting hands; a hand from the blinds to the payout |
| `FreePlay`, `EveryDeal` | what needs no invariant: chips and cards over any play, from any table and any deal |
| `BlindCover`, `ShortBlinds`, `ShortDeal`, `Places` | when the blinds keep the minimum raise from falling short, and a deal where they do not |
| `Unpaid`, `UnpaidDeals`, `DeadBlinds` | the hands that find no winner, and two deals that lead to one |
| `Rings`, `Blinds`, `Debts`, `BlindRuns` | the blind rotation, what skipped seats come to owe, runs of hands with the same players |
| `Sitting`, `BlindSitting`, `NewRounds`, `Rebuys` | players coming and going, new rounds, what is bought between hands |
| `BetweenHands`, `StuckBlinds`, `Sessions` | the way to the next hand, a table from which there is none, hand after hand |
| `Cards`, `Rankings`, `BestHands`, `FairShowdown` | the deck, the encoding of a hand and its key, the best hand, and that it wins |
| `Ledger`, `Levels`, `Diffs` | balances and the transfer log, earned chips and bonuses, `deep_diff` and `deep_update` |
| `Engine`, `Controller` | the mutable objects and the controller's methods on them |

State that the repository changes in place is modelled twice. `Engine` and `Controller` hold
classes with the repository's fields, whose methods loop over events and changes as the program
does; each method's contract ties the new state to a function of the old one. The properties are
proved about those functions, on values, and so hold of the objects.

Chips are integers in units of the table's smallest chip, so rounding a share down to that chip is
integer division. An exception is a `Failure` with an error that names it. A player's row is the
record `PlayerState`; a player holds cards until they fold, and is *live* while active and holding
cards.

## The invariant of a dealt hand

`Hands.HandInv` is what every step keeps from the deal to the end of the hand. Besides distinct
seats and non-negative amounts it says that

- the largest bet of the round belongs to somebody who raised, or, while nobody has, that everybody
  with chips who has acted matches it;
- a live player who still has chips, or who raised, carried over as much from earlier streets as
  anybody live;
- before the flop, while nobody has raised, everybody who has yet to act and could raise will find
  somebody whose post still stands and is at least half of the largest bet: a poster without chips,
  or one who acts no earlier;
- two active players share the largest amount carried over;
- at least one player holds cards, the board has 0, 3, 4 or 5 cards, and the deck can finish it.

`Openings.Ready` is a table to deal from: players sitting in with chips and nothing on the table,
somebody on the big blind, and cards enough. `BetweenHands.Between` is a table between two hands,
with at most 23 seats, for which one deck is enough.

## What the code does not promise

Where a property turned out false of the code, the code is modelled as it is, a concrete table shows
the failure, and the exact condition is proved.

- **Minimum raise.** `min_bet_amt` doubles the largest post whose owner has not moved since, so it
  falls below the bet to call once only smaller posts stand. After a deal this never happens if and
  only if the blinds cover everybody who may raise (`ShortBlinds.MinRaiseExact`,
  `Openings.BlindsCovered`): somebody posts at least half of the largest post and either has no chips
  left or acts no earlier. With a small blind no larger than the big one, a big blind posted in full
  covers everybody, so does an active small blind of half the largest post, and so does every deal
  without a post out of position (`BlindCover`). `ShortDeal` deals a hand where a big blind of 3 faces
  a newcomer's post of 10 and the small blind's seat is empty; limps lead to an offer to raise to less
  than the bet. Hands from such a deal are outside the invariant; `EveryDeal` says of every hand that
  chips and cards are kept, that a payout leaves all chips in stacks, and that the best hands are paid.
- **Payout.** `end_hand` raises for want of a winner when the money on top was put in only by players
  who folded, or when all that is left is dead money. It pays if and only if one player is left,
  nothing is in the middle, or somebody still in has more in than every all-in player who is short of
  the top (`Endings.EndHandIsExact`). `UnpaidDeals` deals a hand where two posters of 10 fold behind
  two players all in for 4. `DeadBlinds` starts one hand earlier. Of two waiting players one owes a
  small blind, and the other has no chips, as somebody has whose buy-in fails after the seat is taken
  (`DeadBlinds.UnpaidJoinWaits`). Both are let in; the debtor folds, the dead blind stays, and the big
  blind's bet goes back.
- **Button.** The rotation's sanity check fires if and only if three or more are in counting the new
  big blind, nobody is active strictly between that big blind and the new small blind, and it is not
  the seat right behind the small blind (`Blinds.RotationFails`); with exactly two active that takes a
  newcomer on the big blind (`Blinds.RotationFailsForTwo`). When the big blind is right behind the
  small blind and active, the button lands on it. With nobody active between the old blinds neither
  happens (`Blinds.RotationMoves`). `set_sitting_given_blinds` can seat somebody there when only two
  are left: from a table with the blinds placed, `StuckBlinds.NextHandGetsStuck` has the small blind
  leave, a player sit in between the blinds, and the next hand raise.
- **New rounds.** `reset_sit_in_pending_players` asks nobody for chips. A new round starts with
  exactly those who can play, and the positions in a row among them, if and only if everybody queued
  to sit in can play (`NewRounds.NewRoundStarts`); a queued player without the chips sits in even
  between the blinds (`NewRounds.ShortNewcomerSitsBetween`).
- **Seats.** `take_seat` only refuses a seat where an *active* player sits. Every other accepted
  request keeps the invariant, and this one breaks it exactly when somebody holds the seat
  (`Play.RequestKeepsHand`, `OutOfTurn.TakenSeatAccepted`). `join_table` looks at every seated player;
  runs send newcomers through that check.
- **Round trip.** `deep_update` after `deep_diff` does not restore a key that goes from something else
  to a dictionary: it fails, or for an empty dictionary keeps the old value.
- **Ledger.** A credit to a user who has no balance row for the season is logged but stored nowhere.

## Model

| member | source | states |
|---|---|---|
| `Players.DispatchedEffect` | core/poker/models.py:895-1223 | applying a handler's (attribute, value) pairs one after the other gives, for every event, the update the event stands for, with each new value read from the row as it was before; when the handler raises, the same exception and nothing changed |
| `Engine.Player.Dispatch` | core/oddslingers/model_utils.py:87-102 | the loop over the pairs leaves the object in that state, or untouched when the handler raises |
| `Engine.PokerTable.Dispatch` | core/poker/models.py:509-554 | blind positions, a new deck, n cards off the top, one card to the board, or an empty deck and board; popping more cards than there are raises |
| `Controller.HoldemController.InternalDispatch` | core/poker/controllers.py:232-275 | the events take effect in order up to the first that raises, and only on the player or table they name; when one raises, the objects are left as the events before it made them |
| `Tables.FireUntilStops` | core/poker/controllers.py:232-275 | those are exactly the events before the first that raises |
| `Controller.HoldemController.PlayerDispatch` | core/poker/controllers.py:167-200 | a request that is not among the available actions is rejected; any other fires the events of its method; in a dealt hand a request that fails changes nothing |
| `Tables.ActivePlayersComplete` | core/poker/accessors.py:319-343 | the seat order lists each active player once, wherever the rotation starts |
| `Accessors.FindNextToAct` | core/poker/accessors.py:798-834 | the loop finds the first live player with chips who has not acted, else the first after the last raiser who is behind the raiser's bet |
| `Betting.NextOwes` | core/poker/accessors.py:798-834 | whoever next_to_act names is live, has chips, and has not acted or is behind the largest bet |
| `Betting.NoneOwedIsClosed` | core/poker/accessors.py:798-834 | closure: when nobody is to act and two or more are live, every live player with chips has put in as much as anybody live |
| `Betting.BbIsLastUnacted` | core/poker/accessors.py:655-674 | before the flop the big blind is asked last: when it is the first who has not acted, everybody else with chips has |
| `Betting.NextComesFirst` | core/poker/accessors.py:798-834 | of those who have not acted the one named sits first behind the big blind before the flop, so who acts later is still to come |
| `Betting.MinRaiseReachesLargestBet` | core/poker/accessors.py:1060-1080 | in a dealt hand, whenever a raise is offered, min_bet_amt never raises and is never below the largest bet |
| `Betting.MinRaiseAfterBet` | core/poker/accessors.py:1060-1080 | after a bet the minimum is twice that bet |
| `Betting.MinRaiseAfterRaise` | core/poker/accessors.py:1060-1080 | after a raise the minimum exceeds it by as much as it exceeds the bet of the next in the raise order |
| `Betting.RaiseOrderSecond` | core/poker/accessors.py:1060-1080 | that next one has the strongest kind of action, then the largest wagers, of all but the first |
| `ShortBlinds.MinBetReachesBlinds` | core/poker/accessors.py:1060-1080 | over the blinds it reaches the largest bet if and only if somebody whose last action is a post has at least half of that bet in |
| `ShortBlinds.MinRaiseExact` | core/poker/accessors.py:1060-1080 | after a deal no raise is ever offered to less than the bet to call if and only if the blinds cover everybody who may raise |
| `ShortBlinds.UncoveredDealIsShort` | core/poker/accessors.py:1060-1080 | otherwise a run of limps from the deal leads to such an offer |
| `BlindCover.FullBlindCovers` | core/poker/controllers.py:1540-1597 | with a small blind no larger than the big one, a big blind posted in full covers everybody |
| `BlindCover.SmallBlindCovers` | core/poker/controllers.py:1540-1597 | so does an active small blind, next before the big blind, of at least half the largest post |
| `BlindCover.BlindsAloneCover` | core/poker/controllers.py:1540-1597 | and so do the two blinds whenever nobody posts out of position, however short the big blind is |
| `ShortDeal.ShortBlindMinRaise` | core/poker/accessors.py:1060-1080 | a table ready to deal from, with nobody on the small blind, a big blind of 3 and a post of 10 out of position: its deal and accepted requests lead to such an offer |
| `BettingSteps.ActionKeepsInvariant` | core/poker/controllers.py:341-406 | a fold, a call or check, or a bet or raise by the player whose turn it is keeps the betting invariant |
| `Requests.RequestActs` | core/poker/controllers.py:341-406 | every accepted betting request is one of those three moves |
| `OutOfTurn.SameTurn` | core/poker/accessors.py:798-834 | whose turn it is depends only on the hands, not on who is about to sit out or leave |
| `OutOfTurn.OtherRequest` | core/poker/controllers.py:409-577 | an accepted sit, leave, buy, seat or preset request raises nothing (nobody with something in the hand is unseated or sat out), leaves every stack, bet and card as it was, and keeps seats distinct if and only if it names no seat that somebody holds |
| `OutOfTurn.JoinKeepsSeating` | core/poker/controllers.py:439-476 | taking a seat keeps one player to a seat if and only if nobody is seated there |
| `OutOfTurn.TakenSeatAccepted` | core/poker/controllers.py:439-476 | take_seat looks for active players only: a seat whose holder sits out is taken as well, and then two are on it |
| `OutOfTurn.SeatTakenTwice` | core/poker/controllers.py:439-476 | a table of two on which that happens |
| `Hands.OtherKeepsHand` | core/poker/controllers.py:409-577 | out of turn the chips, the cards and the measure stay the same, and the hand invariant and the turn too unless a seat is taken twice |
| `Hands.BettingKeepsHand` | core/poker/controllers.py:341-406 | on turn nothing is raised, the hand invariant holds again, the chips are the same, and the measure drops |
| `Play.OnlyRefusals` | core/poker/controllers.py:167-200 | in a dealt hand player_dispatch carries out a request or refuses it as an action: no handler exception and no impossible game state |
| `Play.RequestKeepsHand` | core/poker/controllers.py:167-200 | every accepted request keeps chips, cards and who is in, a betting one uses up the measure, and the hand invariant holds again if and only if no held seat is taken |
| `Play.DispatchKeepsHand` | core/poker/controllers.py:140-200 | with newcomers sent through join_table every accepted request keeps the invariant |
| `FreePlay.PlayKeepsChips` | core/poker/controllers.py:341-577 | any sequence of accepted requests and streets, from any table and whatever the blinds, keeps stacks, wagers and dead money in all |
| `FreePlay.PlayKeepsCards` | core/poker/controllers.py:341-577 | nor does it bring a card into deck, board and hands |
| `FreePlay.PayoutKeepsChips` | core/poker/controllers.py:1088-1132 | from any table, betting invariant or not, on which who is out has nothing in: if end_hand pays, every chip in the middle ends in a stack |
| `Joining.JoinFires` | core/poker/controllers.py:648-762 | join_table checks the seat and the buy-in and then fires the purchase, the seat and the way of sitting in; the events of an accepted request are never refused |
| `Joining.JoinKeepsHand` | core/poker/controllers.py:648-762 | a newcomer in the middle of a hand leaves the hand invariant, the turn, the cards and the measure as they were, and brings exactly the chips bought |
| `Play.AnsweredKeepsHand` | core/poker/controllers.py:140-200 | whatever is asked by players or newcomers, accepted or refused: the invariant holds again, the chips are the same but for those brought |
| `Streets.ReturnUncalledIsExact` | core/poker/controllers.py:1335-1357 | afterwards the largest wager is shared by two active players and a second call returns nothing |
| `Streets.RefundWithinStreet` | core/poker/controllers.py:1335-1357 | what comes back is positive and at most what the player put in on this street |
| `Streets.StreetDealt` | core/poker/controllers.py:1060-1086 | a street returns the uncalled bet, collects all bets and moves exactly the top n cards of the deck to the board |
| `Hands.StreetKeepsHand` | core/poker/controllers.py:1060-1086 | when nobody is to act and the hand is not over, the next street is dealt without an exception and keeps the invariant, the chips and the cards |
| `Play.PresetAccepted` | core/poker/controllers.py:1144-1169 | a preset action is always among the available ones and is carried out |
| `Play.Step` | core/poker/controllers.py:896-945 | step(end_hand_stop=True) terminates, never reaches the impossible game state, and stops when somebody has to decide or the hand is over |
| `Controller.HoldemController.StepOn` | core/poker/controllers.py:896-945 | the recursive method on the objects reaches the table that the recursive definition gives |
| `Play.RunKeepsGame` | core/poker/controllers.py:140-165 | over any run of requests and newcomers: the chips are the same but for those brought, cards and who is in the hand are unchanged, and the number of accepted betting actions is bounded by the measure of the first table |
| `Openings.ResetClearsTable` | core/poker/controllers.py:1171-1178 | the resets before a hand leave nothing of the last one, no card out, and every stack as it was |
| `Deals.BlindEvents` | core/poker/controllers.py:1540-1597 | the loop fires for each active player, from the small blind on, the blind, a blind out of position and a dead small blind, each capped by what is left of the stack |
| `Deals.PostsArePosted` | core/poker/controllers.py:1540-1605 | what those events make of a player: a small blind that the big blind owes stays owed, every other debt is paid or forgiven |
| `Openings.DealStartsHand` | core/poker/controllers.py:1057-1058 | posting and dealing on a clean table raises nothing and starts in the hand invariant, provided the blinds cover everybody who may raise |
| `Openings.CoveredIsDealt` | core/poker/controllers.py:1540-1597 | that proviso on stacks, debts and seats holds exactly when the posts cover everybody once the cards are dealt |
| `Openings.DealKeepsGame` | core/poker/controllers.py:1540-1710 | posting and dealing keep the chips in all and the cards in all |
| `Openings.DealtInTurn` | core/poker/controllers.py:1687-1710 | the k-th of n players in dealing order holds cards k and n + k of the deck |
| `Openings.DealKeepsCards` | core/poker/controllers.py:1687-1710 | deck, board and hands together hold the same cards as before |
| `Controller.HoldemController.PostAndDealHands` | core/poker/controllers.py:1057-1058 | the method on the objects fires the blinds and the deal, both built from the state before either |
| `Pots.SidepotSummary` | core/poker/accessors.py:1001-1052 | the two nested loops compute one pot per distinct all-in amount and one above them all |
| `Pots.PotsAddUp` | core/poker/accessors.py:1001-1052 | the pots add up to current_pot |
| `Pots.PotsNest` | core/poker/accessors.py:1001-1052 | each pot is contested by strictly fewer players than the one before |
| `Pots.AllInPotsAreCapped` | core/poker/accessors.py:974-1052 | the pots an all-in player has a share in hold exactly the dead money and, from every player, the smaller of the two wagers |
| `Pots.PotsNonNegative` | core/poker/accessors.py:1001-1052 | no pot is negative |
| `Settlement.CurrentPotIsCommitted` | core/poker/accessors.py:638-640 | current_pot is everybody's wagers and dead money |
| `Showdown.Winners` | core/poker/accessors.py:389-399 | popping from the sorted list yields exactly the players no other player outranks, and raises only for no players |
| `Showdown.ShowdownWinningsForPot` | core/poker/accessors.py:401-439 | the loop pays the winners in showdown order, the odd chips to the first |
| `Showdown.PotIsFair` | core/poker/accessors.py:401-439 | exactly the best live contributors are paid; their shares add up to the pot, never grow along the order and differ by at most one smallest chip |
| `Showdown.WinsAreCapped` | core/poker/controllers.py:1820-1881 | nobody wins more than the pots they contributed to hold |
| `Controller.WinsAndLosses` | core/poker/controllers.py:1778-1881 | the loops over the pots, with and without a showdown, compute those awards |
| `Settlement.AwardsAreExact` | core/poker/controllers.py:1788-1881 | there is a winner for every pot if and only if one player is left, nothing is in the middle, or the pot on top is contested; and then the awards add up to current_pot |
| `Settlement.SettleIsExact` | core/poker/controllers.py:1088-1132 | settling succeeds on that same condition; every chip in the middle ends in a stack and nothing of the hand is left; the only exception is the missing winner, never wins that do not add up |
| `Endings.EndHandIsExact` | core/poker/controllers.py:1088-1132 | the same from any table in the hand invariant, uncalled bets included |
| `Endings.LiveTopIsPaid` | core/poker/controllers.py:1088-1132 | when nobody has more in than somebody still in has, the hand is paid out |
| `Endings.AllInWinIsCapped` | core/poker/controllers.py:1820-1881 | at a showdown an all-in player ends with at most the dead money and the smaller of the two wagers from every player |
| `Unpaid.AllInBelowIsUnpaid` | core/poker/controllers.py:1820-1881 | whenever two players share the top and everybody still in is all in for less, end_hand raises |
| `Unpaid.OutbidIsUnpaid` | core/poker/controllers.py:896-1132 | from such a table the streets still to come change nothing |
| `Unpaid.DeadOnlyIsUnpaid` | core/poker/controllers.py:896-1132 | the same when nobody has a wager left and only dead money is to be won |
| `UnpaidDeals.FoldedPostersUnpaid` | core/poker/controllers.py:896-1132 | from a table ready to deal from, two posters of 10 fold behind two players all in for 4, and end_hand raises |
| `DeadBlinds.UnpaidJoinWaits` | core/poker/controllers.py:648-762 | a newcomer who wants to sit in and whose buy-in fails once the seat is taken waits to sit in without chips |
| `DeadBlinds.DeadMoneyUnpaid` | core/poker/controllers.py:896-1132 | from a table between two hands: the next hand lets in such a newcomer and a player who owes a small blind; after three folds and a check that dead blind is all that is left, and end_hand raises |
| `Controller.HoldemController.EndTheHand` | core/poker/controllers.py:1088-1132 | the method on the objects does exactly that |
| `WholeHands.HandConservesChips` | core/poker/controllers.py:896-1132 | from the blinds through any play to the payout: stacks add up to what they were before the blinds and what newcomers brought, none is negative, nothing is left on the table |
| `WholeHands.PlayedKeepsGame` | core/poker/controllers.py:896-945 | in between, stacks, wagers and dead money add up to the same and what newcomers brought, and no card appears that was not in the deck |
| `FairShowdown.PlayedOneDeck` | core/poker/cards.py:138-145 | dealt from a full deck and played in any way, no card is twice in deck, board and hands |
| `FairShowdown.InOnePlace` | core/poker/cards.py:138-145 | so the deck, the board and any two hands have all different cards |
| `FairShowdown.RankOrders` | core/poker/accessors.py:389-399 | at a showdown one player ranks at least as high as another exactly when, whatever five cards the other shows, they have five as good |
| `FairShowdown.WinnersAreUnbeaten` | core/poker/accessors.py:401-439 | the winners of a pot are exactly those contributors still in whom no other of them beats with any five cards |
| `FairShowdown.ShowdownPaysBest` | core/poker/controllers.py:1088-1132 | from a full deck through any play to a showdown: every stack grows by an even share of each pot its player is unbeaten for, the odd chips going to the first in order, and by nothing else |
| `FairShowdown.SplitWithSameHand` | core/poker/controllers.py:1846-1853 | two winners of one pot show hands with the same ranks equally often, both flushes or neither: the sanity check on split pots never fires |
| `EveryDeal.PaidHandConservesChips` | core/poker/controllers.py:896-1132 | from any deal, covered by its blinds or not, through any accepted play: a hand that is paid out leaves all chips in stacks |
| `EveryDeal.AlwaysOneDeck` | core/poker/cards.py:138-145 | from any deal of a full deck no card is ever twice in deck, board and hands |
| `EveryDeal.BestIsAlwaysPaid` | core/poker/controllers.py:1088-1132 | and at a paid showdown every stack grows by an even share of each pot its player is unbeaten for, and by nothing else |
| `Blinds.FindNextBb` | core/poker/accessors.py:911-924 | the loop stops at the nearest seat clockwise that is active or about to be, skips exactly the seats in between, and raises if it comes round |
| `Blinds.NextBbFollows` | core/poker/accessors.py:911-924 | it raises if and only if no other seat is active or about to be |
| `Blinds.FindNextSb` | core/poker/accessors.py:926-940 | the loop ends within one round, at the first active seat or the seat before the big blind, and skips exactly the seats in between |
| `Blinds.SbLands` | core/poker/accessors.py:926-940 | that is the old big blind if it is still active, otherwise the seat before the new one; nobody active is left between the blinds |
| `Blinds.FindButton` | core/poker/accessors.py:862-883 | the loop goes back to the nearest active seat and raises exactly when it meets the big blind first |
| `Blinds.ButtonLands` | core/poker/accessors.py:862-883 | with a third active seat it ends on an active seat that is neither blind, with nobody active between it and the small blind |
| `Blinds.HeadsUpMoves` | core/poker/accessors.py:862-883 | with two in, the button is on the small blind, the active player who is not the big blind; the sanity check for two never fires |
| `Debts.StandardBlindRotation` | core/poker/controllers.py:1407-1430 | the three searches together compute the rotation, and the debts and bumps of the skipped seats |
| `Debts.OrbitBumps` | core/poker/controllers.py:1500-1516 | the loop bumps from the skipped seats whoever is out and has been for too long |
| `Debts.SkippedBbAre` | core/poker/accessors.py:911-924 | the seats the big blind skips are those strictly between the old one and the new |
| `Debts.SkippedOwe` | core/poker/controllers.py:1407-1538 | the seats the big blind skips come to owe a big blind, those only the small blind skips a small blind unless they owe a big blind, and nobody else owes more |
| `Blinds.RotationMoves` | core/poker/controllers.py:1407-1430 | with two or more active players and nobody active between the blinds the rotation raises nothing, moves all three as above, and again leaves nobody active between the blinds |
| `Blinds.RotationFails` | core/poker/controllers.py:1407-1430 | with two or more active players it raises if and only if three or more are in and the button search meets the big blind, and puts the button on the big blind if and only if that seat is active and right behind the small blind |
| `Blinds.RotationFailsForTwo` | core/poker/controllers.py:1407-1430 | with exactly two active it takes a newcomer on the big blind to raise |
| `NewRounds.LockedPositionsFollow` | core/poker/controllers.py:1432-1473 | from the button, small and big blind are the next seats round the table that can play; with two the button is the small blind; neither sanity check fires |
| `NewRounds.NewRoundStarts` | core/poker/controllers.py:1359-1405 | a new game raises nothing; exactly those who can play are active in it, with the positions in a row among them, if and only if everybody queued can play |
| `NewRounds.RoundExact` | core/poker/controllers.py:1195-1216 | that condition is exact for any positions |
| `NewRounds.ShortNewcomerSitsBetween` | core/poker/controllers.py:1195-1216 | three players and, queued between the blinds, somebody with less than a big blind: they sit in there |
| `BlindRuns.NextInARow` | core/poker/controllers.py:1407-1430 | with the same players, everybody moves on by one: the old blinds are the new button and small blind |
| `BlindRuns.EachPostsOnce` | core/poker/controllers.py:1407-1430 | in any k hands in a row with the same k players, each is the big blind exactly once |
| `BlindSitting.ButtonRotatesBack` | core/poker/accessors.py:862-883 | of four seats, with somebody active between the blinds, two active in all and a newcomer next, it does raise |
| `StuckBlinds.NextHandGetsStuck` | core/poker/controllers.py:947-1043 | a table with the blinds placed, from which any next hand comes to that and raises |
| `Rebuys.RebuyChecks` | core/poker/controllers.py:1256-1281 | the loop cancels each pending rebuy that has become illegal, and adds an auto-rebuy up to its amount where none is pending and it is legal |
| `Rebuys.RebuyUpdates` | core/poker/controllers.py:1283-1319 | the loop adds each pending rebuy that the bank lets through to its stack and drops the others |
| `Rebuys.RebuysGoThrough` | core/poker/controllers.py:1256-1319 | between hands none of these events is refused; each stack grows by its legal paid rebuy and by nothing else, and nothing stays pending |
| `Sitting.QueueDepartures` | core/poker/controllers.py:1624-1642 | the loop fires a RESET and a departure for each active player who asked for it or has no chips |
| `Sitting.DeparturesGoThrough` | core/poker/controllers.py:1624-1642 | none of them is refused for state in a hand; who stays is sitting in with chips; stacks are unchanged |
| `Sitting.DepartedBetween` | core/poker/controllers.py:1624-1642 | departures leave nobody active between the blinds |
| `Sitting.MustWait` | core/poker/accessors.py:885-902 | the loop collects the waiting players from the button up to the big blind |
| `Sitting.JoinedKeepsBlinds` | core/poker/controllers.py:1195-1216 | the newcomers who sit in take no seat between the blinds, and the big blind is there to post |
| `BlindSitting.SitByBlindsGoesThrough` | core/poker/controllers.py:1644-1685 | sitting out or in as the blind arrives is never refused |
| `BlindSitting.EndStays` | core/poker/controllers.py:1644-1685 | the walk ends at a player who did not ask to sit out there |
| `BlindSitting.SitByBlindsKeepsBlinds` | core/poker/controllers.py:1644-1685 | unless only two players are left it puts nobody between the blinds |
| `BlindSitting.BlindsMoveOn` | core/poker/controllers.py:1359-1430 | with the blinds placed, rotation, debts, bumps, newcomers and new positions together: nothing is raised, the new big blind is an active player and nobody is active between the blinds |
| `Sitting.DepartedSeating` | core/poker/controllers.py:1624-1642 | after departures seats are still held by one player each |
| `BetweenHands.PreparedIsClear` | core/poker/controllers.py:998-1043 | prepare_hand raises nothing: departures, sitting by the blinds and resets leave clean places and every stack as it was |
| `BetweenHands.NextHandIsReady` | core/poker/controllers.py:947-1043 | from one hand to the next, in a new game or by rotation: it raises if and only if the blinds cannot be moved, and otherwise there is a table ready to deal from, with the same chips and those bought |
| `BetweenHands.NextHandGoesThrough` | core/poker/controllers.py:947-1043 | with the blinds placed and three or more still in they can be moved, and are placed again |
| `Sessions.SessionConservesChips` | core/poker/controllers.py:896-1132 | over any number of hands, whatever is asked in them and whoever comes and goes: the stacks add up to what they were and to what was bought and brought, none is negative, and nothing of a hand is left |
| `Cards.EachCardOnce` | core/poker/cards.py:138-145 | a new deck has each card once |
| `Cards.Deck.Shuffle` | core/poker/cards.py:147-154 | popping at random keeps the cards |
| `Cards.Deck.Deal` | core/poker/cards.py:156-157 | the top card, or an exception from an empty deck |
| `Cards.Deck.DealMany` | core/poker/models.py:414-416 | the first n cards in order, or an exception when there are fewer |
| `Rankings.EncodingOfSame` | core/poker/rankings.py:55-143 | the encoding does not depend on the order of the cards |
| `Rankings.HandEncodes` | core/poker/rankings.py:55-143 | five different cards always have an encoding, of six places |
| `Rankings.EncodingToKey` | core/poker/rankings.py:40-52 | the loop reads the encoding in base 100 |
| `Rankings.KeyOrders` | core/poker/rankings.py:40-52 | keys are ordered as encodings are lexicographically, and equal only for equal digits |
| `Rankings.TiesAreEqualHands` | core/poker/rankings.py:36-143 | two hands tie if and only if they hold the same ranks equally often and are both flushes or neither |
| `BestHands.BestBy` | core/poker/rankings.py:32-33 | the chosen hand is one of the hands and none has a larger key |
| `BestHands.CombinationsReach` | core/poker/rankings.py:26-29 | any k of the cards are one of the combinations, up to order |
| `BestHands.BestDominates` | core/poker/rankings.py:26-29 | the best hand is five of the cards, and no five of them beat it |
| `BestHands.BestGrows` | core/poker/rankings.py:26-29 | more cards never make the best hand worse |
| `BestHands.UsesHoleCards` | core/poker/rankings.py:9-23 | the hand takes exactly n hole cards and the rest from the board |
| `BestHands.UsingDominates` | core/poker/rankings.py:9-23 | no other such choice beats it |
| `BestHands.UsingNeverBeatsBest` | core/poker/rankings.py:9-23 | it never beats the best five of all the cards |
| `BestHands.RankIsBest` | core/poker/accessors.py:967-968 | a player is ranked by five of their cards and the board's that no other five beat |
| `Ledger.Bank.ExecuteMutations` | core/oddslingers/mutations.py:45-66 | a batch changes everything it says or nothing |
| `Ledger.TransferMutates` | core/banker/mutations.py:20-54 | a transfer goes through if and only if its source is no user or has a row with at least the amount, and then moves exactly the amount and is logged |
| `Ledger.ChipsChangeHands` | core/banker/mutations.py:62-63 | between two users it goes through if and only if it is covered, takes from the one what it gives the other and leaves everybody else alone |
| `Ledger.RunsKeepAgreement` | core/banker/mutations.py:20-63 | after any run of batches every stored balance is the one the log gives, and none is negative |
| `Ledger.BalancesAddToZero` | core/banker/utils.py:113-133 | over everybody in the log the balances add up to zero |
| `Ledger.MissingRowDrifts` | core/banker/mutations.py:41-48 | a credit to a user without a balance row is logged but stored nowhere |
| `Levels.EarnedChips` | core/poker/level_utils.py:83-120 | the running total clamped at zero is the largest sum of last transfers, the empty one included |
| `Levels.EarnedIsNet` | core/poker/level_utils.py:83-120 | it is the plain net if and only if that net was never negative on the way |
| `Levels.UpdateLevels` | core/poker/level_utils.py:21-66 | the games level never drops, the bonuses are those for the cash levels crossed, and it reports a level-up exactly when one of the two levels rises |
| `Levels.LevelupBonuses` | core/poker/level_utils.py:69-80 | one purchase of 200 times the level for each level crossed, highest first |
| `Levels.BonusesPay` | core/poker/level_utils.py:69-80 | carried out, they add exactly that sum to the user's balance |
| `Levels.BonusesArePaidOnce` | core/poker/level_utils.py:21-80 | over any run of updates each level crossed between the first and the last is paid for once |
| `Diffs.DeepDiff` | core/oddslingers/utils.py:143-162 | the two loops compute the difference |
| `Diffs.DiffEmpty` | core/oddslingers/utils.py:143-162 | it is empty if and only if the dictionaries are equal |
| `Diffs.DeepUpdate` | core/oddslingers/utils.py:165-176 | the loop merges key by key, and fails on keys for something that is no dictionary |
| `Diffs.PatchRestores` | core/oddslingers/utils.py:143-176 | patching a with its difference to b succeeds, agrees with b on every path of b and is null at exactly the keys b dropped, if and only if no key goes from something else to a dictionary |

## Left out

- Tournaments, bounties, pot-limit bets, antes and Omaha tables apart from the hand they rank: they add branches to the same machinery.
- Timebanks, timestamps and kicks for inactivity: wall-clock behaviour; a timeout acts as a fold by the player to act.
- The transfers that pay for buy-ins and rebuys and for those who leave: whether the bank lets a purchase through is an answer from outside, and who leaves keeps the chips in an unseated row.
- Of `join_table`: the row of a user new to the table, the draw of a seat when none is named, and the auto-rebuy setting that comes with it.
- Revealing and mucking hands, chat, notifications, sidebets, badges, animations and the hand-history log: they change no state modelled here.
- What becomes of a table without enough players (the locked button and the pending sittings carried out then): a session ends there.
- The count of orbits sat out: who has been out for too long is a parameter of the rotation.
- The draw of the first button: any seat, and the positions are found or refused from it.
- The hand number, the countdown and the record of when a player last acted: counters that no rule reads during a hand.
- Randomness: a shuffle is any permutation, made by popping cards at arbitrary places.
- The database, its locks and the season filter: one season's rows are a map and a list, and a transaction restores both.
- The fresh deck that `on_pop_cards` would make of an empty deck string: here an empty deck raises; a dealt hand never meets one.
- Players.DispatchedEffect: leaves out the handlers for antes, mucked hands, the auto-rebuy setting, orbits and timebanks.
- Engine.PokerTable.Dispatch: leaves out `on_set_blinds`, and raises where popping from an empty deck string would make a new deck.
- Openings.DealStartsHand: deals whose blinds do not cover everybody do not start in the invariant; `EveryDeal` speaks of them.
- WholeHands.HandConservesChips: that a hand from such a deal can be paid out, and that no stack is negative, is not stated; that a payout keeps all chips is (`EveryDeal.PaidHandConservesChips`).
- WholeHands.PlayedKeepsGame: for those deals that places are kept is not stated; chips and cards are (`EveryDeal.PlayIsClosed`).
- Play.RunKeepsGame: a run stops at the end of the hand, where `dispatch` steps on into the next; `Sessions.SessionConservesChips` does that.
- Play.DispatchKeepsHand: of newcomers only the seat check of `join_table` is in it; their buy-in and their way of sitting in are in `Joining.JoinKeepsHand`, and requests without that check in `Play.RequestKeepsHand`.
- Sessions.SessionConservesChips: a session ends at a hand that is not finished, not covered by its blinds, or not paid.
- Diffs.DeepUpdate: returns the merged dictionary instead of changing its first argument in place, so aliasing between the two is not modelled.
- Diffs.DiffEmpty: compares leaves by their JSON text, so two values that serialise alike are one leaf.
