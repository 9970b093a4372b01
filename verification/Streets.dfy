/** Uncalled bets go back and the next street is dealt. */
module Streets {
  import opened Wrappers
  import opened Indexes
  import opened Players
  import opened Tables
  import opened Accessors
  import opened Betting
  import opened BettingSteps
  import opened Requests

  // Uncalled bets

  /** The largest wager of a seated player other than the excepted one. */
  function LargestWager(ps: seq<PlayerState>, except: int): (w: int)
    ensures 0 <= w
  {
    if ps == [] then 0
    else
      var n := |ps| - 1;
      var w := LargestWager(ps[..n], except);
      if ps[n].seated && n != except && ps[n].wagers > w then ps[n].wagers else w
  }

  lemma {:induction false} LargestBounds(ps: seq<PlayerState>, except: int)
    ensures forall i :: 0 <= i < |ps| && ps[i].seated && i != except ==> ps[i].wagers <= LargestWager(ps, except)
    decreases |ps|
  {
    if ps != [] {
      var n := |ps| - 1;
      LargestBounds(ps[..n], except);
      assert forall i :: 0 <= i < n ==> ps[..n][i] == ps[i];
    }
  }

  lemma {:induction false} LargestAttained(ps: seq<PlayerState>, except: int) returns (i: nat)
    requires LargestWager(ps, except) > 0
    ensures i < |ps| && ps[i].seated && i != except && ps[i].wagers == LargestWager(ps, except)
    decreases |ps|
  {
    var n := |ps| - 1;
    if ps[n].seated && n != except && ps[n].wagers > LargestWager(ps[..n], except) {
      i := n;
    } else {
      i := LargestAttained(ps[..n], except);
    }
  }

  /** The seated players with exactly these wagers. */
  function WagerHolders(ps: seq<PlayerState>, w: int): seq<nat> {
    if ps == [] then []
    else
      var n := |ps| - 1;
      WagerHolders(ps[..n], w) + if ps[n].seated && ps[n].wagers == w then [n] else []
  }

  lemma {:induction false} WagerHoldersAre(ps: seq<PlayerState>, w: int)
    ensures forall i: nat :: i in WagerHolders(ps, w) <==> i < |ps| && ps[i].seated && ps[i].wagers == w
    ensures Distinct(WagerHolders(ps, w))
    decreases |ps|
  {
    if ps != [] {
      var n := |ps| - 1;
      WagerHoldersAre(ps[..n], w);
      var r := WagerHolders(ps[..n], w);
      forall i: nat ensures i in WagerHolders(ps, w) <==> i in r || (i == n && ps[n].seated && ps[n].wagers == w) {
      }
      assert forall i :: 0 <= i < n ==> ps[..n][i] == ps[i];
      assert n !in r;
    }
  }

  /** return_uncalled_bets: only a sole holder of the largest wager gets anything back. */
  function ReturnUncalled(t: Table): seq<Event> {
    var w := LargestWager(t.players, -1);
    var holders := WagerHolders(t.players, w);
    if |holders| == 1 then [OnPlayer(holders[0], ReturnChips(w - LargestWager(t.players, holders[0])))] else []
  }

  function WagersOf(p: PlayerState): int { p.wagers }

  /** i and j are two active players, and nobody has a larger amount than they both have. */
  ghost predicate TopPair(t: Table, amount: PlayerState -> int, i: nat, j: nat) {
    && i < |t.players| && j < |t.players| && i != j && t.players[i].Active() && t.players[j].Active()
    && amount(t.players[i]) == amount(t.players[j])
    && forall k :: 0 <= k < |t.players| ==> amount(t.players[k]) <= amount(t.players[i])
  }

  ghost predicate TopShared(t: Table, amount: PlayerState -> int) {
    exists i: nat, j: nat :: TopPair(t, amount, i, j)
  }

  ghost predicate SoleHolder(t: Table, m: nat) {
    m < |t.players| && t.players[m].seated &&
    forall i :: 0 <= i < |t.players| && t.players[i].seated && i != m ==> t.players[i].wagers < t.players[m].wagers
  }

  /** What comes back to a sole holder of the largest wager. */
  function Refund(t: Table, m: nat): int
    requires m < |t.players|
  {
    t.players[m].wagers - LargestWager(t.players, m)
  }

  lemma SoleIsLargest(t: Table, m: nat)
    requires EveryPlayer(t) && SoleHolder(t, m)
    ensures LargestWager(t.players, -1) == t.players[m].wagers
  {
    LargestBounds(t.players, -1);
    assert Sane(t.players[m]);
    if LargestWager(t.players, -1) > 0 {
      var i := LargestAttained(t.players, -1);
    }
  }

  lemma TwoDiffer(s: seq<nat>)
    requires Distinct(s) && |s| >= 2
    ensures s[0] in s && s[1] in s && s[0] != s[1]
  {
  }

  lemma SoleReturn(t: Table, m: nat)
    requires EveryPlayer(t) && SoleHolder(t, m)
    ensures ReturnUncalled(t) == [OnPlayer(m, ReturnChips(Refund(t, m)))]
  {
    SoleIsLargest(t, m);
    var holders := WagerHolders(t.players, t.players[m].wagers);
    WagerHoldersAre(t.players, t.players[m].wagers);
    assert m in holders;
    if |holders| >= 2 {
      TwoDiffer(holders);
    }
  }

  /** Either there is a sole holder of the largest wager, or nothing is returned. */
  lemma ReturnCases(t: Table)
    requires EveryPlayer(t)
    ensures (exists m: nat :: SoleHolder(t, m)) || ReturnUncalled(t) == []
  {
    var w := LargestWager(t.players, -1);
    var holders := WagerHolders(t.players, w);
    WagerHoldersAre(t.players, w);
    LargestBounds(t.players, -1);
    if |holders| == 1 {
      var m := holders[0];
      assert m in holders;
      forall i: nat | i < |t.players| && t.players[i].seated && i != m
        ensures t.players[i].wagers < t.players[m].wagers
      {
        assert i !in holders;
      }
      assert SoleHolder(t, m);
    }
  }

  /** The refund never exceeds what the player put in on this street. */
  lemma RefundWithinStreet(t: Table, m: nat)
    requires EveryPlayer(t) && TopShared(t, Carried) && SoleHolder(t, m)
    ensures t.players[m].Active() && 0 < Refund(t, m) <= t.players[m].uncollected
  {
    var i: nat, j: nat :| TopPair(t, Carried, i, j);
    LargestBounds(t.players, m);
    assert Sane(t.players[i]) && Sane(t.players[j]) && Sane(t.players[m]);
    assert t.players[m].wagers > 0;
    if LargestWager(t.players, m) > 0 {
      var k := LargestAttained(t.players, m);
    }
  }

  function Refunded(t: Table, m: nat): PlayerState
    requires m < |t.players|
  {
    var p := t.players[m];
    var r := Refund(t, m);
    p.(stack := p.stack + r, wagers := p.wagers - r, uncollected := p.uncollected - r)
  }

  /** After the return two active players share the largest wager, so a second return gives nothing back. */
  lemma ReturnShares(t: Table, m: nat, u: Table)
    requires EveryPlayer(t) && TopShared(t, Carried) && SoleHolder(t, m) && u == With(t, m, Refunded(t, m))
    ensures TopShared(u, WagersOf)
  {
    RefundWithinStreet(t, m);
    var i: nat, j: nat :| TopPair(t, Carried, i, j);
    if LargestWager(t.players, m) > 0 {
      var k := LargestAttained(t.players, m);
      SharesWith(t, m, k, u);
    } else {
      var k := if i == m then j else i;
      assert Sane(t.players[k]);
      LargestBounds(t.players, m);
      SharesWith(t, m, k, u);
    }
  }

  /** The sole holder is left with as much as the next in line has. */
  lemma SharesWith(t: Table, m: nat, k: nat, u: Table)
    requires EveryPlayer(t) && m < |t.players| && t.players[m].Active() && u == With(t, m, Refunded(t, m))
    requires k < |t.players| && k != m && t.players[k].seated && t.players[k].wagers == LargestWager(t.players, m)
    requires t.players[k].Active() || t.players[k].wagers > 0
    ensures TopShared(u, WagersOf)
  {
    LargestBounds(t.players, m);
    assert Sane(t.players[k]);
    forall x: nat | x < |u.players| ensures u.players[x].wagers <= t.players[k].wagers {
      assert Sane(t.players[x]);
    }
    assert TopPair(u, WagersOf, m, k);
  }

  lemma SharedLeavesNothing(t: Table)
    requires EveryPlayer(t) && TopShared(t, WagersOf)
    ensures ReturnUncalled(t) == []
  {
    ReturnCases(t);
    var i: nat, j: nat :| TopPair(t, WagersOf, i, j);
    forall m ensures !SoleHolder(t, m) {
      var k := if i == m then j else i;
      assert t.players[k].wagers == t.players[i].wagers;
    }
  }

  lemma NothingMeansShared(t: Table)
    requires EveryPlayer(t) && TopShared(t, Carried) && ReturnUncalled(t) == []
    ensures TopShared(t, WagersOf)
  {
    var w := LargestWager(t.players, -1);
    var holders := WagerHolders(t.players, w);
    WagerHoldersAre(t.players, w);
    LargestBounds(t.players, -1);
    assert forall k :: 0 <= k < |t.players| ==> Sane(t.players[k]);
    if w > 0 {
      var k := LargestAttained(t.players, -1);
      assert k in holders && |holders| != 1;
      TwoDiffer(holders);
      assert TopPair(t, WagersOf, holders[0], holders[1]);
    } else {
      var i: nat, j: nat :| TopPair(t, Carried, i, j);
      assert TopPair(t, WagersOf, i, j);
    }
  }

  /** u is t after its uncalled bet, if any, went back. */
  ghost predicate Returned(t: Table, u: Table) {
    u == t || exists m: nat :: SoleHolder(t, m) && u == With(t, m, Refunded(t, m))
  }

  /** return_uncalled_bets: the largest wager ends up shared, and a second call returns nothing. */
  lemma {:induction false} ReturnUncalledIsExact(t: Table)
    requires EveryPlayer(t) && TopShared(t, Carried)
    ensures FireAll(t, ReturnUncalled(t)).Success?
    ensures
      var u := FireAll(t, ReturnUncalled(t)).value;
      Returned(t, u) && EveryPlayer(u) && TopShared(u, WagersOf) && ReturnUncalled(u) == []
  {
    ReturnCases(t);
    if ReturnUncalled(t) == [] {
      NothingMeansShared(t);
    } else {
      var m: nat :| SoleHolder(t, m);
      RefundFires(t, m);
      RefundIsSane(t, m);
      var u := With(t, m, Refunded(t, m));
      ReturnShares(t, m, u);
      SharedLeavesNothing(u);
    }
  }

  lemma RefundFires(t: Table, m: nat)
    requires EveryPlayer(t) && SoleHolder(t, m)
    ensures FireAll(t, ReturnUncalled(t)) == Success(With(t, m, Refunded(t, m)))
  {
    SoleReturn(t, m);
    FirePlayer(t, m, ReturnChips(Refund(t, m)));
  }

  lemma RefundIsSane(t: Table, m: nat)
    requires EveryPlayer(t) && TopShared(t, Carried) && SoleHolder(t, m)
    ensures EveryPlayer(With(t, m, Refunded(t, m)))
  {
    RefundWithinStreet(t, m);
    assert Sane(t.players[m]) && DealtOrFolded(t.players[m]);
    assert Sane(Refunded(t, m)) && DealtOrFolded(Refunded(t, m));
  }

  // One event for each of several players

  function EventEach(s: seq<nat>, e: PlayerEvent): seq<Event> {
    if s == [] then [] else [OnPlayer(s[0], e)] + EventEach(s[1..], e)
  }

  ghost predicate NeverFails(e: PlayerEvent) {
    e.NewStreet? || e.Reset?
  }

  /** What the event makes of a player, listed or not. */
  ghost predicate Got(p: PlayerState, q: PlayerState, e: PlayerEvent, listed: bool)
    requires NeverFails(e)
  {
    q == if listed then Effect(p, e).value else p
  }

  lemma GotOnce(t: Table, s: seq<nat>, e: PlayerEvent, u: Table, k: nat)
    requires Distinct(s) && Indexing(t, s) && s != [] && NeverFails(e) && k < |t.players| && k < |u.players|
    requires
      var p := if k == s[0] then Effect(t.players[k], e).value else t.players[k];
      Got(p, u.players[k], e, k in s[1..])
    ensures Got(t.players[k], u.players[k], e, k in s)
  {
    assert s == [s[0]] + s[1..] && s[0] !in s[1..];
  }

  lemma {:induction false} FireNext(t: Table, s: seq<nat>, e: PlayerEvent)
    requires s != [] && s[0] < |t.players| && NeverFails(e)
    ensures
      FireAll(t, EventEach(s, e)) == FireAll(With(t, s[0], Effect(t.players[s[0]], e).value), EventEach(s[1..], e))
  {
    FirePlayer(t, s[0], e);
    FireAppend(t, [OnPlayer(s[0], e)], EventEach(s[1..], e));
  }

  /** Each of the listed players gets the event once; nobody else changes. */
  lemma {:induction false} FireEach(t: Table, s: seq<nat>, e: PlayerEvent) returns (u: Table)
    requires Distinct(s) && Indexing(t, s) && NeverFails(e)
    ensures FireAll(t, EventEach(s, e)) == Success(u) && u == t.(players := u.players) && |u.players| == |t.players|
    ensures forall k: nat :: k < |t.players| ==> Got(t.players[k], u.players[k], e, k in s)
    decreases |s|
  {
    if s == [] {
      u := t;
    } else {
      FireNext(t, s, e);
      var next := With(t, s[0], Effect(t.players[s[0]], e).value);
      u := FireEach(next, s[1..], e);
      forall k: nat | k < |t.players| ensures Got(t.players[k], u.players[k], e, k in s) {
        GotOnce(t, s, e, u, k);
      }
    }
  }

  // The next street

  function StirredAt(t: Table): nat -> bool {
    (i: nat) => i < |t.players| && (t.players[i].last.Some? || t.players[i].uncollected != 0)
  }

  /** Those who get a NEW_STREET event. */
  function Stirred(t: Table): seq<nat>
    requires t.numSeats > 0
  {
    Filter(ActivePlayers(t, StartPos(t)), StirredAt(t))
  }

  function BoardDeals(cards: seq<Card>): seq<Event> {
    if cards == [] then [] else [OnTable(DealBoard(cards[0]))] + BoardDeals(cards[1..])
  }

  /** deal_flop, deal_turn and deal_river: uncalled bets back, bets collected, n cards to the board. */
  function StreetEvents(t: Table, n: nat): seq<Event>
    requires t.numSeats > 0 && n <= |t.deck|
  {
    (ReturnUncalled(t) + EventEach(Stirred(t), NewStreet)) + (BoardDeals(t.deck[..n]) + [OnTable(PopCards(n))])
  }

  function DealStreet(t: Table, n: nat): Result<Table, Error>
    requires t.numSeats > 0
  {
    if n > |t.deck| then Failure(OutOfCards) else FireAll(t, StreetEvents(t, n))
  }

  lemma {:induction false} BoardDealsFire(t: Table, cards: seq<Card>)
    ensures FireAll(t, BoardDeals(cards)) == Success(t.(board := t.board + cards))
    decreases |cards|
  {
    if cards == [] {
      assert t.board + cards == t.board;
    } else {
      FireOne(t, OnTable(DealBoard(cards[0])));
      FireAppend(t, [OnTable(DealBoard(cards[0]))], BoardDeals(cards[1..]));
      BoardDealsFire(t.(board := t.board + [cards[0]]), cards[1..]);
      assert t.board + [cards[0]] + cards[1..] == t.board + cards;
    }
  }

  lemma StirredAre(t: Table)
    requires Seating(t)
    ensures Distinct(Stirred(t)) && Indexing(t, Stirred(t))
    ensures forall i: nat :: i in Stirred(t) <==> i < |t.players| && t.players[i].Active() && StirredAt(t)(i)
  {
    ActivePlayersComplete(t, StartPos(t));
    FilterDistinct(ActivePlayers(t, StartPos(t)), StirredAt(t));
    assert forall k :: 0 <= k < |Stirred(t)| ==> Stirred(t)[k] in Stirred(t);
  }

  /** p after its bets are collected; presets may or may not be cleared. */
  ghost predicate Collected(p: PlayerState, q: PlayerState) {
    && q.position == p.position && q.seated == p.seated && q.playing == p.playing && q.pendingRebuy == p.pendingRebuy
    && q.stack == p.stack && q.wagers == p.wagers && q.dead == p.dead && q.cards == p.cards
    && q.uncollected == 0 && (p.Active() ==> q.last == if ActedThisStreet(p) then None else p.last)
    && (q.presetCheckfold ==> p.presetCheckfold) && (q.presetCheck ==> p.presetCheck)
    && (q.presetCall == 0 || q.presetCall == p.presetCall)
  }

  /** The street turns: r is t with the uncalled bet returned, u has everybody's bets collected too. */
  ghost predicate Turned(t: Table, r: Table, u: Table) {
    && Returned(t, r) && EveryPlayer(r) && TopShared(r, WagersOf)
    && u == t.(players := u.players) && |u.players| == |t.players| && |r.players| == |t.players|
    && forall i :: 0 <= i < |t.players| ==> Collected(r.players[i], u.players[i])
  }

  lemma CollectStirred(p: PlayerState)
    ensures Collected(p, Effect(p, NewStreet).value)
  {
  }

  lemma CollectStill(p: PlayerState)
    requires p.uncollected == 0 && (p.Active() ==> p.last.None?)
    ensures Collected(p, p)
  {
  }

  /** Whoever is not stirred has nothing to collect, before and after the return. */
  lemma StillHasNothing(t: Table, r: Table, k: nat)
    requires Seating(t) && EveryPlayer(t) && TopShared(t, Carried) && Returned(t, r)
    requires k < |t.players| && k !in Stirred(t)
    ensures |r.players| == |t.players| && r.players[k] == t.players[k]
    ensures r.players[k].uncollected == 0 && (r.players[k].Active() ==> r.players[k].last.None?)
  {
    StirredAre(t);
    assert Sane(t.players[k]);
    if r != t {
      var m: nat :| SoleHolder(t, m) && r == With(t, m, Refunded(t, m));
      RefundWithinStreet(t, m);
    }
  }

  lemma ReturnedShape(t: Table, r: Table)
    requires Returned(t, r)
    ensures |r.players| == |t.players| && r == t.(players := r.players)
  {
  }

  lemma StreetTurns(t: Table) returns (r: Table, u: Table)
    requires Seating(t) && EveryPlayer(t) && TopShared(t, Carried)
    ensures FireAll(t, ReturnUncalled(t) + EventEach(Stirred(t), NewStreet)) == Success(u)
    ensures Turned(t, r, u)
  {
    ReturnUncalledIsExact(t);
    r := FireAll(t, ReturnUncalled(t)).value;
    ReturnedShape(t, r);
    FireAppend(t, ReturnUncalled(t), EventEach(Stirred(t), NewStreet));
    StirredAre(t);
    u := FireEach(r, Stirred(t), NewStreet);
    forall k: nat | k < |t.players| ensures Collected(r.players[k], u.players[k]) {
      assert Got(r.players[k], u.players[k], NewStreet, k in Stirred(t));
      if k in Stirred(t) {
        CollectStirred(r.players[k]);
      } else {
        StillHasNothing(t, r, k);
        CollectStill(r.players[k]);
      }
    }
  }

  lemma {:induction false} CardsDealt(t: Table, n: nat)
    requires n <= |t.deck|
    ensures FireAll(t, BoardDeals(t.deck[..n]) + [OnTable(PopCards(n))])
         == Success(t.(board := t.board + t.deck[..n], deck := t.deck[n..]))
  {
    BoardDealsFire(t, t.deck[..n]);
    FireAppend(t, BoardDeals(t.deck[..n]), [OnTable(PopCards(n))]);
    FireOne(t.(board := t.board + t.deck[..n]), OnTable(PopCards(n)));
  }

  /** A dealt street: bets turned over, then n cards moved from the deck to the board. */
  lemma StreetDealt(t: Table, n: nat) returns (r: Table, u: Table)
    requires Seating(t) && EveryPlayer(t) && TopShared(t, Carried) && n <= |t.deck|
    ensures DealStreet(t, n) == Success(u)
    ensures u.board == t.board + t.deck[..n] && u.deck == t.deck[n..]
    ensures Turned(t, r, u.(board := t.board, deck := t.deck))
  {
    r, u := StreetTurns(t);
    var turn := ReturnUncalled(t) + EventEach(Stirred(t), NewStreet);
    CardsDealt(u, n);
    FireAppend(t, turn, BoardDeals(t.deck[..n]) + [OnTable(PopCards(n))]);
    u := u.(board := u.board + t.deck[..n], deck := t.deck[n..]);
  }
}
