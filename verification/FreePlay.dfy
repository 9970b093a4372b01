/** What play keeps whatever state the hand is in: chips move between a stack and the middle, cards from the deck. */
module FreePlay {
  import opened Wrappers
  import opened Players
  import opened Tables
  import opened Accessors
  import opened Betting
  import opened BettingSteps
  import opened Requests
  import opened OutOfTurn
  import opened Streets
  import opened Hands
  import opened Pots
  import opened Showdown
  import opened Settlement
  import opened Endings

  /** Only a win or a rebuy brings chips to a player, and only a reset takes what is in the middle. */
  predicate KeepsChips(e: Event) {
    e.OnPlayer? ==> !e.pe.Win? && !e.pe.Reset? && !e.pe.UpdateStack?
  }

  predicate AllKeepChips(events: seq<Event>) {
    forall k :: 0 <= k < |events| ==> KeepsChips(events[k])
  }

  predicate MovesChips(e: PlayerEvent) {
    e.Post? || e.PostDead? || e.Bet? || e.RaiseTo? || e.Call? || e.ReturnChips?
  }

  lemma WagersKeepChips(p: PlayerState, e: PlayerEvent)
    requires MovesChips(e) && Effect(p, e).Success?
    ensures ChipsOf(Effect(p, e).value) == ChipsOf(p) && Effect(p, e).value.cards == p.cards
  {
    match e
    case Post(_) =>
    case PostDead(_) =>
    case Bet(_) =>
    case RaiseTo(_) =>
    case Call(_) =>
    case ReturnChips(_) =>
  }

  predicate InHandEvent(e: PlayerEvent) {
    e.Check? || e.Fold? || e.Deal? || e.NewStreet? || e.Buy? || e.PresetCheckfold? || e.PresetCheck? || e.PresetCall?
  }

  lemma OthersKeepChips(p: PlayerState, e: PlayerEvent)
    requires InHandEvent(e) && Effect(p, e).Success?
    ensures ChipsOf(Effect(p, e).value) == ChipsOf(p)
    ensures !e.Deal? ==> Effect(p, e).value.cards == p.cards || Effect(p, e).value.cards == []
  {
    match e
    case Check =>
    case Fold =>
    case Deal(_) =>
    case NewStreet =>
    case Buy(_) =>
    case PresetCheckfold(_) =>
    case PresetCheck(_) =>
    case PresetCall(_) =>
  }

  predicate SeatEvent(e: PlayerEvent) {
    e.TakeSeat? || e.LeaveSeat? || e.SitInAtBlinds? || e.SitOutAtBlinds?
  }

  lemma TakeSeatKeepsChips(p: PlayerState, pos: nat)
    requires Effect(p, TakeSeat(pos)).Success?
    ensures ChipsOf(Effect(p, TakeSeat(pos)).value) == ChipsOf(p) && Effect(p, TakeSeat(pos)).value.cards == p.cards
  {
  }

  lemma LeaveSeatKeepsChips(p: PlayerState, immediate: bool)
    requires Effect(p, LeaveSeat(immediate)).Success?
    ensures ChipsOf(Effect(p, LeaveSeat(immediate)).value) == ChipsOf(p)
    ensures Effect(p, LeaveSeat(immediate)).value.cards == p.cards
  {
  }

  lemma SeatKeepsChips(p: PlayerState, e: PlayerEvent)
    requires SeatEvent(e) && Effect(p, e).Success?
    ensures ChipsOf(Effect(p, e).value) == ChipsOf(p) && Effect(p, e).value.cards == p.cards
  {
    match e
    case TakeSeat(pos) => TakeSeatKeepsChips(p, pos);
    case LeaveSeat(immediate) => LeaveSeatKeepsChips(p, immediate);
    case SitInAtBlinds(_) =>
    case SitOutAtBlinds(_) =>
  }

  lemma SitInKeepsChips(p: PlayerState, immediate: bool)
    requires Effect(p, SitIn(immediate)).Success?
    ensures ChipsOf(Effect(p, SitIn(immediate)).value) == ChipsOf(p)
    ensures Effect(p, SitIn(immediate)).value.cards == p.cards
  {
  }

  lemma SitOutKeepsChips(p: PlayerState, immediate: bool)
    requires Effect(p, SitOut(immediate)).Success?
    ensures ChipsOf(Effect(p, SitOut(immediate)).value) == ChipsOf(p)
    ensures Effect(p, SitOut(immediate)).value.cards == p.cards
  {
  }

  predicate SittingEvent(e: PlayerEvent) {
    e.SitIn? || e.SitOut? || e.OweSb? || e.OweBb?
  }

  lemma SittingKeepsChips(p: PlayerState, e: PlayerEvent)
    requires SittingEvent(e) && Effect(p, e).Success?
    ensures ChipsOf(Effect(p, e).value) == ChipsOf(p) && Effect(p, e).value.cards == p.cards
  {
    match e
    case SitIn(immediate) => SitInKeepsChips(p, immediate);
    case SitOut(immediate) => SitOutKeepsChips(p, immediate);
    case OweSb(_) =>
    case OweBb(_) =>
  }

  lemma StacksKeepCards(p: PlayerState, e: PlayerEvent)
    requires (e.Win? || e.Reset? || e.UpdateStack?) && Effect(p, e).Success?
    ensures Effect(p, e).value.cards == p.cards || Effect(p, e).value.cards == []
  {
  }

  lemma EffectKeepsChips(p: PlayerState, e: PlayerEvent)
    requires !e.Win? && !e.Reset? && !e.UpdateStack? && Effect(p, e).Success?
    ensures ChipsOf(Effect(p, e).value) == ChipsOf(p)
  {
    if MovesChips(e) {
      WagersKeepChips(p, e);
    } else if InHandEvent(e) {
      OthersKeepChips(p, e);
    } else if SeatEvent(e) {
      SeatKeepsChips(p, e);
    } else {
      SittingKeepsChips(p, e);
    }
  }

  lemma OneKeepsChips(t: Table, e: Event)
    requires KeepsChips(e) && Fire(t, e).Success?
    ensures Total(Fire(t, e).value) == Total(t)
  {
    if e.OnPlayer? {
      DispatchedEffect(t.players[e.i], e.pe);
      EffectKeepsChips(t.players[e.i], e.pe);
      SumUpdate(t.players, e.i, Effect(t.players[e.i], e.pe).value, ChipsOf);
    }
  }

  lemma {:induction false} EventsKeepChips(t: Table, events: seq<Event>)
    requires AllKeepChips(events) && FireAll(t, events).Success?
    ensures Total(FireAll(t, events).value) == Total(t)
    decreases |events|
  {
    if events != [] {
      OneKeepsChips(t, events[0]);
      EventsKeepChips(Fire(t, events[0]).value, events[1..]);
    }
  }

  lemma RequestEvents(t: Table, i: nat, req: Request)
    requires t.numSeats > 0 && i < |t.players| && EventsFor(t, i, req).Success?
    ensures AllKeepChips(EventsFor(t, i, req).value)
  {
  }

  lemma {:induction false} EachKeepsChips(s: seq<nat>)
    ensures AllKeepChips(EventEach(s, NewStreet))
  {
    if s != [] {
      EachKeepsChips(s[1..]);
    }
  }

  lemma {:induction false} BoardKeepsChips(cards: seq<Card>)
    ensures AllKeepChips(BoardDeals(cards))
  {
    if cards != [] {
      BoardKeepsChips(cards[1..]);
    }
  }

  lemma StreetEventsKeep(t: Table, n: nat)
    requires t.numSeats > 0 && n <= |t.deck|
    ensures AllKeepChips(StreetEvents(t, n))
  {
    EachKeepsChips(Stirred(t));
    BoardKeepsChips(t.deck[..n]);
  }

  // Any play

  datatype Move = Ask(player: nat, req: Request) | Street(cards: nat)

  function Accepted(t: Table, m: Move): Result<Table, Error>
    requires Seating(t)
  {
    match m
    case Ask(i, req) => PlayerDispatch(t, i, req)
    case Street(n) => DealStreet(t, n)
  }

  /** The moves lead from t to u, one accepted after the other. */
  predicate Leads(t: Table, moves: seq<Move>, u: Table)
    decreases |moves|
  {
    if moves == [] then u == t
    else
      Seating(t) && match Accepted(t, moves[0])
                    case Failure(_) => false
                    case Success(next) => Leads(next, moves[1..], u)
  }

  lemma MoveKeepsChips(t: Table, m: Move)
    requires Seating(t) && Accepted(t, m).Success?
    ensures Total(Accepted(t, m).value) == Total(t)
  {
    match m
    case Ask(i, req) =>
      RequestEvents(t, i, req);
      EventsKeepChips(t, EventsFor(t, i, req).value);
    case Street(n) =>
      StreetEventsKeep(t, n);
      EventsKeepChips(t, StreetEvents(t, n));
  }

  /** Requests and streets in any order, from any table: no chip is made or lost until the payout. */
  lemma {:induction false} PlayKeepsChips(t: Table, moves: seq<Move>, u: Table)
    requires Leads(t, moves, u)
    ensures Total(u) == Total(t)
    decreases |moves|
  {
    if moves != [] {
      MoveKeepsChips(t, moves[0]);
      PlayKeepsChips(Accepted(t, moves[0]).value, moves[1..], u);
    }
  }

  // Cards

  /** The event leaves everybody's cards alone, or takes them away. */
  predicate NoNewCards(e: Event) {
    e.OnPlayer? && !e.pe.Deal?
  }

  predicate AllNoNewCards(events: seq<Event>) {
    forall k :: 0 <= k < |events| ==> NoNewCards(events[k])
  }

  lemma EffectNoNewCards(p: PlayerState, e: PlayerEvent)
    requires !e.Deal? && Effect(p, e).Success?
    ensures Effect(p, e).value.cards == p.cards || Effect(p, e).value.cards == []
  {
    if MovesChips(e) {
      WagersKeepChips(p, e);
    } else if InHandEvent(e) {
      OthersKeepChips(p, e);
    } else if SeatEvent(e) {
      SeatKeepsChips(p, e);
    } else if SittingEvent(e) {
      SittingKeepsChips(p, e);
    } else {
      StacksKeepCards(p, e);
    }
  }

  lemma OneNoNewCards(t: Table, e: Event)
    requires NoNewCards(e) && Fire(t, e).Success?
    ensures
      var u := Fire(t, e).value;
      u.deck == t.deck && u.board == t.board && Held(u.players) <= Held(t.players)
  {
    DispatchedEffect(t.players[e.i], e.pe);
    EffectNoNewCards(t.players[e.i], e.pe);
    FewerHeld(t.players, e.i, Effect(t.players[e.i], e.pe).value);
  }

  lemma {:induction false} EventsNoNewCards(t: Table, events: seq<Event>)
    requires AllNoNewCards(events) && FireAll(t, events).Success?
    ensures
      var u := FireAll(t, events).value;
      u.deck == t.deck && u.board == t.board && Held(u.players) <= Held(t.players)
    decreases |events|
  {
    if events != [] {
      OneNoNewCards(t, events[0]);
      EventsNoNewCards(Fire(t, events[0]).value, events[1..]);
    }
  }

  lemma RequestBringsNoCards(t: Table, i: nat, req: Request)
    requires t.numSeats > 0 && i < |t.players| && EventsFor(t, i, req).Success?
    ensures AllNoNewCards(EventsFor(t, i, req).value)
  {
  }

  lemma {:induction false} EachBringsNoCards(s: seq<nat>)
    ensures AllNoNewCards(EventEach(s, NewStreet))
  {
    if s != [] {
      EachBringsNoCards(s[1..]);
    }
  }

  lemma MultisetsSplit(deck: seq<Card>, n: nat)
    requires n <= |deck|
    ensures multiset(deck) == multiset(deck[..n]) + multiset(deck[n..])
  {
    assert deck == deck[..n] + deck[n..];
  }

  /** A street moves cards from the deck to the board, and hands stay as they are. */
  lemma StreetKeepsCards(t: Table, n: nat)
    requires t.numSeats > 0 && DealStreet(t, n).Success?
    ensures CardsOf(DealStreet(t, n).value) <= CardsOf(t)
  {
    var turn := ReturnUncalled(t) + EventEach(Stirred(t), NewStreet);
    EachBringsNoCards(Stirred(t));
    assert FireAll(t, turn).Success? by {
      PrefixFires(t, turn, BoardDeals(t.deck[..n]) + [OnTable(PopCards(n))]);
    }
    EventsNoNewCards(t, turn);
    var v := FireAll(t, turn).value;
    FireAppend(t, turn, BoardDeals(t.deck[..n]) + [OnTable(PopCards(n))]);
    CardsDealt(v, n);
    MultisetsSplit(t.deck, n);
  }

  lemma {:induction false} PrefixFires(t: Table, a: seq<Event>, b: seq<Event>)
    requires FireAll(t, a + b).Success?
    ensures FireAll(t, a).Success?
    decreases |a|
  {
    if a != [] {
      assert (a + b)[1..] == a[1..] + b;
      PrefixFires(Fire(t, a[0]).value, a[1..], b);
    }
  }

  lemma MoveKeepsCards(t: Table, m: Move)
    requires Seating(t) && Accepted(t, m).Success?
    ensures CardsOf(Accepted(t, m).value) <= CardsOf(t)
  {
    match m
    case Ask(i, req) =>
      RequestBringsNoCards(t, i, req);
      EventsNoNewCards(t, EventsFor(t, i, req).value);
    case Street(n) => StreetKeepsCards(t, n);
  }

  /** Requests and streets in any order, from any table: no card comes in. */
  lemma {:induction false} PlayKeepsCards(t: Table, moves: seq<Move>, u: Table)
    requires Leads(t, moves, u)
    ensures CardsOf(u) <= CardsOf(t)
    decreases |moves|
  {
    if moves != [] {
      MoveKeepsCards(t, moves[0]);
      PlayKeepsCards(Accepted(t, moves[0]).value, moves[1..], u);
    }
  }

  // Who is out

  lemma WithOutIsIdle(t: Table, i: nat, q: PlayerState)
    requires OutIsIdle(t) && i < |t.players| && NothingOut(q)
    ensures OutIsIdle(With(t, i, q))
  {
  }

  /** A betting request leaves its player in the hand, if only to fold and sit out afterwards. */
  lemma BettingStays(p: PlayerState, e: PlayerEvent)
    requires p.Active() && Effect(p, e).Success?
    requires e.Bet? || e.RaiseTo? || e.Call? || e.Check? || e.Fold? || e == SitOut(false)
    ensures Effect(p, e).value.Active()
  {
    match e
    case Bet(_) =>
    case RaiseTo(_) =>
    case Call(_) =>
    case Check =>
    case Fold =>
    case SitOut(_) =>
  }

  /** Events of that kind, all on one player. */
  ghost predicate AllBetting(events: seq<Event>, i: nat) {
    forall k :: 0 <= k < |events| ==>
      && events[k].OnPlayer? && events[k].i == i
      && var e := events[k].pe;
         e.Bet? || e.RaiseTo? || e.Call? || e.Check? || e.Fold? || e == SitOut(false)
  }

  lemma {:induction false} BettingKeepsOut(t: Table, i: nat, events: seq<Event>)
    requires OutIsIdle(t) && i < |t.players| && t.players[i].Active() && AllBetting(events, i)
    requires FireAll(t, events).Success?
    ensures OutIsIdle(FireAll(t, events).value)
    decreases |events|
  {
    if events != [] {
      var q := Effect(t.players[i], events[0].pe);
      DispatchedEffect(t.players[i], events[0].pe);
      BettingStays(t.players[i], events[0].pe);
      WithOutIsIdle(t, i, q.value);
      BettingKeepsOut(With(t, i, q.value), i, events[1..]);
    }
  }

  lemma BettingKinds(t: Table, i: nat, req: Request)
    requires t.numSeats > 0 && i < |t.players| && req.Betting() && EventsFor(t, i, req).Success?
    ensures AllBetting(EventsFor(t, i, req).value, i)
  {
    BettingEventsAre(t, i, req);
  }

  lemma SameHandsKeepOut(t: Table, u: Table)
    requires OutIsIdle(t) && SameHands(t, u)
    ensures OutIsIdle(u)
  {
  }

  lemma NextIsActive(t: Table, i: nat)
    requires Seating(t) && NextToAct(t) == Some(i)
    ensures i < |t.players| && t.players[i].Active()
  {
    ActingOrderComplete(t);
  }

  lemma RequestKeepsOut(t: Table, i: nat, req: Request)
    requires Seating(t) && OutIsIdle(t) && PlayerDispatch(t, i, req).Success?
    ensures OutIsIdle(PlayerDispatch(t, i, req).value)
  {
    if req.Betting() {
      TurnKindNeedsTurn(t, i, req.Kind());
      NextIsActive(t, i);
      BettingKinds(t, i, req);
      BettingKeepsOut(t, i, EventsFor(t, i, req).value);
    } else {
      OtherRequest(t, i, req);
      SameHandsKeepOut(t, PlayerDispatch(t, i, req).value);
    }
  }

  /** Only bets are moved: everybody stays where they are, and who is out has nothing in. */
  ghost predicate OnlyBetsMove(p: PlayerState, q: PlayerState) {
    q.seated == p.seated && q.position == p.position && q.playing == p.playing && (NothingOut(p) ==> NothingOut(q))
  }

  ghost predicate OnlyBetsMoved(t: Table, u: Table) {
    && u == t.(players := u.players) && |u.players| == |t.players|
    && forall i :: 0 <= i < |t.players| ==> OnlyBetsMove(t.players[i], u.players[i])
  }

  lemma MovedKeepsOut(t: Table, u: Table)
    requires OnlyBetsMoved(t, u)
    ensures OutIsIdle(t) ==> OutIsIdle(u)
    ensures Seating(t) ==> Seating(u)
  {
    forall i | 0 <= i < |t.players| && OutIsIdle(t) ensures NothingOut(u.players[i]) {
      assert OnlyBetsMove(t.players[i], u.players[i]) && NothingOut(t.players[i]);
    }
    forall i | 0 <= i < |t.players|
      ensures u.players[i].seated == t.players[i].seated && u.players[i].position == t.players[i].position
      ensures u.players[i].playing == t.players[i].playing
    {
      assert OnlyBetsMove(t.players[i], u.players[i]);
    }
  }

  /** Somebody who is out can only be returned nothing. */
  lemma ReturnMovesBets(t: Table) returns (r: Table)
    requires OutIsIdle(t)
    ensures FireAll(t, ReturnUncalled(t)) == Success(r) && OnlyBetsMoved(t, r)
  {
    var w := LargestWager(t.players, -1);
    var holders := WagerHolders(t.players, w);
    if |holders| == 1 {
      var i := holders[0];
      WagerHoldersAre(t.players, w);
      assert i in holders;
      var amt := w - LargestWager(t.players, i);
      FirePlayer(t, i, ReturnChips(amt));
      LargestBounds(t.players, i);
      OthersHoldLess(t.players, i);
      r := With(t, i, Effect(t.players[i], ReturnChips(amt)).value);
    } else {
      r := t;
    }
  }

  lemma {:induction false} OthersHoldLess(ps: seq<PlayerState>, i: nat)
    ensures 0 <= LargestWager(ps, i) <= LargestWager(ps, -1)
  {
    if LargestWager(ps, i) > 0 {
      var k := LargestAttained(ps, i);
      LargestBounds(ps, -1);
    }
  }

  lemma StreetMovesBets(t: Table, n: nat) returns (v: Table)
    requires Seating(t) && OutIsIdle(t) && n <= |t.deck|
    ensures OnlyBetsMoved(t, v) && DealStreet(t, n) == Success(v.(board := t.board + t.deck[..n], deck := t.deck[n..]))
  {
    var r := ReturnMovesBets(t);
    StirredAre(t);
    v := FireEach(r, Stirred(t), NewStreet);
    forall k: nat | k < |t.players| ensures OnlyBetsMove(t.players[k], v.players[k]) {
      assert OnlyBetsMove(t.players[k], r.players[k]) && Got(r.players[k], v.players[k], NewStreet, k in Stirred(t));
      StreetMovesBet(r.players[k], v.players[k], k in Stirred(t));
    }
    FireAppend(t, ReturnUncalled(t), EventEach(Stirred(t), NewStreet));
    FireAppend(t, ReturnUncalled(t) + EventEach(Stirred(t), NewStreet),
               BoardDeals(t.deck[..n]) + [OnTable(PopCards(n))]);
    CardsDealt(v, n);
  }

  lemma StreetMovesBet(p: PlayerState, q: PlayerState, listed: bool)
    requires Got(p, q, NewStreet, listed)
    ensures OnlyBetsMove(p, q)
  {
  }

  lemma MoveKeepsOut(t: Table, m: Move)
    requires Seating(t) && OutIsIdle(t) && Accepted(t, m).Success?
    ensures OutIsIdle(Accepted(t, m).value)
  {
    match m
    case Ask(i, req) => RequestKeepsOut(t, i, req);
    case Street(n) =>
      var v := StreetMovesBets(t, n);
      MovedKeepsOut(t, v);
  }

  /** Requests and streets in any order, from any table: who is out has nothing in the hand. */
  lemma {:induction false} PlayKeepsOut(t: Table, moves: seq<Move>, u: Table)
    requires Leads(t, moves, u) && OutIsIdle(t)
    ensures OutIsIdle(u)
    decreases |moves|
  {
    if moves != [] {
      MoveKeepsOut(t, moves[0]);
      PlayKeepsOut(Accepted(t, moves[0]).value, moves[1..], u);
    }
  }

  // The payout

  lemma ReturnEventKeeps(t: Table)
    ensures AllKeepChips(ReturnUncalled(t)) && AllNoNewCards(ReturnUncalled(t))
  {
  }

  /** From any table the uncalled bet goes back without a chip or a card coming in. */
  lemma ReturnKeepsAll(w: Table) returns (r: Table)
    requires Seating(w) && OutIsIdle(w)
    ensures FireAll(w, ReturnUncalled(w)) == Success(r) && r == AfterReturn(w) && Seating(r) && OutIsIdle(r)
    ensures Total(r) == Total(w) && CardsOf(r) <= CardsOf(w) && r.board == w.board && |r.players| == |w.players|
  {
    r := ReturnMovesBets(w);
    MovedKeepsOut(w, r);
    ReturnEventKeeps(w);
    EventsKeepChips(w, ReturnUncalled(w));
    EventsNoNewCards(w, ReturnUncalled(w));
  }

  /** From any table, if the hand is paid out, all the chips are in stacks again and nothing is left. */
  lemma PayoutKeepsChips(w: Table, rank: nat -> int, u: Table)
    requires Seating(w) && OutIsIdle(w) && EndHand(w, rank) == Success(u)
    ensures AfterReturn(w).numSeats > 0 && AwardsFor(AfterReturn(w), rank).Success?
    ensures Settled(AfterReturn(w), u, AwardsFor(AfterReturn(w), rank).value) && Sum(u.players, StackOf) == Total(w)
  {
    var r := ReturnKeepsAll(w);
    AwardsGoToPlayers(r, rank);
    PayOutSettles(r, AwardsFor(r, rank).value);
  }
}
