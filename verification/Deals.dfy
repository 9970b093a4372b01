/** Blinds posted and starting hands dealt: how a hand begins. */
module Deals {
  import opened Wrappers
  import opened Indexes
  import opened Players
  import opened Tables
  import opened Accessors
  import opened Betting
  import opened BettingSteps
  import opened Requests
  import opened Streets
  import opened Hands

  // Several events for each of several players

  function EventsOn(i: nat, es: seq<PlayerEvent>): seq<Event> {
    if es == [] then [] else [OnPlayer(i, es[0])] + EventsOn(i, es[1..])
  }

  function EventLists(s: seq<nat>, g: nat -> seq<PlayerEvent>): seq<Event> {
    if s == [] then [] else EventsOn(s[0], g(s[0])) + EventLists(s[1..], g)
  }

  /** What a list of events makes of one player. */
  function EffectAll(p: PlayerState, es: seq<PlayerEvent>): Result<PlayerState, Error>
    decreases |es|
  {
    if es == [] then Success(p)
    else
      match Effect(p, es[0])
      case Failure(error) => Failure(error)
      case Success(q) => EffectAll(q, es[1..])
  }

  lemma {:induction false} FireOn(t: Table, i: nat, es: seq<PlayerEvent>)
    requires i < |t.players| && EffectAll(t.players[i], es).Success?
    ensures FireAll(t, EventsOn(i, es)) == Success(With(t, i, EffectAll(t.players[i], es).value))
    decreases |es|
  {
    if es == [] {
      assert t.players[i := t.players[i]] == t.players;
    } else {
      FirePlayer(t, i, es[0]);
      FireAppend(t, [OnPlayer(i, es[0])], EventsOn(i, es[1..]));
      var q := Effect(t.players[i], es[0]).value;
      FireOn(With(t, i, q), i, es[1..]);
      assert t.players[i := q][i := EffectAll(q, es[1..]).value] == t.players[i := EffectAll(q, es[1..]).value];
    }
  }

  /** Each listed player gets their own events; nobody else changes. */
  lemma {:induction false} FireLists(t: Table, s: seq<nat>, g: nat -> seq<PlayerEvent>) returns (u: Table)
    requires Distinct(s) && Indexing(t, s)
    requires forall i :: i in s && i < |t.players| ==> EffectAll(t.players[i], g(i)).Success?
    ensures FireAll(t, EventLists(s, g)) == Success(u)
    ensures u == t.(players := u.players) && |u.players| == |t.players|
    ensures forall k: nat :: k < |t.players| ==>
      u.players[k] == if k in s then EffectAll(t.players[k], g(k)).value else t.players[k]
    decreases |s|
  {
    if s == [] {
      u := t;
    } else {
      FireOn(t, s[0], g(s[0]));
      var next := With(t, s[0], EffectAll(t.players[s[0]], g(s[0])).value);
      assert s == [s[0]] + s[1..] && s[0] !in s[1..];
      u := FireLists(next, s[1..], g);
      FireAppend(t, EventsOn(s[0], g(s[0])), EventLists(s[1..], g));
    }
  }

  // Blinds

  /** sb_player and bb_player */
  function SeatHolder(t: Table, pos: Option<nat>): Option<nat> {
    match pos
    case None => None
    case Some(p) => FindAt(t.players, p, true)
  }

  function LiveBlind(t: Table, p: PlayerState): seq<PlayerEvent> {
    [Post(Min(p.stack, t.bb))] + (if p.owesBb then [OweBb(false)] else [])
  }

  function SmallBlind(t: Table, stack: int, owesSb: bool, holdsSb: bool): seq<PlayerEvent> {
    if holdsSb then [Post(Min(stack, t.sb))] + (if owesSb then [OweSb(false)] else [])
    else if owesSb then [PostDead(Min(stack, t.sb)), OweSb(false)]
    else []
  }

  /** What post_blinds fires for one active player. */
  function PostsOf(t: Table, p: PlayerState, holdsBb: bool, holdsSb: bool): seq<PlayerEvent> {
    if holdsBb then LiveBlind(t, p)
    else
      var left := if p.owesBb then p.stack - Min(p.stack, t.bb) else p.stack;
      (if p.owesBb then LiveBlind(t, p) else []) + SmallBlind(t, left, p.owesSb, holdsSb)
  }

  predicate HoldsBb(t: Table, i: nat) { SeatHolder(t, t.bbPos) == Some(i) }

  predicate HoldsSb(t: Table, i: nat) { SeatHolder(t, t.sbPos) == Some(i) }

  function PostsAt(t: Table): nat -> seq<PlayerEvent> {
    (i: nat) => if i < |t.players| then PostsOf(t, t.players[i], HoldsBb(t, i), HoldsSb(t, i)) else []
  }

  function SbStart(t: Table): nat {
    match t.sbPos case Some(pos) => pos case None => 0
  }

  function PostBlinds(t: Table): seq<Event>
    requires t.numSeats > 0
  {
    EventLists(ActivePlayers(t, SbStart(t)), PostsAt(t))
  }

  lemma {:induction false} EventListsSnoc(s: seq<nat>, i: nat, g: nat -> seq<PlayerEvent>)
    ensures EventLists(s + [i], g) == EventLists(s, g) + EventsOn(i, g(i))
  {
    if s == [] {
      assert EventLists([i], g) == EventsOn(i, g(i)) + EventLists([i][1..], g);
    } else {
      assert (s + [i])[1..] == s[1..] + [i];
      EventListsSnoc(s[1..], i, g);
    }
  }

  lemma EventListsNext(s: seq<nat>, k: nat, g: nat -> seq<PlayerEvent>)
    requires k < |s|
    ensures EventLists(s[..k + 1], g) == EventLists(s[..k], g) + EventsOn(s[k], g(s[k]))
  {
    assert s[..k + 1] == s[..k] + [s[k]];
    EventListsSnoc(s[..k], s[k], g);
  }

  /** What one player posts, with the stack that is left after a blind out of position. */
  method PlayerPosts(t: Table, p: PlayerState, holdsBb: bool, holdsSb: bool) returns (posts: seq<PlayerEvent>)
    ensures posts == PostsOf(t, p, holdsBb, holdsSb)
  {
    posts := [];
    if holdsBb {
      posts := LiveBlind(t, p);
    } else {
      var stack := p.stack;
      if p.owesBb {
        posts := LiveBlind(t, p);
        stack := stack - Min(stack, t.bb);
      }
      posts := posts + SmallBlind(t, stack, p.owesSb, holdsSb);
    }
  }

  /** post_blinds, player by player */
  method BlindEvents(t: Table) returns (events: seq<Event>)
    requires t.numSeats > 0
    ensures events == PostBlinds(t)
  {
    var players := ActivePlayers(t, SbStart(t));
    events := [];
    var k := 0;
    while k < |players|
      invariant 0 <= k <= |players|
      invariant events == EventLists(players[..k], PostsAt(t))
    {
      var i := players[k];
      assert i in players;
      EventListsNext(players, k, PostsAt(t));
      var posts := PlayerPosts(t, t.players[i], HoldsBb(t, i), HoldsSb(t, i));
      events := events + EventsOn(i, posts);
      k := k + 1;
    }
    assert players[..k] == players;
  }

  /** A player with a live blind in. */
  function WithPost(p: PlayerState, amt: int): PlayerState {
    p.(stack := p.stack - amt, wagers := p.wagers + amt, uncollected := p.uncollected + amt, last := Some(ActPost))
  }

  function WithBlind(t: Table, p: PlayerState): PlayerState {
    WithPost(p, Min(p.stack, t.bb)).(owesBb := false)
  }

  function WithSmallBlind(t: Table, p: PlayerState, holdsSb: bool): PlayerState {
    var amt := Min(p.stack, t.sb);
    if holdsSb then WithPost(p, amt).(owesSb := false)
    else if p.owesSb then p.(stack := p.stack - amt, dead := p.dead + amt, owesSb := false)
    else p
  }

  /** A player after post_blinds. */
  function Posted(t: Table, p: PlayerState, holdsBb: bool, holdsSb: bool): PlayerState {
    if holdsBb then WithBlind(t, p)
    else WithSmallBlind(t, if p.owesBb then WithBlind(t, p) else p, holdsSb)
  }

  lemma {:induction false} EffectAllAppend(p: PlayerState, a: seq<PlayerEvent>, b: seq<PlayerEvent>)
    requires EffectAll(p, a).Success?
    ensures EffectAll(p, a + b) == EffectAll(EffectAll(p, a).value, b)
    decreases |a|
  {
    if a == [] {
      assert a + b == b;
    } else {
      assert (a + b)[1..] == a[1..] + b;
      EffectAllAppend(Effect(p, a[0]).value, a[1..], b);
    }
  }

  lemma {:induction false} EffectOne(p: PlayerState, e: PlayerEvent)
    ensures EffectAll(p, [e]) == Effect(p, e)
  {
    assert [e][1..] == [];
  }

  lemma {:induction false} EffectTwo(p: PlayerState, e: PlayerEvent, q: PlayerState, f: PlayerEvent,
                                     r: Result<PlayerState, Error>)
    requires Effect(p, e) == Success(q) && Effect(q, f) == r
    ensures EffectAll(p, [e, f]) == r
  {
    assert [e, f][1..] == [f];
    EffectOne(q, f);
  }

  lemma {:induction false} PostAlone(p: PlayerState, amt: int)
    requires amt <= p.stack
    ensures EffectAll(p, [Post(amt)] + []) == Success(WithPost(p, amt))
  {
    assert [Post(amt)] + [] == [Post(amt)];
    EffectOne(p, Post(amt));
  }

  lemma {:induction false} PostPaysBb(p: PlayerState, amt: int)
    requires amt <= p.stack
    ensures EffectAll(p, [Post(amt)] + [OweBb(false)]) == Success(WithPost(p, amt).(owesBb := false))
  {
    assert [Post(amt)] + [OweBb(false)] == [Post(amt), OweBb(false)];
    EffectTwo(p, Post(amt), WithPost(p, amt), OweBb(false), Success(WithPost(p, amt).(owesBb := false)));
  }

  lemma {:induction false} PostPaysSb(p: PlayerState, amt: int)
    requires amt <= p.stack
    ensures EffectAll(p, [Post(amt)] + [OweSb(false)]) == Success(WithPost(p, amt).(owesSb := false))
  {
    assert [Post(amt)] + [OweSb(false)] == [Post(amt), OweSb(false)];
    EffectTwo(p, Post(amt), WithPost(p, amt), OweSb(false), Success(WithPost(p, amt).(owesSb := false)));
  }

  lemma {:induction false} DeadPaysSb(p: PlayerState, amt: int)
    requires amt <= p.stack
    ensures EffectAll(p, [PostDead(amt), OweSb(false)])
         == Success(p.(stack := p.stack - amt, dead := p.dead + amt, owesSb := false))
  {
    var q := p.(stack := p.stack - amt, dead := p.dead + amt);
    EffectTwo(p, PostDead(amt), q, OweSb(false), Success(q.(owesSb := false)));
  }

  lemma {:induction false} LiveBlindPosts(t: Table, p: PlayerState)
    ensures EffectAll(p, LiveBlind(t, p)) == Success(WithBlind(t, p))
  {
    var amt := Min(p.stack, t.bb);
    if p.owesBb {
      PostPaysBb(p, amt);
    } else {
      PostAlone(p, amt);
    }
  }

  lemma {:induction false} HolderPosts(p: PlayerState, amt: int)
    requires amt <= p.stack
    ensures EffectAll(p, [Post(amt)] + (if p.owesSb then [OweSb(false)] else []))
         == Success(WithPost(p, amt).(owesSb := false))
  {
    if p.owesSb {
      PostPaysSb(p, amt);
    } else {
      PostAlone(p, amt);
    }
  }

  lemma {:induction false} SmallBlindPosts(t: Table, p: PlayerState, holdsSb: bool)
    ensures EffectAll(p, SmallBlind(t, p.stack, p.owesSb, holdsSb)) == Success(WithSmallBlind(t, p, holdsSb))
  {
    var amt := Min(p.stack, t.sb);
    assert amt <= p.stack;
    if holdsSb {
      HolderPosts(p, amt);
    } else if p.owesSb {
      DeadPaysSb(p, amt);
    }
  }

  lemma {:induction false} PostsArePosted(t: Table, p: PlayerState, holdsBb: bool, holdsSb: bool)
    ensures EffectAll(p, PostsOf(t, p, holdsBb, holdsSb)) == Success(Posted(t, p, holdsBb, holdsSb))
  {
    LiveBlindPosts(t, p);
    if !holdsBb {
      var q := if p.owesBb then WithBlind(t, p) else p;
      var first := if p.owesBb then LiveBlind(t, p) else [];
      EffectAllAppend(p, first, SmallBlind(t, q.stack, q.owesSb, holdsSb));
      SmallBlindPosts(t, q, holdsSb);
    }
  }

  // Starting hands

  /** The card that player i gets when the players are dealt to in order, starting from the given card. */
  function CardFor(deck: seq<Card>, order: seq<nat>, from: nat): nat -> Card
    requires from + |order| <= |deck|
  {
    (i: nat) => if i in order then deck[from + IndexOf(order, i)] else Card(0, 0)
  }

  function DealAt(deck: seq<Card>, order: seq<nat>, from: nat): nat -> seq<PlayerEvent>
    requires from + |order| <= |deck|
  {
    (i: nat) => [Deal(CardFor(deck, order, from)(i))]
  }

  /** The order of dealing: from the small blind, or from the big blind when only two play. */
  function DealOrder(t: Table): seq<nat>
    requires t.numSeats > 0
  {
    ActivePlayers(t, StartPos(t))
  }

  function HandsFrom(deck: seq<Card>, order: seq<nat>): seq<Event>
    requires 2 * |order| <= |deck|
  {
    (EventLists(order, DealAt(deck, order, 0)) + EventLists(order, DealAt(deck, order, |order|))) +
      [OnTable(PopCards(2 * |order|))]
  }

  /** deal_starting_hands */
  function DealHands(t: Table): seq<Event>
    requires t.numSeats > 0 && 2 * |DealOrder(t)| <= |t.deck|
  {
    HandsFrom(t.deck, DealOrder(t))
  }

  /** post_and_deal; both event lists are made from the table as it was before either. */
  function PostAndDeal(t: Table): Result<Table, Error>
    requires t.numSeats > 0
  {
    if SeatHolder(t, t.bbPos).None? then Failure(ImpossibleGameState)
    else if 2 * |DealOrder(t)| > |t.deck| then Failure(OutOfCards)
    else FireAll(t, PostBlinds(t) + DealHands(t))
  }

  lemma DealRound(t: Table, deck: seq<Card>, order: seq<nat>, from: nat) returns (u: Table)
    requires Distinct(order) && Indexing(t, order) && from + |order| <= |deck|
    ensures FireAll(t, EventLists(order, DealAt(deck, order, from))) == Success(u)
    ensures u == t.(players := u.players) && |u.players| == |t.players|
    ensures forall k: nat :: k < |t.players| ==>
      u.players[k] ==
        if k in order then t.players[k].(cards := t.players[k].cards + [CardFor(deck, order, from)(k)])
        else t.players[k]
  {
    forall i: nat | i < |t.players|
      ensures EffectAll(t.players[i], DealAt(deck, order, from)(i))
           == Success(t.players[i].(cards := t.players[i].cards + [CardFor(deck, order, from)(i)]))
    {
      EffectOne(t.players[i], Deal(CardFor(deck, order, from)(i)));
    }
    u := FireLists(t, order, DealAt(deck, order, from));
  }

  function Hand(deck: seq<Card>, order: seq<nat>, i: nat): seq<Card>
    requires 2 * |order| <= |deck|
  {
    [CardFor(deck, order, 0)(i), CardFor(deck, order, |order|)(i)]
  }

  /** u is t with two cards dealt to each of those in the order. */
  ghost predicate AllGiven(t: Table, order: seq<nat>, u: Table)
    requires 2 * |order| <= |t.deck|
  {
    && u == t.(players := u.players, deck := t.deck[2 * |order|..]) && |u.players| == |t.players|
    && forall k: nat :: k < |t.players| ==>
         u.players[k] ==
           if k in order then t.players[k].(cards := t.players[k].cards + Hand(t.deck, order, k)) else t.players[k]
  }

  lemma HandsFire(t: Table, order: seq<nat>) returns (u: Table)
    requires Distinct(order) && Indexing(t, order) && 2 * |order| <= |t.deck|
    ensures FireAll(t, HandsFrom(t.deck, order)) == Success(u)
    ensures AllGiven(t, order, u)
  {
    var a := DealRound(t, t.deck, order, 0);
    var b := DealRound(a, t.deck, order, |order|);
    u := b.(deck := t.deck[2 * |order|..]);
    ThenPop(t, a, b, u, EventLists(order, DealAt(t.deck, order, 0)), EventLists(order, DealAt(t.deck, order, |order|)),
            2 * |order|);
    forall k: nat | k < |t.players| && k in order
      ensures u.players[k] == t.players[k].(cards := t.players[k].cards + Hand(t.deck, order, k))
    {
      AddBoth(t.players[k].cards, CardFor(t.deck, order, 0)(k), CardFor(t.deck, order, |order|)(k));
    }
  }

  lemma AddBoth(cards: seq<Card>, a: Card, b: Card)
    ensures cards + [a] + [b] == cards + [a, b]
  {
  }

  lemma {:induction false} ThenPop(t: Table, a: Table, b: Table, u: Table, first: seq<Event>, second: seq<Event>,
                                   n: nat)
    requires FireAll(t, first) == Success(a) && FireAll(a, second) == Success(b)
    requires n <= |b.deck| && u == b.(deck := b.deck[n..])
    ensures FireAll(t, (first + second) + [OnTable(PopCards(n))]) == Success(u)
  {
    FireAppend(t, first, second);
    FireAppend(t, first + second, [OnTable(PopCards(n))]);
    FireOne(b, OnTable(PopCards(n)));
  }

  /** A player once the blinds are posted and the cards dealt. */
  function InHand(t: Table, order: seq<nat>, i: nat): PlayerState
    requires i < |t.players| && 2 * |order| <= |t.deck|
  {
    var p := t.players[i];
    if p.Active() then
      Posted(t, p, HoldsBb(t, i), HoldsSb(t, i)).(cards := p.cards + Hand(t.deck, order, i))
    else p
  }

  /** u is t with the blinds posted and two cards dealt to every active player. */
  ghost predicate Dealt(t: Table, u: Table)
    requires t.numSeats > 0 && 2 * |DealOrder(t)| <= |t.deck|
  {
    var order := DealOrder(t);
    && u == t.(players := u.players, deck := t.deck[2 * |order|..]) && |u.players| == |t.players|
    && forall i: nat :: i < |t.players| ==> u.players[i] == InHand(t, order, i)
  }

  /** u is t with the blinds posted. */
  ghost predicate AllPosted(t: Table, u: Table) {
    && u == t.(players := u.players) && |u.players| == |t.players|
    && forall k: nat :: k < |t.players| ==>
         u.players[k] ==
           if t.players[k].Active() then Posted(t, t.players[k], HoldsBb(t, k), HoldsSb(t, k)) else t.players[k]
  }

  lemma BlindsFire(t: Table) returns (u: Table)
    requires Seating(t)
    ensures FireAll(t, PostBlinds(t)) == Success(u)
    ensures AllPosted(t, u)
  {
    var s := ActivePlayers(t, SbStart(t));
    ActivePlayersComplete(t, SbStart(t));
    assert forall k :: 0 <= k < |s| ==> s[k] in s;
    forall i: nat | i < |t.players|
      ensures EffectAll(t.players[i], PostsAt(t)(i))
           == Success(Posted(t, t.players[i], HoldsBb(t, i), HoldsSb(t, i)))
    {
      PostsArePosted(t, t.players[i], HoldsBb(t, i), HoldsSb(t, i));
    }
    u := FireLists(t, s, PostsAt(t));
  }

  lemma DealOrderIs(t: Table)
    requires Seating(t)
    ensures Distinct(DealOrder(t)) && Indexing(t, DealOrder(t))
    ensures forall i: nat :: i < |t.players| ==> (i in DealOrder(t) <==> t.players[i].Active())
  {
    ActivePlayersComplete(t, StartPos(t));
    assert forall k :: 0 <= k < |DealOrder(t)| ==> DealOrder(t)[k] in DealOrder(t);
  }

  lemma {:induction false} BlindsThenHands(t: Table, a: Table, u: Table)
    requires t.numSeats > 0 && SeatHolder(t, t.bbPos).Some? && 2 * |DealOrder(t)| <= |t.deck|
    requires FireAll(t, PostBlinds(t)) == Success(a) && FireAll(a, DealHands(t)) == Success(u)
    ensures PostAndDeal(t) == Success(u)
  {
    FireAppend(t, PostBlinds(t), DealHands(t));
  }

  lemma PostAndDealDeals(t: Table) returns (u: Table)
    requires Seating(t) && SeatHolder(t, t.bbPos).Some? && 2 * |DealOrder(t)| <= |t.deck|
    ensures PostAndDeal(t) == Success(u) && Dealt(t, u)
  {
    DealOrderIs(t);
    var a := BlindsFire(t);
    u := HandsFire(a, DealOrder(t));
    BlindsThenHands(t, a, u);
    PostedThenGiven(t, a, u);
  }

  lemma PostedThenGiven(t: Table, a: Table, u: Table)
    requires t.numSeats > 0 && 2 * |DealOrder(t)| <= |t.deck| && AllPosted(t, a) && AllGiven(a, DealOrder(t), u)
    requires forall i: nat :: i < |t.players| ==> (i in DealOrder(t) <==> t.players[i].Active())
    ensures Dealt(t, u)
  {
    PostedKeepsCards(t, a);
  }

  lemma PostedKeepsCards(t: Table, a: Table)
    requires AllPosted(t, a)
    ensures forall i: nat :: i < |t.players| ==> a.players[i].cards == t.players[i].cards
  {
    forall i: nat | i < |t.players| ensures a.players[i].cards == t.players[i].cards {
      BlindsKeepCards(t, t.players[i], HoldsBb(t, i), HoldsSb(t, i));
    }
  }

  lemma BlindsKeepCards(t: Table, p: PlayerState, holdsBb: bool, holdsSb: bool)
    ensures Posted(t, p, holdsBb, holdsSb).cards == p.cards
  {
  }
}
