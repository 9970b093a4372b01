/** A hand dealt from a clean table starts in the invariant that every later step keeps. */
module Openings {
  import opened Wrappers
  import opened Indexes
  import opened Players
  import opened Tables
  import opened Accessors
  import opened Betting
  import opened BettingSteps
  import opened Streets
  import opened Hands
  import opened Settlement
  import opened Deals

  /** Between hands a player has chips and nothing else on the table. */
  ghost predicate Idle(p: PlayerState) {
    && 0 <= p.stack && !p.HasInHandState() && PresetsOk(p)
    && (p.Active() ==> p.last.None? && NoPresets(p))
  }

  ghost predicate AllIdle(t: Table) {
    forall i :: 0 <= i < |t.players| ==> Idle(t.players[i])
  }

  function PostedAt(t: Table, i: nat): PlayerState
    requires i < |t.players|
  {
    Posted(t, t.players[i], HoldsBb(t, i), HoldsSb(t, i))
  }

  function PlayersPosted(t: Table): (r: seq<PlayerState>)
    ensures |r| == |t.players|
    ensures forall i :: 0 <= i < |t.players| ==> r[i] == if t.players[i].Active() then PostedAt(t, i) else t.players[i]
  {
    seq(|t.players|, i requires 0 <= i < |t.players| =>
      if t.players[i].Active() then PostedAt(t, i) else t.players[i])
  }

  /** The largest live post. */
  function TopPost(t: Table): int {
    MaxUncollected(PlayersPosted(t), false)
  }

  /** i will have chips to raise with. */
  ghost predicate MayRaise(t: Table, i: nat) {
    && i < |t.players| && t.players[i].Active() && PostedAt(t, i).stack > 0
    && PostedAt(t, i).StackAvailable() > TopPost(t)
  }

  ghost predicate PostsLive(t: Table, p: nat) {
    p < |t.players| && t.players[p].Active() && (HoldsBb(t, p) || HoldsSb(t, p) || t.players[p].owesBb)
  }

  /** p posts at least half of the largest post, and has no chips left or acts no earlier than i. */
  ghost predicate CoversFor(t: Table, p: nat, i: nat) {
    && PostsLive(t, p) && TopPost(t) <= 2 * PostedAt(t, p).uncollected
    && (PostedAt(t, p).stack == 0 || ActsAt(t, i) <= ActsAt(t, p))
  }

  /** Everybody who may raise is covered by somebody's post. */
  ghost predicate BlindsCovered(t: Table) {
    forall i: nat :: MayRaise(t, i) ==> exists p: nat :: CoversFor(t, p, i)
  }

  /** A table after reset_for_new_hand, the blinds moved and the deck shuffled. */
  ghost predicate Ready(t: Table) {
    && Seating(t) && AllIdle(t) && HasBb(t) && 0 < t.bb && 0 <= t.sb && 0 <= t.minBuyin
    && Sum(t.players, ActiveOne) >= 2 && t.board == [] && 2 * |DealOrder(t)| + 5 <= |t.deck|
    && forall i :: 0 <= i < |t.players| && t.players[i].Active() ==> t.players[i].playing == Some(SittingIn)
  }

  /** reset_for_new_hand leaves every place clear, whatever was left of the last hand. */
  lemma ResetClearsTable(t: Table) returns (u: Table)
    requires Seating(t)
    requires forall i :: 0 <= i < |t.players| ==>
      0 <= t.players[i].stack && 0 <= t.players[i].pendingRebuy && (!t.players[i].Active() ==> Idle(t.players[i]))
    ensures FireAll(t, EventEach(Everybody(t), Reset) + [OnTable(ResetTable)]) == Success(u)
    ensures u == t.(players := u.players, deck := [], board := []) && AllIdle(u) && Seating(u)
    ensures AllInPlace(t, u) && Sum(u.players, StackOf) == Sum(t.players, StackOf)
  {
    var v := ResetsFire(t);
    FireAppend(t, EventEach(Everybody(t), Reset), [OnTable(ResetTable)]);
    FireOne(v, OnTable(ResetTable));
    u := v.(deck := [], board := []);
    forall i: nat | i < |t.players|
      ensures Idle(u.players[i]) && SamePlace(t.players[i], u.players[i])
    {
      ResetIsIdle(t.players[i]);
    }
    InPlaceSeating(t, u);
    SumSame(t.players, u.players, StackOf);
  }

  ghost predicate SamePlace(p: PlayerState, q: PlayerState) {
    && q.position == p.position && q.seated == p.seated && q.playing == p.playing && q.stack == p.stack
    && q.pendingRebuy == p.pendingRebuy && q.owesBb == p.owesBb && q.owesSb == p.owesSb
  }

  ghost predicate AllInPlace(t: Table, u: Table) {
    |u.players| == |t.players| && forall i :: 0 <= i < |t.players| ==> SamePlace(t.players[i], u.players[i])
  }

  lemma InPlaceSeating(t: Table, u: Table)
    requires Seating(t) && AllInPlace(t, u) && u.numSeats == t.numSeats
    ensures Seating(u)
  {
    assert forall i :: 0 <= i < |t.players| ==> SamePlace(t.players[i], u.players[i]);
  }

  lemma ResetIsIdle(p: PlayerState)
    requires 0 <= p.stack && 0 <= p.pendingRebuy
    ensures Idle(Effect(p, Reset).value) && SamePlace(p, Effect(p, Reset).value)
  {
  }

  lemma HolderIs(t: Table, i: nat)
    requires Seating(t) && i < |t.players|
    ensures IsBb(t, i) ==> HoldsBb(t, i)
    ensures HoldsBb(t, i) ==> IsBb(t, i)
  {
    if IsBb(t, i) {
      FoundAt(t, i, true);
    }
  }

  /** What a player looks like once dealt in. */
  ghost predicate FreshlyDealt(p: PlayerState, q: PlayerState) {
    && q.position == p.position && q.seated == p.seated && q.playing == p.playing && q.pendingRebuy == p.pendingRebuy
    && ChipsOf(q) == ChipsOf(p) && 0 <= q.stack && 0 <= q.dead && 0 <= q.uncollected == q.wagers
    && (if p.Active() then |q.cards| == 2 && (q.last.None? || q.last == Some(ActPost)) && NoPresets(q) else q == p)
  }

  lemma PostedIsFresh(t: Table, p: PlayerState, holdsBb: bool, holdsSb: bool, cards: seq<Card>)
    requires Idle(p) && p.Active() && |cards| == 2 && 0 <= t.sb && 0 <= t.bb
    ensures FreshlyDealt(p, Posted(t, p, holdsBb, holdsSb).(cards := p.cards + cards))
  {
  }

  lemma DealtIsFresh(t: Table, u: Table)
    requires Seating(t) && AllIdle(t) && 0 <= t.sb && 0 <= t.bb && 2 * |DealOrder(t)| <= |t.deck| && Dealt(t, u)
    ensures |u.players| == |t.players|
    ensures forall i: nat :: i < |t.players| ==> FreshlyDealt(t.players[i], u.players[i])
  {
    var order := DealOrder(t);
    forall i: nat | i < |t.players| ensures FreshlyDealt(t.players[i], u.players[i]) {
      assert u.players[i] == InHand(t, order, i) && Idle(t.players[i]);
      if t.players[i].Active() {
        PostedIsFresh(t, t.players[i], HoldsBb(t, i), HoldsSb(t, i), Hand(t.deck, order, i));
      }
    }
  }

  ghost predicate AllFresh(t: Table, u: Table) {
    && |u.players| == |t.players| && forall i: nat :: i < |t.players| ==> FreshlyDealt(t.players[i], u.players[i])
  }

  lemma FreshSeating(t: Table, u: Table)
    requires Seating(t) && AllIdle(t) && AllFresh(t, u) && u == t.(players := u.players, deck := u.deck)
    ensures Seating(u) && EveryPlayer(u) && AllPresetsOk(u)
    ensures Sum(u.players, ActiveOne) == Sum(t.players, ActiveOne) && Total(u) == Total(t)
  {
    forall k: nat | k < |u.players|
      ensures Sane(u.players[k]) && DealtOrFolded(u.players[k]) && PresetsOk(u.players[k])
    {
      assert FreshlyDealt(t.players[k], u.players[k]) && Idle(t.players[k]);
    }
    forall k: nat | k < |u.players|
      ensures u.players[k].position == t.players[k].position && u.players[k].seated == t.players[k].seated
      ensures u.players[k].playing == t.players[k].playing && ChipsOf(u.players[k]) == ChipsOf(t.players[k])
    {
      assert FreshlyDealt(t.players[k], u.players[k]);
    }
    SumSame(t.players, u.players, ActiveOne);
    SumSame(t.players, u.players, ChipsOf);
  }

  lemma FreshQuiet(t: Table, u: Table)
    requires Seating(t) && AllIdle(t) && AllFresh(t, u) && u == t.(players := u.players, deck := u.deck)
    ensures NobodyRaised(u) && RaisersLead(u) && Matched(u) && Leveled(u) && NothingCarried(u)
  {
    forall k: nat | k < |u.players| && u.players[k].Active()
      ensures Carried(u.players[k]) == 0 && HasNotActed(u.players[k])
    {
      assert FreshlyDealt(t.players[k], u.players[k]);
    }
  }

  lemma {:induction false} OneActive(ps: seq<PlayerState>) returns (i: nat)
    requires Sum(ps, ActiveOne) >= 1
    ensures i < |ps| && ps[i].Active()
    decreases |ps|
  {
    var n := |ps| - 1;
    if ps[n].Active() {
      i := n;
    } else {
      i := OneActive(ps[..n]);
    }
  }

  lemma {:induction false} TwoActive(ps: seq<PlayerState>) returns (i: nat, j: nat)
    requires Sum(ps, ActiveOne) >= 2
    ensures i < j < |ps| && ps[i].Active() && ps[j].Active()
    decreases |ps|
  {
    var n := |ps| - 1;
    if ps[n].Active() {
      i := OneActive(ps[..n]);
      j := n;
    } else {
      i, j := TwoActive(ps[..n]);
    }
  }

  lemma FreshTop(u: Table)
    requires EveryPlayer(u) && NothingCarried(u) && Sum(u.players, ActiveOne) >= 2
    ensures TopShared(u, Carried)
  {
    var i, j := TwoActive(u.players);
    forall k | 0 <= k < |u.players| ensures Carried(u.players[k]) == 0 {
      assert Sane(u.players[k]);
    }
    assert TopPair(u, Carried, i, j);
  }

  /** Dealt in, a player has what they posted. */
  ghost predicate SamePost(t: Table, u: Table, i: nat)
    requires i < |t.players| && i < |u.players|
  {
    var p, q := PostedAt(t, i), u.players[i];
    if t.players[i].Active() then
      q.Active() && q.uncollected == p.uncollected && q.stack == p.stack && q.last == p.last && q.position == p.position
    else q == t.players[i]
  }

  ghost predicate SamePosts(t: Table, u: Table) {
    |u.players| == |t.players| && forall i: nat :: i < |t.players| ==> SamePost(t, u, i)
  }

  lemma PostedKeepsSeat(t: Table, p: PlayerState, holdsBb: bool, holdsSb: bool)
    ensures
      var q := Posted(t, p, holdsBb, holdsSb);
      q.seated == p.seated && q.playing == p.playing && q.position == p.position
  {
  }

  lemma DealtPost(t: Table, u: Table, i: nat)
    requires t.numSeats > 0 && 2 * |DealOrder(t)| <= |t.deck| && Dealt(t, u) && i < |t.players|
    ensures SamePost(t, u, i)
  {
    var order := DealOrder(t);
    assert u.players[i] == InHand(t, order, i);
    PostedKeepsSeat(t, t.players[i], HoldsBb(t, i), HoldsSb(t, i));
    var q := PostedAt(t, i);
    assert t.players[i].Active() ==> u.players[i] == q.(cards := t.players[i].cards + Hand(t.deck, order, i));
  }

  lemma DealtPosts(t: Table, u: Table)
    requires t.numSeats > 0 && 2 * |DealOrder(t)| <= |t.deck| && Dealt(t, u)
    ensures SamePosts(t, u)
  {
    forall i: nat | i < |t.players| ensures SamePost(t, u, i) {
      DealtPost(t, u, i);
    }
  }

  lemma {:induction false} SameTop(ps: seq<PlayerState>, qs: seq<PlayerState>)
    requires |ps| == |qs|
    requires forall i :: 0 <= i < |ps| ==>
      ps[i].Active() == qs[i].Active() && (ps[i].Active() ==> ps[i].uncollected == qs[i].uncollected)
    ensures MaxUncollected(ps, false) == MaxUncollected(qs, false)
    decreases |ps|
  {
    if ps != [] {
      SameTop(ps[..|ps| - 1], qs[..|ps| - 1]);
    }
  }

  lemma TopIsDealt(t: Table, u: Table)
    requires SamePosts(t, u)
    ensures LastRaiseSize(u) == TopPost(t)
  {
    forall i: nat | i < |t.players|
      ensures PlayersPosted(t)[i].Active() == u.players[i].Active()
      ensures u.players[i].Active() ==> PlayersPosted(t)[i].uncollected == u.players[i].uncollected
    {
      assert SamePost(t, u, i);
      PostedKeepsSeat(t, t.players[i], HoldsBb(t, i), HoldsSb(t, i));
    }
    SameTop(PlayersPosted(t), u.players);
  }

  lemma PostedLast(t: Table, p: nat)
    requires p < |t.players| && Idle(t.players[p]) && t.players[p].Active()
    ensures PostedAt(t, p).last == if PostsLive(t, p) then Some(ActPost) else None
  {
  }

  /** The deal, as the condition looks at it. */
  ghost predicate DealtFrom(t: Table, u: Table) {
    && AllIdle(t) && SamePosts(t, u) && u.numSeats == t.numSeats && u.bbPos == t.bbPos
    && forall i :: 0 <= i < |u.players| && u.players[i].Active() ==> u.players[i].Live()
  }

  lemma CanRaiseIs(t: Table, u: Table, i: nat)
    requires DealtFrom(t, u)
    ensures CanRaise(u, i) <==> MayRaise(t, i)
  {
    TopIsDealt(t, u);
    if i < |t.players| {
      assert SamePost(t, u, i);
      if t.players[i].Active() {
        PostedLast(t, i);
      }
    }
  }

  lemma PostStandsIs(t: Table, u: Table, p: nat, i: nat)
    requires DealtFrom(t, u) && i < |t.players| && t.players[i].Active()
    ensures PostStands(u, p, i) <==> CoversFor(t, p, i)
  {
    TopIsDealt(t, u);
    assert SamePost(t, u, i);
    if p < |t.players| {
      assert SamePost(t, u, p);
      if t.players[p].Active() {
        PostedLast(t, p);
        assert PostedAt(t, i).position == t.players[i].position && PostedAt(t, p).position == t.players[p].position by {
          PostedKeepsSeat(t, t.players[i], HoldsBb(t, i), HoldsSb(t, i));
          PostedKeepsSeat(t, t.players[p], HoldsBb(t, p), HoldsSb(t, p));
        }
        assert ActsAt(u, p) == ActsAt(t, p) && ActsAt(u, i) == ActsAt(t, i);
      }
    }
  }

  /** The blinds cover everybody exactly when the posts do once the cards are dealt. */
  lemma CoveredIsDealt(t: Table, u: Table)
    requires DealtFrom(t, u)
    ensures PostsCover(u) <==> BlindsCovered(t)
  {
    if PostsCover(u) {
      forall i: nat | MayRaise(t, i) ensures exists p: nat :: CoversFor(t, p, i) {
        CanRaiseIs(t, u, i);
        var p: nat :| PostStands(u, p, i);
        PostStandsIs(t, u, p, i);
      }
    }
    if BlindsCovered(t) {
      forall i: nat | CanRaise(u, i) ensures exists p: nat :: PostStands(u, p, i) {
        CanRaiseIs(t, u, i);
        var p: nat :| CoversFor(t, p, i);
        PostStandsIs(t, u, p, i);
      }
    }
  }

  // Cards

  lemma {:induction false} NothingHeld(ps: seq<PlayerState>)
    requires forall i :: 0 <= i < |ps| ==> ps[i].cards == []
    ensures Held(ps) == multiset{}
    decreases |ps|
  {
    if ps != [] {
      NothingHeld(ps[..|ps| - 1]);
    }
  }

  lemma OneMore(deck: seq<Card>, from: nat, k: nat)
    requires k > 0 && from + k <= |deck|
    ensures multiset(deck[from..from + k]) == multiset(deck[from..from + (k - 1)]) + multiset{deck[from + (k - 1)]}
  {
    assert deck[from..from + k] == deck[from..from + (k - 1)] + [deck[from + (k - 1)]];
  }

  ghost predicate HandsHeld(ps: seq<PlayerState>, deck: seq<Card>, order: seq<nat>, k: nat)
    requires 2 * |order| <= |deck| && k <= |order|
  {
    forall i: nat :: i < |ps| ==> ps[i].cards == if i in order[..k] then Hand(deck, order, i) else []
  }

  lemma HandAt(deck: seq<Card>, order: seq<nat>, k: nat)
    requires Distinct(order) && 2 * |order| <= |deck| && k < |order|
    ensures Hand(deck, order, order[k]) == [deck[k], deck[|order| + k]]
  {
    IndexOfAt(order, k);
    assert order[k] in order;
  }

  lemma OneLess(ps: seq<PlayerState>, deck: seq<Card>, order: seq<nat>, k: nat)
    requires Distinct(order) && 2 * |order| <= |deck| && 0 < k <= |order| && order[k - 1] < |ps|
    requires HandsHeld(ps, deck, order, k)
    ensures ps[order[k - 1]].cards == Hand(deck, order, order[k - 1])
    ensures HandsHeld(ps[order[k - 1] := ps[order[k - 1]].(cards := [])], deck, order, k - 1)
  {
    assert order[..k] == order[..k - 1] + [order[k - 1]] && order[k - 1] !in order[..k - 1];
  }

  ghost function Rounds(deck: seq<Card>, n: nat, k: nat): multiset<Card>
    requires k <= n && 2 * n <= |deck|
  {
    multiset(deck[0..0 + k]) + multiset(deck[n..n + k])
  }

  lemma Regroup(x: multiset<Card>, y: multiset<Card>, a: Card, b: Card)
    ensures (x + multiset{a}) + (y + multiset{b}) == (x + y) + (multiset{a} + multiset{b})
  {
  }

  lemma RoundsNext(deck: seq<Card>, n: nat, k: nat)
    requires 0 < k <= n && 2 * n <= |deck|
    ensures Rounds(deck, n, k) == Rounds(deck, n, k - 1) + (multiset{deck[k - 1]} + multiset{deck[n + (k - 1)]})
  {
    OneMore(deck, 0, k);
    OneMore(deck, n, k);
    Regroup(multiset(deck[0..0 + (k - 1)]), multiset(deck[n..n + (k - 1)]), deck[k - 1], deck[n + (k - 1)]);
  }

  lemma TwoMore(before: multiset<Card>, hand: seq<Card>, deck: seq<Card>, n: nat, k: nat)
    requires 0 < k <= n && 2 * n <= |deck| && hand == [deck[k - 1], deck[n + (k - 1)]]
    requires before == Rounds(deck, n, k - 1)
    ensures before + multiset(hand) == Rounds(deck, n, k)
  {
    RoundsNext(deck, n, k);
    assert multiset(hand) == multiset{deck[k - 1]} + multiset{deck[n + (k - 1)]};
  }

  lemma OneMoreHand(ps: seq<PlayerState>, deck: seq<Card>, order: seq<nat>, k: nat)
    requires Distinct(order) && 2 * |order| <= |deck| && 0 < k <= |order| && order[k - 1] < |ps|
    requires ps[order[k - 1]].cards == Hand(deck, order, order[k - 1])
    requires Held(ps[order[k - 1] := ps[order[k - 1]].(cards := [])]) == Rounds(deck, |order|, k - 1)
    ensures Held(ps) == Rounds(deck, |order|, k)
  {
    var i := order[k - 1];
    HandAt(deck, order, k - 1);
    HeldWithout(ps, i);
    TwoMore(Held(ps[i := ps[i].(cards := [])]), ps[i].cards, deck, |order|, k);
  }

  /** When the first k in order hold their hands, they hold the first k cards of each round. */
  lemma {:induction false} HeldHands(ps: seq<PlayerState>, deck: seq<Card>, order: seq<nat>, k: nat)
    requires Distinct(order) && 2 * |order| <= |deck| && k <= |order|
    requires forall x :: 0 <= x < k ==> order[x] < |ps|
    requires HandsHeld(ps, deck, order, k)
    ensures Held(ps) == Rounds(deck, |order|, k)
    decreases k
  {
    if k == 0 {
      NothingHeld(ps);
    } else {
      OneLess(ps, deck, order, k);
      HeldHands(ps[order[k - 1] := ps[order[k - 1]].(cards := [])], deck, order, k - 1);
      OneMoreHand(ps, deck, order, k);
    }
  }

  lemma DeckSplit(deck: seq<Card>, n: nat)
    requires 2 * n <= |deck|
    ensures multiset(deck) == Rounds(deck, n, n) + multiset(deck[2 * n..])
  {
    assert deck == deck[0..0 + n] + deck[n..n + n] + deck[2 * n..];
  }

  lemma DealtHands(t: Table, u: Table, order: seq<nat>)
    requires Seating(t) && AllIdle(t) && order == DealOrder(t) && 2 * |order| <= |t.deck| && Dealt(t, u)
    ensures HandsHeld(u.players, t.deck, order, |order|)
  {
    DealOrderIs(t);
    assert order[..|order|] == order;
    forall i: nat | i < |u.players|
      ensures u.players[i].cards == if i in order then Hand(t.deck, order, i) else []
    {
      assert u.players[i] == InHand(t, order, i) && Idle(t.players[i]);
    }
  }

  /** The cards go round the table twice: the k-th in order gets cards k and n + k of the deck. */
  lemma DealtInTurn(t: Table, u: Table, order: seq<nat>, k: nat)
    requires Seating(t) && AllIdle(t) && order == DealOrder(t) && 2 * |order| <= |t.deck| && Dealt(t, u)
    requires k < |order|
    ensures order[k] < |u.players| && u.players[order[k]].cards == [t.deck[k], t.deck[|order| + k]]
  {
    DealtHands(t, u, order);
    DealOrderIs(t);
    HandAt(t.deck, order, k);
    assert order[..|order|] == order && order[k] in order;
  }

  lemma IdleHoldNothing(t: Table)
    requires AllIdle(t)
    ensures Held(t.players) == multiset{}
  {
    forall i | 0 <= i < |t.players| ensures t.players[i].cards == [] {
      assert Idle(t.players[i]);
    }
    NothingHeld(t.players);
  }

  /** The deck's first cards are in the players' hands, the rest is still in the deck. */
  lemma DealKeepsCards(t: Table, u: Table, order: seq<nat>)
    requires Seating(t) && AllIdle(t) && order == DealOrder(t) && 2 * |order| <= |t.deck| && Dealt(t, u)
    ensures CardsOf(u) == CardsOf(t)
  {
    var n := |order|;
    assert Held(u.players) == Rounds(t.deck, n, n) by {
      DealtHands(t, u, order);
      DealOrderIs(t);
      HeldHands(u.players, t.deck, order, n);
    }
    IdleHoldNothing(t);
    DeckSplit(t.deck, n);
  }

  lemma BlindIsLive(t: Table, u: Table, b: nat)
    requires Seating(t) && 2 * |DealOrder(t)| <= |t.deck| && Dealt(t, u) && IsBb(t, b)
    ensures b < |u.players| && u.players[b].Live() && u.players[b].last == Some(ActPost)
  {
    HolderIs(t, b);
    assert u.players[b] == InHand(t, DealOrder(t), b);
  }

  lemma SameBlind(t: Table, u: Table)
    requires AllFresh(t, u) && u == t.(players := u.players, deck := u.deck)
    ensures forall b :: IsBb(u, b) <==> IsBb(t, b)
  {
    forall b: nat | b < |t.players| ensures IsBb(u, b) <==> IsBb(t, b) {
      assert FreshlyDealt(t.players[b], u.players[b]);
    }
  }

  lemma FreshFrom(t: Table, u: Table)
    requires AllIdle(t) && SamePosts(t, u) && Seating(u) && AllFresh(t, u)
    requires u.numSeats == t.numSeats && u.bbPos == t.bbPos
    ensures DealtFrom(t, u)
  {
    forall i: nat | i < |u.players| && u.players[i].Active() ensures u.players[i].Live() {
      assert FreshlyDealt(t.players[i], u.players[i]);
    }
  }

  lemma FreshBb(t: Table, u: Table)
    requires Seating(t) && 2 * |DealOrder(t)| <= |t.deck| && Dealt(t, u) && AllFresh(t, u) && HasBb(t)
    ensures HasBb(u) && SomebodyLive(u)
  {
    SameBlind(t, u);
    var b: nat :| IsBb(t, b);
    BlindIsLive(t, u, b);
    assert IsBb(u, b);
  }

  lemma DealIsFresh(t: Table) returns (u: Table)
    requires Ready(t)
    ensures PostAndDeal(t) == Success(u) && Dealt(t, u) && AllFresh(t, u)
  {
    var b: nat :| IsBb(t, b);
    HolderIs(t, b);
    u := PostAndDealDeals(t);
    DealtIsFresh(t, u);
  }

  lemma FreshHand(u: Table)
    requires Seating(u) && EveryPlayer(u) && HasBb(u) && SomebodyLive(u) && Sum(u.players, ActiveOne) >= 2
    requires NobodyRaised(u) && RaisersLead(u) && Matched(u) && Leveled(u) && NothingCarried(u) && PostsCover(u)
    requires AllPresetsOk(u) && BoardOk(u) && u.board == [] && 0 < u.bb && 0 <= u.sb && 0 <= u.minBuyin
    ensures HandInv(u)
  {
    FreshTop(u);
  }

  /** All that a dealt hand starts with, whatever the posts. */
  lemma DealtHand(t: Table) returns (u: Table)
    requires Ready(t)
    ensures PostAndDeal(t) == Success(u) && DealtFrom(t, u)
    ensures Seating(u) && EveryPlayer(u) && HasBb(u) && SomebodyLive(u) && Sum(u.players, ActiveOne) >= 2
    ensures NobodyRaised(u) && RaisersLead(u) && Matched(u) && Leveled(u) && NothingCarried(u)
    ensures AllPresetsOk(u) && u == t.(players := u.players, deck := u.deck) && BoardOk(u)
  {
    u := DealIsFresh(t);
    FreshSeating(t, u);
    DealtPosts(t, u);
    FreshFrom(t, u);
    FreshQuiet(t, u);
    FreshBb(t, u);
  }

  /** A hand dealt from a clean table whose blinds cover everybody starts in the hand invariant. */
  lemma DealStartsHand(t: Table)
    requires Ready(t) && BlindsCovered(t)
    ensures PostAndDeal(t).Success? && HandInv(PostAndDeal(t).value)
  {
    var u := DealtHand(t);
    CoveredIsDealt(t, u);
    FreshHand(u);
  }

  /** The deal keeps the chips and the cards, and everybody's place. */
  lemma DealKeepsGame(t: Table)
    requires Ready(t)
    ensures PostAndDeal(t).Success?
    ensures SameGame(t, PostAndDeal(t).value) && CardsOf(PostAndDeal(t).value) == CardsOf(t)
  {
    var u := DealIsFresh(t);
    FreshSeating(t, u);
    DealKeepsCards(t, u, DealOrder(t));
    FreshActives(t, u);
  }

  lemma FreshActives(t: Table, u: Table)
    requires AllFresh(t, u)
    ensures forall i :: 0 <= i < |t.players| ==> u.players[i].Active() == t.players[i].Active()
  {
    forall i | 0 <= i < |t.players| ensures u.players[i].Active() == t.players[i].Active() {
      assert FreshlyDealt(t.players[i], u.players[i]);
    }
  }
}
