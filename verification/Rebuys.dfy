/** Rebuys between hands: what is pending is checked, auto-rebuys are added, and the bank is asked. */
module Rebuys {
  import opened Wrappers
  import opened Indexes
  import opened Players
  import opened Tables
  import opened Accessors
  import opened Betting
  import opened BettingSteps
  import opened Requests
  import opened Streets
  import opened Hands
  import opened Deals
  import opened Openings
  import opened Joining

  /** What rebuy_checks fires for one player, who rebuys up to the given amount if it is not zero. */
  function CheckOf(t: Table, p: PlayerState, auto: int): seq<PlayerEvent> {
    if p.pendingRebuy != 0 then
      if t.minBuyin <= p.pendingRebuy + p.stack <= t.maxBuyin && p.pendingRebuy > 0 then []
      else [Buy(-p.pendingRebuy)]
    else if auto != 0 && auto > p.stack && LegalBuyin(t, p, auto - p.stack) then [Buy(auto - p.stack)]
    else []
  }

  function AutoOf(autos: map<nat, int>, i: nat): int {
    if i in autos then autos[i] else 0
  }

  function CheckAt(t: Table, autos: map<nat, int>): nat -> seq<PlayerEvent> {
    (i: nat) => if i < |t.players| then CheckOf(t, t.players[i], AutoOf(autos, i)) else []
  }

  function UpdateAt(t: Table, paid: set<nat>): nat -> seq<PlayerEvent> {
    (i: nat) => if i < |t.players| then RebuyUpdate(t.players[i], i in paid) else []
  }

  /** rebuy_checks */
  method RebuyChecks(t: Table, autos: map<nat, int>) returns (events: seq<Event>)
    ensures events == EventLists(Below(|t.players|), CheckAt(t, autos))
  {
    events := [];
    var k := 0;
    while k < |t.players|
      invariant 0 <= k <= |t.players|
      invariant events == EventLists(Below(|t.players|)[..k], CheckAt(t, autos))
    {
      EventListsNext(Below(|t.players|), k, CheckAt(t, autos));
      var p, auto := t.players[k], AutoOf(autos, k);
      if p.pendingRebuy != 0 {
        if !(t.minBuyin <= p.pendingRebuy + p.stack <= t.maxBuyin && p.pendingRebuy > 0) {
          events := events + EventsOn(k, [Buy(-p.pendingRebuy)]);
        }
      } else if auto != 0 && auto > p.stack {
        if LegalBuyin(t, p, auto - p.stack) {
          events := events + EventsOn(k, [Buy(auto - p.stack)]);
        }
      }
      k := k + 1;
    }
    assert Below(|t.players|)[..k] == Below(|t.players|);
  }

  /** rebuy_updates */
  method RebuyUpdates(t: Table, paid: set<nat>) returns (events: seq<Event>)
    ensures events == EventLists(Below(|t.players|), UpdateAt(t, paid))
  {
    events := [];
    var k := 0;
    while k < |t.players|
      invariant 0 <= k <= |t.players|
      invariant events == EventLists(Below(|t.players|)[..k], UpdateAt(t, paid))
    {
      EventListsNext(Below(|t.players|), k, UpdateAt(t, paid));
      events := events + EventsOn(k, RebuyUpdate(t.players[k], k in paid));
      k := k + 1;
    }
    assert Below(|t.players|)[..k] == Below(|t.players|);
  }

  /** The two of them, one after the other. */
  function Rebought(t: Table, autos: map<nat, int>, paid: set<nat>): Result<Table, Error> {
    var checked :- FireAll(t, EventLists(Below(|t.players|), CheckAt(t, autos)));
    FireAll(checked, EventLists(Below(|checked.players|), UpdateAt(checked, paid)))
  }

  // What they come to

  /** The rebuy that is still pending after the checks. */
  function Checked(t: Table, p: PlayerState, auto: int): int {
    if p.pendingRebuy != 0 then
      if t.minBuyin <= p.pendingRebuy + p.stack <= t.maxBuyin && p.pendingRebuy > 0 then p.pendingRebuy else 0
    else if auto != 0 && auto > p.stack && LegalBuyin(t, p, auto - p.stack) then auto - p.stack
    else 0
  }

  /** What a player has bought: the checked rebuy, if the bank lets it through. */
  function BoughtBy(t: Table, autos: map<nat, int>, paid: set<nat>, i: nat): int
    requires i < |t.players|
  {
    if i in paid then Checked(t, t.players[i], AutoOf(autos, i)) else 0
  }

  /** A legal rebuy is positive and leaves the stack within the table's limits; nothing else is bought. */
  lemma CheckedIsLegal(t: Table, p: PlayerState, auto: int)
    ensures
      var bought := Checked(t, p, auto);
      bought == 0 || (0 < bought && t.minBuyin <= p.stack + bought <= t.maxBuyin)
  {
  }

  lemma {:induction false} CheckEffects(t: Table, p: PlayerState, auto: int)
    ensures EffectAll(p, CheckOf(t, p, auto)) == Success(p.(pendingRebuy := Checked(t, p, auto)))
  {
    if CheckOf(t, p, auto) != [] {
      EffectOne(p, CheckOf(t, p, auto)[0]);
    }
  }

  ghost predicate HasBought(t: Table, autos: map<nat, int>, paid: set<nat>, u: Table) {
    && u == t.(players := u.players) && |u.players| == |t.players|
    && forall i: nat :: i < |t.players| ==>
         u.players[i] == t.players[i].(stack := t.players[i].stack + BoughtBy(t, autos, paid, i), pendingRebuy := 0)
  }

  lemma ChecksFire(t: Table, autos: map<nat, int>) returns (v: Table)
    ensures FireAll(t, EventLists(Below(|t.players|), CheckAt(t, autos))) == Success(v)
    ensures v == t.(players := v.players) && |v.players| == |t.players|
    ensures forall i: nat :: i < |t.players| ==>
      v.players[i] == t.players[i].(pendingRebuy := Checked(t, t.players[i], AutoOf(autos, i)))
  {
    forall i: nat | i < |t.players|
      ensures EffectAll(t.players[i], CheckAt(t, autos)(i))
           == Success(t.players[i].(pendingRebuy := Checked(t, t.players[i], AutoOf(autos, i))))
    {
      CheckEffects(t, t.players[i], AutoOf(autos, i));
    }
    v := FireLists(t, Below(|t.players|), CheckAt(t, autos));
    forall i: nat | i < |t.players| ensures i in Below(|t.players|) {
      assert Below(|t.players|)[i] == i;
    }
  }

  lemma UpdatesFire(t: Table, paid: set<nat>) returns (u: Table)
    requires forall i :: 0 <= i < |t.players| ==> !t.players[i].HasInHandState()
    ensures FireAll(t, EventLists(Below(|t.players|), UpdateAt(t, paid))) == Success(u)
    ensures u == t.(players := u.players) && |u.players| == |t.players|
    ensures forall i: nat :: i < |t.players| ==>
      var p := t.players[i];
      u.players[i] == p.(stack := if i in paid then p.stack + p.pendingRebuy else p.stack, pendingRebuy := 0)
  {
    forall i: nat | i < |t.players|
      ensures
        var p := t.players[i];
        EffectAll(p, UpdateAt(t, paid)(i))
          == Success(p.(stack := if i in paid then p.stack + p.pendingRebuy else p.stack, pendingRebuy := 0))
    {
      RebuyEffects(t.players[i], i in paid);
    }
    u := FireLists(t, Below(|t.players|), UpdateAt(t, paid));
    forall i: nat | i < |t.players| ensures i in Below(|t.players|) {
      assert Below(|t.players|)[i] == i;
    }
  }

  /** No rebuy event is refused, and each stack grows by what its player bought. */
  lemma RebuysGoThrough(t: Table, autos: map<nat, int>, paid: set<nat>) returns (u: Table)
    requires AllIdle(t)
    ensures Rebought(t, autos, paid) == Success(u) && HasBought(t, autos, paid, u)
  {
    var v := ChecksFire(t, autos);
    forall i: nat | i < |v.players| ensures !v.players[i].HasInHandState() {
      assert Idle(t.players[i]);
    }
    u := UpdatesFire(v, paid);
  }

  // What is bought in all

  function BoughtTo(t: Table, autos: map<nat, int>, paid: set<nat>, n: nat): int
    requires n <= |t.players|
  {
    if n == 0 then 0 else BoughtTo(t, autos, paid, n - 1) + BoughtBy(t, autos, paid, n - 1)
  }

  function BoughtInAll(t: Table, autos: map<nat, int>, paid: set<nat>): int {
    BoughtTo(t, autos, paid, |t.players|)
  }

  lemma {:induction false} BoughtAddsUp(t: Table, autos: map<nat, int>, paid: set<nat>, u: Table, n: nat)
    requires HasBought(t, autos, paid, u) && n <= |t.players|
    ensures Sum(u.players[..n], ChipsOf) == Sum(t.players[..n], ChipsOf) + BoughtTo(t, autos, paid, n)
    decreases n
  {
    if n > 0 {
      BoughtAddsUp(t, autos, paid, u, n - 1);
      assert u.players[..n][..n - 1] == u.players[..n - 1] && t.players[..n][..n - 1] == t.players[..n - 1];
    }
  }

  lemma RebuysKeepPlaces(t: Table, autos: map<nat, int>, paid: set<nat>, u: Table)
    requires HasBought(t, autos, paid, u) && AllIdle(t)
    ensures AllIdle(u) && Total(u) == Total(t) + BoughtInAll(t, autos, paid)
    ensures forall i :: 0 <= i < |t.players| ==> u.players[i].position == t.players[i].position
    ensures forall i :: 0 <= i < |t.players| ==> u.players[i].Active() == t.players[i].Active()
    ensures Seating(t) ==> Seating(u)
  {
    forall i: nat | i < |t.players| ensures Idle(u.players[i]) {
      assert Idle(t.players[i]);
      CheckedIsLegal(t, t.players[i], AutoOf(autos, i));
    }
    BoughtAddsUp(t, autos, paid, u, |t.players|);
    assert u.players[..|t.players|] == u.players && t.players[..|t.players|] == t.players;
  }
}
