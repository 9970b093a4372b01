/** A new round: everybody who can play sits in, and the positions follow from the button. */
module NewRounds {
  import opened Wrappers
  import opened Indexes
  import opened Players
  import opened Tables
  import opened Accessors
  import opened Betting
  import opened Rings
  import opened Blinds
  import opened BlindRuns
  import opened Deals
  import opened Debts
  import opened Sitting

  /** Somebody seated there can play. */
  function PlaySeat(t: Table): nat -> bool {
    (pos: nat) => match FindAt(t.players, pos, false) case None => false case Some(i) => CanPlay(t, t.players[i])
  }

  /** The seats with the property, from the given one up. */
  function SeatsFrom(n: nat, seat: nat, p: nat -> bool): (r: seq<nat>)
    requires seat <= n
    ensures forall x: nat :: x in r <==> seat <= x < n && p(x)
    ensures forall j, k :: 0 <= j < k < |r| ==> r[j] < r[k]
    decreases n - seat
  {
    if seat == n then []
    else
      var rest := SeatsFrom(n, seat + 1, p);
      assert forall k :: 0 <= k < |rest| ==> rest[k] in rest;
      (if p(seat) then [seat] else []) + rest
  }

  lemma {:induction false} SeatsCounted(n: nat, seat: nat, p: nat -> bool)
    requires seat <= n
    ensures |SeatsFrom(n, seat, p)| + CountOf(seat, p) == CountOf(n, p)
    decreases n - seat
  {
    if seat < n {
      SeatsCounted(n, seat + 1, p);
    }
  }

  /** The three positions, given the seats in play. */
  function PositionsAmong(seats: seq<nat>, btn: nat): Result<Positions, Error> {
    if |seats| == 1 || btn !in seats then Failure(ImpossibleGameState)
    else
      var order := Rotated(seats, IndexOf(seats, btn));
      if |seats| == 2 then Success(Positions(btn, btn, order[1]))
      else Success(Positions(btn, order[1], order[2]))
  }

  /** positions_from_locked_btn */
  function LockedPositions(t: Table, btn: nat): Result<Positions, Error> {
    PositionsAmong(SeatsFrom(t.numSeats, 0, PlaySeat(t)), btn)
  }

  function NextIndex(s: seq<nat>, k: nat): (j: nat)
    requires k < |s|
    ensures j < |s|
  {
    if k + 1 < |s| then k + 1 else 0
  }

  /** The seats of n with the property, in order. */
  ghost predicate Lists(n: nat, s: seq<nat>, p: nat -> bool) {
    && (forall x: nat :: x in s <==> x < n && p(x))
    && forall j, k :: 0 <= j < k < |s| ==> s[j] < s[k]
  }

  lemma NotListed(n: nat, s: seq<nat>, k: nat, d: nat)
    requires k < |s| && (forall j, l :: 0 <= j < l < |s| ==> s[j] < s[l])
    requires forall j :: 0 <= j < |s| ==> s[j] < n
    requires 0 < d < Gap(n, s[k], s[NextIndex(s, k)])
    ensures Ahead(n, s[k], d) !in s
  {
    forall j | 0 <= j < |s| ensures s[j] != Ahead(n, s[k], d) {
      assert j < k ==> s[j] < s[k];
      assert j > NextIndex(s, k) ==> s[NextIndex(s, k)] < s[j];
    }
  }

  /** The next in the list is the next round the table. */
  lemma NextFollows(n: nat, s: seq<nat>, p: nat -> bool, k: nat)
    requires Lists(n, s, p) && |s| >= 2 && k < |s|
    ensures Follows(n, s[k], s[NextIndex(s, k)], p)
  {
    var from, to := s[k], s[NextIndex(s, k)];
    assert forall j :: 0 <= j < |s| ==> s[j] in s;
    forall d: nat | 0 < d < Gap(n, from, to) ensures !p(Ahead(n, from, d)) {
      NotListed(n, s, k, d);
    }
  }

  lemma RotatedNext(s: seq<nat>, k: nat)
    requires |s| >= 2 && k < |s|
    ensures Rotated(s, k)[1] == s[NextIndex(s, k)]
    ensures |s| >= 3 ==> Rotated(s, k)[2] == s[NextIndex(s, NextIndex(s, k))]
  {
  }

  /** In a row round the table: heads up the button is the small blind. */
  ghost predicate Seated(n: nat, count: nat, p: Positions, play: nat -> bool) {
    && p.btn < n && play(p.btn) && Follows(n, p.sb, p.bb, play)
    && if count == 2 then p.sb == p.btn else Follows(n, p.btn, p.sb, play) && p.bb != p.btn
  }

  lemma ThreeInARow(n: nat, s: seq<nat>, p: nat -> bool, k: nat)
    requires Lists(n, s, p) && |s| >= 3 && k < |s|
    ensures
      var j := NextIndex(s, k);
      Follows(n, s[k], s[j], p) && Follows(n, s[j], s[NextIndex(s, j)], p) && s[NextIndex(s, j)] != s[k]
  {
    NextFollows(n, s, p, k);
    NextFollows(n, s, p, NextIndex(s, k));
  }

  lemma PositionsAre(s: seq<nat>, btn: nat) returns (k: nat)
    requires |s| >= 2 && btn in s
    ensures k < |s| && s[k] == btn
    ensures
      var j := NextIndex(s, k);
      PositionsAmong(s, btn) ==
        Success(if |s| == 2 then Positions(btn, btn, s[j]) else Positions(btn, s[j], s[NextIndex(s, j)]))
  {
    k := IndexOf(s, btn);
    RotatedNext(s, k);
  }

  lemma PositionsFollow(n: nat, s: seq<nat>, play: nat -> bool, btn: nat)
    requires Lists(n, s, play) && |s| >= 2 && btn in s
    ensures PositionsAmong(s, btn).Success? && PositionsAmong(s, btn).value.btn == btn
    ensures Seated(n, |s|, PositionsAmong(s, btn).value, play)
  {
    var k := PositionsAre(s, btn);
    assert btn < n && play(btn);
    if |s| == 2 {
      NextFollows(n, s, play, k);
    } else {
      ThreeInARow(n, s, play, k);
    }
  }

  /** With a button at a playing seat and somebody else to play, the positions are found, in a row from there. */
  lemma LockedPositionsFollow(t: Table, btn: nat)
    requires btn < t.numSeats && PlaySeat(t)(btn) && CountOf(t.numSeats, PlaySeat(t)) >= 2
    ensures LockedPositions(t, btn).Success? && LockedPositions(t, btn).value.btn == btn
    ensures Seated(t.numSeats, CountOf(t.numSeats, PlaySeat(t)), LockedPositions(t, btn).value, PlaySeat(t))
  {
    SeatsCounted(t.numSeats, 0, PlaySeat(t));
    PositionsFollow(t.numSeats, SeatsFrom(t.numSeats, 0, PlaySeat(t)), PlaySeat(t), btn);
  }

  // Sitting in

  function NewIn(t: Table): nat -> bool {
    (i: nat) => i < |t.players| && CanPlay(t, t.players[i]) && t.players[i].playing != Some(SittingIn)
  }

  /** new_round_sitting_events */
  function SitEverybodyIn(t: Table): seq<Event> {
    EventLists(Filter(SeatedFrom(t, 0), NewIn(t)), (i: nat) => [SitIn(true), Reset])
  }

  /** In a new round nobody has to wait; when a game only in effect starts anew, some do. */
  function Waiters(t: Table, newRound: bool, p: Positions): seq<nat>
    requires p.btn < t.numSeats && p.bb < t.numSeats
  {
    if newRound then [] else MustWaitFor(t, p.btn, p.bb)
  }

  function QueuedIn(t: Table, newRound: bool, p: Positions): nat -> bool
    requires p.btn < t.numSeats && p.bb < t.numSeats
  {
    var wait := Waiters(t, newRound, p);
    (i: nat) => PendingIn(t)(i) && i !in wait
  }

  /** reset_sit_in_pending_players, which asks nobody for chips */
  function SitQueuedIn(t: Table, newRound: bool, p: Positions): seq<Event>
    requires p.btn < t.numSeats && p.bb < t.numSeats
  {
    EventLists(Filter(SeatedFrom(t, 0), QueuedIn(t, newRound, p)), (i: nat) => [SitIn(true), Reset])
  }

  /** sit_in_pending_and_move_blinds with a new game */
  function StartRound(t: Table, newRound: bool, p: Positions): seq<Event>
    requires p.btn < t.numSeats && p.bb < t.numSeats
  {
    NewGameOwed(t) + SitEverybodyIn(t) + SitQueuedIn(t, newRound, p) +
      [OnTable(SetBlindPos(Some(p.btn), Some(p.sb), Some(p.bb)))]
  }

  function Either(f: nat -> bool, g: nat -> bool): nat -> bool {
    (i: nat) => f(i) || g(i)
  }

  lemma SittingKeepsSeating(t: Table, who: nat -> bool, u: Table)
    requires Seating(t) && SitsIn(t, who, u)
    ensures Seating(u)
    ensures forall i :: 0 <= i < |t.players| ==>
      u.players[i].position == t.players[i].position && u.players[i].seated == t.players[i].seated
  {
  }

  lemma SitTwice(t: Table, f: nat -> bool, v: Table, g: nat -> bool, u: Table)
    requires SitsIn(t, f, v) && SitsIn(v, g, u)
    ensures SitsIn(t, Either(f, g), u)
  {
    forall i: nat | i < |t.players|
      ensures if t.players[i].seated && Either(f, g)(i) then SatIn(t.players[i], u.players[i])
              else Owing(t.players[i], u.players[i])
    {
      assert Either(f, g)(i) <==> f(i) || g(i);
    }
  }

  /** Those who are seated and named now sit in, after some debts. */
  lemma OwingThenIn(t: Table, events: seq<Event>, v: Table, f: nat -> bool) returns (u: Table)
    requires Seating(t) && FireAll(t, events) == Success(v) && AllOwing(t, v)
    ensures FireAll(t, events + EventLists(Filter(SeatedFrom(t, 0), f), (i: nat) => [SitIn(true), Reset])) == Success(u)
    ensures SitsIn(t, f, u) && Seating(u)
  {
    SeatedAmong(t, f);
    var s := Filter(SeatedFrom(t, 0), f);
    forall i | 0 <= i < |t.players|
      ensures v.players[i].seated == t.players[i].seated && v.players[i].position == t.players[i].position
      ensures v.players[i].playing == t.players[i].playing
    {
      assert Owing(t.players[i], v.players[i]);
    }
    u := TheseSitIn(v, s, f);
    FireAppend(t, events, EventLists(s, (i: nat) => [SitIn(true), Reset]));
    OwingSitIn(t, v, f, u);
    SittingKeepsSeating(t, f, u);
  }

  lemma OwingSitIn(t: Table, v: Table, f: nat -> bool, u: Table)
    requires AllOwing(t, v) && SitsIn(v, f, u)
    ensures SitsIn(t, f, u)
  {
    forall i: nat | i < |t.players|
      ensures if t.players[i].seated && f(i) then SatIn(t.players[i], u.players[i])
              else Owing(t.players[i], u.players[i])
    {
      assert Owing(t.players[i], v.players[i]);
    }
  }

  lemma ThenTheseSitIn(t: Table, events: seq<Event>, v: Table, f: nat -> bool, g: nat -> bool) returns (u: Table)
    requires Seating(t) && FireAll(t, events) == Success(v) && SitsIn(t, f, v) && Seating(v)
    ensures FireAll(t, events + EventLists(Filter(SeatedFrom(t, 0), g), (i: nat) => [SitIn(true), Reset])) == Success(u)
    ensures SitsIn(t, Either(f, g), u) && Seating(u)
  {
    SeatedAmong(t, g);
    SittingKeepsSeating(t, f, v);
    u := TheseSitIn(v, Filter(SeatedFrom(t, 0), g), g);
    FireAppend(t, events, EventLists(Filter(SeatedFrom(t, 0), g), (i: nat) => [SitIn(true), Reset]));
    SittingKeepsSeating(v, g, u);
    SitTwice(t, f, v, g, u);
  }

  /** A new game raises nothing: those who can play and those who are queued sit in. */
  lemma RoundSitsIn(t: Table, newRound: bool, p: Positions) returns (u: Table)
    requires Seating(t) && p.btn < t.numSeats && p.bb < t.numSeats
    ensures FireAll(t, StartRound(t, newRound, p)) ==
      Success(u.(btnPos := Some(p.btn), sbPos := Some(p.sb), bbPos := Some(p.bb)))
    ensures SitsIn(t, Either(NewIn(t), QueuedIn(t, newRound, p)), u) && Seating(u)
  {
    var w := NewGameOwedFires(t);
    var v := OwingThenIn(t, NewGameOwed(t), w, NewIn(t));
    u := ThenTheseSitIn(t, NewGameOwed(t) + SitEverybodyIn(t), v, NewIn(t), QueuedIn(t, newRound, p));
    var e := OnTable(SetBlindPos(Some(p.btn), Some(p.sb), Some(p.bb)));
    FireAppend(t, NewGameOwed(t) + SitEverybodyIn(t) + SitQueuedIn(t, newRound, p), [e]);
    FireOne(u, e);
  }

  /** Who is active then: whoever can play, and whoever is queued. */
  lemma RoundActive(t: Table, newRound: bool, p: Positions, u: Table, i: nat)
    requires Seating(t) && p.btn < t.numSeats && p.bb < t.numSeats
    requires SitsIn(t, Either(NewIn(t), QueuedIn(t, newRound, p)), u) && i < |t.players| && t.players[i].seated
    ensures u.players[i].Active() <==> CanPlay(t, t.players[i]) || QueuedIn(t, newRound, p)(i)
  {
    assert Either(NewIn(t), QueuedIn(t, newRound, p))(i) <==> NewIn(t)(i) || QueuedIn(t, newRound, p)(i);
    if t.players[i].Active() {
      ActiveStates(t.players[i]);
    }
  }

  /** Everybody who is queued has the chips to play. */
  ghost predicate QueuedCanPlay(t: Table, newRound: bool, p: Positions)
    requires p.btn < t.numSeats && p.bb < t.numSeats
  {
    forall i: nat :: i < |t.players| && t.players[i].seated && QueuedIn(t, newRound, p)(i) ==> CanPlay(t, t.players[i])
  }

  ghost predicate PlayersAreActive(t: Table, u: Table) {
    forall pos: nat :: ActiveSeat(u)(pos) <==> PlaySeat(t)(pos)
  }

  lemma SeatActive(t: Table, u: Table, i: nat)
    requires Seating(t) && Seating(u) && |u.players| == |t.players| && i < |t.players| && t.players[i].seated
    requires u.players[i].seated && u.players[i].position == t.players[i].position
    ensures ActiveSeat(u)(t.players[i].position.value) <==> u.players[i].Active()
    ensures PlaySeat(t)(t.players[i].position.value) <==> CanPlay(t, t.players[i])
  {
    FoundAt(t, i, false);
    var f := FindAt(u.players, t.players[i].position.value, true);
    if u.players[i].Active() {
      FoundAt(u, i, true);
    } else if f.Some? {
      FoundAt(u, f.value, false);
      FoundAt(u, i, false);
    }
  }

  lemma {:induction false} EmptySeat(t: Table, u: Table, pos: nat)
    requires |u.players| == |t.players|
    requires forall i :: 0 <= i < |t.players| ==>
      u.players[i].position == t.players[i].position && u.players[i].seated == t.players[i].seated
    ensures FindAt(t.players, pos, false).None? ==> !ActiveSeat(u)(pos) && !PlaySeat(t)(pos)
  {
  }

  /** Exactly those who can play are active in a new round if and only if everybody who is queued can. */
  lemma RoundExact(t: Table, newRound: bool, p: Positions, u: Table)
    requires Seating(t) && p.btn < t.numSeats && p.bb < t.numSeats
    requires SitsIn(t, Either(NewIn(t), QueuedIn(t, newRound, p)), u) && Seating(u)
    ensures PlayersAreActive(t, u) <==> QueuedCanPlay(t, newRound, p)
  {
    SittingKeepsSeating(t, Either(NewIn(t), QueuedIn(t, newRound, p)), u);
    if PlayersAreActive(t, u) {
      forall i: nat | i < |t.players| && t.players[i].seated && QueuedIn(t, newRound, p)(i)
        ensures CanPlay(t, t.players[i])
      {
        RoundActive(t, newRound, p, u, i);
        SeatActive(t, u, i);
      }
    }
    if QueuedCanPlay(t, newRound, p) {
      forall pos: nat ensures ActiveSeat(u)(pos) <==> PlaySeat(t)(pos) {
        EmptySeat(t, u, pos);
        var f := FindAt(t.players, pos, false);
        if f.Some? {
          RoundActive(t, newRound, p, u, f.value);
          SeatActive(t, u, f.value);
        }
      }
    }
  }

  lemma SeatedInARow(u: Table, p: Positions)
    requires Seated(u.numSeats, CountOf(u.numSeats, ActiveSeat(u)), p, ActiveSeat(u)) && ActiveSeat(u)(p.btn)
    ensures InARow(u, p)
  {
    if CountOf(u.numSeats, ActiveSeat(u)) != 2 {
      RowFits(u.numSeats, p, ActiveSeat(u));
    }
  }

  lemma RowFits(n: nat, p: Positions, play: nat -> bool)
    requires p.btn < n && play(p.btn) && Follows(n, p.btn, p.sb, play) && Follows(n, p.sb, p.bb, play) && p.bb != p.btn
    ensures Gap(n, p.btn, p.sb) + Gap(n, p.sb, p.bb) < n
  {
    assert Ahead(n, p.sb, Gap(n, p.sb, p.btn)) == p.btn;
  }

  lemma SameFollows(n: nat, from: nat, to: nat, p: nat -> bool, q: nat -> bool)
    requires Follows(n, from, to, p) && forall x: nat :: p(x) <==> q(x)
    ensures Follows(n, from, to, q)
  {
  }

  lemma ActiveInARow(t: Table, u: Table, p: Positions)
    requires u.numSeats == t.numSeats && PlayersAreActive(t, u)
    requires Seated(t.numSeats, CountOf(t.numSeats, PlaySeat(t)), p, PlaySeat(t))
    ensures InARow(u, p) && CountOf(u.numSeats, ActiveSeat(u)) == CountOf(t.numSeats, PlaySeat(t))
  {
    CountSame(t.numSeats, ActiveSeat(u), PlaySeat(t));
    SameFollows(t.numSeats, p.sb, p.bb, PlaySeat(t), ActiveSeat(u));
    if CountOf(t.numSeats, PlaySeat(t)) != 2 {
      SameFollows(t.numSeats, p.btn, p.sb, PlaySeat(t), ActiveSeat(u));
    }
    SeatedInARow(u, p);
  }

  /**
   * A new game raises nothing. Its players are those who can play and those who are queued; when all
   * of these can play, the positions are in a row among them.
   */
  lemma NewRoundStarts(t: Table, newRound: bool, btn: nat) returns (p: Positions, u: Table)
    requires Seating(t) && btn < t.numSeats && PlaySeat(t)(btn) && CountOf(t.numSeats, PlaySeat(t)) >= 2
    ensures LockedPositions(t, btn) == Success(p) && p.btn < t.numSeats && p.bb < t.numSeats
    ensures FireAll(t, StartRound(t, newRound, p)) ==
      Success(u.(btnPos := Some(p.btn), sbPos := Some(p.sb), bbPos := Some(p.bb)))
    ensures SitsIn(t, Either(NewIn(t), QueuedIn(t, newRound, p)), u) && Seating(u)
    ensures PlayersAreActive(t, u) <==> QueuedCanPlay(t, newRound, p)
    ensures QueuedCanPlay(t, newRound, p) ==> InARow(u, p) && CountOf(u.numSeats, ActiveSeat(u)) >= 2
  {
    LockedPositionsFollow(t, btn);
    p := LockedPositions(t, btn).value;
    u := RoundSitsIn(t, newRound, p);
    RoundExact(t, newRound, p, u);
    if QueuedCanPlay(t, newRound, p) {
      ActiveInARow(t, u, p);
    }
  }

  // Somebody without the chips

  /** Three players and, on seat 1, somebody queued who has less than a big blind. */
  function ShortInQueue(): Table {
    Table(4, 5, 10, 5, 1000, None, None, None, [], [], [
      SeatRow(0, SittingIn, 100), SeatRow(1, SitInPending, 5), SeatRow(2, SittingIn, 100), SeatRow(3, SittingIn, 100)])
  }

  lemma ShortSeats(t: Table)
    requires t == ShortInQueue()
    ensures PlaySeat(t)(0) && !PlaySeat(t)(1) && PlaySeat(t)(2) && PlaySeat(t)(3)
  {
    assert FindAt(t.players, 1, false, 1) == Some(1);
    assert FindAt(t.players, 2, false, 2) == Some(2);
    assert FindAt(t.players, 3, false, 3) == Some(3);
  }

  lemma ThreeOfFour(p: nat -> bool)
    requires p(0) && !p(1) && p(2) && p(3)
    ensures SeatsFrom(4, 0, p) == [0, 2, 3]
  {
    assert SeatsFrom(4, 3, p) == [3] + SeatsFrom(4, 4, p);
    assert SeatsFrom(4, 2, p) == [2] + SeatsFrom(4, 3, p);
    assert SeatsFrom(4, 1, p) == [] + SeatsFrom(4, 2, p);
    assert SeatsFrom(4, 0, p) == [0] + SeatsFrom(4, 1, p);
  }

  lemma LastOfThree(s: seq<nat>)
    requires s == [0, 2, 3]
    ensures PositionsAmong(s, 3) == Success(Positions(3, 0, 2))
  {
    var k := PositionsAre(s, 3);
  }

  lemma ShortPositions(t: Table)
    requires t == ShortInQueue()
    ensures LockedPositions(t, 3) == Success(Positions(3, 0, 2))
  {
    ShortSeats(t);
    ThreeOfFour(PlaySeat(t));
    LastOfThree(SeatsFrom(t.numSeats, 0, PlaySeat(t)));
  }

  /** Whoever is queued sits in, wherever that is. */
  lemma QueuedIsActive(t: Table, newRound: bool, p: Positions, u: Table, i: nat)
    requires Seating(t) && p.btn < t.numSeats && p.bb < t.numSeats && Seating(u)
    requires SitsIn(t, Either(NewIn(t), QueuedIn(t, newRound, p)), u)
    requires i < |t.players| && t.players[i].seated && QueuedIn(t, newRound, p)(i)
    ensures ActiveSeat(u)(t.players[i].position.value)
  {
    SittingKeepsSeating(t, Either(NewIn(t), QueuedIn(t, newRound, p)), u);
    RoundActive(t, newRound, p, u, i);
    SeatActive(t, u, i);
  }

  lemma BetweenIsNoRow(u: Table, p: Positions, d: nat)
    requires p.sb < u.numSeats && p.bb < u.numSeats && 0 < d < Gap(u.numSeats, p.sb, p.bb)
    requires ActiveSeat(u)(Ahead(u.numSeats, p.sb, d))
    ensures !InARow(u, p)
  {
  }

  /** Somebody queued between the blinds sits in there, whatever their chips. */
  lemma QueuedBreaksRow(t: Table, newRound: bool, p: Positions, i: nat, d: nat) returns (u: Table)
    requires Seating(t) && p.btn < t.numSeats && p.sb < t.numSeats && p.bb < t.numSeats
    requires i < |t.players| && t.players[i].seated && QueuedIn(t, newRound, p)(i)
    requires 0 < d < Gap(t.numSeats, p.sb, p.bb) && t.players[i].position.value == Ahead(t.numSeats, p.sb, d)
    ensures FireAll(t, StartRound(t, newRound, p)) ==
      Success(u.(btnPos := Some(p.btn), sbPos := Some(p.sb), bbPos := Some(p.bb)))
    ensures !InARow(u, p)
  {
    u := RoundSitsIn(t, newRound, p);
    QueuedIsActive(t, newRound, p, u, i);
    BetweenIsNoRow(u, p, d);
  }

  lemma ShortIsQueued(t: Table, p: Positions)
    requires t == ShortInQueue() && p.btn < 4 && p.bb < 4
    ensures Seating(t) && t.numSeats == 4 && |t.players| == 4
    ensures t.players[1].seated && t.players[1].position == Some(1) && QueuedIn(t, true, p)(1)
  {
    assert PendingIn(t)(1);
  }

  /** In a new round that player sits in all the same, between the blinds. */
  lemma ShortNewcomerSitsBetween(t: Table, p: Positions) returns (u: Table)
    requires t == ShortInQueue() && p == Positions(3, 0, 2)
    ensures LockedPositions(t, 3) == Success(p) && p.btn < t.numSeats && p.bb < t.numSeats
    ensures FireAll(t, StartRound(t, true, p)) ==
      Success(u.(btnPos := Some(p.btn), sbPos := Some(p.sb), bbPos := Some(p.bb)))
    ensures !InARow(u, p)
  {
    ShortPositions(t);
    ShortIsQueued(t, p);
    u := QueuedAtOne(t, p);
  }

  lemma QueuedAtOne(t: Table, p: Positions) returns (u: Table)
    requires Seating(t) && t.numSeats == 4 && |t.players| == 4 && p == Positions(3, 0, 2)
    requires t.players[1].seated && t.players[1].position == Some(1) && QueuedIn(t, true, p)(1)
    ensures FireAll(t, StartRound(t, true, p)) ==
      Success(u.(btnPos := Some(p.btn), sbPos := Some(p.sb), bbPos := Some(p.bb)))
    ensures !InARow(u, p)
  {
    u := QueuedBreaksRow(t, true, p, 1, 1);
  }
}
