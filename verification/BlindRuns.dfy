/** Hands in a row with the same players: the blinds go round one place at a time. */
module BlindRuns {
  import opened Wrappers
  import opened Players
  import opened Tables
  import opened Accessors
  import opened Rings
  import opened Blinds

  /** The table with its positions set. */
  function SetAt(t: Table, p: Positions): Table {
    t.(btnPos := Some(p.btn), sbPos := Some(p.sb), bbPos := Some(p.bb))
  }

  /** Nobody is waiting to sit in. */
  ghost predicate NobodyPending(t: Table) {
    forall pos: nat :: pos < t.numSeats ==> (ReadySeat(t)(pos) ==> ActiveSeat(t)(pos))
  }

  /** Button, small and big blind on consecutive players; the button is the small blind heads up. */
  ghost predicate InARow(t: Table, p: Positions) {
    && Placed(t, p.sb, p.bb) && ActiveSeat(t)(p.sb) && ActiveSeat(t)(p.bb)
    && if CountOf(t.numSeats, ActiveSeat(t)) == 2 then p.btn == p.sb else ButtonPlaced(t, p.btn, p.sb, p.bb)
  }

  ghost predicate Steady(t: Table) {
    Seating(t) && NobodyPending(t) && CountOf(t.numSeats, ActiveSeat(t)) >= 2
  }

  lemma SamePeople(t: Table, p: Positions)
    ensures ActiveSeat(SetAt(t, p)) == ActiveSeat(t) && ReadySeat(SetAt(t, p)) == ReadySeat(t)
  {
  }

  lemma SteadyStays(t: Table, p: Positions)
    requires Steady(t)
    ensures Steady(SetAt(t, p)) && SetAt(t, p).numSeats == t.numSeats
    ensures InARow(t, p) ==> InARow(SetAt(t, p), p)
  {
    SamePeople(t, p);
    var u := SetAt(t, p);
    assert forall i :: 0 <= i < |u.players| ==> u.players[i] == t.players[i];
  }

  lemma InMeansActive(t: Table, bb: nat)
    requires Steady(t) && bb < t.numSeats
    ensures CountOf(t.numSeats, InAt(t, bb)) == CountOf(t.numSeats, ActiveSeat(t))
  {
    if ActiveSeat(t)(bb) {
      ActiveIsReady(t, bb);
    }
    CountSame(t.numSeats, InAt(t, bb), ActiveSeat(t));
  }

  lemma NextActive(t: Table, from: nat, to: nat)
    requires Steady(t) && Follows(t.numSeats, from, to, ReadySeat(t))
    ensures Follows(t.numSeats, from, to, ActiveSeat(t))
  {
    NoneActive(t, from, to);
  }

  /** Two seats from which the next active seat is the same are the same. */
  lemma OnlyPrevious(n: nat, a: nat, b: nat, to: nat, p: nat -> bool)
    requires a < n && b < n && to < n && a != to && b != to && p(a) && p(b)
    requires NoneBetween(n, a, to, p) && NoneBetween(n, b, to, p)
    ensures a == b
  {
    assert Ahead(n, a, Gap(n, a, b)) == b && Ahead(n, b, Gap(n, b, a)) == a;
  }

  lemma OnlyOther(t: Table, x: nat, y: nat, bb: nat)
    requires x < t.numSeats && y < t.numSeats && bb < t.numSeats && x != bb && y != bb
    requires ActiveSeat(t)(x) && ActiveSeat(t)(y) && ActiveSeat(t)(bb) && CountOf(t.numSeats, ActiveSeat(t)) == 2
    ensures x == y
  {
    if x != y {
      ThreeApart(t.numSeats, ActiveSeat(t), x, y, bb);
    }
  }

  ghost predicate MovedOn(t: Table, p: Positions, q: Positions) {
    && InARow(t, q) && Follows(t.numSeats, p.bb, q.bb, ActiveSeat(t)) && q.sb == p.bb
    && (CountOf(t.numSeats, ActiveSeat(t)) != 2 ==> q.btn == p.sb)
  }

  lemma RowMoves(t: Table, p: Positions)
    requires Steady(t) && InARow(t, p)
    ensures Rotation(t, p.sb, p.bb).Success? && MovedOn(t, p, Rotation(t, p.sb, p.bb).value)
  {
    RotationMoves(t, p.sb, p.bb);
    var q := Rotation(t, p.sb, p.bb).value;
    InMeansActive(t, q.bb);
    NextActive(t, p.bb, q.bb);
    if CountOf(t.numSeats, ActiveSeat(t)) == 2 {
      OnlyOther(t, q.sb, p.bb, q.bb);
    } else {
      OnlyPrevious(t.numSeats, q.btn, p.sb, p.bb, ActiveSeat(t));
    }
  }

  /** Everybody moves on by one: the button to the small blind, the small blind to the big blind. */
  lemma NextInARow(t: Table, p: Positions)
    requires Steady(t) && InARow(t, p)
    ensures Rotation(SetAt(t, p), p.sb, p.bb).Success? && MovedOn(t, p, Rotation(SetAt(t, p), p.sb, p.bb).value)
  {
    SteadyStays(t, p);
    RowMoves(SetAt(t, p), p);
    SamePeople(t, p);
  }

  /** The positions j hands later. */
  function AfterHands(t: Table, p: Positions, j: nat): (q: Positions)
    requires Steady(t) && InARow(t, p)
    ensures InARow(t, q)
  {
    if j == 0 then p
    else
      var last := AfterHands(t, p, j - 1);
      NextInARow(t, last);
      Rotation(SetAt(t, last), last.sb, last.bb).value
  }

  lemma SuccMod(a: nat, k: nat)
    requires k > 0
    ensures (a + 1) % k == if a % k + 1 == k then 0 else a % k + 1
  {
    assert a == (a / k) * k + a % k;
    if a % k + 1 == k {
      assert (a / k + 1) * k == (a / k) * k + k;
      ModOf(a / k + 1, k, 0);
    } else {
      ModOf(a / k, k, a % k + 1);
    }
  }

  function HowMany(t: Table): nat {
    CountOf(t.numSeats, ActiveSeat(t))
  }

  /** The big blind's number, j hands later, counting players from seat 0. */
  function Number(t: Table, p: Positions, j: nat): nat
    requires Steady(t) && InARow(t, p)
  {
    CountOf(AfterHands(t, p, j).bb, ActiveSeat(t))
  }

  lemma NumberNext(t: Table, p: Positions, j: nat)
    requires Steady(t) && InARow(t, p)
    ensures Number(t, p, j) < HowMany(t)
    ensures Number(t, p, j + 1) == if Number(t, p, j) + 1 == HowMany(t) then 0 else Number(t, p, j) + 1
  {
    var last := AfterHands(t, p, j);
    NextInARow(t, last);
    FollowsCounts(t.numSeats, last.bb, AfterHands(t, p, j + 1).bb, ActiveSeat(t));
  }

  /** Counting j on from first, and round at k. */
  function Turn(first: nat, k: nat, j: nat): nat {
    if j == 0 then first
    else if Turn(first, k, j - 1) + 1 == k then 0
    else Turn(first, k, j - 1) + 1
  }

  lemma {:induction false} TurnIsMod(first: nat, k: nat, j: nat)
    requires first < k
    ensures Turn(first, k, j) == (first + j) % k
    decreases j
  {
    if j > 0 {
      TurnIsMod(first, k, j - 1);
      SuccMod(first + (j - 1), k);
    }
  }

  lemma {:induction false} TurnsDiffer(first: nat, k: nat, i: nat, j: nat)
    requires first < k && i < j < i + k
    ensures Turn(first, k, i) != Turn(first, k, j)
  {
    TurnIsMod(first, k, i);
    TurnIsMod(first, k, j);
    ModShift(first + i, first + j, k);
  }

  lemma TurnReaches(first: nat, k: nat, m: nat, r: nat) returns (j: nat)
    requires first < k && r < k
    ensures m <= j < m + k && Turn(first, k, j) == r
  {
    var x := SeatReached(first + m, k, r);
    j := x - first;
    TurnIsMod(first, k, j);
  }

  lemma TurnNext(first: nat, k: nat, j: nat, a: nat, b: nat)
    requires a == Turn(first, k, j) && b == if a + 1 == k then 0 else a + 1
    ensures b == Turn(first, k, j + 1)
  {
  }

  /** The number goes up by one each hand, and round. */
  lemma {:induction false} NumberAfter(t: Table, p: Positions, j: nat, first: nat, k: nat)
    requires Steady(t) && InARow(t, p) && first == Number(t, p, 0) && k == HowMany(t)
    ensures Number(t, p, j) == Turn(first, k, j)
    decreases j
  {
    if j > 0 {
      var i: nat := j - 1;
      NumberAfter(t, p, i, first, k);
      NumberNext(t, p, i);
      TurnNext(first, k, i, Number(t, p, i), Number(t, p, i + 1));
    }
  }

  lemma {:induction false} Differ(t: Table, p: Positions, i: nat, j: nat)
    requires Steady(t) && InARow(t, p) && i < j < i + HowMany(t)
    ensures AfterHands(t, p, i).bb != AfterHands(t, p, j).bb
  {
    NumberNext(t, p, 0);
    NumberAfter(t, p, i, Number(t, p, 0), HowMany(t));
    NumberAfter(t, p, j, Number(t, p, 0), HowMany(t));
    TurnsDiffer(Number(t, p, 0), HowMany(t), i, j);
  }

  lemma ComesRound(t: Table, p: Positions, m: nat, seat: nat) returns (j: nat)
    requires Steady(t) && InARow(t, p) && seat < t.numSeats && ActiveSeat(t)(seat)
    ensures m <= j < m + HowMany(t) && AfterHands(t, p, j).bb == seat
  {
    CountBelow(t.numSeats, seat, ActiveSeat(t));
    NumberNext(t, p, 0);
    j := TurnReaches(Number(t, p, 0), HowMany(t), m, CountOf(seat, ActiveSeat(t)));
    NumberAfter(t, p, j, Number(t, p, 0), HowMany(t));
    CountIdentifies(t.numSeats, AfterHands(t, p, j).bb, seat, ActiveSeat(t));
  }

  /** In any k hands in a row, each of the k players is the big blind in exactly one. */
  lemma EachPostsOnce(t: Table, p: Positions, m: nat, seat: nat) returns (j: nat)
    requires Steady(t) && InARow(t, p) && seat < t.numSeats && ActiveSeat(t)(seat)
    ensures m <= j < m + HowMany(t) && AfterHands(t, p, j).bb == seat
    ensures forall i: nat :: m <= i < m + HowMany(t) && i != j ==> AfterHands(t, p, i).bb != seat
  {
    j := ComesRound(t, p, m, seat);
    forall i: nat | m <= i < m + HowMany(t) && i != j ensures AfterHands(t, p, i).bb != seat {
      if i < j {
        Differ(t, p, i, j);
      } else {
        Differ(t, p, j, i);
      }
    }
  }
}
