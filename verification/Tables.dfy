/** The table with its players, the events dispatched on them, and the seat-order accessors. */
module Tables {
  import opened Wrappers
  import opened Indexes
  import opened Players

  datatype Table = Table(
    numSeats: nat,
    sb: int,
    bb: int,
    minBuyin: int,
    maxBuyin: int,
    btnPos: Option<nat>,
    sbPos: Option<nat>,
    bbPos: Option<nat>,
    deck: seq<Card>,
    board: seq<Card>,
    players: seq<PlayerState>
  )

  datatype TableEvent =
    | SetBlindPos(btn: Option<nat>, sb: Option<nat>, bb: Option<nat>)
    | Shuffle(cards: seq<Card>)
    | PopCards(n: nat)
    | DealBoard(card: Card)
    | ResetTable

  /** An event with its subject; chat, notification and transfer side effects change neither. */
  datatype Event = OnPlayer(i: nat, pe: PlayerEvent) | OnTable(te: TableEvent)

  function FireTable(t: Table, e: TableEvent): Result<Table, Error> {
    match e
    case SetBlindPos(btn, sb, bb) => Success(t.(btnPos := btn, sbPos := sb, bbPos := bb))
    case Shuffle(cards) => Success(t.(deck := cards))
    case PopCards(n) => if n > |t.deck| then Failure(OutOfCards) else Success(t.(deck := t.deck[n..]))
    case DealBoard(card) => Success(t.(board := t.board + [card]))
    case ResetTable => Success(t.(deck := [], board := []))
  }

  function Fire(t: Table, e: Event): Result<Table, Error> {
    match e
    case OnTable(te) => FireTable(t, te)
    case OnPlayer(i, pe) =>
      if i >= |t.players| then Failure(Rejected)
      else
        var p :- Dispatched(t.players[i], pe);
        Success(t.(players := t.players[i := p]))
  }

  /** internal_dispatch: the events in order, up to the first exception. */
  function FireAll(t: Table, events: seq<Event>): Result<Table, Error>
    decreases |events|
  {
    if events == [] then Success(t)
    else
      var next :- Fire(t, events[0]);
      FireAll(next, events[1..])
  }

  /** Where the events leave the table, even if one of them raises. */
  function FireUntil(t: Table, events: seq<Event>): Table
    decreases |events|
  {
    if events == [] then t
    else
      match Fire(t, events[0])
      case Failure(_) => t
      case Success(next) => FireUntil(next, events[1..])
  }

  /** All events before the first that raises take effect, and none after it. */
  lemma {:induction false} FireUntilStops(t: Table, events: seq<Event>) returns (k: nat)
    ensures k <= |events| && FireAll(t, events[..k]) == Success(FireUntil(t, events))
    ensures FireAll(t, events).Success? <==> k == |events|
    ensures k < |events| ==> Fire(FireUntil(t, events), events[k]).Failure?
    ensures k < |events| ==> FireAll(t, events) == Failure(Fire(FireUntil(t, events), events[k]).error)
    decreases |events|
  {
    if events == [] || Fire(t, events[0]).Failure? {
      k := 0;
    } else {
      var j := FireUntilStops(Fire(t, events[0]).value, events[1..]);
      k := j + 1;
      assert events[..k][0] == events[0] && events[..k][1..] == events[1..][..j];
      if j == |events[1..]| {
        assert events[..k] == events && events[1..][..j] == events[1..];
      }
    }
  }

  lemma {:induction false} FireAppend(t: Table, a: seq<Event>, b: seq<Event>)
    requires FireAll(t, a).Success?
    ensures FireAll(t, a + b) == FireAll(FireAll(t, a).value, b)
    decreases |a|
  {
    if a == [] {
      assert a + b == b;
    } else {
      assert (a + b)[1..] == a[1..] + b;
      FireAppend(Fire(t, a[0]).value, a[1..], b);
    }
  }

  lemma {:induction false} FireOne(t: Table, e: Event)
    ensures FireAll(t, [e]) == Fire(t, e)
  {
    assert [e][1..] == [];
  }

  // Seats

  /** Seated players hold one seat each, within range, and nobody else has a playing state. */
  predicate Seating(t: Table) {
    && 2 <= t.numSeats
    && (forall i :: 0 <= i < |t.players| && t.players[i].seated ==>
          t.players[i].playing.Some? && t.players[i].position.Some? && t.players[i].position.value < t.numSeats)
    && (forall i, j :: 0 <= i < j < |t.players| && t.players[i].seated && t.players[j].seated ==>
          t.players[i].position != t.players[j].position)
    && (forall i :: 0 <= i < |t.players| && !t.players[i].seated ==> t.players[i].playing.None?)
  }

  /** players_at_position: the first player at pos that is seated, or active if only those count. */
  function FindAt(ps: seq<PlayerState>, pos: nat, activeOnly: bool, k: nat := 0): (r: Option<nat>)
    requires k <= |ps|
    ensures r.Some? ==> k <= r.value < |ps| && At(ps[r.value], pos, activeOnly)
    ensures r.None? ==> forall i :: k <= i < |ps| ==> !At(ps[i], pos, activeOnly)
    decreases |ps| - k
  {
    if k == |ps| then None
    else if At(ps[k], pos, activeOnly) then Some(k)
    else FindAt(ps, pos, activeOnly, k + 1)
  }

  predicate At(p: PlayerState, pos: nat, activeOnly: bool) {
    p.position == Some(pos) && p.seated && (activeOnly ==> p.Active())
  }

  lemma {:induction false} FoundAt(t: Table, i: nat, activeOnly: bool)
    requires Seating(t) && i < |t.players| && t.players[i].seated
    requires activeOnly ==> t.players[i].Active()
    ensures FindAt(t.players, t.players[i].position.value, activeOnly) == Some(i)
  {
    var r := FindAt(t.players, t.players[i].position.value, activeOnly);
    assert At(t.players[i], t.players[i].position.value, activeOnly);
  }

  /** The active players at count consecutive seats, clockwise from the given one. */
  function ActiveFrom(t: Table, seat: nat, count: nat): (r: seq<nat>)
    requires t.numSeats > 0
    ensures forall i: nat :: i in r ==> i < |t.players| && t.players[i].Active()
    decreases count
  {
    if count == 0 then []
    else
      (match FindAt(t.players, seat % t.numSeats, true)
       case None => []
       case Some(i) => [i]) + ActiveFrom(t, seat + 1, count - 1)
  }

  /** active_players(rotate) */
  function ActivePlayers(t: Table, rotate: nat): (r: seq<nat>)
    requires t.numSeats > 0
    ensures forall i: nat :: i in r ==> i < |t.players| && t.players[i].Active()
  {
    ActiveFrom(t, rotate, t.numSeats)
  }

  lemma MulMonotone(a: int, b: int, n: nat)
    ensures a <= b ==> a * n <= b * n
  {
  }

  lemma ModShift(a: nat, b: nat, n: nat)
    requires 0 < n && a < b < a + n
    ensures a % n != b % n
  {
    var d := b / n - a / n;
    assert b - a == n * d + (b % n - a % n);
    MulMonotone(d, 0, n);
    MulMonotone(1, d, n);
  }

  /** Seat pos turns up among any numSeats consecutive seats. */
  lemma SeatReached(seat: nat, n: nat, pos: nat) returns (j: nat)
    requires pos < n
    ensures seat <= j < seat + n && j % n == pos
  {
    var r := seat % n;
    var q := seat / n;
    j := if pos >= r then q * n + pos else (q + 1) * n + pos;
    if pos >= r {
      ModOf(q, n, pos);
    } else {
      ModOf(q + 1, n, pos);
      assert (q + 1) * n == q * n + n;
    }
  }

  lemma ModOf(q: nat, n: nat, r: nat)
    requires r < n
    ensures (q * n + r) % n == r
  {
    var x := q * n + r;
    assert x == (x / n) * n + x % n;
    assert (q + 1) * n == q * n + n;
    assert (x / n + 1) * n == (x / n) * n + n;
    MulMonotone(q + 1, x / n, n);
    MulMonotone(x / n + 1, q, n);
  }

  lemma {:induction false} ActiveFromMembers(t: Table, seat: nat, count: nat, i: nat)
    requires Seating(t)
    ensures i in ActiveFrom(t, seat, count) ==>
      i < |t.players| && t.players[i].Active() &&
      exists j :: seat <= j < seat + count && j % t.numSeats == t.players[i].position.value
    decreases count
  {
    if count != 0 && i in ActiveFrom(t, seat, count) {
      ActiveFromMembers(t, seat + 1, count - 1, i);
      if i !in ActiveFrom(t, seat + 1, count - 1) {
        assert seat % t.numSeats == t.players[i].position.value;
      }
    }
  }

  lemma {:induction false} ActiveFromFinds(t: Table, seat: nat, count: nat, i: nat, j: nat)
    requires Seating(t) && i < |t.players| && t.players[i].Active()
    requires seat <= j < seat + count && j % t.numSeats == t.players[i].position.value
    ensures i in ActiveFrom(t, seat, count)
    decreases count
  {
    if j == seat {
      FoundAt(t, i, true);
    } else {
      ActiveFromFinds(t, seat + 1, count - 1, i, j);
    }
  }

  lemma {:induction false} ActiveFromDistinct(t: Table, seat: nat, count: nat)
    requires Seating(t) && count <= t.numSeats
    ensures Distinct(ActiveFrom(t, seat, count))
    decreases count
  {
    if count != 0 {
      ActiveFromDistinct(t, seat + 1, count - 1);
      var found := FindAt(t.players, seat % t.numSeats, true);
      var rest := ActiveFrom(t, seat + 1, count - 1);
      if found.Some? && found.value in rest {
        ActiveFromMembers(t, seat + 1, count - 1, found.value);
        var j :| seat + 1 <= j < seat + count && j % t.numSeats == t.players[found.value].position.value;
        ModShift(seat, j, t.numSeats);
      }
    }
  }

  /** The seat order lists every active player exactly once, wherever it starts. */
  lemma ActivePlayersComplete(t: Table, rotate: nat)
    requires Seating(t)
    ensures Distinct(ActivePlayers(t, rotate))
    ensures forall i: nat :: i in ActivePlayers(t, rotate) <==> i < |t.players| && t.players[i].Active()
  {
    ActiveFromDistinct(t, rotate, t.numSeats);
    forall i: nat ensures i in ActivePlayers(t, rotate) <==> i < |t.players| && t.players[i].Active() {
      ActiveFromMembers(t, rotate, t.numSeats, i);
      if i < |t.players| && t.players[i].Active() {
        var j := SeatReached(rotate, t.numSeats, t.players[i].position.value);
        ActiveFromFinds(t, rotate, t.numSeats, i, j);
      }
    }
  }

  /** Seat order depends only on who is active where. */
  predicate SameSeats(t: Table, u: Table) {
    && t.numSeats == u.numSeats && |t.players| == |u.players|
    && forall i :: 0 <= i < |t.players| ==>
         t.players[i].Active() == u.players[i].Active() &&
         (t.players[i].Active() ==> t.players[i].position == u.players[i].position)
  }

  lemma {:induction false} FindAtSame(t: Table, u: Table, pos: nat, k: nat)
    requires SameSeats(t, u) && k <= |t.players|
    ensures FindAt(t.players, pos, true, k) == FindAt(u.players, pos, true, k)
    decreases |t.players| - k
  {
    if k < |t.players| {
      FindAtSame(t, u, pos, k + 1);
    }
  }

  lemma {:induction false} ActiveFromSame(t: Table, u: Table, seat: nat, count: nat)
    requires SameSeats(t, u) && t.numSeats > 0
    ensures ActiveFrom(t, seat, count) == ActiveFrom(u, seat, count)
    decreases count
  {
    if count != 0 {
      FindAtSame(t, u, seat % t.numSeats, 0);
      ActiveFromSame(t, u, seat + 1, count - 1);
    }
  }
}
