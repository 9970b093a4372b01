/** Where the big blind, the small blind and the button go next. */
module Blinds {
  import opened Wrappers
  import opened Indexes
  import opened Players
  import opened Tables
  import opened Accessors
  import opened Rings

  function ActiveSeat(t: Table): nat -> bool {
    (pos: nat) => FindAt(t.players, pos, true).Some?
  }

  predicate ActiveOrPending(p: PlayerState) {
    p.Active() || p.playing == Some(SitInPending)
  }

  /** player_is_active_or_pending, of the player seated there */
  function ReadySeat(t: Table): nat -> bool {
    (pos: nat) => match FindAt(t.players, pos, false) case None => false case Some(i) => ActiveOrPending(t.players[i])
  }

  // The big blind

  function NextBb(t: Table, curr: nat): Result<nat, Error>
    requires curr < t.numSeats
  {
    var d := Scan(t.numSeats, curr, 1, ReadySeat(t));
    if d == t.numSeats then Failure(RotatedBack) else Success(Ahead(t.numSeats, curr, d))
  }

  /** The seats strictly between from and the one d places ahead, in order. */
  function Skipped(n: nat, from: nat, d: nat): seq<nat>
    requires from < n && 0 < d <= n
  {
    if d == 1 then [] else Skipped(n, from, d - 1) + [Ahead(n, from, d - 1)]
  }

  /** next_bb_location_info */
  method FindNextBb(t: Table, curr: nat) returns (r: Result<nat, Error>, skipped: seq<nat>)
    requires curr < t.numSeats && 2 <= t.numSeats
    ensures r == NextBb(t, curr)
    ensures r.Success? ==> skipped == Skipped(t.numSeats, curr, Scan(t.numSeats, curr, 1, ReadySeat(t)))
  {
    var n := t.numSeats;
    skipped := [];
    ModNext(n, curr);
    var next := (curr + 1) % n;
    ghost var d := 1;
    while !ReadySeat(t)(next)
      invariant 1 <= d < n && next == Ahead(n, curr, d) && skipped == Skipped(n, curr, d)
      invariant Scan(n, curr, 1, ReadySeat(t)) == Scan(n, curr, d, ReadySeat(t))
      decreases n - d
    {
      skipped := skipped + [next];
      ModNext(n, next);
      next := (next + 1) % n;
      d := d + 1;
      if next == curr {
        return Failure(RotatedBack), skipped;
      }
    }
    r := Success(next);
  }

  // The small blind

  /** An active player, or the seat right before the big blind. */
  function SbStop(t: Table, bb: nat): nat -> bool {
    (pos: nat) => FindAt(t.players, pos, true).Some? || (pos < t.numSeats && Ahead(t.numSeats, pos, 1) == bb)
  }

  function NextSb(t: Table, curr: nat, bb: nat): nat
    requires curr < t.numSeats
  {
    Ahead(t.numSeats, curr, Scan(t.numSeats, curr, 1, SbStop(t, bb)))
  }

  /** The seat before the big blind comes round. */
  lemma SbStopReached(t: Table, curr: nat, bb: nat) returns (k: nat)
    requires curr < t.numSeats && bb < t.numSeats
    ensures 1 <= k <= t.numSeats && SbStop(t, bb)(Ahead(t.numSeats, curr, k))
  {
    var g := Gap(t.numSeats, curr, bb);
    k := if g > 1 then g - 1 else if g == 1 then t.numSeats else if t.numSeats == 1 then 1 else t.numSeats - 1;
    assert Ahead(t.numSeats, Ahead(t.numSeats, curr, k), 1) == bb;
  }

  /** next_sb_location_info */
  method FindNextSb(t: Table, curr: nat, bb: nat) returns (next: nat, skipped: seq<nat>)
    requires curr < t.numSeats && bb < t.numSeats
    ensures next == NextSb(t, curr, bb)
    ensures skipped == Skipped(t.numSeats, curr, Scan(t.numSeats, curr, 1, SbStop(t, bb)))
  {
    var n := t.numSeats;
    skipped := [];
    ModNext(n, curr);
    next := (curr + 1) % n;
    ghost var d := 1;
    ghost var k := SbStopReached(t, curr, bb);
    ModNext(n, next);
    while !(FindAt(t.players, next, true).Some? || (next + 1) % n == bb)
      invariant 1 <= d <= k && next == Ahead(n, curr, d) && skipped == Skipped(n, curr, d)
      invariant (next + 1) % n == Ahead(n, next, 1)
      invariant Scan(n, curr, 1, SbStop(t, bb)) == Scan(n, curr, d, SbStop(t, bb))
      decreases k - d
    {
      skipped := skipped + [next];
      next := (next + 1) % n;
      d := d + 1;
      ModNext(n, next);
    }
  }

  // The button

  /** The players in who would be in with the big blind on the given seat. */
  function InAt(t: Table, bb: nat): nat -> bool {
    (pos: nat) => if pos == bb then ReadySeat(t)(pos) else FindAt(t.players, pos, true).Some?
  }

  /** The button is the nearest active seat before the small blind, short of the big blind. */
  function Button(t: Table, sb: nat, bb: nat, d: nat := 1): Result<nat, Error>
    requires sb < t.numSeats && 1 <= d
    decreases t.numSeats + 1 - d
  {
    if d > t.numSeats then Failure(RotatedBack)
    else
      var pos := Behind(t.numSeats, sb, d);
      if d > 1 && pos == bb then Failure(RotatedBack)
      else if ActiveSeat(t)(pos) then Success(pos)
      else Button(t, sb, bb, d + 1)
  }

  lemma BbIsBehind(n: nat, sb: nat, bb: nat, d: nat)
    requires sb < n && bb < n && d == n + 1 && forall k :: 1 < k < d ==> Behind(n, sb, k) != bb
    ensures Behind(n, sb, 1) == bb
  {
    var g := Gap(n, bb, sb);
    var k := if g == 0 then n else g;
    assert Behind(n, sb, k) == bb;
  }

  /** The loop of btn_sb_locations. */
  method FindButton(t: Table, sb: nat, bb: nat) returns (r: Result<nat, Error>)
    requires sb < t.numSeats && bb < t.numSeats
    ensures r == Button(t, sb, bb)
  {
    var n := t.numSeats;
    ModPrevious(n, sb);
    var next := (sb + n - 1) % n;
    ghost var d := 1;
    while !ActiveSeat(t)(next)
      invariant 1 <= d <= n && next == Behind(n, sb, d)
      invariant forall k :: 1 < k <= d ==> Behind(n, sb, k) != bb
      invariant Button(t, sb, bb) == Button(t, sb, bb, d)
      decreases n - d
    {
      ModPrevious(n, next);
      next := (next + n - 1) % n;
      d := d + 1;
      if d == n + 1 {
        BbIsBehind(n, sb, bb, d);
      }
      if next == bb {
        return Failure(RotatedBack);
      }
    }
    r := Success(next);
  }

  /** Heads up the button is on the small blind, the other of the two players in. */
  function OtherSeats(t: Table, bb: nat): seq<nat>
    requires t.numSeats > 0
  {
    Filter(ActivePlayers(t, StartPos(t)), (i: nat) => i < |t.players| && t.players[i].position != Some(bb))
  }

  /** btn_sb_locations */
  function BtnSb(t: Table, nextSb: nat, bb: nat): Result<(nat, nat), Error>
    requires nextSb < t.numSeats
  {
    if CountOf(t.numSeats, InAt(t, bb)) == 2 then
      var others := OtherSeats(t, bb);
      if CountOf(t.numSeats, ActiveSeat(t)) != 2 || others == [] then Failure(ImpossibleGameState)
      else
        assert others[|others| - 1] in others;
        match t.players[others[|others| - 1]].position
        case None => Failure(ImpossibleGameState)
        case Some(pos) => Success((pos, pos))
    else
      match Button(t, nextSb, bb)
      case Failure(error) => Failure(error)
      case Success(btn) => Success((btn, nextSb))
  }

  method FindBtnSb(t: Table, nextSb: nat, bb: nat) returns (r: Result<(nat, nat), Error>)
    requires nextSb < t.numSeats && bb < t.numSeats
    ensures r == BtnSb(t, nextSb, bb)
  {
    if CountOf(t.numSeats, InAt(t, bb)) == 2 {
      var others := OtherSeats(t, bb);
      if CountOf(t.numSeats, ActiveSeat(t)) != 2 || others == [] {
        return Failure(ImpossibleGameState);
      }
      var last := others[|others| - 1];
      assert last in others;
      var pos := t.players[last].position;
      if pos.None? {
        return Failure(ImpossibleGameState);
      }
      return Success((pos.value, pos.value));
    }
    var btn := FindButton(t, nextSb, bb);
    r := match btn case Failure(error) => Failure(error) case Success(pos) => Success((pos, nextSb));
  }

  datatype Positions = Positions(btn: nat, sb: nat, bb: nat)

  /** standard_blind_rotation */
  function Rotation(t: Table, sb: nat, bb: nat): Result<Positions, Error>
    requires sb < t.numSeats && bb < t.numSeats
  {
    match NextBb(t, bb)
    case Failure(error) => Failure(error)
    case Success(nextBb) =>
      match BtnSb(t, NextSb(t, sb, nextBb), nextBb)
      case Failure(error) => Failure(error)
      case Success(pair) => Success(Positions(pair.0, pair.1, nextBb))
  }

  // What the searches find

  lemma ActiveIsReady(t: Table, pos: nat)
    requires Seating(t) && ActiveSeat(t)(pos)
    ensures ReadySeat(t)(pos)
  {
    var i := FindAt(t.players, pos, true).value;
    FoundAt(t, i, false);
  }

  /** The new big blind is the nearest seat clockwise that is active or about to be. */
  lemma NextBbFollows(t: Table, bb: nat)
    requires bb < t.numSeats
    ensures NextBb(t, bb).Success? ==> Follows(t.numSeats, bb, NextBb(t, bb).value, ReadySeat(t))
    ensures NextBb(t, bb).Failure? <==> forall pos: nat :: pos < t.numSeats && pos != bb ==> !ReadySeat(t)(pos)
  {
    var n := t.numSeats;
    var d := Scan(n, bb, 1, ReadySeat(t));
    if d == n {
      forall pos: nat | pos < n && pos != bb ensures !ReadySeat(t)(pos) {
        assert Ahead(n, bb, Gap(n, bb, pos)) == pos;
      }
    } else {
      assert Gap(n, bb, Ahead(n, bb, d)) == d;
    }
  }

  ghost predicate Placed(t: Table, sb: nat, bb: nat) {
    sb < t.numSeats && bb < t.numSeats && sb != bb && NoneBetween(t.numSeats, sb, bb, ActiveSeat(t))
  }

  lemma NoneActive(t: Table, from: nat, to: nat)
    requires Seating(t) && from < t.numSeats && to < t.numSeats
    requires NoneBetween(t.numSeats, from, to, ReadySeat(t))
    ensures NoneBetween(t.numSeats, from, to, ActiveSeat(t))
  {
    var n := t.numSeats;
    forall d: nat | 0 < d < Gap(n, from, to) ensures !ActiveSeat(t)(Ahead(n, from, d)) {
      if ActiveSeat(t)(Ahead(n, from, d)) {
        ActiveIsReady(t, Ahead(n, from, d));
      }
    }
  }

  /** The old blinds and the new big blind fit into one round of the table. */
  lemma {:induction false} OneRound(n: nat, sb: nat, bb: nat, next: nat, p: nat -> bool)
    requires sb < n && bb < n && sb != bb && NoneBetween(n, sb, bb, p)
    requires next < n && NoneBetween(n, bb, next, p) && CountOf(n, p) >= 2
    ensures Gap(n, sb, bb) + Gap(n, bb, next) <= n
  {
    var x := SecondSeat(n, p, bb);
    var g := Gap(n, sb, x);
    var h := Gap(n, bb, x);
    assert Ahead(n, sb, g) == x && Ahead(n, bb, h) == x;
  }

  /** A seat within the round is where both distances say it is. */
  lemma AheadTwice(n: nat, from: nat, a: nat, b: nat)
    requires from < n && a + b <= n
    ensures Ahead(n, Ahead(n, from, a), b) == Ahead(n, from, a + b)
  {
  }

  lemma {:induction false} ScanIs(n: nat, from: nat, d: nat, e: nat, p: nat -> bool)
    requires from < n && d <= e <= n && (forall k :: d <= k < e ==> !p(Ahead(n, from, k)))
    requires e == n || p(Ahead(n, from, e))
    ensures Scan(n, from, d, p) == e
  {
  }

  lemma BeforeIsAhead(n: nat, x: nat, to: nat)
    requires x < n && to < n
    ensures Ahead(n, x, 1) == to <==> x == Behind(n, to, 1)
  {
  }

  /** The small blind goes to the old big blind, or stays empty right before the new one. */
  lemma SbLands(t: Table, sb: nat, bb: nat, next: nat)
    requires Seating(t) && Placed(t, sb, bb) && CountOf(t.numSeats, ActiveSeat(t)) >= 2
    requires Follows(t.numSeats, bb, next, ReadySeat(t))
    ensures NextSb(t, sb, next) == if ActiveSeat(t)(bb) then bb else Behind(t.numSeats, next, 1)
    ensures Placed(t, NextSb(t, sb, next), next)
  {
    var n := t.numSeats;
    NoneActive(t, bb, next);
    OneRound(n, sb, bb, next, ActiveSeat(t));
    var s, e := Gap(n, sb, bb), Gap(n, bb, next);
    var last := if ActiveSeat(t)(bb) then s else s + e - 1;
    forall k | 1 <= k < last ensures !SbStop(t, next)(Ahead(n, sb, k)) {
      NotYet(t, sb, bb, next, k);
    }
    BeforeNext(n, sb, bb, next);
    ScanIs(n, sb, 1, last, SbStop(t, next));
    SbPlaced(t, sb, bb, next, last);
  }

  /** One short of both distances together is right before the new big blind. */
  lemma BeforeNext(n: nat, sb: nat, bb: nat, next: nat)
    requires sb < n && bb < n && next < n && sb != bb && bb != next && Gap(n, sb, bb) + Gap(n, bb, next) <= n
    ensures
      var x := Ahead(n, sb, Gap(n, sb, bb) + Gap(n, bb, next) - 1);
      Ahead(n, x, 1) == next && x == Behind(n, next, 1)
  {
    var s, e := Gap(n, sb, bb), Gap(n, bb, next);
    assert Ahead(n, sb, s) == bb;
    AheadTwice(n, sb, s, e);
    AheadTwice(n, sb, s + e - 1, 1);
    BeforeIsAhead(n, Ahead(n, sb, s + e - 1), next);
  }

  lemma SbPlaced(t: Table, sb: nat, bb: nat, next: nat, last: nat)
    requires Placed(t, sb, bb) && next < t.numSeats && bb != next && NoneBetween(t.numSeats, bb, next, ActiveSeat(t))
    requires Gap(t.numSeats, sb, bb) + Gap(t.numSeats, bb, next) <= t.numSeats
    requires last == Gap(t.numSeats, sb, bb) || last == Gap(t.numSeats, sb, bb) + Gap(t.numSeats, bb, next) - 1
    ensures Placed(t, Ahead(t.numSeats, sb, last), next)
  {
    var n := t.numSeats;
    assert Ahead(n, sb, Gap(n, sb, bb)) == bb;
    BeforeNext(n, sb, bb, next);
  }

  /** Up to there every seat is empty and not right before the new big blind. */
  lemma NotYet(t: Table, sb: nat, bb: nat, next: nat, k: nat)
    requires Placed(t, sb, bb) && next < t.numSeats && bb != next && NoneBetween(t.numSeats, bb, next, ActiveSeat(t))
    requires Gap(t.numSeats, sb, bb) + Gap(t.numSeats, bb, next) <= t.numSeats
    requires 1 <= k < Gap(t.numSeats, sb, bb) + Gap(t.numSeats, bb, next) - 1
    requires k < Gap(t.numSeats, sb, bb) || !ActiveSeat(t)(bb)
    ensures !SbStop(t, next)(Ahead(t.numSeats, sb, k))
  {
    var n := t.numSeats;
    var s := Gap(n, sb, bb);
    AheadTwice(n, sb, k, 1);
    if k > s {
      AheadTwice(n, sb, s, k - s);
    }
  }

  lemma {:induction false} ButtonFinds(t: Table, sb: nat, bb: nat, d: nat, h: nat) returns (e: nat)
    requires sb < t.numSeats && 1 <= d <= h <= t.numSeats && ActiveSeat(t)(Behind(t.numSeats, sb, h))
    requires forall k :: 1 < k <= h ==> Behind(t.numSeats, sb, k) != bb
    ensures d <= e <= h && Button(t, sb, bb, d) == Success(Behind(t.numSeats, sb, e))
    ensures ActiveSeat(t)(Behind(t.numSeats, sb, e))
    ensures forall k :: d <= k < e ==> !ActiveSeat(t)(Behind(t.numSeats, sb, k))
    decreases h - d
  {
    if ActiveSeat(t)(Behind(t.numSeats, sb, d)) {
      e := d;
    } else {
      e := ButtonFinds(t, sb, bb, d + 1, h);
    }
  }

  /** A third seat that is active lies on the far side of the button. */
  lemma OnTheFarSide(n: nat, sb: nat, bb: nat, x: nat, p: nat -> bool)
    requires sb < n && bb < n && sb != bb && x < n && x != sb && x != bb && p(x) && NoneBetween(n, sb, bb, p)
    ensures 0 < Gap(n, x, sb) < n - Gap(n, sb, bb) && Behind(n, sb, Gap(n, x, sb)) == x
  {
    assert Ahead(n, sb, Gap(n, sb, x)) == x;
  }

  ghost predicate ButtonPlaced(t: Table, btn: nat, sb: nat, bb: nat)
    requires sb < t.numSeats && bb < t.numSeats
  {
    && btn < t.numSeats && ActiveSeat(t)(btn) && btn != bb && btn != sb
    && NoneBetween(t.numSeats, btn, sb, ActiveSeat(t))
    && Gap(t.numSeats, btn, sb) + Gap(t.numSeats, sb, bb) < t.numSeats
  }

  /** With a third player the button lands on the nearest active seat before the small blind. */
  lemma {:induction false} ButtonLands(t: Table, sb: nat, bb: nat, x: nat)
    requires Placed(t, sb, bb) && x < t.numSeats && ActiveSeat(t)(x) && x != sb && x != bb
    ensures Button(t, sb, bb).Success? && ButtonPlaced(t, Button(t, sb, bb).value, sb, bb)
  {
    var n := t.numSeats;
    OnTheFarSide(n, sb, bb, x, ActiveSeat(t));
    var h := Gap(n, x, sb);
    var e := ButtonFinds(t, sb, bb, 1, h);
    var btn := Behind(n, sb, e);
    assert Gap(n, btn, sb) == e;
    forall d: nat | 0 < d < e ensures !ActiveSeat(t)(Ahead(n, btn, d)) {
      assert Ahead(n, btn, d) == Behind(n, sb, e - d);
    }
  }

  lemma {:induction false} CountExtra(n: nat, p: nat -> bool, q: nat -> bool, x: nat)
    requires x < n && !p(x) && q(x) && forall y: nat :: y < n && y != x ==> p(y) == q(y)
    ensures CountOf(n, q) == CountOf(n, p) + 1
    decreases n
  {
    if x == n - 1 {
      CountSame(n - 1, p, q);
    } else {
      CountExtra(n - 1, p, q, x);
    }
  }

  /** With two or more active, two in means that the big blind is one of two active players. */
  lemma TwoInAreActive(t: Table, bb: nat)
    requires Seating(t) && bb < t.numSeats && ReadySeat(t)(bb)
    requires CountOf(t.numSeats, ActiveSeat(t)) >= 2 && CountOf(t.numSeats, InAt(t, bb)) == 2
    ensures ActiveSeat(t)(bb) && CountOf(t.numSeats, ActiveSeat(t)) == 2
  {
    if ActiveSeat(t)(bb) {
      CountSame(t.numSeats, ActiveSeat(t), InAt(t, bb));
    } else {
      CountExtra(t.numSeats, ActiveSeat(t), InAt(t, bb), bb);
    }
  }

  lemma OtherIsActive(t: Table, bb: nat)
    requires Seating(t) && bb < t.numSeats && CountOf(t.numSeats, ActiveSeat(t)) >= 2
    ensures OtherSeats(t, bb) != []
    ensures forall i :: i in OtherSeats(t, bb) ==>
      i < |t.players| && t.players[i].position.Some? && t.players[i].position.value < t.numSeats &&
      t.players[i].position.value != bb && ActiveSeat(t)(t.players[i].position.value)
  {
    var x := SecondSeat(t.numSeats, ActiveSeat(t), bb);
    var i := FindAt(t.players, x, true).value;
    ActivePlayersComplete(t, StartPos(t));
    assert i in OtherSeats(t, bb);
    forall k: nat | k in OtherSeats(t, bb)
      ensures k < |t.players| && t.players[k].position.Some? && ActiveSeat(t)(t.players[k].position.value)
    {
      FoundAt(t, k, true);
    }
  }

  lemma TwoActivePlaced(t: Table, x: nat, bb: nat)
    requires x < t.numSeats && bb < t.numSeats && x != bb && ActiveSeat(t)(x) && ActiveSeat(t)(bb)
    requires CountOf(t.numSeats, ActiveSeat(t)) == 2
    ensures Placed(t, x, bb)
  {
    var n := t.numSeats;
    forall d: nat | 0 < d < Gap(n, x, bb) ensures !ActiveSeat(t)(Ahead(n, x, d)) {
      var y := Ahead(n, x, d);
      assert y != x && y != bb;
      if ActiveSeat(t)(y) {
        ThreeApart(n, ActiveSeat(t), x, bb, y);
      }
    }
  }

  lemma {:induction false} AtLeastThree(n: nat, p: nat -> bool, a: nat, b: nat, c: nat)
    requires a < b < c < n && p(a) && p(b) && p(c)
    ensures CountOf(n, p) >= 3
  {
    CountBelow(b, a, p);
    CountBelow(c, b, p);
    CountBelow(n, c, p);
  }

  lemma {:induction false} ThreeApart(n: nat, p: nat -> bool, a: nat, b: nat, c: nat)
    requires a < n && b < n && c < n && a != b && b != c && a != c && p(a) && p(b) && p(c)
    ensures CountOf(n, p) >= 3
  {
    var lo := if a < b then (if a < c then a else c) else (if b < c then b else c);
    var hi := if a > b then (if a > c then a else c) else (if b > c then b else c);
    var mid := if a != lo && a != hi then a else if b != lo && b != hi then b else c;
    AtLeastThree(n, p, lo, mid, hi);
  }

  /** Where the three positions go. */
  ghost predicate Moved(t: Table, sb: nat, bb: nat, p: Positions)
    requires bb < t.numSeats
  {
    && Follows(t.numSeats, bb, p.bb, ReadySeat(t)) && Placed(t, p.sb, p.bb)
    && if CountOf(t.numSeats, InAt(t, p.bb)) == 2
       then p.btn == p.sb && ActiveSeat(t)(p.sb) && ActiveSeat(t)(p.bb)
       else
         && p.sb == (if ActiveSeat(t)(bb) then bb else Behind(t.numSeats, p.bb, 1))
         && ButtonPlaced(t, p.btn, p.sb, p.bb)
  }

  lemma HeadsUpMoves(t: Table, nextSb: nat, bb: nat)
    requires Seating(t) && nextSb < t.numSeats && bb < t.numSeats && ReadySeat(t)(bb)
    requires CountOf(t.numSeats, ActiveSeat(t)) >= 2 && CountOf(t.numSeats, InAt(t, bb)) == 2
    ensures BtnSb(t, nextSb, bb).Success?
    ensures
      var pair := BtnSb(t, nextSb, bb).value;
      pair.0 == pair.1 && ActiveSeat(t)(pair.1) && ActiveSeat(t)(bb) && Placed(t, pair.1, bb)
  {
    TwoInAreActive(t, bb);
    OtherIsActive(t, bb);
    var others := OtherSeats(t, bb);
    var i := others[|others| - 1];
    assert i in others;
    TwoActivePlaced(t, t.players[i].position.value, bb);
  }

  lemma ThirdInIsActive(t: Table, sb: nat, bb: nat) returns (x: nat)
    requires Seating(t) && bb < t.numSeats && ReadySeat(t)(bb)
    requires CountOf(t.numSeats, ActiveSeat(t)) >= 2 && CountOf(t.numSeats, InAt(t, bb)) != 2
    ensures x < t.numSeats && ActiveSeat(t)(x) && x != sb && x != bb
  {
    if ActiveSeat(t)(bb) {
      CountSame(t.numSeats, ActiveSeat(t), InAt(t, bb));
    } else {
      CountExtra(t.numSeats, ActiveSeat(t), InAt(t, bb), bb);
    }
    x := ThirdSeat(t.numSeats, InAt(t, bb), sb, bb);
  }

  /**
   * With two or more active players and nobody active between the blinds, the rotation succeeds:
   * the big blind moves to the next seat that is in, the small blind to the old big blind or right
   * before the new one, the button to the nearest active seat before that, and again nobody
   * active is left between the blinds.
   */
  lemma RotationMoves(t: Table, sb: nat, bb: nat)
    requires Seating(t) && Placed(t, sb, bb) && CountOf(t.numSeats, ActiveSeat(t)) >= 2
    ensures Rotation(t, sb, bb).Success? && Moved(t, sb, bb, Rotation(t, sb, bb).value)
  {
    var y := SecondSeat(t.numSeats, ActiveSeat(t), bb);
    ActiveIsReady(t, y);
    NextBbFollows(t, bb);
    var next := NextBb(t, bb).value;
    SbLands(t, sb, bb, next);
    if CountOf(t.numSeats, InAt(t, next)) == 2 {
      HeadsUpMoves(t, NextSb(t, sb, next), next);
    } else {
      var x := ThirdInIsActive(t, NextSb(t, sb, next), next);
      ButtonLands(t, NextSb(t, sb, next), next, x);
    }
  }

  // Exactly when the rotation fails

  lemma {:induction false} ButtonMeets(t: Table, sb: nat, bb: nat, d: nat, g: nat)
    requires sb < t.numSeats && 1 <= d <= g <= t.numSeats && 1 < g && Behind(t.numSeats, sb, g) == bb
    requires forall k :: d <= k < g ==> !ActiveSeat(t)(Behind(t.numSeats, sb, k))
    requires forall k :: 1 < k < g ==> Behind(t.numSeats, sb, k) != bb
    ensures Button(t, sb, bb, d) == Failure(RotatedBack)
    decreases g - d
  {
    if d < g {
      ButtonMeets(t, sb, bb, d + 1, g);
    }
  }

  /** The search passes the big blind on its way: not right away, and with nobody active before. */
  ghost predicate MeetsBb(t: Table, sb: nat, bb: nat)
    requires sb < t.numSeats && bb < t.numSeats
  {
    sb != bb && Behind(t.numSeats, sb, 1) != bb && NoneBetween(t.numSeats, bb, sb, ActiveSeat(t))
  }

  lemma {:induction false} MeetingFails(t: Table, sb: nat, bb: nat)
    requires sb < t.numSeats && bb < t.numSeats && MeetsBb(t, sb, bb)
    ensures Button(t, sb, bb) == Failure(RotatedBack)
  {
    var n, g := t.numSeats, Gap(t.numSeats, bb, sb);
    forall k | 1 <= k < g ensures !ActiveSeat(t)(Behind(n, sb, k)) && Behind(n, sb, k) != bb {
      assert Behind(n, sb, k) == Ahead(n, bb, g - k);
    }
    ButtonMeets(t, sb, bb, 1, g);
  }

  /** Where the search ends when it does not meet the big blind. */
  lemma {:induction false} NotMeetingFinds(t: Table, sb: nat, bb: nat)
    requires sb < t.numSeats && bb < t.numSeats && !MeetsBb(t, sb, bb) && CountOf(t.numSeats, ActiveSeat(t)) >= 2
    ensures Button(t, sb, bb).Success? && ActiveSeat(t)(Button(t, sb, bb).value)
    ensures Button(t, sb, bb).value == bb <==> Behind(t.numSeats, sb, 1) == bb && ActiveSeat(t)(bb)
  {
    var n := t.numSeats;
    if sb == bb {
      var x := SecondSeat(n, ActiveSeat(t), sb);
      var h := Gap(n, x, sb);
      assert Behind(n, sb, h) == x;
      var e := ButtonFinds(t, sb, bb, 1, h);
    } else if Behind(n, sb, 1) == bb {
      if !ActiveSeat(t)(bb) {
        var x := SecondSeat(n, ActiveSeat(t), bb);
        var h := if x == sb then n else Gap(n, x, sb);
        assert Behind(n, sb, h) == x;
        var e := ButtonFinds(t, sb, bb, 1, h);
      }
    } else {
      var d: nat :| 0 < d < Gap(n, bb, sb) && ActiveSeat(t)(Ahead(n, bb, d));
      var h := Gap(n, bb, sb) - d;
      assert Behind(n, sb, h) == Ahead(n, bb, d);
      var e := ButtonFinds(t, sb, bb, 1, h);
    }
  }

  /**
   * With two or more active players the rotation raises exactly when, with three or more in, the
   * search for the button meets the new big blind; and it puts the button on the big blind exactly
   * when that seat is active and right behind the new small blind.
   */
  lemma RotationFails(t: Table, sb: nat, bb: nat)
    requires Seating(t) && sb < t.numSeats && bb < t.numSeats && CountOf(t.numSeats, ActiveSeat(t)) >= 2
    ensures NextBb(t, bb).Success?
    ensures
      var next := NextBb(t, bb).value;
      var nextSb := NextSb(t, sb, next);
      && (Rotation(t, sb, bb).Failure? <==> CountOf(t.numSeats, InAt(t, next)) != 2 && MeetsBb(t, nextSb, next))
      && (Rotation(t, sb, bb).Failure? ==> Rotation(t, sb, bb).error == RotatedBack)
      && (Rotation(t, sb, bb).Success? ==>
            (Rotation(t, sb, bb).value.btn == next <==>
              CountOf(t.numSeats, InAt(t, next)) != 2 && Behind(t.numSeats, nextSb, 1) == next && ActiveSeat(t)(next)))
  {
    var y := SecondSeat(t.numSeats, ActiveSeat(t), bb);
    ActiveIsReady(t, y);
    NextBbFollows(t, bb);
    var next := NextBb(t, bb).value;
    var nextSb := NextSb(t, sb, next);
    if CountOf(t.numSeats, InAt(t, next)) == 2 {
      HeadsUpMoves(t, nextSb, next);
    } else if MeetsBb(t, nextSb, next) {
      MeetingFails(t, nextSb, next);
    } else {
      NotMeetingFinds(t, nextSb, next);
    }
  }

  /** With exactly two active it takes a newcomer on the big blind for the rotation to raise. */
  lemma RotationFailsForTwo(t: Table, sb: nat, bb: nat)
    requires Seating(t) && sb < t.numSeats && bb < t.numSeats && CountOf(t.numSeats, ActiveSeat(t)) == 2
    ensures NextBb(t, bb).Success?
    ensures
      var next := NextBb(t, bb).value;
      Rotation(t, sb, bb).Failure? <==> !ActiveSeat(t)(next) && MeetsBb(t, NextSb(t, sb, next), next)
  {
    RotationFails(t, sb, bb);
    NextBbFollows(t, bb);
    var next := NextBb(t, bb).value;
    if ActiveSeat(t)(next) {
      ActiveIsReady(t, next);
      CountSame(t.numSeats, ActiveSeat(t), InAt(t, next));
    } else {
      CountExtra(t.numSeats, ActiveSeat(t), InAt(t, next), next);
    }
  }
}
