/** Which blinds cover everybody: a full big blind, or an active small blind with half of the largest post. */
module BlindCover {
  import opened Wrappers
  import opened Indexes
  import opened Players
  import opened Tables
  import opened Accessors
  import opened Betting
  import opened Rings
  import opened Blinds
  import opened Deals
  import opened Openings

  lemma PostBounds(t: Table, p: PlayerState, holdsBb: bool, holdsSb: bool)
    requires Idle(p) && 0 <= t.sb <= t.bb
    ensures 0 <= Posted(t, p, holdsBb, holdsSb).uncollected <= 2 * t.bb
    ensures holdsBb ==> Posted(t, p, holdsBb, holdsSb).uncollected == Min(p.stack, t.bb)
    ensures holdsBb && p.stack < t.bb ==> Posted(t, p, holdsBb, holdsSb).stack == 0
    ensures !holdsBb && !holdsSb && !p.owesBb ==> Posted(t, p, holdsBb, holdsSb).uncollected == 0
  {
  }

  lemma TopWithin(t: Table, m: int)
    requires 0 <= m && forall i: nat :: i < |t.players| && t.players[i].Active() ==> PostedAt(t, i).uncollected <= m
    ensures TopPost(t) <= m
  {
    if TopPost(t) > 0 {
      var i := MaxAttained(PlayersPosted(t), false);
      PostedKeepsSeat(t, t.players[i], HoldsBb(t, i), HoldsSb(t, i));
    }
  }

  lemma TopAtMostTwice(t: Table)
    requires AllIdle(t) && 0 <= t.sb <= t.bb
    ensures TopPost(t) <= 2 * t.bb
  {
    forall i: nat | i < |t.players| ensures PostedAt(t, i).uncollected <= 2 * t.bb {
      assert Idle(t.players[i]);
      PostBounds(t, t.players[i], HoldsBb(t, i), HoldsSb(t, i));
    }
    TopWithin(t, 2 * t.bb);
  }

  lemma BbCovers(t: Table, b: nat, i: nat)
    requires Ready(t) && IsBb(t, b) && TopPost(t) <= 2 * PostedAt(t, b).uncollected && MayRaise(t, i)
    ensures CoversFor(t, b, i)
  {
    HolderIs(t, b);
    BbComesLast(t, b, i);
  }

  /** A big blind that is posted in full covers everybody. */
  lemma FullBlindCovers(t: Table, b: nat)
    requires Ready(t) && t.sb <= t.bb && IsBb(t, b) && t.players[b].stack >= t.bb
    ensures BlindsCovered(t)
  {
    HolderIs(t, b);
    assert Idle(t.players[b]);
    PostBounds(t, t.players[b], HoldsBb(t, b), HoldsSb(t, b));
    TopAtMostTwice(t);
    forall i: nat | MayRaise(t, i) ensures exists p: nat :: CoversFor(t, p, i) {
      BbCovers(t, b, i);
    }
  }

  /** With nobody active between the blinds, only the big blind acts after the small blind. */
  lemma SbComesNext(t: Table, s: nat, b: nat, i: nat)
    requires Seating(t) && s < |t.players| && t.players[s].Active() && IsBb(t, b) && s != b
    requires Placed(t, t.players[s].position.value, t.players[b].position.value)
    requires i < |t.players| && t.players[i].Active() && i != b
    ensures ActsAt(t, i) <= ActsAt(t, s)
  {
    var n := t.numSeats;
    var ps, pb, pi := t.players[s].position.value, t.players[b].position.value, t.players[i].position.value;
    FoundAt(t, i, true);
    assert ActiveSeat(t)(pi);
    if pi != ps {
      assert Ahead(n, ps, Gap(n, ps, pi)) == pi;
      TurnOnRing(n, pb, ps, pi);
    }
  }

  lemma TurnOnRing(n: nat, bb: nat, sb: nat, x: nat)
    requires bb < n && sb < n && x < n && x != bb && sb != bb && x != sb && Gap(n, sb, x) > Gap(n, sb, bb)
    ensures Gap(n, Ahead(n, bb, 1), x) <= Gap(n, Ahead(n, bb, 1), sb)
  {
  }

  /** An active small blind right before the big blind covers everybody with half of the largest post. */
  lemma SmallBlindCovers(t: Table, s: nat, b: nat)
    requires Ready(t) && t.sb <= t.bb && IsBb(t, b) && s != b
    requires s < |t.players| && t.players[s].Active() && HoldsSb(t, s)
    requires Placed(t, t.players[s].position.value, t.players[b].position.value)
    requires TopPost(t) <= 2 * PostedAt(t, s).uncollected
    ensures BlindsCovered(t)
  {
    if t.players[b].stack >= t.bb {
      FullBlindCovers(t, b);
    } else {
      HolderIs(t, b);
      assert Idle(t.players[b]);
      PostBounds(t, t.players[b], HoldsBb(t, b), HoldsSb(t, b));
      forall i: nat | MayRaise(t, i) ensures exists p: nat :: CoversFor(t, p, i) {
        SbComesNext(t, s, b, i);
        assert CoversFor(t, s, i);
      }
    }
  }

  /** Without a post out of position every deal is covered, however short the big blind is. */
  lemma BlindsAloneCover(t: Table, s: nat, b: nat)
    requires Ready(t) && t.sb <= t.bb && IsBb(t, b) && s != b
    requires s < |t.players| && t.players[s].Active() && HoldsSb(t, s)
    requires Placed(t, t.players[s].position.value, t.players[b].position.value)
    requires forall i :: 0 <= i < |t.players| && t.players[i].Active() && i != b ==> !t.players[i].owesBb
    ensures BlindsCovered(t)
  {
    var us, ub := PostedAt(t, s).uncollected, PostedAt(t, b).uncollected;
    assert 0 <= us && 0 <= ub by {
      assert Idle(t.players[s]) && Idle(t.players[b]);
      PostBounds(t, t.players[s], HoldsBb(t, s), HoldsSb(t, s));
      PostBounds(t, t.players[b], HoldsBb(t, b), HoldsSb(t, b));
    }
    forall i: nat | i < |t.players| && t.players[i].Active() ensures PostedAt(t, i).uncollected <= Max(us, ub) {
      OtherPostsNothing(t, s, b, i);
    }
    TopWithin(t, Max(us, ub));
    if ub >= us {
      forall i: nat | MayRaise(t, i) ensures exists p: nat :: CoversFor(t, p, i) {
        BbCovers(t, b, i);
      }
    } else {
      SmallBlindCovers(t, s, b);
    }
  }

  function Max(a: int, b: int): int { if a >= b then a else b }

  lemma OtherPostsNothing(t: Table, s: nat, b: nat, i: nat)
    requires Ready(t) && t.sb <= t.bb && s < |t.players| && HoldsSb(t, s) && IsBb(t, b)
    requires i < |t.players| && t.players[i].Active() && i != s && i != b ==> !t.players[i].owesBb
    ensures i < |t.players| && t.players[i].Active() && i != s && i != b ==> PostedAt(t, i).uncollected == 0
  {
    if i < |t.players| && i != s && i != b {
      HolderIs(t, b);
      assert Idle(t.players[i]);
      PostBounds(t, t.players[i], HoldsBb(t, i), HoldsSb(t, i));
    }
  }
}
