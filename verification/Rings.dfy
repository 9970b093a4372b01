/** Seats round a table: clockwise searches, and how many seats have a property. */
module Rings {
  import opened Wrappers
  import opened Tables

  /** The seat d places clockwise. */
  function Ahead(n: nat, from: nat, d: nat): (seat: nat)
    requires from < n && d <= n
    ensures seat < n
  {
    if from + d < n then from + d else from + d - n
  }

  /** The seat d places counterclockwise. */
  function Behind(n: nat, from: nat, d: nat): (seat: nat)
    requires from < n && d <= n
    ensures seat < n
  {
    if from >= d then from - d else from + n - d
  }

  lemma ModNext(n: nat, x: nat)
    requires x < n
    ensures (x + 1) % n == Ahead(n, x, 1)
  {
  }

  lemma ModPrevious(n: nat, x: nat)
    requires x < n
    ensures (x + n - 1) % n == Behind(n, x, 1)
  {
    if x > 0 {
      ModOf(1, n, x - 1);
    }
  }

  /** How far to is from from, clockwise. */
  function Gap(n: nat, from: nat, to: nat): (d: nat)
    requires from < n && to < n
    ensures d < n && Ahead(n, from, d) == to
  {
    if to >= from then to - from else to + n - from
  }

  /** The least distance, from d up, at which a seat has the property, and n if there is none below that. */
  function Scan(n: nat, from: nat, d: nat, p: nat -> bool): (e: nat)
    requires from < n && d <= n
    ensures d <= e <= n
    ensures e < n ==> p(Ahead(n, from, e))
    ensures forall k :: d <= k < e ==> !p(Ahead(n, from, k))
    decreases n - d
  {
    if d == n || p(Ahead(n, from, d)) then d else Scan(n, from, d + 1, p)
  }

  /** No seat strictly between the two, going clockwise, has the property. */
  ghost predicate NoneBetween(n: nat, from: nat, to: nat, p: nat -> bool)
    requires from < n && to < n
  {
    forall d: nat :: 0 < d < Gap(n, from, to) ==> !p(Ahead(n, from, d))
  }

  /** How many seats below n have the property. */
  function CountOf(n: nat, p: nat -> bool): nat {
    if n == 0 then 0 else CountOf(n - 1, p) + if p(n - 1) then 1 else 0
  }

  lemma {:induction false} AtMostTwo(n: nat, p: nat -> bool, a: nat, b: nat)
    requires forall x: nat :: x < n && p(x) ==> x == a || x == b
    ensures CountOf(n, p) <= (if a < n then 1 else 0) + (if b < n && b != a then 1 else 0)
    decreases n
  {
    if n > 0 {
      AtMostTwo(n - 1, p, a, b);
    }
  }

  /** With three seats, one is neither of two given ones. */
  lemma ThirdSeat(n: nat, p: nat -> bool, a: nat, b: nat) returns (x: nat)
    requires CountOf(n, p) >= 3
    ensures x < n && p(x) && x != a && x != b
  {
    if forall x: nat :: x < n && p(x) ==> x == a || x == b {
      AtMostTwo(n, p, a, b);
    }
    x :| x < n && p(x) && x != a && x != b;
  }

  lemma SecondSeat(n: nat, p: nat -> bool, a: nat) returns (x: nat)
    requires CountOf(n, p) >= 2
    ensures x < n && p(x) && x != a
  {
    if forall x: nat :: x < n && p(x) ==> x == a {
      AtMostTwo(n, p, a, a);
    }
    x :| x < n && p(x) && x != a;
  }

  lemma {:induction false} CountSame(n: nat, p: nat -> bool, q: nat -> bool)
    requires forall x: nat :: x < n ==> p(x) == q(x)
    ensures CountOf(n, p) == CountOf(n, q)
    decreases n
  {
    if n > 0 {
      CountSame(n - 1, p, q);
    }
  }

  lemma {:induction false} CountMonotone(n: nat, m: nat, p: nat -> bool)
    requires m <= n
    ensures CountOf(m, p) <= CountOf(n, p)
    decreases n
  {
    if m < n {
      CountMonotone(n - 1, m, p);
    }
  }

  lemma {:induction false} CountStill(n: nat, m: nat, p: nat -> bool)
    requires m <= n && forall x: nat :: m <= x < n ==> !p(x)
    ensures CountOf(m, p) == CountOf(n, p)
    decreases n
  {
    if m < n {
      CountStill(n - 1, m, p);
    }
  }

  // Going round

  /** to is the next seat with the property after from. */
  ghost predicate Follows(n: nat, from: nat, to: nat, p: nat -> bool) {
    from < n && to < n && from != to && p(to) && NoneBetween(n, from, to, p)
  }

  lemma BetweenSeats(n: nat, from: nat, to: nat, p: nat -> bool, x: nat)
    requires from < n && to < n && x < n && NoneBetween(n, from, to, p)
    requires from < x < to || (to < from && (x < to || from < x))
    ensures !p(x)
  {
    assert Ahead(n, from, Gap(n, from, x)) == x;
  }

  lemma {:induction false} CountStep(from: nat, to: nat, p: nat -> bool)
    requires from < to && p(from) && forall x: nat :: from + 1 <= x < to ==> !p(x)
    ensures CountOf(to, p) == CountOf(from, p) + 1
  {
    CountStill(to, from + 1, p);
  }

  lemma {:induction false} CountBelow(n: nat, x: nat, p: nat -> bool)
    requires x < n && p(x)
    ensures CountOf(x, p) < CountOf(n, p)
  {
    CountMonotone(n, x + 1, p);
  }

  lemma {:induction false} FollowsOnward(n: nat, from: nat, to: nat, p: nat -> bool)
    requires Follows(n, from, to, p) && p(from) && from < to
    ensures CountOf(to, p) == CountOf(from, p) + 1 < CountOf(n, p)
  {
    forall x: nat | from + 1 <= x < to ensures !p(x) {
      BetweenSeats(n, from, to, p, x);
    }
    CountStep(from, to, p);
    CountBelow(n, to, p);
  }

  lemma {:induction false} FollowsRound(n: nat, from: nat, to: nat, p: nat -> bool)
    requires Follows(n, from, to, p) && p(from) && to < from
    ensures CountOf(to, p) == 0 && CountOf(from, p) + 1 == CountOf(n, p)
  {
    forall x: nat | x < to || from + 1 <= x < n ensures !p(x) {
      BetweenSeats(n, from, to, p, x);
    }
    CountStill(to, 0, p);
    CountStep(from, n, p);
  }

  /** Among k seats the next one has the next number, and after the last comes the first. */
  lemma {:induction false} FollowsCounts(n: nat, from: nat, to: nat, p: nat -> bool)
    requires Follows(n, from, to, p) && p(from)
    ensures CountOf(from, p) < CountOf(n, p)
    ensures CountOf(to, p) == if CountOf(from, p) + 1 == CountOf(n, p) then 0 else CountOf(from, p) + 1
  {
    if from < to {
      FollowsOnward(n, from, to, p);
    } else {
      FollowsRound(n, from, to, p);
    }
  }

  lemma {:induction false} CountIdentifies(n: nat, x: nat, y: nat, p: nat -> bool)
    requires x < n && y < n && p(x) && p(y) && CountOf(x, p) == CountOf(y, p)
    ensures x == y
  {
    if x < y {
      CountMonotone(y, x + 1, p);
    } else if y < x {
      CountMonotone(x, y + 1, p);
    }
  }
}
