/** Poker hands: their encoding, its key, and the best hand among many cards. */
module Rankings {
  import opened Wrappers
  import opened Indexes
  import opened Players

  datatype HandError = NotFiveCards | FiveOfAKind | NotEnoughCards

  /** One place of an encoding: the kind of hand, a kicker, or nothing. */
  datatype Slot = Kind(n: nat) | Kicker(rank: nat) | Empty

  // Ranks by how often they occur

  function CountRank(hand: seq<Card>, r: nat): nat {
    if hand == [] then 0 else CountRank(hand[..|hand| - 1], r) + if hand[|hand| - 1].rank == r then 1 else 0
  }

  function OccursIn(hand: seq<Card>): nat -> bool {
    (r: nat) => CountRank(hand, r) > 0
  }

  /** Larger buckets first, and higher ranks first among equals; the pair as one number. */
  function BucketKey(hand: seq<Card>): nat -> int {
    (r: nat) => -(13 * CountRank(hand, r) + r)
  }

  /** The ranks of the hand in bucket order. */
  function Buckets(hand: seq<Card>): seq<nat> {
    SortBy(Filter(Below(13), OccursIn(hand)), BucketKey(hand))
  }

  function Sizes(hand: seq<Card>, ranks: seq<nat>): (r: seq<nat>)
    ensures |r| == |ranks| && forall k :: 0 <= k < |ranks| ==> r[k] == CountRank(hand, ranks[k])
  {
    seq(|ranks|, k requires 0 <= k < |ranks| => CountRank(hand, ranks[k]))
  }

  predicate Flush(hand: seq<Card>) {
    forall k :: 0 <= k < |hand| ==> hand[k].suit == hand[0].suit
  }

  // The encoding

  function Pad(s: seq<Slot>): seq<Slot> {
    if |s| >= 6 then s else s + seq(6 - |s|, _ => Empty)
  }

  function Kickers(ranks: seq<nat>): (r: seq<Slot>)
    ensures |r| == |ranks| && forall k :: 0 <= k < |ranks| ==> r[k] == Kicker(ranks[k])
  {
    seq(|ranks|, k requires 0 <= k < |ranks| => Kicker(ranks[k]))
  }

  /** What kind of hand five different ranks make. */
  function SpreadKind(ranks: seq<nat>, flush: bool): nat
    requires |ranks| == 5
  {
    var straight := ranks[0] == ranks[4] + 4 || IsWheel(ranks);
    if flush then (if straight then 8 else 5) else if straight then 4 else 0
  }

  /** Five down to ace: the ace counts as low. */
  predicate IsWheel(ranks: seq<nat>) {
    ranks == [12, 3, 2, 1, 0]
  }

  function Spread(ranks: seq<nat>, flush: bool): seq<Slot>
    requires |ranks| == 5
  {
    [Kind(SpreadKind(ranks, flush))] + Kickers(if IsWheel(ranks) then ranks[1..] + [ranks[0]] else ranks)
  }

  /** handrank_encoding, from the buckets and whether it is a flush */
  function Encoded(ranks: seq<nat>, sizes: seq<nat>, flush: bool): Result<seq<Slot>, HandError> {
    if sizes == [4, 1] then Success(Pad([Kind(7)] + Kickers(ranks)))
    else if sizes == [3, 2] then Success(Pad([Kind(6)] + Kickers(ranks)))
    else if sizes == [3, 1, 1] then Success(Pad([Kind(3)] + Kickers(ranks)))
    else if sizes == [2, 2, 1] then Success(Pad([Kind(2)] + Kickers(ranks)))
    else if sizes == [2, 1, 1, 1] then Success(Pad([Kind(1)] + Kickers(ranks)))
    else if |ranks| != 5 then Failure(FiveOfAKind)
    else Success(Spread(ranks, flush))
  }

  function Encoding(hand: seq<Card>): Result<seq<Slot>, HandError> {
    if |hand| != 5 then Failure(NotFiveCards)
    else Encoded(Buckets(hand), Sizes(hand, Buckets(hand)), Flush(hand))
  }

  // The key

  function Digit(s: Slot): nat {
    match s
    case Kind(n) => n
    case Kicker(rank) => rank
    case Empty => 0
  }

  /** The digits read in base 100. */
  function Key(e: seq<Slot>): nat {
    if e == [] then 0 else Key(e[..|e| - 1]) * 100 + Digit(e[|e| - 1])
  }

  lemma Shift(a: nat, d: nat, m: nat)
    ensures (a * 100 + d) * m == a * (m * 100) + d * m
  {
    assert (a * 100 + d) * m == (a * 100) * m + d * m;
    assert (a * 100) * m == a * (m * 100);
  }

  lemma {:induction false} KeyStep(e: seq<Slot>, i: nat, m: nat, n: nat)
    requires 0 < i <= |e| && Key(e) == Key(e[..i]) * m + n
    ensures Key(e) == Key(e[..i - 1]) * (m * 100) + (n + Digit(e[i - 1]) * m)
  {
    assert e[..i][..i - 1] == e[..i - 1];
    Shift(Key(e[..i - 1]), Digit(e[i - 1]), m);
  }

  /** handrank_encoding_to_key: from the last place to the first */
  method EncodingToKey(e: seq<Slot>) returns (n: nat)
    ensures n == Key(e)
  {
    n := 0;
    var m: nat := 1;
    var i := |e|;
    assert e[..i] == e;
    while i > 0
      invariant 0 <= i <= |e|
      invariant Key(e) == Key(e[..i]) * m + n
    {
      KeyStep(e, i, m, n);
      match e[i - 1] {
        case Kind(k) => n := n + k * m;
        case Kicker(rank) => n := n + rank * m;
        case Empty =>
      }
      m := m * 100;
      i := i - 1;
    }
  }

  /** Lexicographic order of encodings, by digits. */
  predicate Lower(a: seq<Slot>, b: seq<Slot>)
    requires |a| == |b|
  {
    if a == [] then false
    else
      var n := |a| - 1;
      Lower(a[..n], b[..n]) || (SameDigits(a[..n], b[..n]) && Digit(a[n]) < Digit(b[n]))
  }

  predicate SameDigits(a: seq<Slot>, b: seq<Slot>)
    requires |a| == |b|
  {
    forall k :: 0 <= k < |a| ==> Digit(a[k]) == Digit(b[k])
  }

  ghost predicate Small(e: seq<Slot>) {
    forall k :: 0 <= k < |e| ==> Digit(e[k]) < 100
  }

  /** The key orders encodings lexicographically. */
  lemma {:induction false} KeyOrders(a: seq<Slot>, b: seq<Slot>)
    requires |a| == |b| && Small(a) && Small(b)
    ensures Key(a) < Key(b) <==> Lower(a, b)
    ensures Key(a) == Key(b) <==> SameDigits(a, b)
    decreases |a|
  {
    if a != [] {
      var n := |a| - 1;
      KeyOrders(a[..n], b[..n]);
      assert SameDigits(a, b) <==> SameDigits(a[..n], b[..n]) && Digit(a[n]) == Digit(b[n]) by {
        assert forall k :: 0 <= k < n ==> a[..n][k] == a[k] && b[..n][k] == b[k];
      }
    }
  }

  // Only the cards matter, not their order

  lemma {:induction false} CountAppend(a: seq<Card>, b: seq<Card>, r: nat)
    ensures CountRank(a + b, r) == CountRank(a, r) + CountRank(b, r)
    decreases |b|
  {
    if b == [] {
      assert a + b == a;
    } else {
      assert (a + b)[..|a + b| - 1] == a + b[..|b| - 1];
      CountAppend(a, b[..|b| - 1], r);
    }
  }

  lemma Removed(b: seq<Card>, c: Card) returns (rest: seq<Card>)
    requires c in b
    ensures multiset(rest) + multiset{c} == multiset(b) && |rest| + 1 == |b|
    ensures forall r :: CountRank(b, r) == CountRank(rest, r) + if c.rank == r then 1 else 0
  {
    var k :| 0 <= k < |b| && b[k] == c;
    rest := b[..k] + b[k + 1..];
    assert b == b[..k] + [c] + b[k + 1..];
    forall r ensures CountRank(b, r) == CountRank(rest, r) + if c.rank == r then 1 else 0 {
      CountAppend(b[..k], b[k + 1..], r);
      CountAppend(b[..k] + [c], b[k + 1..], r);
      CountAppend(b[..k], [c], r);
      assert [c][..0] == [];
    }
  }

  lemma CancelOne(x: multiset<Card>, y: multiset<Card>, c: Card)
    requires x + multiset{c} == y + multiset{c}
    ensures x == y
  {
    forall d ensures x[d] == y[d] {
      assert (x + multiset{c})[d] == x[d] + multiset{c}[d] && (y + multiset{c})[d] == y[d] + multiset{c}[d];
    }
  }

  lemma {:induction false} CountOfSame(a: seq<Card>, b: seq<Card>, r: nat)
    requires multiset(a) == multiset(b)
    ensures CountRank(a, r) == CountRank(b, r)
    decreases |a|
  {
    if a == [] {
      assert multiset(b) == multiset{} && |b| == |multiset(b)|;
    } else {
      var n := |a| - 1;
      assert a == a[..n] + [a[n]];
      assert a[n] in multiset(b);
      var rest := Removed(b, a[n]);
      CancelOne(multiset(a[..n]), multiset(rest), a[n]);
      CountOfSame(a[..n], rest, r);
    }
  }

  lemma FlushOfSame(a: seq<Card>, b: seq<Card>)
    requires multiset(a) == multiset(b) && Flush(a)
    ensures Flush(b)
  {
    forall j, k | 0 <= j < |b| && 0 <= k < |b| ensures b[j].suit == b[k].suit {
      assert b[j] in multiset(a) && b[k] in multiset(a);
    }
  }

  lemma {:induction false} InsertOfSame(i: nat, s: seq<nat>, f: nat -> int, g: nat -> int)
    requires forall j: nat :: f(j) == g(j)
    ensures Insert(i, s, f) == Insert(i, s, g)
  {
    if s != [] {
      InsertOfSame(i, s[1..], f, g);
    }
  }

  lemma {:induction false} SortOfSame(s: seq<nat>, f: nat -> int, g: nat -> int)
    requires forall j: nat :: f(j) == g(j)
    ensures SortBy(s, f) == SortBy(s, g)
  {
    if s != [] {
      SortOfSame(s[1..], f, g);
      InsertOfSame(s[0], SortBy(s[1..], f), f, g);
    }
  }

  ghost predicate SameCounts(a: seq<Card>, b: seq<Card>) {
    forall r: nat :: CountRank(a, r) == CountRank(b, r)
  }

  /** The encoding is a function of how often each rank occurs and of whether it is a flush. */
  lemma EncodingOfCounts(a: seq<Card>, b: seq<Card>)
    requires |a| == |b| && SameCounts(a, b) && Flush(a) == Flush(b)
    ensures Encoding(a) == Encoding(b)
  {
    SortedOfCounts(a, b, Below(13));
    SizesOfCounts(a, b, Buckets(a));
  }

  lemma SortedOfCounts(a: seq<Card>, b: seq<Card>, ranks: seq<nat>)
    requires SameCounts(a, b)
    ensures SortBy(Filter(ranks, OccursIn(a)), BucketKey(a)) == SortBy(Filter(ranks, OccursIn(b)), BucketKey(b))
  {
    assert forall r: nat :: OccursIn(a)(r) == OccursIn(b)(r) && BucketKey(a)(r) == BucketKey(b)(r);
    SameFilter(ranks, OccursIn(a), OccursIn(b));
    SortOfSame(Filter(ranks, OccursIn(a)), BucketKey(a), BucketKey(b));
  }

  lemma SizesOfCounts(a: seq<Card>, b: seq<Card>, ranks: seq<nat>)
    requires SameCounts(a, b)
    ensures Sizes(a, ranks) == Sizes(b, ranks)
  {
  }

  /** The encoding does not depend on the order of the cards. */
  lemma EncodingOfSame(a: seq<Card>, b: seq<Card>)
    requires multiset(a) == multiset(b)
    ensures Encoding(a) == Encoding(b)
  {
    assert |a| == |multiset(a)| && |b| == |multiset(b)|;
    forall r: nat ensures CountRank(a, r) == CountRank(b, r) {
      CountOfSame(a, b, r);
    }
    if Flush(a) { FlushOfSame(a, b); }
    if Flush(b) { FlushOfSame(b, a); }
    EncodingOfCounts(a, b);
  }

  // Five different cards

  predicate Different(hand: seq<Card>) {
    forall j, k :: 0 <= j < k < |hand| ==> hand[j] != hand[k]
  }

  function CountAt(hand: seq<Card>): nat -> int {
    (r: nat) => CountRank(hand, r)
  }

  lemma {:induction false} RanksAddUp(hand: seq<Card>, s: seq<nat>)
    requires Distinct(s) && forall k :: 0 <= k < |hand| ==> hand[k].rank in s
    ensures SumOf(s, CountAt(hand)) == |hand|
    decreases |hand|
  {
    if hand == [] {
      ZeroSum(s, CountAt(hand));
    } else {
      var n := |hand| - 1;
      RanksAddUp(hand[..n], s);
      var r: nat := hand[n].rank;
      BumpedSum(s, CountAt(hand[..n]), CountAt(hand), r);
    }
  }

  lemma {:induction false} ZeroSum(s: seq<nat>, f: nat -> int)
    requires forall i :: i in s ==> f(i) == 0
    ensures SumOf(s, f) == 0
  {
    if s != [] {
      ZeroSum(s[1..], f);
    }
  }

  lemma {:induction false} BumpedSum(s: seq<nat>, f: nat -> int, g: nat -> int, r: nat)
    requires Distinct(s) && forall i :: i in s ==> g(i) == f(i) + if i == r then 1 else 0
    ensures SumOf(s, g) == SumOf(s, f) + if r in s then 1 else 0
  {
    if s != [] {
      BumpedSum(s[1..], f, g, r);
      assert s[0] !in s[1..];
    }
  }

  /** Four suits leave room for four cards of a rank. */
  lemma {:induction false} FourOfARank(hand: seq<Card>, r: nat, suits: set<nat>)
    requires Different(hand) && forall k :: 0 <= k < |hand| && hand[k].rank == r ==> hand[k].suit as nat in suits
    ensures CountRank(hand, r) <= |suits|
    decreases |hand|
  {
    if hand != [] {
      var n := |hand| - 1;
      if hand[n].rank == r {
        var rest := suits - {hand[n].suit as nat};
        forall k | 0 <= k < n && hand[..n][k].rank == r ensures hand[..n][k].suit as nat in rest {
          assert hand[k] != hand[n];
        }
        FourOfARank(hand[..n], r, rest);
        assert |rest| == |suits| - 1;
      } else {
        FourOfARank(hand[..n], r, suits);
      }
    }
  }

  lemma {:induction false} BucketsAre(hand: seq<Card>)
    ensures Distinct(Buckets(hand)) && SortedBy(Buckets(hand), BucketKey(hand))
    ensures forall r: nat :: r in Buckets(hand) <==> r < 13 && CountRank(hand, r) > 0
  {
    var present := Filter(Below(13), OccursIn(hand));
    BelowAll(13);
    FilterDistinct(Below(13), OccursIn(hand));
    SortByPermutes(present, BucketKey(hand));
    SortBySorted(present, BucketKey(hand));
    SortByDistinct(present, BucketKey(hand));
  }

  lemma {:induction false} PresentAddUp(hand: seq<Card>, all: seq<nat>)
    requires Distinct(all) && forall k :: 0 <= k < |hand| ==> hand[k].rank in all
    ensures SumOf(Filter(all, OccursIn(hand)), CountAt(hand)) == |hand|
  {
    SumOfFiltered(all, OccursIn(hand), CountAt(hand));
    RanksAddUp(hand, all);
  }

  lemma {:induction false} SortedAddUp(hand: seq<Card>, all: seq<nat>)
    requires Distinct(all) && forall k :: 0 <= k < |hand| ==> hand[k].rank in all
    ensures SumOf(SortBy(Filter(all, OccursIn(hand)), BucketKey(hand)), CountAt(hand)) == |hand|
  {
    var present := Filter(all, OccursIn(hand));
    PresentAddUp(hand, all);
    FilterDistinct(all, OccursIn(hand));
    SortByPermutes(present, BucketKey(hand));
    SortByDistinct(present, BucketKey(hand));
    SumOfPermuted(SortBy(present, BucketKey(hand)), present, CountAt(hand));
  }

  lemma BucketsAddUp(hand: seq<Card>)
    ensures SumOf(Buckets(hand), CountAt(hand)) == |hand|
  {
    BelowAll(13);
    SortedAddUp(hand, Below(13));
  }

  lemma BelowAll(n: nat)
    ensures Distinct(Below(n)) && forall k: nat :: k in Below(n) <==> k < n
  {
    forall k: nat | k < n ensures k in Below(n) {
      assert Below(n)[k] == k;
    }
  }

  /** Sizes never grow along the buckets, and within a size the ranks fall. */
  lemma {:induction false} BucketsFall(hand: seq<Card>, j: nat, k: nat)
    requires j < k < |Buckets(hand)|
    ensures
      var c, d := CountRank(hand, Buckets(hand)[j]), CountRank(hand, Buckets(hand)[k]);
      0 < d <= c && (c == d ==> Buckets(hand)[j] > Buckets(hand)[k])
  {
    BucketsAre(hand);
    var b := Buckets(hand);
    assert b[j] in b && b[k] in b;
    assert BucketKey(hand)(b[j]) <= BucketKey(hand)(b[k]);
  }

  lemma {:induction false} SumAtLeastLength(s: seq<nat>, f: nat -> int)
    requires forall i :: i in s ==> 1 <= f(i)
    ensures SumOf(s, f) >= |s|
  {
    if s != [] {
      SumAtLeastLength(s[1..], f);
    }
  }

  /** The sizes of five cards' buckets. */
  predicate FiveSplit(sizes: seq<nat>) {
    || sizes == [4, 1] || sizes == [3, 2] || sizes == [3, 1, 1] || sizes == [2, 2, 1]
    || sizes == [2, 1, 1, 1] || sizes == [1, 1, 1, 1, 1]
  }

  lemma {:induction false} SumUnrolled(s: seq<nat>, f: nat -> int)
    requires 1 <= |s| <= 5
    ensures SumOf(s, f) == f(s[0]) + (if |s| > 1 then f(s[1]) else 0) + (if |s| > 2 then f(s[2]) else 0)
                         + (if |s| > 3 then f(s[3]) else 0) + (if |s| > 4 then f(s[4]) else 0)
    decreases |s|
  {
    if |s| > 1 {
      SumUnrolled(s[1..], f);
    }
  }

  ghost predicate Falling(sizes: seq<nat>) {
    forall j, k :: 0 <= j < k < |sizes| ==> sizes[k] <= sizes[j]
  }

  lemma SplitInTwo(sizes: seq<nat>)
    requires |sizes| == 2 && 1 <= sizes[1] <= sizes[0] <= 4 && sizes[0] + sizes[1] == 5
    ensures FiveSplit(sizes)
  {
    assert sizes == [sizes[0], sizes[1]];
  }

  lemma SplitInThree(sizes: seq<nat>)
    requires |sizes| == 3 && 1 <= sizes[2] <= sizes[1] <= sizes[0] && sizes[0] + sizes[1] + sizes[2] == 5
    ensures FiveSplit(sizes)
  {
    assert sizes == [sizes[0], sizes[1], sizes[2]];
  }

  lemma SplitInFour(sizes: seq<nat>)
    requires |sizes| == 4 && 1 <= sizes[3] <= sizes[2] <= sizes[1] <= sizes[0]
    requires sizes[0] + sizes[1] + sizes[2] + sizes[3] == 5
    ensures FiveSplit(sizes)
  {
    assert sizes == [sizes[0], sizes[1], sizes[2], sizes[3]];
  }

  lemma SplitInFive(sizes: seq<nat>)
    requires |sizes| == 5 && 1 <= sizes[0] && 1 <= sizes[1] && 1 <= sizes[2] && 1 <= sizes[3] && 1 <= sizes[4]
    requires sizes[0] + sizes[1] + sizes[2] + sizes[3] + sizes[4] == 5
    ensures FiveSplit(sizes)
  {
    assert sizes == [sizes[0], sizes[1], sizes[2], sizes[3], sizes[4]];
  }

  lemma {:induction false} FiveSplits(ranks: seq<nat>, f: nat -> int, sizes: seq<nat>)
    requires |sizes| == |ranks| && forall k :: 0 <= k < |ranks| ==> sizes[k] == f(ranks[k])
    requires forall k :: 0 <= k < |ranks| ==> 1 <= f(ranks[k]) <= 4
    requires Falling(sizes) && SumOf(ranks, f) == 5
    ensures FiveSplit(sizes)
  {
    SumAtLeastLength(ranks, f);
    if |ranks| > 0 {
      SumUnrolled(ranks, f);
    }
    if |sizes| == 2 {
      SplitInTwo(sizes);
    } else if |sizes| == 3 {
      SplitInThree(sizes);
    } else if |sizes| == 4 {
      SplitInFour(sizes);
    } else {
      SplitInFive(sizes);
    }
  }

  predicate AHand(hand: seq<Card>) {
    |hand| == 5 && Different(hand)
  }

  lemma {:induction false} AtMostFour(hand: seq<Card>, r: nat)
    requires Different(hand)
    ensures CountRank(hand, r) <= 4
  {
    var suits: set<nat> := {0, 1, 2, 3};
    assert forall s: nat :: s < 4 ==> s in suits;
    FourOfARank(hand, r, suits);
  }

  lemma {:induction false} SizesInRange(hand: seq<Card>, k: nat)
    requires Different(hand) && k < |Buckets(hand)|
    ensures 1 <= CountRank(hand, Buckets(hand)[k]) <= 4
  {
    BucketsAre(hand);
    assert Buckets(hand)[k] in Buckets(hand);
    AtMostFour(hand, Buckets(hand)[k]);
  }

  lemma SizesFall(hand: seq<Card>)
    ensures Falling(Sizes(hand, Buckets(hand)))
  {
    var b := Buckets(hand);
    forall j, k | 0 <= j < k < |b| ensures CountRank(hand, b[k]) <= CountRank(hand, b[j]) {
      BucketsFall(hand, j, k);
    }
  }

  lemma HandSplits(hand: seq<Card>)
    requires AHand(hand)
    ensures FiveSplit(Sizes(hand, Buckets(hand)))
  {
    var b := Buckets(hand);
    BucketsAddUp(hand);
    forall k | 0 <= k < |b| ensures 1 <= CountAt(hand)(b[k]) <= 4 {
      SizesInRange(hand, k);
    }
    SizesFall(hand);
    FiveSplits(b, CountAt(hand), Sizes(hand, b));
  }

  lemma SplitEncodes(ranks: seq<nat>, sizes: seq<nat>, flush: bool)
    requires |ranks| == |sizes| && FiveSplit(sizes) && forall k :: 0 <= k < |ranks| ==> ranks[k] < 13
    ensures Encoded(ranks, sizes, flush).Success?
    ensures |Encoded(ranks, sizes, flush).value| == 6 && Small(Encoded(ranks, sizes, flush).value)
  {
    assert |sizes| == 5 || |sizes| <= 4;
  }

  /** Five different cards always have an encoding, of six places. */
  lemma HandEncodes(hand: seq<Card>)
    requires AHand(hand)
    ensures Encoding(hand).Success? && |Encoding(hand).value| == 6 && Small(Encoding(hand).value)
  {
    HandSplits(hand);
    var b := Buckets(hand);
    forall k | 0 <= k < |b| ensures b[k] < 13 {
      BucketsAre(hand);
      assert b[k] in b;
    }
    SplitEncodes(b, Sizes(hand, b), Flush(hand));
  }

  // Ties

  /** hand_sortkey */
  function HandKey(hand: seq<Card>): nat
    requires AHand(hand)
  {
    HandEncodes(hand);
    Key(Encoding(hand).value)
  }

  /** The hands of different cards that a bucket pattern can stand for. */
  ghost predicate Proper(ranks: seq<nat>, sizes: seq<nat>, flush: bool) {
    && |ranks| == |sizes| && FiveSplit(sizes) && (flush ==> |sizes| == 5)
    && (|ranks| == 5 ==> ranks[0] > ranks[1] > ranks[2] > ranks[3] > ranks[4])
  }

  lemma SizesByKind(ranks: seq<nat>, sizes: seq<nat>, flush: bool)
    requires Proper(ranks, sizes, flush)
    ensures Encoded(ranks, sizes, flush).Success? && |Encoded(ranks, sizes, flush).value| == 6
    ensures
      var kind := Digit(Encoded(ranks, sizes, flush).value[0]);
      && (kind == 7 <==> sizes == [4, 1]) && (kind == 6 <==> sizes == [3, 2]) && (kind == 3 <==> sizes == [3, 1, 1])
      && (kind == 2 <==> sizes == [2, 2, 1]) && (kind == 1 <==> sizes == [2, 1, 1, 1])
      && ((kind == 5 || kind == 8) <==> flush)
  {
    assert |sizes| == 5 || |sizes| <= 4;
  }

  lemma KickersAre(ranks: seq<nat>, sizes: seq<nat>, flush: bool)
    requires Proper(ranks, sizes, flush) && |sizes| != 5
    ensures Encoded(ranks, sizes, flush).Success? && |Encoded(ranks, sizes, flush).value| == 6
    ensures forall k :: 0 <= k < |ranks| ==> Digit(Encoded(ranks, sizes, flush).value[k + 1]) == ranks[k]
  {
    var kind :=
      if sizes == [4, 1] then 7 else if sizes == [3, 2] then 6 else if sizes == [3, 1, 1] then 3
      else if sizes == [2, 2, 1] then 2 else 1;
    assert |sizes| <= 4;
    assert Encoded(ranks, sizes, flush) == Success(Pad([Kind(kind)] + Kickers(ranks)));
    PaddedKickers(ranks, kind);
  }

  lemma PaddedKickers(ranks: seq<nat>, kind: nat)
    requires |ranks| <= 5
    ensures |Pad([Kind(kind)] + Kickers(ranks))| == 6
    ensures forall k :: 0 <= k < |ranks| ==> Digit(Pad([Kind(kind)] + Kickers(ranks))[k + 1]) == ranks[k]
  {
  }

  lemma SpreadIs(ranks: seq<nat>, sizes: seq<nat>, flush: bool)
    requires Proper(ranks, sizes, flush) && |sizes| == 5
    ensures Encoded(ranks, sizes, flush) == Success(Spread(ranks, flush))
  {
  }

  lemma SpreadTells(a: seq<nat>, b: seq<nat>, f: bool, g: bool)
    requires |a| == 5 && |b| == 5 && a[0] > a[1] > a[2] > a[3] > a[4] && b[0] > b[1] > b[2] > b[3] > b[4]
    requires SameDigits(Spread(a, f), Spread(b, g))
    ensures a == b
  {
    var x, y := Spread(a, f), Spread(b, g);
    assert Digit(x[1]) == Digit(y[1]) && Digit(x[2]) == Digit(y[2]) && Digit(x[3]) == Digit(y[3]);
    assert Digit(x[4]) == Digit(y[4]) && Digit(x[5]) == Digit(y[5]);
    assert a == [a[0], a[1], a[2], a[3], a[4]] && b == [b[0], b[1], b[2], b[3], b[4]];
  }

  /** An encoding tells the buckets and whether the hand is a flush. */
  lemma EncodingTells(ra: seq<nat>, sa: seq<nat>, fa: bool, rb: seq<nat>, sb: seq<nat>, fb: bool)
    requires Proper(ra, sa, fa) && Proper(rb, sb, fb)
    requires Encoded(ra, sa, fa).Success? && Encoded(rb, sb, fb).Success?
    requires |Encoded(ra, sa, fa).value| == |Encoded(rb, sb, fb).value|
    requires SameDigits(Encoded(ra, sa, fa).value, Encoded(rb, sb, fb).value)
    ensures ra == rb && sa == sb && fa == fb
  {
    SizesByKind(ra, sa, fa);
    SizesByKind(rb, sb, fb);
    if |sa| == 5 {
      SpreadIs(ra, sa, fa);
      SpreadIs(rb, sb, fb);
      SpreadTells(ra, rb, fa, fb);
    } else {
      KickersAre(ra, sa, fa);
      KickersAre(rb, sb, fb);
    }
  }

  lemma {:induction false} FlushHasNoPair(hand: seq<Card>, r: nat)
    requires Different(hand) && Flush(hand)
    ensures CountRank(hand, r) <= 1
  {
    if hand != [] {
      var suits: set<nat> := {hand[0].suit as nat};
      FourOfARank(hand, r, suits);
    }
  }

  lemma HandIsProper(hand: seq<Card>)
    requires AHand(hand)
    ensures Proper(Buckets(hand), Sizes(hand, Buckets(hand)), Flush(hand))
  {
    HandSplits(hand);
    var b := Buckets(hand);
    var sizes := Sizes(hand, b);
    if Flush(hand) {
      FlushHasNoPair(hand, b[0]);
      assert sizes[0] <= 1;
    }
    if |b| == 5 {
      assert sizes == [1, 1, 1, 1, 1];
      BucketsFall(hand, 0, 1);
      BucketsFall(hand, 1, 2);
      BucketsFall(hand, 2, 3);
      BucketsFall(hand, 3, 4);
    }
  }

  lemma {:induction false} NoHighRank(hand: seq<Card>, r: nat)
    requires r >= 13
    ensures CountRank(hand, r) == 0
    decreases |hand|
  {
    if hand != [] {
      NoHighRank(hand[..|hand| - 1], r);
    }
  }

  lemma BucketsTellCounts(a: seq<Card>, b: seq<Card>)
    requires Buckets(a) == Buckets(b) && Sizes(a, Buckets(a)) == Sizes(b, Buckets(b))
    ensures SameCounts(a, b)
  {
    BucketsAre(a);
    BucketsAre(b);
    var ranks := Buckets(a);
    forall r: nat ensures CountRank(a, r) == CountRank(b, r) {
      if r in ranks {
        var k :| 0 <= k < |ranks| && ranks[k] == r;
        assert Sizes(a, ranks)[k] == Sizes(b, ranks)[k];
      } else if r >= 13 {
        NoHighRank(a, r);
        NoHighRank(b, r);
      }
    }
  }

  /** Two hands tie exactly when they hold the same ranks equally often and are both flushes or neither. */
  lemma TiesAreEqualHands(a: seq<Card>, b: seq<Card>)
    requires AHand(a) && AHand(b)
    ensures HandKey(a) == HandKey(b) <==> SameCounts(a, b) && Flush(a) == Flush(b)
  {
    HandEncodes(a);
    HandEncodes(b);
    if SameCounts(a, b) && Flush(a) == Flush(b) {
      EncodingOfCounts(a, b);
    }
    if HandKey(a) == HandKey(b) {
      KeyOrders(Encoding(a).value, Encoding(b).value);
      HandIsProper(a);
      HandIsProper(b);
      EncodingTells(Buckets(a), Sizes(a, Buckets(a)), Flush(a), Buckets(b), Sizes(b, Buckets(b)), Flush(b));
      BucketsTellCounts(a, b);
    }
  }
}
