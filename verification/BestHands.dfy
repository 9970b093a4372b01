/** The best five of many cards, with and without a fixed number of hole cards. */
module BestHands {
  import opened Wrappers
  import opened Players
  import opened Tables
  import opened Rankings

  /** itertools.combinations, in its order */
  function Combinations(s: seq<Card>, k: nat): seq<seq<Card>> {
    if k == 0 then [[]]
    else if s == [] then []
    else Prefixed(s[0], Combinations(s[1..], k - 1)) + Combinations(s[1..], k)
  }

  function Prefixed(c: Card, hands: seq<seq<Card>>): (r: seq<seq<Card>>)
    ensures |r| == |hands| && forall x :: 0 <= x < |hands| ==> r[x] == [c] + hands[x]
  {
    seq(|hands|, x requires 0 <= x < |hands| => [c] + hands[x])
  }

  /** A combination either has the first card and others, or is one of the others. */
  lemma SplitCombination(s: seq<Card>, k: nat, h: seq<Card>) returns (first: bool, g: seq<Card>)
    requires k > 0 && h in Combinations(s, k)
    ensures s != []
    ensures if first then h == [s[0]] + g && g in Combinations(s[1..], k - 1) else h in Combinations(s[1..], k)
  {
    var taken := Prefixed(s[0], Combinations(s[1..], k - 1));
    g := h;
    first := h in taken;
    if first {
      var x :| 0 <= x < |taken| && taken[x] == h;
      g := Combinations(s[1..], k - 1)[x];
    }
  }

  lemma MoreToTake(s: seq<Card>, h: seq<Card>)
    requires s != []
    ensures multiset(h) <= multiset(s[1..]) ==> multiset(h) <= multiset(s) && multiset([s[0]] + h) <= multiset(s)
  {
    assert s == [s[0]] + s[1..];
    assert multiset(s) == multiset{s[0]} + multiset(s[1..]);
    assert multiset([s[0]] + h) == multiset{s[0]} + multiset(h);
  }

  /** Every combination takes k of the cards. */
  lemma {:induction false} CombinationsTake(s: seq<Card>, k: nat, h: seq<Card>)
    requires h in Combinations(s, k)
    ensures |h| == k && multiset(h) <= multiset(s)
    decreases |s|
  {
    if k > 0 {
      var first, g := SplitCombination(s, k, h);
      if first {
        CombinationsTake(s[1..], k - 1, g);
        MoreToTake(s, g);
      } else {
        CombinationsTake(s[1..], k, h);
        MoreToTake(s, h);
      }
    }
  }

  lemma {:induction false} DifferentTaken(s: seq<Card>, h: seq<Card>)
    requires Different(s) && multiset(h) <= multiset(s)
    ensures Different(h)
    decreases |h|
  {
    if h != [] {
      var n := |h| - 1;
      assert h == h[..n] + [h[n]];
      DifferentTaken(s, h[..n]);
      if h[n] in h[..n] {
        assert multiset(h[..n])[h[n]] >= 1;
        assert multiset(h)[h[n]] >= 2;
        OnceOnly(s, h[n]);
      }
    }
  }

  lemma {:induction false} OnceOnly(s: seq<Card>, c: Card)
    requires Different(s)
    ensures multiset(s)[c] <= 1
    decreases |s|
  {
    if s != [] {
      assert s == [s[0]] + s[1..];
      assert s[0] !in s[1..];
      OnceOnly(s[1..], c);
    }
  }

  lemma WithoutFirst(s: seq<Card>, h: seq<Card>)
    requires s != [] && multiset(h) <= multiset(s) && s[0] !in h
    ensures multiset(h) <= multiset(s[1..])
  {
    assert s == [s[0]] + s[1..];
    forall c ensures multiset(h)[c] <= multiset(s[1..])[c] {
      assert multiset(s)[c] == multiset([s[0]])[c] + multiset(s[1..])[c];
      assert c == s[0] ==> multiset(h)[c] == 0;
    }
  }

  lemma WithFirst(s: seq<Card>, h: seq<Card>, rest: seq<Card>)
    requires s != [] && multiset(h) <= multiset(s) && multiset(rest) + multiset{s[0]} == multiset(h)
    ensures multiset(rest) <= multiset(s[1..])
  {
    assert s == [s[0]] + s[1..];
    forall c ensures multiset(rest)[c] <= multiset(s[1..])[c] {
      assert multiset(s)[c] == multiset{s[0]}[c] + multiset(s[1..])[c];
      assert multiset(h)[c] == multiset(rest)[c] + multiset{s[0]}[c];
      assert multiset(h)[c] <= multiset(s)[c];
    }
  }

  /** Any k of the cards are one of the combinations, up to order. */
  lemma {:induction false} CombinationsReach(s: seq<Card>, k: nat, h: seq<Card>) returns (g: seq<Card>)
    requires |h| == k && multiset(h) <= multiset(s)
    ensures g in Combinations(s, k) && multiset(g) == multiset(h)
    decreases |s|
  {
    if k == 0 {
      g := [];
    } else {
      assert h[0] in multiset(s);
      if s[0] in h {
        var rest := Removed(h, s[0]);
        WithFirst(s, h, rest);
        var g' := CombinationsReach(s[1..], k - 1, rest);
        g := [s[0]] + g';
        var x :| 0 <= x < |Combinations(s[1..], k - 1)| && Combinations(s[1..], k - 1)[x] == g';
        assert Prefixed(s[0], Combinations(s[1..], k - 1))[x] == g;
      } else {
        WithoutFirst(s, h);
        g := CombinationsReach(s[1..], k, h);
      }
    }
  }

  // The best hand

  /** hand_sortkey, on any list of cards */
  function SortKey(): seq<Card> -> int {
    (h: seq<Card>) => if AHand(h) then HandKey(h) else 0
  }

  /** best_hand: sorted by key, highest first, the first of them */
  function BestBy(hands: seq<seq<Card>>, key: seq<Card> -> int): (h: seq<Card>)
    requires hands != []
    ensures h in hands && forall g :: g in hands ==> key(g) <= key(h)
  {
    if |hands| == 1 then hands[0]
    else
      var h := BestBy(hands[1..], key);
      assert hands == [hands[0]] + hands[1..];
      if key(hands[0]) >= key(h) then hands[0] else h
  }

  lemma {:induction false} SomeCombination(s: seq<Card>, k: nat)
    requires k <= |s|
    ensures Combinations(s, k) != []
    decreases |s|
  {
    if k > 0 {
      SomeCombination(s[1..], k - 1);
    }
  }

  /** best_hand_from_cards */
  function BestOf(cards: seq<Card>): Result<seq<Card>, HandError> {
    if |cards| < 5 then Failure(NotEnoughCards)
    else
      SomeCombination(cards, 5);
      Success(BestBy(Combinations(cards, 5), SortKey()))
  }

  lemma KeyOfSame(a: seq<Card>, b: seq<Card>)
    requires multiset(a) == multiset(b) && AHand(a) && AHand(b)
    ensures SortKey()(a) == SortKey()(b)
  {
    EncodingOfSame(a, b);
  }

  /** The best hand is five of the cards, and no five of them are better. */
  lemma BestDominates(cards: seq<Card>, h: seq<Card>)
    requires Different(cards) && |h| == 5 && multiset(h) <= multiset(cards)
    ensures BestOf(cards).Success? && AHand(BestOf(cards).value) && AHand(h)
    ensures multiset(BestOf(cards).value) <= multiset(cards)
    ensures HandKey(h) <= HandKey(BestOf(cards).value)
  {
    assert |h| == |multiset(h)| <= |multiset(cards)| == |cards| by { SmallerIsFewer(h, cards); }
    var g := CombinationsReach(cards, 5, h);
    var best := BestOf(cards).value;
    CombinationsTake(cards, 5, best);
    CombinationsTake(cards, 5, g);
    DifferentTaken(cards, best);
    DifferentTaken(cards, g);
    DifferentTaken(cards, h);
    KeyOfSame(g, h);
    assert SortKey()(g) <= SortKey()(best);
  }

  lemma {:induction false} SmallerIsFewer(h: seq<Card>, s: seq<Card>)
    requires multiset(h) <= multiset(s)
    ensures |h| <= |s|
    decreases |h|
  {
    if h != [] {
      var n := |h| - 1;
      assert h == h[..n] + [h[n]];
      assert h[n] in multiset(s);
      var rest := Removed(s, h[n]);
      forall c ensures multiset(h[..n])[c] <= multiset(rest)[c] {
        assert multiset(h)[c] == multiset(h[..n])[c] + multiset{h[n]}[c];
        assert multiset(s)[c] == multiset(rest)[c] + multiset{h[n]}[c];
        assert multiset(h)[c] <= multiset(s)[c];
      }
      SmallerIsFewer(h[..n], rest);
    }
  }

  /** More cards never make the best hand worse. */
  lemma BestGrows(a: seq<Card>, b: seq<Card>)
    requires Different(b) && multiset(a) <= multiset(b) && |a| >= 5
    ensures BestOf(a).Success? && BestOf(b).Success? && AHand(BestOf(a).value) && AHand(BestOf(b).value)
    ensures HandKey(BestOf(a).value) <= HandKey(BestOf(b).value)
  {
    DifferentTaken(b, a);
    var h := BestOf(a).value;
    CombinationsTake(a, 5, h);
    BestDominates(b, h);
  }

  // What a player holds at a showdown

  /** hand_sortkey(player_hand(player)) for every player, by index */
  function HandRank(t: Table): nat -> int {
    (i: nat) =>
      if i < |t.players| then
        match BestOf(t.players[i].cards + t.board)
        case Success(h) => SortKey()(h)
        case Failure(_) => 0
      else 0
  }

  /** A player is ranked by a hand of theirs that no other five of their cards and the board's beat. */
  lemma RankIsBest(t: Table, i: nat, h: seq<Card>) returns (best: seq<Card>)
    requires i < |t.players| && Different(t.players[i].cards + t.board)
    requires |h| == 5 && multiset(h) <= multiset(t.players[i].cards + t.board)
    ensures AHand(h) && HandKey(h) <= HandRank(t)(i)
    ensures AHand(best) && multiset(best) <= multiset(t.players[i].cards + t.board)
    ensures HandRank(t)(i) == HandKey(best)
  {
    BestDominates(t.players[i].cards + t.board, h);
    best := BestOf(t.players[i].cards + t.board).value;
  }

  // With a fixed number of hole cards

  function WithEach(h: seq<Card>, boards: seq<seq<Card>>): (r: seq<seq<Card>>)
    ensures |r| == |boards| && forall x :: 0 <= x < |boards| ==> r[x] == h + boards[x]
  {
    seq(|boards|, x requires 0 <= x < |boards| => h + boards[x])
  }

  function WithAll(holes: seq<seq<Card>>, boards: seq<seq<Card>>): seq<seq<Card>> {
    if holes == [] then [] else WithEach(holes[0], boards) + WithAll(holes[1..], boards)
  }

  lemma {:induction false} WithAllAre(holes: seq<seq<Card>>, boards: seq<seq<Card>>, h: seq<Card>)
    requires h in WithAll(holes, boards)
    ensures exists a, b :: a in holes && b in boards && h == a + b
  {
    if h in WithEach(holes[0], boards) {
      var x :| 0 <= x < |boards| && WithEach(holes[0], boards)[x] == h;
      assert holes[0] in holes && boards[x] in boards && h == holes[0] + boards[x];
    } else {
      WithAllAre(holes[1..], boards, h);
      var a, b :| a in holes[1..] && b in boards && h == a + b;
      assert a in holes;
    }
  }

  lemma {:induction false} WithAllHas(holes: seq<seq<Card>>, boards: seq<seq<Card>>, a: seq<Card>, b: seq<Card>)
    requires a in holes && b in boards
    ensures a + b in WithAll(holes, boards)
  {
    if a == holes[0] {
      var x :| 0 <= x < |boards| && boards[x] == b;
      assert WithEach(a, boards)[x] == a + b;
    } else {
      WithAllHas(holes[1..], boards, a, b);
    }
  }

  /** best_hand_using_holecards */
  function BestUsing(hole: seq<Card>, board: seq<Card>, n: nat := 2): Result<seq<Card>, HandError>
    requires n <= 5
  {
    if |hole| < n || |board| + n < 5 then Failure(NotEnoughCards)
    else
      SomeCombination(hole, n);
      SomeCombination(board, 5 - n);
      var holes, boards := Combinations(hole, n), Combinations(board, 5 - n);
      WithAllHas(holes, boards, holes[0], boards[0]);
      Success(BestBy(WithAll(holes, boards), SortKey()))
  }

  /** The hand takes exactly n of the hole cards and the rest from the board. */
  lemma UsesHoleCards(hole: seq<Card>, board: seq<Card>, n: nat) returns (a: seq<Card>, b: seq<Card>)
    requires n <= 5 && BestUsing(hole, board, n).Success?
    ensures BestUsing(hole, board, n).value == a + b && |a| == n && |b| == 5 - n
    ensures multiset(a) <= multiset(hole) && multiset(b) <= multiset(board)
  {
    var holes, boards := Combinations(hole, n), Combinations(board, 5 - n);
    WithAllAre(holes, boards, BestUsing(hole, board, n).value);
    a, b :| a in holes && b in boards && BestUsing(hole, board, n).value == a + b;
    CombinationsTake(hole, n, a);
    CombinationsTake(board, 5 - n, b);
  }

  lemma PartsFit(hole: seq<Card>, board: seq<Card>, a: seq<Card>, b: seq<Card>)
    requires multiset(a) <= multiset(hole) && multiset(b) <= multiset(board)
    ensures multiset(a + b) <= multiset(hole + board)
  {
  }

  lemma PartsAreHand(hole: seq<Card>, board: seq<Card>, a: seq<Card>, b: seq<Card>)
    requires Different(hole + board) && multiset(a) <= multiset(hole) && multiset(b) <= multiset(board)
    requires |a| + |b| == 5
    ensures AHand(a + b)
  {
    PartsFit(hole, board, a, b);
    DifferentTaken(hole + board, a + b);
  }

  /** Five cards of which exactly n are hole cards never beat the best five of all of them. */
  lemma UsingNeverBeatsBest(hole: seq<Card>, board: seq<Card>, n: nat)
    requires n <= 5 && Different(hole + board) && BestUsing(hole, board, n).Success?
    ensures AHand(BestUsing(hole, board, n).value)
    ensures BestOf(hole + board).Success? && AHand(BestOf(hole + board).value)
    ensures HandKey(BestUsing(hole, board, n).value) <= HandKey(BestOf(hole + board).value)
  {
    var a, b := UsesHoleCards(hole, board, n);
    PartsFit(hole, board, a, b);
    BestDominates(hole + board, a + b);
  }

  /** The hands it chooses from have every such choice among them, up to order. */
  lemma UsingReaches(hole: seq<Card>, board: seq<Card>, n: nat, a: seq<Card>, b: seq<Card>) returns (h: seq<Card>)
    requires n <= 5 && |a| == n && |b| == 5 - n && multiset(a) <= multiset(hole) && multiset(b) <= multiset(board)
    ensures h in WithAll(Combinations(hole, n), Combinations(board, 5 - n)) && multiset(h) == multiset(a + b)
    ensures |hole| >= n && |board| + n >= 5
  {
    SmallerIsFewer(a, hole);
    SmallerIsFewer(b, board);
    var c := CombinationsReach(hole, n, a);
    var d := CombinationsReach(board, 5 - n, b);
    WithAllHas(Combinations(hole, n), Combinations(board, 5 - n), c, d);
    h := c + d;
  }

  lemma UsingIsLargest(hole: seq<Card>, board: seq<Card>, n: nat, h: seq<Card>)
    requires n <= 5 && |hole| >= n && |board| + n >= 5
    requires h in WithAll(Combinations(hole, n), Combinations(board, 5 - n))
    ensures BestUsing(hole, board, n).Success? && SortKey()(h) <= SortKey()(BestUsing(hole, board, n).value)
  {
  }

  /** And no other choice of n hole cards and 5 - n board cards is better. */
  lemma UsingDominates(hole: seq<Card>, board: seq<Card>, n: nat, a: seq<Card>, b: seq<Card>)
    requires n <= 5 && Different(hole + board) && |a| == n && |b| == 5 - n
    requires multiset(a) <= multiset(hole) && multiset(b) <= multiset(board)
    ensures BestUsing(hole, board, n).Success? && AHand(BestUsing(hole, board, n).value) && AHand(a + b)
    ensures HandKey(a + b) <= HandKey(BestUsing(hole, board, n).value)
  {
    var h := UsingReaches(hole, board, n, a, b);
    UsingIsLargest(hole, board, n, h);
    var e, f := UsesHoleCards(hole, board, n);
    PartsAreHand(hole, board, a, b);
    PartsAreHand(hole, board, e, f);
    PartsFit(hole, board, a, b);
    DifferentTaken(a + b, h);
    assert |h| == |multiset(h)| == |multiset(a + b)| == 5;
    KeyOfSame(h, a + b);
  }
}
