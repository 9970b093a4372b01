/** Chips earned, the levels they unlock, and the bonuses for new levels. */
module Levels {
  import opened Wrappers
  import opened Ledger

  // Earned chips

  /** A transfer to or from a user: credits count up, debits down. */
  datatype Entry = Entry(target: nat, credit: bool, amt: int)

  /** What a transfer adds to the total; private tables count for nothing. */
  function Signed(x: Entry, isPrivate: nat -> bool): int {
    if isPrivate(x.target) then 0 else if x.credit then x.amt else -x.amt
  }

  function SumFrom(xs: seq<Entry>, isPrivate: nat -> bool, k: nat): int
    requires k <= |xs|
    decreases |xs| - k
  {
    if k == |xs| then 0 else Signed(xs[k], isPrivate) + SumFrom(xs, isPrivate, k + 1)
  }

  /** The sum of some last transfers that no other such sum exceeds. */
  ghost predicate IsMaxSuffix(xs: seq<Entry>, isPrivate: nat -> bool, total: int) {
    && (exists k: nat :: k <= |xs| && SumFrom(xs, isPrivate, k) == total)
    && forall k: nat :: k <= |xs| ==> SumFrom(xs, isPrivate, k) <= total
  }

  lemma {:induction false} SumFromSnoc(xs: seq<Entry>, x: Entry, isPrivate: nat -> bool, k: nat)
    requires k <= |xs|
    ensures SumFrom(xs + [x], isPrivate, k) == SumFrom(xs, isPrivate, k) + Signed(x, isPrivate)
    decreases |xs| - k
  {
    if k == |xs| {
      assert SumFrom(xs + [x], isPrivate, k + 1) == 0;
    } else {
      SumFromSnoc(xs, x, isPrivate, k + 1);
    }
  }

  /** One more transfer: the best sum ends with it, or is empty. */
  lemma MaxSuffixNext(xs: seq<Entry>, x: Entry, isPrivate: nat -> bool, total: int)
    requires IsMaxSuffix(xs, isPrivate, total)
    ensures IsMaxSuffix(xs + [x], isPrivate,
                        if total + Signed(x, isPrivate) < 0 then 0 else total + Signed(x, isPrivate))
  {
    var next := total + Signed(x, isPrivate);
    var ys := xs + [x];
    forall k: nat | k <= |ys| ensures SumFrom(ys, isPrivate, k) <= if next < 0 then 0 else next {
      if k <= |xs| {
        SumFromSnoc(xs, x, isPrivate, k);
      }
    }
    var k: nat :| k <= |xs| && SumFrom(xs, isPrivate, k) == total;
    SumFromSnoc(xs, x, isPrivate, k);
    assert SumFrom(ys, isPrivate, |ys|) == 0;
  }

  /** earned_chips: the running total, clamped at zero, is the largest sum of last transfers. */
  method EarnedChips(xs: seq<Entry>, isPrivate: nat -> bool) returns (total: int)
    ensures IsMaxSuffix(xs, isPrivate, total)
  {
    total := 0;
    var targets: map<nat, bool> := map[];
    var k := 0;
    assert SumFrom(xs[..0], isPrivate, 0) == 0;
    while k < |xs|
      invariant 0 <= k <= |xs|
      invariant IsMaxSuffix(xs[..k], isPrivate, total)
      invariant forall id :: id in targets ==> targets[id] == isPrivate(id)
    {
      var x := xs[k];
      MaxSuffixNext(xs[..k], x, isPrivate, total);
      assert xs[..k + 1] == xs[..k] + [x];
      if x.target !in targets {
        targets := targets[x.target := isPrivate(x.target)];
      }
      if !targets[x.target] {
        total := total + if x.credit then x.amt else -x.amt;
      }
      if total < 0 {
        total := 0;
      }
      k := k + 1;
    }
    assert xs[..k] == xs;
  }

  /** The net of the first k transfers. */
  function NetOf(xs: seq<Entry>, isPrivate: nat -> bool, k: nat): int
    requires k <= |xs|
  {
    if k == 0 then 0 else NetOf(xs, isPrivate, k - 1) + Signed(xs[k - 1], isPrivate)
  }

  lemma {:induction false} NetAndRest(xs: seq<Entry>, isPrivate: nat -> bool, k: nat)
    requires k <= |xs|
    ensures NetOf(xs, isPrivate, k) + SumFrom(xs, isPrivate, k) == SumFrom(xs, isPrivate, 0)
    decreases k
  {
    if k > 0 {
      NetAndRest(xs, isPrivate, k - 1);
    }
  }

  /** Earned chips are the plain net of all transfers exactly when that net was never below zero on the way. */
  lemma {:induction false} EarnedIsNet(xs: seq<Entry>, isPrivate: nat -> bool, total: int)
    requires IsMaxSuffix(xs, isPrivate, total)
    ensures total == NetOf(xs, isPrivate, |xs|) <==> forall k: nat :: k <= |xs| ==> 0 <= NetOf(xs, isPrivate, k)
  {
    NetAndRest(xs, isPrivate, |xs|);
    var k: nat :| k <= |xs| && SumFrom(xs, isPrivate, k) == total;
    NetAndRest(xs, isPrivate, k);
    if total == NetOf(xs, isPrivate, |xs|) {
      forall k: nat | k <= |xs| ensures 0 <= NetOf(xs, isPrivate, k) {
        NetAndRest(xs, isPrivate, k);
      }
    } else {
      assert SumFrom(xs, isPrivate, 0) <= total;
    }
  }

  // Levels

  const CASH_GAME_BBS: seq<int> := [2, 4, 6, 10, 20, 50, 100, 200, 400, 1000, 2000, 4000, 10000]

  const TOURNEY_BUYIN_AMTS: seq<int> := [200, 400, 600, 1000, 2000, 5000, 10000, 20000, 40000, 100000]

  const N_BB_TO_NEXT_LEVEL := 2000

  const TOURNEY_BUYIN_TIMES := 20

  const CASHTABLES_LEVELUP_BONUS := 200

  /** The largest of the levels with the property, if there is one. */
  function MaxOk(levels: seq<int>, ok: int -> bool): (r: Option<int>)
    ensures r.None? ==> forall l :: l in levels ==> !ok(l)
    ensures r.Some? ==> r.value in levels && ok(r.value) && forall l :: l in levels && ok(l) ==> l <= r.value
    decreases |levels|
  {
    if levels == [] then None
    else
      var n := |levels| - 1;
      assert levels == levels[..n] + [levels[n]];
      var r := MaxOk(levels[..n], ok);
      if ok(levels[n]) && (r.None? || levels[n] > r.value) then Some(levels[n]) else r
  }

  function OrFirst(levels: seq<int>, r: Option<int>): int
    requires levels != []
  {
    match r case Some(l) => l case None => levels[0]
  }

  /** cashtables_level and tournaments_level: the largest level that the chips reach */
  function LevelAt(levels: seq<int>, per: int, chips: int): int
    requires levels != []
  {
    OrFirst(levels, MaxOk(levels, (l: int) => l * per <= chips))
  }

  /** The level that update_levels calculates, never below the old one. */
  function Calculated(levels: seq<int>, per: int, from: int, chips: int): int
    requires levels != []
  {
    OrFirst(levels, MaxOk(levels, (l: int) => l <= from || l * per <= chips))
  }

  ghost predicate FirstIsLeast(levels: seq<int>) {
    levels != [] && forall l :: l in levels ==> levels[0] <= l
  }

  lemma TimesMonotone(a: int, b: int, per: int)
    requires 0 <= per
    ensures a <= b ==> a * per <= b * per
  {
  }

  /** From a level read at the old chips, what is calculated for more chips is the level read at those. */
  lemma CalculatedIsLevel(levels: seq<int>, per: int, from: int, chips: int)
    requires FirstIsLeast(levels) && 0 <= per && from <= chips
    ensures
      var level := LevelAt(levels, per, from);
      level <= LevelAt(levels, per, chips) == Calculated(levels, per, level, chips)
  {
    var level := LevelAt(levels, per, from);
    assert levels[0] in levels;
    forall l ensures l <= level && level * per <= chips ==> l * per <= chips {
      TimesMonotone(l, level, per);
    }
    var r := MaxOk(levels, (l: int) => l <= level || l * per <= chips);
    var s := MaxOk(levels, (l: int) => l * per <= chips);
    assert level in levels && level <= level;
    assert r.Some?;
  }

  // Bonuses

  /** 200 for each big blind of every level above the old one and up to the new one */
  function Bonus(levels: seq<int>, from: int, to: int): int {
    if levels == [] then 0
    else
      var n := |levels| - 1;
      Bonus(levels[..n], from, to) + if from < levels[n] <= to then CASHTABLES_LEVELUP_BONUS * levels[n] else 0
  }

  function BonusTransfers(user: nat, levels: seq<int>, from: int, to: int): seq<Transfer> {
    if levels == [] then []
    else
      var n := |levels| - 1;
      (if from < levels[n] <= to then [Transfer(Cashier, User(user), CASHTABLES_LEVELUP_BONUS * levels[n])] else [])
        + BonusTransfers(user, levels[..n], from, to)
  }

  lemma {:induction false} BonusStep(user: nat, levels: seq<int>, from: int, to: int, k: nat)
    requires k < |levels|
    ensures BonusTransfers(user, levels[..k + 1], from, to) ==
      (if from < levels[k] <= to then [Transfer(Cashier, User(user), CASHTABLES_LEVELUP_BONUS * levels[k])] else [])
        + BonusTransfers(user, levels[..k], from, to)
  {
    assert levels[..k + 1][..k] == levels[..k];
  }

  lemma {:induction false} BuysNext(user: nat, levels: seq<int>, from: int, to: int, k: nat)
    requires k < |levels|
    ensures TransferAll(BonusTransfers(user, levels[..k + 1], from, to)) ==
      (if from < levels[k] <= to then BuyChips(user, CASHTABLES_LEVELUP_BONUS * levels[k]) else [])
        + TransferAll(BonusTransfers(user, levels[..k], from, to))
  {
    BonusStep(user, levels, from, to, k);
    var rest := BonusTransfers(user, levels[..k], from, to);
    if from < levels[k] <= to {
      var x := Transfer(Cashier, User(user), CASHTABLES_LEVELUP_BONUS * levels[k]);
      assert ([x] + rest)[1..] == rest;
    } else {
      assert [] + rest == rest;
    }
  }

  lemma Assoc(a: seq<Mutation>, b: seq<Mutation>, c: seq<Mutation>)
    ensures (a + b) + c == a + (b + c)
  {
  }

  /** levelup_bonuses: from the highest level to the lowest */
  method LevelupBonuses(user: nat, levels: seq<int>, from: int, to: int) returns (ms: seq<Mutation>)
    ensures ms == TransferAll(BonusTransfers(user, levels, from, to))
  {
    ms := [];
    var k := |levels|;
    assert levels[..k] == levels;
    while k > 0
      invariant 0 <= k <= |levels|
      invariant ms + TransferAll(BonusTransfers(user, levels[..k], from, to))
             == TransferAll(BonusTransfers(user, levels, from, to))
    {
      k := k - 1;
      BuysNext(user, levels, from, to, k);
      if from < levels[k] <= to {
        var buys := BuyChips(user, CASHTABLES_LEVELUP_BONUS * levels[k]);
        Assoc(ms, buys, TransferAll(BonusTransfers(user, levels[..k], from, to)));
        ms := ms + buys;
      }
    }
    assert TransferAll(BonusTransfers(user, levels[..0], from, to)) == [];
  }

  lemma {:induction false} BonusesPay(db: Db, user: nat, levels: seq<int>, from: int, to: int)
    requires user in db.balances
    ensures MutateAll(db, TransferAll(BonusTransfers(user, levels, from, to))).Success?
    ensures
      var next := MutateAll(db, TransferAll(BonusTransfers(user, levels, from, to))).value;
      user in next.balances && next.balances[user] == db.balances[user] + Bonus(levels, from, to)
    decreases |levels|
  {
    if levels != [] {
      var n := |levels| - 1;
      var rest := BonusTransfers(user, levels[..n], from, to);
      if from < levels[n] <= to {
        var x := Transfer(Cashier, User(user), CASHTABLES_LEVELUP_BONUS * levels[n]);
        assert ([x] + rest)[1..] == rest;
        MutateAppend(db, BuyChips(user, x.amt), TransferAll(rest));
        TransferMutates(db, x);
        BonusesPay(AdjustedBy(db, x), user, levels[..n], from, to);
      } else {
        BonusesPay(db, user, levels[..n], from, to);
        assert BonusTransfers(user, levels, from, to) == rest;
      }
    }
  }

  // Updates

  function CashLevel(chips: int): int {
    LevelAt(CASH_GAME_BBS, N_BB_TO_NEXT_LEVEL, chips)
  }

  /** Both tables of levels start with their least. */
  lemma LevelsStartLow()
    ensures FirstIsLeast(CASH_GAME_BBS) && FirstIsLeast(TOURNEY_BUYIN_AMTS)
  {
  }

  /** The bonuses of one update. */
  function BonusPaid(games: int, chips: int): int {
    if chips > games then Bonus(CASH_GAME_BBS, CashLevel(games), CashLevel(chips)) else 0
  }

  /** One kind of level after an update. */
  method NewLevel(levels: seq<int>, per: int, games: int, chips: int) returns (level: int)
    requires FirstIsLeast(levels) && 0 <= per && games <= chips
    ensures level == LevelAt(levels, per, chips) && LevelAt(levels, per, games) <= level
  {
    CalculatedIsLevel(levels, per, games, chips);
    level := Calculated(levels, per, LevelAt(levels, per, games), chips);
  }

  /** update_levels, given the user's games level, the chips earned and in play, and the tables of levels */
  method UpdateLevels(user: nat, games: int, earned: int, inPlay: int, cash: seq<int>, tourney: seq<int>)
      returns (newGames: int, ms: seq<Mutation>, leveledUp: bool)
    requires FirstIsLeast(cash) && FirstIsLeast(tourney)
    ensures newGames == if earned + inPlay > games then earned + inPlay else games
    ensures ms == TransferAll(BonusTransfers(user, cash, LevelAt(cash, N_BB_TO_NEXT_LEVEL, games),
                                             LevelAt(cash, N_BB_TO_NEXT_LEVEL, newGames)))
    ensures leveledUp <==>
      || LevelAt(cash, N_BB_TO_NEXT_LEVEL, newGames) > LevelAt(cash, N_BB_TO_NEXT_LEVEL, games)
      || LevelAt(tourney, TOURNEY_BUYIN_TIMES, newGames) > LevelAt(tourney, TOURNEY_BUYIN_TIMES, games)
  {
    var chips := earned + inPlay;
    var cashWas := LevelAt(cash, N_BB_TO_NEXT_LEVEL, games);
    newGames, ms, leveledUp := games, [], false;
    NoBonus(user, cash, cashWas);
    if chips > games {
      newGames := chips;
      var cashNow := NewLevel(cash, N_BB_TO_NEXT_LEVEL, games, chips);
      var tourneyNow := NewLevel(tourney, TOURNEY_BUYIN_TIMES, games, chips);
      if cashNow > cashWas {
        leveledUp := true;
        ms := LevelupBonuses(user, cash, cashWas, cashNow);
      }
      if tourneyNow > LevelAt(tourney, TOURNEY_BUYIN_TIMES, games) {
        leveledUp := true;
      }
    }
  }

  lemma {:induction false} NoBonus(user: nat, levels: seq<int>, level: int)
    ensures BonusTransfers(user, levels, level, level) == [] && Bonus(levels, level, level) == 0
    decreases |levels|
  {
    if levels != [] {
      NoBonus(user, levels[..|levels| - 1], level);
    }
  }

  function GamesAfter(games: int, chips: seq<int>): int
    decreases |chips|
  {
    if chips == [] then games else GamesAfter(if chips[0] > games then chips[0] else games, chips[1..])
  }

  function PaidAfter(games: int, chips: seq<int>): int
    decreases |chips|
  {
    if chips == [] then 0
    else BonusPaid(games, chips[0]) + PaidAfter(if chips[0] > games then chips[0] else games, chips[1..])
  }

  lemma {:induction false} BonusSplits(levels: seq<int>, a: int, b: int, c: int)
    requires a <= b <= c
    ensures Bonus(levels, a, b) + Bonus(levels, b, c) == Bonus(levels, a, c)
    decreases |levels|
  {
    if levels != [] {
      BonusSplits(levels[..|levels| - 1], a, b, c);
    }
  }

  lemma CashLevelGrows(a: int, b: int)
    requires a <= b
    ensures CashLevel(a) <= CashLevel(b)
  {
    LevelsStartLow();
    CalculatedIsLevel(CASH_GAME_BBS, N_BB_TO_NEXT_LEVEL, a, b);
  }

  /** Over any run of updates the games level never drops, and each level crossed is paid for once. */
  lemma {:induction false} BonusesArePaidOnce(games: int, chips: seq<int>)
    ensures games <= GamesAfter(games, chips)
    ensures PaidAfter(games, chips) == Bonus(CASH_GAME_BBS, CashLevel(games), CashLevel(GamesAfter(games, chips)))
    decreases |chips|
  {
    if chips == [] {
      NoBonus(0, CASH_GAME_BBS, CashLevel(games));
    } else {
      var next := if chips[0] > games then chips[0] else games;
      BonusesArePaidOnce(next, chips[1..]);
      NoBonus(0, CASH_GAME_BBS, CashLevel(games));
      CashLevelGrows(games, next);
      CashLevelGrows(next, GamesAfter(next, chips[1..]));
      BonusSplits(CASH_GAME_BBS, CashLevel(games), CashLevel(next), CashLevel(GamesAfter(next, chips[1..])));
    }
  }
}
