/** The bank: stored balances, the transfer log, and batches of mutations that happen as a whole or not at all. */
module Ledger {
  import opened Wrappers

  /** Whoever can hold chips. */
  datatype Holder = User(id: nat) | Table(id: nat) | Cashier

  /** Amounts are in the smallest unit of the currency. */
  datatype Transfer = Transfer(source: Holder, dest: Holder, amt: int)

  /** The rows of one season: balances of the users that have one, and the log. */
  datatype Db = Db(balances: map<nat, int>, log: seq<Transfer>)

  datatype Mutation =
    | RequireBalance(user: nat, atLeast: int)
    | AddToBalance(user: nat, delta: int)
    | RecordTransfer(transfer: Transfer)

  datatype MutationError = MutationError

  /** create_transfer */
  function CreateTransfer(src: Holder, dst: Holder, amt: int): seq<Mutation> {
    (if src.User? then [RequireBalance(src.id, amt), AddToBalance(src.id, -amt)] else []) +
    (if dst.User? then [AddToBalance(dst.id, amt)] else []) +
    [RecordTransfer(Transfer(src, dst, amt))]
  }

  /** buy_chips */
  function BuyChips(user: nat, amt: int): seq<Mutation> {
    CreateTransfer(Cashier, User(user), amt)
  }

  /** transfer_chips */
  function TransferChips(from: nat, to: nat, amt: int): seq<Mutation> {
    CreateTransfer(User(from), User(to), amt)
  }

  /** One mutation: a get raises when no row matches, an update of no rows does nothing. */
  function Mutate(db: Db, m: Mutation): Result<Db, MutationError> {
    match m
    case RequireBalance(user, atLeast) =>
      if user in db.balances && db.balances[user] >= atLeast then Success(db) else Failure(MutationError)
    case AddToBalance(user, delta) =>
      Success(if user in db.balances then db.(balances := db.balances[user := db.balances[user] + delta]) else db)
    case RecordTransfer(transfer) => Success(db.(log := db.log + [transfer]))
  }

  function MutateAll(db: Db, ms: seq<Mutation>): Result<Db, MutationError>
    decreases |ms|
  {
    if ms == [] then Success(db)
    else
      match Mutate(db, ms[0])
      case Failure(error) => Failure(error)
      case Success(next) => MutateAll(next, ms[1..])
  }

  /** What a batch leaves behind: all of it, or nothing. */
  function Executed(db: Db, ms: seq<Mutation>): Db {
    match MutateAll(db, ms) case Success(next) => next case Failure(_) => db
  }

  class Bank {
    var balances: map<nat, int>
    var log: seq<Transfer>

    function Rows(): Db
      reads this
    {
      Db(balances, log)
    }

    constructor (balances: map<nat, int>)
      ensures Rows() == Db(balances, [])
    {
      this.balances := balances;
      log := [];
    }

    /** execute_mutations: one after the other inside a transaction */
    method ExecuteMutations(ms: seq<Mutation>) returns (r: Result<(), MutationError>)
      modifies this
      ensures Rows() == Executed(old(Rows()), ms)
      ensures r.Success? <==> MutateAll(old(Rows()), ms).Success?
    {
      var before, beforeLog := balances, log;
      var k := 0;
      while k < |ms|
        invariant 0 <= k <= |ms|
        invariant MutateAll(old(Rows()), ms) == MutateAll(Rows(), ms[k..])
        invariant before == old(balances) && beforeLog == old(log)
      {
        assert ms[k..][1..] == ms[k + 1..];
        match ms[k] {
          case RequireBalance(user, atLeast) =>
            if !(user in balances && balances[user] >= atLeast) {
              balances, log := before, beforeLog;
              return Failure(MutationError);
            }
          case AddToBalance(user, delta) =>
            if user in balances {
              balances := balances[user := balances[user] + delta];
            }
          case RecordTransfer(transfer) =>
            log := log + [transfer];
        }
        k := k + 1;
      }
      r := Success(());
    }
  }

  // The log

  /** balance: credits minus debits in the log */
  function LogBalance(log: seq<Transfer>, h: Holder): int {
    Credits(log, h) - Debits(log, h)
  }

  function Credits(log: seq<Transfer>, h: Holder): int {
    if log == [] then 0
    else Credits(log[..|log| - 1], h) + if log[|log| - 1].dest == h then log[|log| - 1].amt else 0
  }

  function Debits(log: seq<Transfer>, h: Holder): int {
    if log == [] then 0
    else Debits(log[..|log| - 1], h) + if log[|log| - 1].source == h then log[|log| - 1].amt else 0
  }

  /** What one transfer does to a holder. */
  function Net(x: Transfer, h: Holder): int {
    (if x.dest == h then x.amt else 0) - (if x.source == h then x.amt else 0)
  }

  lemma LogNext(log: seq<Transfer>, x: Transfer, h: Holder)
    ensures LogBalance(log + [x], h) == LogBalance(log, h) + Net(x, h)
  {
    assert (log + [x])[..|log|] == log;
  }

  // Agreement

  /** Every stored balance is the one the log gives, and none is negative. */
  ghost predicate Agrees(db: Db) {
    forall u :: u in db.balances ==> 0 <= db.balances[u] == LogBalance(db.log, User(u))
  }

  /** What a transfer needs. */
  predicate Covered(db: Db, x: Transfer) {
    x.source.User? ==> x.source.id in db.balances && db.balances[x.source.id] >= x.amt
  }

  function AdjustedBy(db: Db, x: Transfer): Db {
    Db(map u | u in db.balances :: db.balances[u] + Net(x, User(u)), db.log + [x])
  }

  function MutateThen(r: Result<Db, MutationError>, ms: seq<Mutation>): Result<Db, MutationError> {
    match r
    case Success(next) => MutateAll(next, ms)
    case Failure(error) => Failure(error)
  }

  lemma {:induction false} MutateAppend(db: Db, a: seq<Mutation>, b: seq<Mutation>)
    ensures MutateAll(db, a + b) == MutateThen(MutateAll(db, a), b)
    decreases |a|
  {
    if a == [] {
      assert a + b == b;
    } else {
      assert (a + b)[1..] == a[1..] + b;
      if Mutate(db, a[0]).Success? {
        MutateAppend(Mutate(db, a[0]).value, a[1..], b);
      }
    }
  }

  /** A transfer goes through exactly when its source is not a user or has the balance, and then moves the amount. */
  lemma {:induction false} TransferMutates(db: Db, x: Transfer)
    ensures MutateAll(db, CreateTransfer(x.source, x.dest, x.amt))
         == if Covered(db, x) then Success(AdjustedBy(db, x)) else Failure(MutationError)
  {
    var debit := if x.source.User? then [RequireBalance(x.source.id, x.amt), AddToBalance(x.source.id, -x.amt)] else [];
    var credit := if x.dest.User? then [AddToBalance(x.dest.id, x.amt)] else [];
    var record := [RecordTransfer(x)];
    assert x == Transfer(x.source, x.dest, x.amt);
    MutateAppend(db, debit + credit, record);
    MutateAppend(db, debit, credit);
    DebitMutates(db, x, debit);
    if Covered(db, x) {
      var d := MutateAll(db, debit).value;
      CreditMutates(d, x, credit);
      var c := MutateAll(d, credit).value;
      MutateOne(c, RecordTransfer(x));
      assert c.(log := c.log + [x]).balances == AdjustedBy(db, x).balances;
    }
  }

  lemma {:induction false} MutateOne(db: Db, m: Mutation)
    ensures MutateAll(db, [m]) == Mutate(db, m)
  {
    assert [m][1..] == [];
    if Mutate(db, m).Success? {
      assert MutateAll(Mutate(db, m).value, []) == Mutate(db, m);
    }
  }

  lemma {:induction false} MutateTwo(db: Db, m: Mutation, n: Mutation)
    ensures MutateAll(db, [m, n]) == MutateThen(Mutate(db, m), [n])
  {
    assert [m, n][1..] == [n];
  }

  lemma {:induction false} DebitMutates(db: Db, x: Transfer, debit: seq<Mutation>)
    requires debit == if x.source.User?
      then [RequireBalance(x.source.id, x.amt), AddToBalance(x.source.id, -x.amt)] else []
    ensures MutateAll(db, debit).Success? <==> Covered(db, x)
    ensures Covered(db, x) ==>
      var d := MutateAll(db, debit).value;
      d.log == db.log && d.balances.Keys == db.balances.Keys &&
      forall u :: u in db.balances ==> d.balances[u] == db.balances[u] - if x.source == User(u) then x.amt else 0
  {
    if x.source.User? {
      MutateTwo(db, RequireBalance(x.source.id, x.amt), AddToBalance(x.source.id, -x.amt));
      MutateOne(db, AddToBalance(x.source.id, -x.amt));
    }
  }

  lemma {:induction false} CreditMutates(db: Db, x: Transfer, credit: seq<Mutation>)
    requires credit == if x.dest.User? then [AddToBalance(x.dest.id, x.amt)] else []
    ensures MutateAll(db, credit).Success?
    ensures
      var c := MutateAll(db, credit).value;
      c.log == db.log && c.balances.Keys == db.balances.Keys &&
      forall u :: u in db.balances ==> c.balances[u] == db.balances[u] + if x.dest == User(u) then x.amt else 0
  {
    if x.dest.User? {
      MutateOne(db, credit[0]);
    }
  }

  /** transfer_chips goes through exactly when it is covered, and takes from one user what it gives the other. */
  lemma {:induction false} ChipsChangeHands(db: Db, giver: nat, taker: nat, amt: int)
    ensures MutateAll(db, TransferChips(giver, taker, amt)).Success?
      <==> giver in db.balances && db.balances[giver] >= amt
    ensures MutateAll(db, TransferChips(giver, taker, amt)).Success? ==>
      var after := MutateAll(db, TransferChips(giver, taker, amt)).value.balances;
      && after.Keys == db.balances.Keys
      && (forall u :: u in db.balances && u != giver && u != taker ==> after[u] == db.balances[u])
      && (giver == taker ==> after[giver] == db.balances[giver])
      && (giver != taker ==> after[giver] == db.balances[giver] - amt)
      && (giver != taker && taker in db.balances ==> after[taker] == db.balances[taker] + amt)
  {
    TransferMutates(db, Transfer(User(giver), User(taker), amt));
  }

  lemma TransferKeepsAgreement(db: Db, x: Transfer)
    requires Agrees(db) && Covered(db, x) && 0 <= x.amt
    ensures Agrees(AdjustedBy(db, x))
  {
    forall u | u in db.balances
      ensures 0 <= db.balances[u] + Net(x, User(u)) == LogBalance(db.log + [x], User(u))
    {
      LogNext(db.log, x, User(u));
    }
  }

  // Batches

  /** The mutations of several transfers, in order. */
  function TransferAll(xs: seq<Transfer>): seq<Mutation>
    decreases |xs|
  {
    if xs == [] then [] else CreateTransfer(xs[0].source, xs[0].dest, xs[0].amt) + TransferAll(xs[1..])
  }

  ghost predicate AmountsOk(xs: seq<Transfer>) {
    forall k :: 0 <= k < |xs| ==> 0 <= xs[k].amt
  }

  lemma {:induction false} BatchKeepsAgreement(db: Db, xs: seq<Transfer>)
    requires Agrees(db) && AmountsOk(xs) && MutateAll(db, TransferAll(xs)).Success?
    ensures Agrees(MutateAll(db, TransferAll(xs)).value)
    ensures MutateAll(db, TransferAll(xs)).value.log == db.log + xs
    ensures MutateAll(db, TransferAll(xs)).value.balances.Keys == db.balances.Keys
    decreases |xs|
  {
    if xs == [] {
      assert db.log + xs == db.log;
    } else {
      MutateAppend(db, CreateTransfer(xs[0].source, xs[0].dest, xs[0].amt), TransferAll(xs[1..]));
      TransferMutates(db, xs[0]);
      TransferKeepsAgreement(db, xs[0]);
      BatchKeepsAgreement(AdjustedBy(db, xs[0]), xs[1..]);
      assert db.log + [xs[0]] + xs[1..] == db.log + xs;
    }
  }

  /** The rows after a run of batches, failed ones included. */
  function AfterBatches(db: Db, batches: seq<seq<Transfer>>): Db
    decreases |batches|
  {
    if batches == [] then db else AfterBatches(Executed(db, TransferAll(batches[0])), batches[1..])
  }

  /** After any run of batches the stored balances are what the log says, and none is negative. */
  lemma {:induction false} RunsKeepAgreement(db: Db, batches: seq<seq<Transfer>>)
    requires Agrees(db) && forall b :: b in batches ==> AmountsOk(b)
    ensures Agrees(AfterBatches(db, batches)) && AfterBatches(db, batches).balances.Keys == db.balances.Keys
    decreases |batches|
  {
    if batches != [] {
      assert batches[0] in batches;
      if MutateAll(db, TransferAll(batches[0])).Success? {
        BatchKeepsAgreement(db, batches[0]);
      }
      RunsKeepAgreement(Executed(db, TransferAll(batches[0])), batches[1..]);
    }
  }

  // Nothing is made or lost

  function SumBalances(hs: seq<Holder>, log: seq<Transfer>): int {
    if hs == [] then 0 else SumBalances(hs[..|hs| - 1], log) + LogBalance(log, hs[|hs| - 1])
  }

  function SumNet(hs: seq<Holder>, x: Transfer): int {
    if hs == [] then 0 else SumNet(hs[..|hs| - 1], x) + Net(x, hs[|hs| - 1])
  }

  function CountHolder(hs: seq<Holder>, h: Holder): nat {
    if hs == [] then 0 else CountHolder(hs[..|hs| - 1], h) + if hs[|hs| - 1] == h then 1 else 0
  }

  ghost predicate OneEach(hs: seq<Holder>) {
    forall j, k :: 0 <= j < k < |hs| ==> hs[j] != hs[k]
  }

  lemma {:induction false} CountedOnce(hs: seq<Holder>, h: Holder)
    requires OneEach(hs)
    ensures CountHolder(hs, h) == if h in hs then 1 else 0
    decreases |hs|
  {
    if hs != [] {
      var n := |hs| - 1;
      CountedOnce(hs[..n], h);
      assert hs == hs[..n] + [hs[n]];
    }
  }

  lemma {:induction false} NetIsCounts(hs: seq<Holder>, x: Transfer)
    ensures SumNet(hs, x) == (CountHolder(hs, x.dest) - CountHolder(hs, x.source)) * x.amt
    decreases |hs|
  {
    if hs != [] {
      var n := |hs| - 1;
      NetIsCounts(hs[..n], x);
      var d := if hs[n] == x.dest then 1 else 0;
      var s := if hs[n] == x.source then 1 else 0;
      Distribute(CountHolder(hs[..n], x.dest) - CountHolder(hs[..n], x.source), d - s, x.amt);
      assert (d - s) * x.amt == Net(x, hs[n]);
    }
  }

  lemma Distribute(a: int, b: int, c: int)
    ensures (a + b) * c == a * c + b * c
  {
  }

  lemma {:induction false} SumNext(hs: seq<Holder>, log: seq<Transfer>, x: Transfer)
    ensures SumBalances(hs, log + [x]) == SumBalances(hs, log) + SumNet(hs, x)
    decreases |hs|
  {
    if hs != [] {
      SumNext(hs[..|hs| - 1], log, x);
      LogNext(log, x, hs[|hs| - 1]);
    }
  }

  lemma {:induction false} NothingLogged(hs: seq<Holder>)
    ensures SumBalances(hs, []) == 0
    decreases |hs|
  {
    if hs != [] {
      NothingLogged(hs[..|hs| - 1]);
    }
  }

  /** Over everybody in the log, the balances add up to zero. */
  lemma {:induction false} BalancesAddToZero(hs: seq<Holder>, log: seq<Transfer>)
    requires OneEach(hs) && forall k :: 0 <= k < |log| ==> log[k].source in hs && log[k].dest in hs
    ensures SumBalances(hs, log) == 0
    decreases |log|
  {
    if log == [] {
      NothingLogged(hs);
    } else {
      var n := |log| - 1;
      BalancesAddToZero(hs, log[..n]);
      assert log == log[..n] + [log[n]];
      SumNext(hs, log[..n], log[n]);
      NetIsCounts(hs, log[n]);
      CountedOnce(hs, log[n].source);
      CountedOnce(hs, log[n].dest);
    }
  }

  /** A credit to a user without a row is logged but stored nowhere. */
  lemma {:induction false} MissingRowDrifts(db: Db, user: nat, amt: int)
    requires user !in db.balances
    ensures MutateAll(db, BuyChips(user, amt)).Success?
    ensures
      var next := MutateAll(db, BuyChips(user, amt)).value;
      user !in next.balances && LogBalance(next.log, User(user)) == LogBalance(db.log, User(user)) + amt
  {
    var x := Transfer(Cashier, User(user), amt);
    TransferMutates(db, x);
    LogNext(db.log, x, User(user));
  }
}
