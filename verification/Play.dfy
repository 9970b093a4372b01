/** A dealt hand as it is played: requests, preset actions and streets until it is over. */
module Play {
  import opened Wrappers
  import opened Players
  import opened Tables
  import opened Accessors
  import opened Betting
  import opened BettingSteps
  import opened Requests
  import opened OutOfTurn
  import opened Hands
  import opened Joining
  import opened Streets

  /** dispatch of a request; a newcomer goes through join_table, which refuses a seat that is taken. */
  function Dispatch(t: Table, i: nat, req: Request): Result<Table, Error>
    requires Seating(t)
  {
    if i < |t.players| && !NamesFreeSeat(t, i, req) then Failure(InvalidAction)
    else PlayerDispatch(t, i, req)
  }

  lemma RefusalErrors(t: Table, i: nat, req: Request)
    requires t.numSeats > 0 && i < |t.players| && EventsFor(t, i, req).Failure?
    requires req.ReqRaiseTo? ==> MinBetAmt(t).Success?
    ensures EventsFor(t, i, req).error == Rejected || EventsFor(t, i, req).error == InvalidAction
  {
  }

  lemma EventErrors(t: Table, i: nat, req: Request)
    requires HandInv(t) && i < |t.players| && IsAvailable(t, i, req.Kind()) && EventsFor(t, i, req).Failure?
    ensures EventsFor(t, i, req).error == Rejected || EventsFor(t, i, req).error == InvalidAction
  {
    if req.ReqRaiseTo? {
      TurnKindNeedsTurn(t, i, KRaiseTo);
      MinBetExists(t, i);
    }
    RefusalErrors(t, i, req);
  }

  /** In a dealt hand player_dispatch carries out or refuses a request: no handler ever raises. */
  lemma OnlyRefusals(t: Table, i: nat, req: Request)
    requires HandInv(t) && PlayerDispatch(t, i, req).Failure?
    ensures PlayerDispatch(t, i, req).error == Rejected || PlayerDispatch(t, i, req).error == InvalidAction
  {
    if i < |t.players| && IsAvailable(t, i, req.Kind()) {
      if EventsFor(t, i, req).Failure? {
        EventErrors(t, i, req);
      } else {
        EventsSucceed(t, i, req);
      }
    }
  }

  lemma {:induction false} EventsSucceed(t: Table, i: nat, req: Request)
    requires HandInv(t) && i < |t.players| && IsAvailable(t, i, req.Kind())
    requires EventsFor(t, i, req).Success?
    ensures FireAll(t, EventsFor(t, i, req).value).Success?
    ensures
      var u := FireAll(t, EventsFor(t, i, req).value).value;
      && (HandInv(u) <==> NamesFreeSeat(t, i, req)) && SameGame(t, u)
      && Measure(u) + (if req.Betting() then 1 else 0) <= Measure(t)
  {
    if req.Betting() {
      var u := BettingKeepsHand(t, i, req, EventsFor(t, i, req).value);
    } else {
      OtherKeepsHand(t, i, req);
    }
  }

  /**
   * Every accepted request keeps the chips, the cards and who is in, and a betting one uses up the
   * measure; the invariant is lost exactly when a seat that somebody holds is taken.
   */
  lemma RequestKeepsHand(t: Table, i: nat, req: Request)
    requires HandInv(t) && PlayerDispatch(t, i, req).Success?
    ensures i < |t.players|
    ensures
      var u := PlayerDispatch(t, i, req).value;
      && (HandInv(u) <==> NamesFreeSeat(t, i, req)) && SameGame(t, u)
      && Measure(u) + (if req.Betting() then 1 else 0) <= Measure(t)
  {
    EventsSucceed(t, i, req);
  }

  lemma DispatchKeepsHand(t: Table, i: nat, req: Request)
    requires HandInv(t) && Dispatch(t, i, req).Success?
    ensures
      var u := Dispatch(t, i, req).value;
      HandInv(u) && SameGame(t, u) && 0 <= Measure(u) && Measure(u) + (if req.Betting() then 1 else 0) <= Measure(t)
  {
    RequestKeepsHand(t, i, req);
    HandMeasure(Dispatch(t, i, req).value);
  }

  lemma HandMeasure(t: Table)
    requires HandInv(t)
    ensures 0 <= Measure(t)
  {
    MeasureNonNegative(t);
  }

  // Presets

  /** preset_player_action */
  function PresetAction(t: Table, i: nat): Option<Request>
    requires t.numSeats > 0 && i < |t.players|
  {
    var p := t.players[i];
    if p.playing == Some(LeaveSeatPending) then Some(ReqFold(false))
    else if p.presetCheckfold then
      if IsAvailable(t, i, KCheck) then Some(ReqCheck)
      else if IsAvailable(t, i, KFold) then Some(ReqFold(false))
      else None
    else if p.presetCheck && IsAvailable(t, i, KCheck) then Some(ReqCheck)
    else if p.presetCall != 0 && p.presetCall == CallAmt(t, p) then Some(ReqCall)
    else None
  }

  lemma TurnActionAvailable(t: Table, i: nat, k: ActionKind)
    requires t.numSeats > 0 && i < |t.players| && t.players[i].Active()
    requires NextToAct(t) == Some(i) && IsTurnAction(t, i, k)
    ensures IsAvailable(t, i, k)
  {
  }

  lemma PresetCallIsTurnAction(t: Table, i: nat)
    requires i < |t.players| && PresetsOk(t.players[i])
    requires t.players[i].presetCall != 0 && t.players[i].presetCall == CallAmt(t, t.players[i])
    ensures IsTurnAction(t, i, KCall)
  {
    MaxLiveAtMost(t);
  }

  lemma PresetIsAvailable(t: Table, i: nat)
    requires t.numSeats > 0 && i < |t.players| && t.players[i].Active() && PresetsOk(t.players[i])
    requires NextToAct(t) == Some(i) && PresetAction(t, i).Some?
    ensures PresetAction(t, i).value.Betting() && IsAvailable(t, i, PresetAction(t, i).value.Kind())
    ensures EventsFor(t, i, PresetAction(t, i).value).Success? && NamesFreeSeat(t, i, PresetAction(t, i).value)
  {
    var req := PresetAction(t, i).value;
    if req.ReqFold? {
      TurnActionAvailable(t, i, KFold);
    } else if req.ReqCall? {
      PresetCallIsTurnAction(t, i);
      TurnActionAvailable(t, i, KCall);
    }
  }

  lemma {:induction false} DispatchFires(t: Table, i: nat, req: Request)
    requires Seating(t) && i < |t.players| && NamesFreeSeat(t, i, req) && IsAvailable(t, i, req.Kind())
    requires EventsFor(t, i, req).Success?
    ensures Dispatch(t, i, req) == FireAll(t, EventsFor(t, i, req).value)
    ensures PlayerDispatch(t, i, req) == FireAll(t, EventsFor(t, i, req).value)
  {
  }

  lemma TurnFires(t: Table, i: nat, req: Request, q: PlayerState) returns (u: Table)
    requires Seating(t) && NextToAct(t) == Some(i) && i < |t.players| && t.players[i].Active() && req.Betting()
    requires IsTurnAction(t, i, req.Kind()) && EventsFor(t, i, req).Success? && !(req.ReqFold? && req.sitOut)
    requires Effect(t.players[i], BettingEvent(t, i, req)) == Success(q)
    ensures Dispatch(t, i, req) == Success(u) && u == With(t, i, q)
  {
    TurnActionAvailable(t, i, req.Kind());
    BettingEventsAre(t, i, req);
    DispatchFires(t, i, req);
    FirePlayer(t, i, BettingEvent(t, i, req));
    u := With(t, i, q);
  }

  lemma DispatchGoesThrough(t: Table, i: nat, req: Request)
    requires HandInv(t) && i < |t.players| && NamesFreeSeat(t, i, req) && IsAvailable(t, i, req.Kind())
    requires EventsFor(t, i, req).Success?
    ensures Dispatch(t, i, req).Success? && PlayerDispatch(t, i, req) == Dispatch(t, i, req)
  {
    EventsSucceed(t, i, req);
    DispatchFires(t, i, req);
  }

  /** A preset action is never rejected, and it is a betting action. */
  lemma PresetAccepted(t: Table, i: nat)
    requires HandInv(t) && NextToAct(t) == Some(i) && i < |t.players| && PresetAction(t, i).Some?
    ensures PresetAction(t, i).value.Betting() && Dispatch(t, i, PresetAction(t, i).value).Success?
    ensures PlayerDispatch(t, i, PresetAction(t, i).value) == Dispatch(t, i, PresetAction(t, i).value)
  {
    NextOwes(t, i);
    PresetIsAvailable(t, i);
    DispatchGoesThrough(t, i, PresetAction(t, i).value);
  }

  // step(end_hand_stop=True)

  function Ended(t: Table): bool
    requires t.numSeats > 0
  {
    match NextToAct(t)
    case None => HandOver(t)
    case Some(i) => i < |t.players| && PresetAction(t, i).None?
  }

  /** Play on until a player has to decide or the hand is over. */
  function Step(t: Table): (r: Result<Table, Error>)
    requires HandInv(t)
    ensures r.Success? && HandInv(r.value) && SameGame(t, r.value) && Measure(r.value) <= Measure(t)
    ensures Ended(r.value)
    decreases Measure(t)
  {
    match NextToAct(t)
    case None =>
      if HandOver(t) then Success(t)
      else if |t.board| == 4 || |t.board| == 3 || |t.board| == 0 then StepStreet(t)
      else Failure(ImpossibleGameState)
    case Some(i) =>
      NextOwes(t, i);
      if PresetAction(t, i).None? then Success(t) else StepPreset(t, i)
  }

  lemma StreetIsDealt(t: Table)
    requires HandInv(t) && NextToAct(t) == None && !HandOver(t)
    ensures DealStreet(t, StreetCards(t)).Success?
    ensures
      var u := DealStreet(t, StreetCards(t)).value;
      HandInv(u) && SameGame(t, u) && 0 <= Measure(u) < Measure(t)
  {
    var u := StreetKeepsHand(t);
    HandMeasure(u);
  }

  function StepStreet(t: Table): (r: Result<Table, Error>)
    requires HandInv(t) && NextToAct(t) == None && !HandOver(t)
    ensures r.Success? && HandInv(r.value) && SameGame(t, r.value) && Measure(r.value) <= Measure(t)
    ensures Ended(r.value)
    decreases Measure(t), 0
  {
    StreetIsDealt(t);
    match DealStreet(t, StreetCards(t))
    case Failure(error) => Failure(error)
    case Success(next) =>
      var last := Step(next);
      SameGameTransitive(t, next, last.value);
      last
  }

  function StepPreset(t: Table, i: nat): (r: Result<Table, Error>)
    requires HandInv(t) && NextToAct(t) == Some(i) && i < |t.players| && PresetAction(t, i).Some?
    ensures r.Success? && HandInv(r.value) && SameGame(t, r.value) && Measure(r.value) <= Measure(t)
    ensures Ended(r.value)
    decreases Measure(t), 0
  {
    PresetAccepted(t, i);
    DispatchKeepsHand(t, i, PresetAction(t, i).value);
    match Dispatch(t, i, PresetAction(t, i).value)
    case Failure(error) => Failure(error)
    case Success(next) =>
      var last := Step(next);
      SameGameTransitive(t, next, last.value);
      last
  }

  /** Where step ends up. */
  function Last(t: Table): Table
    requires HandInv(t)
  {
    Step(t).value
  }

  lemma StepStops(t: Table)
    requires HandInv(t) && NextToAct(t) == None && HandOver(t)
    ensures Last(t) == t
  {
  }

  lemma StepWaits(t: Table, i: nat)
    requires HandInv(t) && NextToAct(t) == Some(i) && i < |t.players| && PresetAction(t, i).None?
    ensures Last(t) == t
  {
  }

  lemma StepDealsStreet(t: Table) returns (u: Table)
    requires HandInv(t) && NextToAct(t) == None && !HandOver(t)
    ensures DealStreet(t, StreetCards(t)) == Success(u) && HandInv(u)
    ensures Last(t) == Last(u) && 0 <= Measure(u) < Measure(t)
  {
    StreetIsDealt(t);
    u := DealStreet(t, StreetCards(t)).value;
    StepIsStreet(t);
    StreetThenStep(t, u);
  }

  lemma {:induction false} StreetThenStep(t: Table, u: Table)
    requires HandInv(t) && NextToAct(t) == None && !HandOver(t) && HandInv(u)
    requires DealStreet(t, StreetCards(t)) == Success(u)
    ensures StepStreet(t) == Step(u)
  {
  }

  lemma {:induction false} StepIsStreet(t: Table)
    requires HandInv(t) && NextToAct(t) == None && !HandOver(t)
    ensures Step(t) == StepStreet(t)
  {
  }

  lemma StepPlaysPreset(t: Table, i: nat) returns (u: Table)
    requires HandInv(t) && NextToAct(t) == Some(i) && i < |t.players| && PresetAction(t, i).Some?
    ensures PlayerDispatch(t, i, PresetAction(t, i).value) == Success(u) && HandInv(u)
    ensures Last(t) == Last(u) && 0 <= Measure(u) < Measure(t)
  {
    PresetAccepted(t, i);
    u := Dispatch(t, i, PresetAction(t, i).value).value;
    RequestKept(t, i, PresetAction(t, i).value, u);
    StepIsPreset(t, i);
    PresetThenStep(t, i, u);
  }

  lemma {:induction false} PresetThenStep(t: Table, i: nat, u: Table)
    requires HandInv(t) && NextToAct(t) == Some(i) && i < |t.players| && PresetAction(t, i).Some? && HandInv(u)
    requires Dispatch(t, i, PresetAction(t, i).value) == Success(u)
    ensures StepPreset(t, i) == Step(u)
  {
  }

  lemma {:induction false} StepIsPreset(t: Table, i: nat)
    requires HandInv(t) && NextToAct(t) == Some(i) && i < |t.players| && PresetAction(t, i).Some?
    ensures Step(t) == StepPreset(t, i)
  {
  }

  lemma NextActs(t: Table, i: nat)
    requires HandInv(t) && NextToAct(t) == Some(i)
    ensures i < |t.players|
  {
    NextOwes(t, i);
  }

  // Whole runs

  /** A request of somebody with a place at the table, or somebody joining it. */
  datatype Input = Input(player: nat, req: Request) | Joins(player: nat, join: Join)

  function Answered(t: Table, input: Input): Result<Table, Error>
    requires Seating(t)
  {
    match input
    case Input(i, req) => Dispatch(t, i, req)
    case Joins(i, join) => JoinTable(t, i, join)
  }

  /** The chips that an accepted input brings to the table. */
  function Arrives(t: Table, input: Input): int {
    if input.Joins? && input.player < |t.players| then Brings(t, input.player, input.join) else 0
  }

  function BetsOf(input: Input): nat {
    if input.Input? && input.req.Betting() then 1 else 0
  }

  /**
   * The invariant, the cards and who is in are kept, the chips but for a number that arrive, and so
   * many bets are taken from the measure.
   */
  ghost predicate Kept(t: Table, u: Table, arrived: int, bets: nat) {
    && HandInv(u) && Later(t, u) && Total(u) == Total(t) + arrived
    && 0 <= Measure(u) && bets + Measure(u) <= Measure(t)
  }

  lemma RequestKept(t: Table, i: nat, req: Request, u: Table)
    requires HandInv(t) && Dispatch(t, i, req) == Success(u)
    ensures Kept(t, u, 0, if req.Betting() then 1 else 0)
  {
    DispatchKeepsHand(t, i, req);
  }

  lemma JoinKept(t: Table, i: nat, join: Join, u: Table)
    requires HandInv(t) && JoinTable(t, i, join) == Success(u)
    ensures i < |t.players| && Kept(t, u, Brings(t, i, join), 0)
  {
    JoinKeepsHand(t, i, join);
    HandMeasure(u);
  }

  lemma JoinAnswered(t: Table, input: Input, u: Table)
    requires HandInv(t) && input.Joins? && JoinTable(t, input.player, input.join) == Success(u)
    ensures Kept(t, u, Arrives(t, input), 0)
  {
    JoinKept(t, input.player, input.join, u);
  }

  /** Every accepted input is kept within those bounds. */
  lemma AnsweredKeepsHand(t: Table, input: Input, u: Table)
    requires HandInv(t) && Answered(t, input) == Success(u)
    ensures Kept(t, u, Arrives(t, input), BetsOf(input))
  {
    match input
    case Input(i, req) => RequestKept(t, i, req, u);
    case Joins(i, join) => JoinAnswered(t, input, u);
  }

  /** The table after a run of inputs, each followed by step; a refused input changes nothing. */
  function Run(t: Table, inputs: seq<Input>): (u: Table)
    requires HandInv(t)
    ensures HandInv(u)
    decreases |inputs|
  {
    if inputs == [] then t
    else
      match Answered(t, inputs[0])
      case Failure(_) => Run(t, inputs[1..])
      case Success(u) =>
        AnsweredKeepsHand(t, inputs[0], u);
        Run(Step(u).value, inputs[1..])
  }

  /** How many of the inputs are accepted betting actions. */
  function BetsTaken(t: Table, inputs: seq<Input>): nat
    requires HandInv(t)
    decreases |inputs|
  {
    if inputs == [] then 0
    else
      match Answered(t, inputs[0])
      case Failure(_) => BetsTaken(t, inputs[1..])
      case Success(u) =>
        AnsweredKeepsHand(t, inputs[0], u);
        BetsOf(inputs[0]) + BetsTaken(Step(u).value, inputs[1..])
  }

  /** The chips that those who join in the course of a run bring with them. */
  function Arrivals(t: Table, inputs: seq<Input>): int
    requires HandInv(t)
    decreases |inputs|
  {
    if inputs == [] then 0
    else
      match Answered(t, inputs[0])
      case Failure(_) => Arrivals(t, inputs[1..])
      case Success(u) =>
        AnsweredKeepsHand(t, inputs[0], u);
        Arrives(t, inputs[0]) + Arrivals(Step(u).value, inputs[1..])
  }

  lemma {:induction false} RunNext(t: Table, inputs: seq<Input>, u: Table)
    requires HandInv(t) && inputs != [] && HandInv(u) && Answered(t, inputs[0]) == Success(u)
    ensures Run(t, inputs) == Run(Last(u), inputs[1..])
    ensures Arrivals(t, inputs) == Arrives(t, inputs[0]) + Arrivals(Last(u), inputs[1..])
    ensures BetsTaken(t, inputs) == BetsOf(inputs[0]) + BetsTaken(Last(u), inputs[1..])
  {
  }

  lemma {:induction false} RunRefused(t: Table, inputs: seq<Input>)
    requires HandInv(t) && inputs != [] && Answered(t, inputs[0]).Failure?
    ensures Run(t, inputs) == Run(t, inputs[1..]) && Arrivals(t, inputs) == Arrivals(t, inputs[1..])
    ensures BetsTaken(t, inputs) == BetsTaken(t, inputs[1..])
  {
  }

  lemma KeptTwice(t: Table, u: Table, w: Table, a: int, b: int, m: nat, n: nat)
    requires Kept(t, u, a, m) && Kept(u, w, b, n)
    ensures Kept(t, w, a + b, m + n)
  {
    LaterTransitive(t, u, w);
  }

  lemma LastKept(t: Table, u: Table)
    requires HandInv(t) && Last(t) == u
    ensures Kept(t, u, 0, 0)
  {
    HandMeasure(u);
  }

  lemma NothingKept(t: Table)
    requires HandInv(t)
    ensures Kept(t, t, 0, 0)
  {
    HandMeasure(t);
  }

  /**
   * Any run keeps the chips in all, but for those that newcomers bring, brings in no card, and puts
   * nobody in or out of the hand; and the first table bounds how many bets it can take.
   */
  lemma {:induction false} RunKeepsGame(t: Table, inputs: seq<Input>)
    requires HandInv(t)
    ensures Kept(t, Run(t, inputs), Arrivals(t, inputs), BetsTaken(t, inputs))
    decreases |inputs|
  {
    if inputs == [] {
      NothingKept(t);
    } else {
      match Answered(t, inputs[0])
      case Failure(_) =>
        RunRefused(t, inputs);
        RunKeepsGame(t, inputs[1..]);
      case Success(u) => RunOneKeeps(t, inputs, u);
    }
  }

  lemma {:induction false} RunOneKeeps(t: Table, inputs: seq<Input>, u: Table)
    requires HandInv(t) && inputs != [] && Answered(t, inputs[0]) == Success(u)
    ensures Kept(t, Run(t, inputs), Arrivals(t, inputs), BetsTaken(t, inputs))
    decreases |inputs|, 0
  {
    AnsweredKeepsHand(t, inputs[0], u);
    var next := Last(u);
    RunNext(t, inputs, u);
    LastKept(u, next);
    KeptTwice(t, u, next, Arrives(t, inputs[0]), 0, BetsOf(inputs[0]), 0);
    RunKeepsGame(next, inputs[1..]);
    KeptTwice(t, next, Run(next, inputs[1..]), Arrives(t, inputs[0]), Arrivals(next, inputs[1..]),
              BetsOf(inputs[0]), BetsTaken(next, inputs[1..]));
  }
}
