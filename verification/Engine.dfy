/** The objects that change: players and the table, on which events are dispatched one change at a time. */
module Engine {
  import opened Wrappers
  import opened Players
  import opened Tables

  predicate IsChipChange(c: Change) {
    c.SetStack? || c.SetWagers? || c.SetUncollected? || c.SetDead? || c.SetPendingRebuy?
  }

  predicate IsSeatChange(c: Change) {
    c.SetPosition? || c.SetSeated? || c.SetPlaying? || c.SetSitOutAtBlinds?
  }

  predicate IsPresetChange(c: Change) {
    c.SetPresetCheckfold? || c.SetPresetCheck? || c.SetPresetCall?
  }

  class Player {
    var position: Option<nat>
    var seated: bool
    var playing: Option<PlayingState>
    var sitOutAtBlinds: bool
    var stack: int
    var wagers: int
    var uncollected: int
    var dead: int
    var cards: seq<Card>
    var last: Option<LastAction>
    var owesSb: bool
    var owesBb: bool
    var pendingRebuy: int
    var presetCheckfold: bool
    var presetCheck: bool
    var presetCall: int

    function State(): PlayerState
      reads this
    {
      PlayerState(position, seated, playing, sitOutAtBlinds, stack, wagers, uncollected, dead, cards, last,
                  owesSb, owesBb, pendingRebuy, presetCheckfold, presetCheck, presetCall)
    }

    constructor (p: PlayerState)
      ensures State() == p
    {
      position, seated, playing, sitOutAtBlinds := p.position, p.seated, p.playing, p.sitOutAtBlinds;
      stack, wagers, uncollected, dead := p.stack, p.wagers, p.uncollected, p.dead;
      cards, last, owesSb, owesBb := p.cards, p.last, p.owesSb, p.owesBb;
      pendingRebuy := p.pendingRebuy;
      presetCheckfold, presetCheck, presetCall := p.presetCheckfold, p.presetCheck, p.presetCall;
    }

    /** setattr */
    method SetAttribute(c: Change)
      modifies this
      ensures State() == Apply(old(State()), c)
    {
      if IsChipChange(c) {
        SetChips(c);
      } else if IsSeatChange(c) {
        SetSeat(c);
      } else if IsPresetChange(c) {
        SetPreset(c);
      } else {
        match c
        case SetCards(cs) => cards := cs;
        case SetLast(a) => last := a;
        case SetOwesSb(b) => owesSb := b;
        case SetOwesBb(b) => owesBb := b;
      }
    }

    method SetChips(c: Change)
      requires IsChipChange(c)
      modifies this
      ensures State() == Apply(old(State()), c)
    {
      match c
      case SetStack(n) => stack := n;
      case SetWagers(n) => wagers := n;
      case SetUncollected(n) => uncollected := n;
      case SetDead(n) => dead := n;
      case SetPendingRebuy(n) => pendingRebuy := n;
    }

    method SetSeat(c: Change)
      requires IsSeatChange(c)
      modifies this
      ensures State() == Apply(old(State()), c)
    {
      match c
      case SetPosition(x) => position := x;
      case SetSeated(b) => seated := b;
      case SetPlaying(s) => playing := s;
      case SetSitOutAtBlinds(b) => sitOutAtBlinds := b;
    }

    method SetPreset(c: Change)
      requires IsPresetChange(c)
      modifies this
      ensures State() == Apply(old(State()), c)
    {
      match c
      case SetPresetCheckfold(b) => presetCheckfold := b;
      case SetPresetCheck(b) => presetCheck := b;
      case SetPresetCall(n) => presetCall := n;
    }

    /** dispatch: the handler's changes are applied one after the other, or none when it raises. */
    method Dispatch(e: PlayerEvent) returns (r: Result<(), Error>)
      modifies this
      ensures r.Success? <==> Effect(old(State()), e).Success?
      ensures r.Success? ==> State() == Effect(old(State()), e).value
      ensures r.Failure? ==> r.error == Effect(old(State()), e).error && State() == old(State())
    {
      DispatchedEffect(State(), e);
      var changes := Handle(State(), e);
      if changes.Failure? {
        return Failure(changes.error);
      }
      var k := 0;
      while k < |changes.value|
        invariant 0 <= k <= |changes.value|
        invariant ApplyAll(old(State()), changes.value) == ApplyAll(State(), changes.value[k..])
      {
        assert changes.value[k..][1..] == changes.value[k + 1..];
        SetAttribute(changes.value[k]);
        k := k + 1;
      }
      r := Success(());
    }
  }

  class PokerTable {
    const numSeats: nat
    const sb: int
    const bb: int
    const minBuyin: int
    const maxBuyin: int
    var btnPos: Option<nat>
    var sbPos: Option<nat>
    var bbPos: Option<nat>
    var deck: seq<Card>
    var board: seq<Card>

    function With(players: seq<PlayerState>): Table
      reads this
    {
      Table(numSeats, sb, bb, minBuyin, maxBuyin, btnPos, sbPos, bbPos, deck, board, players)
    }

    constructor (t: Table)
      ensures With(t.players) == t
    {
      numSeats, sb, bb, minBuyin, maxBuyin := t.numSeats, t.sb, t.bb, t.minBuyin, t.maxBuyin;
      btnPos, sbPos, bbPos, deck, board := t.btnPos, t.sbPos, t.bbPos, t.deck, t.board;
    }

    /** dispatch */
    method Dispatch(e: TableEvent, ghost players: seq<PlayerState>) returns (r: Result<(), Error>)
      modifies this
      ensures r.Success? <==> FireTable(old(With(players)), e).Success?
      ensures r.Success? ==> With(players) == FireTable(old(With(players)), e).value
      ensures r.Failure? ==> r.error == FireTable(old(With(players)), e).error && With(players) == old(With(players))
    {
      r := Success(());
      match e {
        case SetBlindPos(btn, small, big) => btnPos, sbPos, bbPos := btn, small, big;
        case Shuffle(cards) => deck := cards;
        case PopCards(n) =>
          if n > |deck| {
            return Failure(OutOfCards);
          }
          deck := deck[n..];
        case DealBoard(card) => board := board + [card];
        case ResetTable => deck, board := [], [];
      }
    }
  }
}
