/** One host attempt as its two guards see it: the generation fence on incoming events
    (relay-server/src/plugin-kernel/generation-fence.ts) and the record that a disconnect
    closes (relay-server/src/desktop-host/disconnect-outcome.ts). */
module HostAttempt {
  import opened Json
  import opened Options
  import opened HarnessStream

  datatype Rejection = StaleGeneration | OutOfOrderSequence | EventAfterTerminal | SecondTerminal

  datatype Fence = Fence(generation: int, lastSequence: int, terminalAccepted: bool)

  function NewFence(generation: int): Fence {
    Fence(generation, 0, false)
  }

  /** The reason the fence refuses an event, if it does. */
  function Verdict(f: Fence, e: Event): Option<Rejection> {
    if e.id.generation != f.generation then Some(StaleGeneration)
    else if f.terminalAccepted then Some(if e.kind.Terminal? then SecondTerminal else EventAfterTerminal)
    else if e.sequence > MAX_SAFE_INTEGER || e.sequence < 1 || e.sequence <= f.lastSequence then
      Some(OutOfOrderSequence)
    else None
  }

  function AfterEvent(f: Fence, e: Event): Fence {
    if Verdict(f, e) == None then f.(lastSequence := e.sequence, terminalAccepted := e.kind.Terminal?) else f
  }

  class GenerationStreamFence {
    const generation: int
    var lastSequence: int
    var terminalAccepted: bool

    ghost function View(): Fence
      reads this
    {
      Fence(generation, lastSequence, terminalAccepted)
    }

    /** The source throws on any other generation. */
    constructor (generation: int)
      requires 0 <= generation <= MAX_SAFE_INTEGER
      ensures View() == NewFence(generation)
    {
      this.generation := generation;
      lastSequence, terminalAccepted := 0, false;
    }

    method Accept(e: Event) returns (refused: Option<Rejection>)
      modifies this
      ensures refused == Verdict(old(View()), e)
      ensures View() == AfterEvent(old(View()), e)
    {
      if e.id.generation != generation { return Some(StaleGeneration); }
      if terminalAccepted { return Some(if e.kind.Terminal? then SecondTerminal else EventAfterTerminal); }
      if e.sequence > MAX_SAFE_INTEGER || e.sequence < 1 || e.sequence <= lastSequence {
        return Some(OutOfOrderSequence);
      }
      lastSequence := e.sequence;
      if e.kind.Terminal? { terminalAccepted := true; }
      refused := None;
    }
  }

  /** Everything the gateway asks of one incoming event of attempt id. */
  ghost predicate Admissible(id: Identity, f: Fence, e: Event) {
    FrameAdmits(e) && e.id == id && Verdict(f, e) == None
  }

  /** Feeding events one at a time: the fence afterwards, or None once one is refused. */
  ghost function Feed(id: Identity, es: seq<Event>): Option<Fence> {
    if es == [] then Some(NewFence(id.generation))
    else
      var before := Feed(id, es[..|es| - 1]);
      var e := es[|es| - 1];
      if before.Some? && Admissible(id, before.value, e) then Some(AfterEvent(before.value, e)) else None
  }

  /** What has been accepted so far: well-formed events of one attempt, increasing, none of
      them terminal unless it is the last, and room above each for a closing event. */
  ghost predicate Accepted(id: Identity, es: seq<Event>) {
    && AllWellFormed(es)
    && (forall i | 0 <= i < |es| :: es[i].id == id)
    && Increasing(es)
    && (forall i | 0 <= i < |es| - 1 :: !es[i].kind.Terminal?)
    && (forall i | 0 <= i < |es| :: es[i].kind.Terminal? || es[i].sequence < MAX_SAFE_INTEGER)
  }

  ghost function FenceOf(id: Identity, es: seq<Event>): Fence {
    if es == [] then NewFence(id.generation)
    else Fence(id.generation, es[|es| - 1].sequence, es[|es| - 1].kind.Terminal?)
  }

  /** Appending one admissible event keeps a record accepted, and nothing else may be appended. */
  lemma AcceptedExtends(id: Identity, es: seq<Event>, e: Event)
    requires Accepted(id, es)
    ensures Accepted(id, es + [e]) <==> Admissible(id, FenceOf(id, es), e)
    ensures Admissible(id, FenceOf(id, es), e) ==> AfterEvent(FenceOf(id, es), e) == FenceOf(id, es + [e])
  {
    var all := es + [e];
    FrameAdmitsWhen(e);
    assert all[|es|] == e && forall i | 0 <= i < |es| :: all[i] == es[i];
    if Accepted(id, all) && es != [] {
      assert all[|es| - 1].sequence < all[|es|].sequence;
    }
  }

  lemma {:induction false} FeedCharacterised(id: Identity, es: seq<Event>)
    ensures Feed(id, es) == if Accepted(id, es) then Some(FenceOf(id, es)) else None
  {
    if es != [] {
      var front, e := es[..|es| - 1], es[|es| - 1];
      assert es == front + [e];
      FeedCharacterised(id, front);
      if Accepted(id, front) {
        AcceptedExtends(id, front, e);
      } else {
        assert forall i | 0 <= i < |front| :: front[i] == es[i];
        assert !Accepted(id, es) by { AcceptedPrefix(id, front, e); }
      }
    }
  }

  lemma AcceptedPrefix(id: Identity, front: seq<Event>, e: Event)
    ensures Accepted(id, front + [e]) ==> Accepted(id, front)
  {
    assert forall i | 0 <= i < |front| :: (front + [e])[i] == front[i];
  }

  /** The step-by-step acceptor refines the batch parser: feeding a sequence of events is
      accepted through a terminal event exactly when the whole sequence is a valid stream
      of that attempt. */
  lemma AcceptorRefinesBatch(id: Identity, es: seq<Event>)
    ensures Feed(id, es).Some? && Feed(id, es).value.terminalAccepted
            <==> ValidStream(es) && es[0].id == id
  {
    FeedCharacterised(id, es);
    if ValidStream(es) && es[0].id == id {
      forall i | 0 <= i < |es| ensures es[i].kind.Terminal? || es[i].sequence < MAX_SAFE_INTEGER {
        if i < |es| - 1 { assert es[i].sequence < es[|es| - 1].sequence; }
      }
    }
  }

  datatype AttemptState = AttemptState(
    id: Identity, input: Json, events: seq<Event>, dispatched: bool, terminal: bool)

  function NextSequence(events: seq<Event>): int {
    if events == [] then 1 else events[|events| - 1].sequence + 1
  }

  /** The test acceptPublicEvent makes on a live attempt. */
  predicate AcceptsPublic(a: AttemptState, e: Event) {
    !e.kind.Terminal? && e.sequence == NextSequence(a.events) && e.id == a.id && IsProviderNeutral(e.payload)
  }

  function ClosingEvent(a: AttemptState): Event {
    Event(a.id, NextSequence(a.events), Terminal,
          Obj(map["outcome" := Str(if a.dispatched then "unknown" else "failed")]))
  }

  function DisconnectEvents(a: AttemptState): seq<Event> {
    a.events + [ClosingEvent(a)]
  }

  /** Numbered 1, 2, 3, ... without a gap. */
  ghost predicate Contiguous(es: seq<Event>) {
    forall i | 0 <= i < |es| :: es[i].sequence == i + 1
  }

  /** What a live attempt's record satisfies when every event reached it through the fence. */
  ghost predicate LiveAttemptState(a: AttemptState) {
    && !a.terminal
    && ValidIdentity(a.id)
    && Accepted(a.id, a.events)
    && Contiguous(a.events)
    && (forall i | 0 <= i < |a.events| :: !a.events[i].kind.Terminal?)
  }

  /** A disconnect always closes a live attempt with one valid stream: the public events it
      accepted, then a single terminal. */
  lemma DisconnectIsValidStream(a: AttemptState)
    requires LiveAttemptState(a)
    ensures ValidStream(DisconnectEvents(a))
    ensures DisconnectEvents(a)[0].id == a.id && Contiguous(DisconnectEvents(a))
  {
    var es, n := DisconnectEvents(a), |a.events|;
    assert forall i | 0 <= i < n :: es[i] == a.events[i];
    assert NextSequence(a.events) == n + 1;
    assert WellFormed(es[n]);
    assert Increasing(es);
  }

  datatype AttemptError = InvalidAttemptEvent | AttemptAlreadyTerminal

  /** What disconnect() returns; recovery never replays the attempt or moves it to another host. */
  datatype DisconnectOutcome = DisconnectOutcome(
    input: Json, events: seq<Event>, automaticReplay: bool, automaticHostSubstitution: bool)

  class HostInvocationAttempt {
    const id: Identity
    const input: Json
    var events: seq<Event>
    var dispatched: bool
    var terminal: bool

    ghost function View(): AttemptState
      reads this
    {
      AttemptState(id, input, events, dispatched, terminal)
    }

    /** The source throws when the preserved input is not provider-neutral. */
    constructor (id: Identity, input: Json)
      requires IsProviderNeutral(input)
      ensures View() == AttemptState(id, input, [], false, false)
    {
      this.id, this.input := id, input;
      events, dispatched, terminal := [], false, false;
    }

    method MarkDispatched() returns (r: Result<(), AttemptError>)
      modifies this
      ensures old(terminal) ==> r == Err(AttemptAlreadyTerminal) && View() == old(View())
      ensures !old(terminal) ==> r == Ok(()) && View() == old(View()).(dispatched := true)
    {
      if terminal { return Err(AttemptAlreadyTerminal); }
      dispatched := true;
      r := Ok(());
    }

    method AcceptPublicEvent(e: Event) returns (r: Result<(), AttemptError>)
      modifies this
      ensures old(terminal) ==> r == Err(AttemptAlreadyTerminal) && View() == old(View())
      ensures !old(terminal) && !AcceptsPublic(old(View()), e) ==>
                r == Err(InvalidAttemptEvent) && View() == old(View())
      ensures !old(terminal) && AcceptsPublic(old(View()), e) ==>
                r == Ok(()) && View() == old(View()).(events := old(events) + [e])
      ensures old(LiveAttemptState(View())) && WellFormed(e) && e.sequence < MAX_SAFE_INTEGER ==> LiveAttemptState(View())
    {
      if terminal { return Err(AttemptAlreadyTerminal); }
      var expected := NextSequence(events);
      if e.kind.Terminal? || e.sequence != expected || e.id != id || !IsProviderNeutral(e.payload) {
        return Err(InvalidAttemptEvent);
      }
      events := events + [e];
      r := Ok(());
    }

    /** Closing an attempt works at most once; on a live attempt it cannot fail. */
    method Disconnect() returns (r: Result<DisconnectOutcome, AttemptError>)
      modifies this
      ensures old(terminal) ==> r == Err(AttemptAlreadyTerminal) && View() == old(View())
      ensures !old(terminal) ==> View() == old(View()).(terminal := true)
      ensures !old(terminal) ==>
                r == if ValidStream(DisconnectEvents(old(View())))
                     then Ok(DisconnectOutcome(input, DisconnectEvents(old(View())), false, false))
                     else Err(InvalidAttemptEvent)
      ensures old(LiveAttemptState(View())) ==> r.Ok?
    {
      if terminal { return Err(AttemptAlreadyTerminal); }
      if LiveAttemptState(View()) { DisconnectIsValidStream(View()); }
      var closing := Event(id, NextSequence(events), Terminal,
                           Obj(map["outcome" := Str(if dispatched then "unknown" else "failed")]));
      terminal := true;
      var stream := events + [closing];
      var valid := IsValidStream(stream);
      r := if valid then Ok(DisconnectOutcome(input, stream, false, false)) else Err(InvalidAttemptEvent);
    }
  }
}
