/** The transcript buffer (mobile/lib/use-transcript-buffer.ts): one text buffer and one delayed
    flush per speaker. */
module TranscriptBuffer {
  import opened Texts

  datatype Role = User | Assistant

  type TimerId = nat

  /** Fragments that arrived, and what became of them: given to onFlush, returned by flushAll,
      or lost when a new speech turn reset the buffer. */
  datatype Entry =
    | Arrived(role: Role, text: string)
    | Flushed(role: Role, text: string)
    | Returned(role: Role, text: string)
    | Lost(role: Role, text: string)

  /** live holds the timers the environment may still fire, each with the role its callback flushes. */
  datatype State = State(
    buffers: map<Role, string>, pending: map<Role, TimerId>, live: map<TimerId, Role>, nextTimer: TimerId, log: seq<Entry>)

  const INITIAL := State(map[], map[], map[], 0, [])

  function Buffer(s: State, role: Role): string {
    if role in s.buffers then s.buffers[role] else ""
  }

  function ClearTimer(s: State, role: Role): State {
    if role in s.pending then s.(live := s.live - {s.pending[role]}) else s
  }

  function Schedule(s: State, role: Role): State {
    s.(pending := s.pending[role := s.nextTimer], live := s.live[s.nextTimer := role], nextTimer := s.nextTimer + 1)
  }

  function FlushedEntry(role: Role, text: string): seq<Entry> {
    if Trim(text) == "" then [] else [Flushed(role, Trim(text))]
  }

  function FlushRole(s: State, role: Role): State {
    ClearTimer(s, role).(pending := s.pending - {role}, buffers := s.buffers - {role},
                         log := s.log + FlushedEntry(role, Buffer(s, role)))
  }

  function LostEntry(role: Role, text: string): seq<Entry> {
    if text == "" then [] else [Lost(role, text)]
  }

  function Reset(s: State, role: Role): State {
    s.(buffers := s.buffers[role := ""], log := s.log + LostEntry(role, Buffer(s, role)))
  }

  /** A pending flush happens first; then the buffer is reset, whatever it holds. */
  function SpeechStart(s: State, role: Role): State {
    Reset(if role in s.pending then FlushRole(s, role) else s, role)
  }

  function TranscriptFinal(s: State, role: Role, text: string): State {
    var existing := Buffer(s, role);
    var t := s.(buffers := s.buffers[role := if existing == "" then text else existing + " " + text],
                log := s.log + [Arrived(role, text)]);
    if role in s.pending then Schedule(ClearTimer(t, role), role) else t
  }

  function SpeechEnd(s: State, role: Role): State {
    Schedule(ClearTimer(s, role), role)
  }

  function ReturnedEntry(role: Role, text: string): seq<Entry> {
    if Trim(text) == "" then [] else [Returned(role, Trim(text))]
  }

  function Return(s: State, role: Role): State {
    s.(buffers := s.buffers - {role}, log := s.log + ReturnedEntry(role, Buffer(s, role)))
  }

  function ClearAllTimers(s: State): State {
    s.(live := s.live - s.pending.Values, pending := map[])
  }

  function Other(role: Role): Role {
    if role == User then Assistant else User
  }

  /** first is the role whose buffer was entered first: a Map is walked in insertion order. */
  function FlushAll(s: State, first: Role): State {
    var second := Other(first);
    ClearAllTimers(s).(buffers := map[],
                       log := s.log + ReturnedEntry(first, Buffer(s, first)) + ReturnedEntry(second, Buffer(s, second)))
  }

  function TimerFires(s: State, id: TimerId): State {
    if id in s.live then FlushRole(s.(live := s.live - {id}), s.live[id]) else s
  }

  datatype Step =
    | StartsSpeaking(role: Role)
    | Final(role: Role, text: string)
    | StopsSpeaking(role: Role)
    | FlushEverything(first: Role)
    | Fires(id: TimerId)
    | Unmount

  function Apply(s: State, step: Step): State {
    match step
    case StartsSpeaking(role) => SpeechStart(s, role)
    case Final(role, text) => TranscriptFinal(s, role, text)
    case StopsSpeaking(role) => SpeechEnd(s, role)
    case FlushEverything(first) => FlushAll(s, first)
    case Fires(id) => TimerFires(s, id)
    case Unmount => ClearAllTimers(s)
  }

  function Run(steps: seq<Step>): State {
    if steps == [] then INITIAL else Apply(Run(steps[..|steps| - 1]), steps[|steps| - 1])
  }

  // ---- timers

  /** The live timers are exactly those in pendingFlushRef, one per role. */
  ghost predicate TimersMatch(s: State) {
    && (forall role | role in s.pending :: s.pending[role] in s.live && s.live[s.pending[role]] == role)
    && (forall id | id in s.live :: s.live[id] in s.pending && s.pending[s.live[id]] == id)
    && (forall id | id in s.live :: id < s.nextTimer)
  }

  lemma FlushKeepsTimers(s: State, role: Role)
    requires TimersMatch(s)
    ensures TimersMatch(FlushRole(s, role))
  {
    var t := FlushRole(s, role);
    forall id | id in t.live
      ensures t.live[id] in t.pending && t.pending[t.live[id]] == id
    {
      assert s.pending[s.live[id]] == id;
    }
  }

  lemma RescheduleKeepsTimers(s: State, role: Role)
    requires TimersMatch(s)
    ensures TimersMatch(Schedule(ClearTimer(s, role), role))
  {
  }

  lemma FiringKeepsTimers(s: State, id: TimerId)
    requires TimersMatch(s)
    ensures TimersMatch(TimerFires(s, id))
  {
    if id in s.live {
      var role := s.live[id];
      assert TimerFires(s, id).live == FlushRole(s, role).live;
      FlushKeepsTimers(s, role);
    }
  }

  lemma ClearingKeepsTimers(s: State)
    requires TimersMatch(s)
    ensures TimersMatch(ClearAllTimers(s)) && ClearAllTimers(s).live == map[]
  {
    forall id | id in s.live
      ensures id in s.pending.Values
    {
      assert s.pending[s.live[id]] == id;
    }
  }

  lemma StepKeepsTimers(s: State, step: Step)
    requires TimersMatch(s)
    ensures TimersMatch(Apply(s, step))
  {
    match step
    case StartsSpeaking(role) => FlushKeepsTimers(s, role);
    case Final(role, text) =>
      RescheduleKeepsTimers(TranscriptFinal(s, role, text).(pending := s.pending, live := s.live, nextTimer := s.nextTimer), role);
    case StopsSpeaking(role) => RescheduleKeepsTimers(s, role);
    case FlushEverything(first) => ClearingKeepsTimers(s);
    case Fires(id) => FiringKeepsTimers(s, id);
    case Unmount => ClearingKeepsTimers(s);
  }

  lemma {:induction false} RunKeepsTimers(steps: seq<Step>)
    ensures TimersMatch(Run(steps))
  {
    if steps != [] {
      RunKeepsTimers(steps[..|steps| - 1]);
      StepKeepsTimers(Run(steps[..|steps| - 1]), steps[|steps| - 1]);
    }
  }

  /** The states of all runs. */
  ghost predicate Reachable(s: State) {
    exists steps :: s == Run(steps)
  }

  /** A role never has two live timers, and its one live timer is the one that can be cleared. */
  lemma OneTimerPerRole(s: State, id: TimerId, other: TimerId)
    requires Reachable(s) && id in s.live && other in s.live && s.live[id] == s.live[other]
    ensures id == other && s.live[id] in s.pending && s.pending[s.live[id]] == id
  {
    var steps :| s == Run(steps);
    RunKeepsTimers(steps);
  }

  /** The role stopped speaking, and nothing since has flushed it, cleared it or begun its next speech. */
  function Awaits(steps: seq<Step>, role: Role): bool {
    if steps == [] then false
    else
      var before := Awaits(steps[..|steps| - 1], role);
      match steps[|steps| - 1]
      case StopsSpeaking(r) => r == role || before
      case StartsSpeaking(r) => r != role && before
      case Fires(id) =>
        var live := Run(steps[..|steps| - 1]).live;
        before && !(id in live && live[id] == role)
      case FlushEverything(_) => false
      case Unmount => false
      case Final(_, _) => before
  }

  /** In every run a role has a live timer exactly while it is awaited in this sense: each end of speech
      sets one, and only a flush, the next speech, flushAll or unmounting takes it away. */
  lemma {:induction false} TimerExactlyWhileAwaited(steps: seq<Step>, role: Role)
    ensures Awaits(steps, role) <==> exists id :: id in Run(steps).live && Run(steps).live[id] == role
  {
    RunKeepsTimers(steps);
    PendingExactlyWhileAwaited(steps, role);
    if role in Run(steps).pending { assert Run(steps).live[Run(steps).pending[role]] == role; }
  }

  lemma {:induction false} PendingExactlyWhileAwaited(steps: seq<Step>, role: Role)
    ensures Awaits(steps, role) <==> role in Run(steps).pending
  {
    if steps != [] { PendingExactlyWhileAwaited(steps[..|steps| - 1], role); }
  }

  /** A late transcript, like another end of speech, starts the wait anew: the old timer is gone. */
  lemma WaitStartsAnew(s: State, step: Step, role: Role)
    requires Reachable(s) && role in s.pending
    requires step == StopsSpeaking(role) || (step.Final? && step.role == role)
    ensures var t := Apply(s, step);
            role in t.pending && t.pending[role] in t.live && t.pending[role] !in s.live && s.pending[role] !in t.live
  {
    var steps :| s == Run(steps);
    RunKeepsTimers(steps);
  }

  /** When a role's timer fires, its text is handed on, trimmed, if any is left. */
  lemma FiringDelivers(s: State, id: TimerId)
    requires Reachable(s) && id in s.live
    ensures var role, t := s.live[id], TimerFires(s, id);
            && role !in t.buffers && role !in t.pending && id !in t.live
            && t.log == s.log + if Blank(Buffer(s, role)) then [] else [Flushed(role, Trim(Buffer(s, role)))]
  {
  }

  // ---- conservation

  function ArrivedText(log: seq<Entry>, role: Role): string {
    if log == [] then ""
    else
      var e := log[|log| - 1];
      ArrivedText(log[..|log| - 1], role) + if e.Arrived? && e.role == role then e.text else ""
  }

  /** Everything that left the buffer, in order. */
  function SettledText(log: seq<Entry>, role: Role): string {
    if log == [] then ""
    else
      var e := log[|log| - 1];
      SettledText(log[..|log| - 1], role) + if !e.Arrived? && e.role == role then e.text else ""
  }

  function DeliveredText(log: seq<Entry>, role: Role): string {
    if log == [] then ""
    else
      var e := log[|log| - 1];
      DeliveredText(log[..|log| - 1], role) + if (e.Flushed? || e.Returned?) && e.role == role then e.text else ""
  }

  function LostText(log: seq<Entry>, role: Role): string {
    if log == [] then ""
    else
      var e := log[|log| - 1];
      LostText(log[..|log| - 1], role) + if e.Lost? && e.role == role then e.text else ""
  }

  ghost predicate Balanced(log: seq<Entry>, role: Role, buffer: string) {
    Squash(ArrivedText(log, role)) == Squash(SettledText(log, role)) + Squash(buffer)
  }

  ghost predicate Conserved(s: State) {
    Balanced(s.log, User, Buffer(s, User)) && Balanced(s.log, Assistant, Buffer(s, Assistant))
  }

  lemma EntryAppended(log: seq<Entry>, e: Entry, role: Role)
    ensures Squash(ArrivedText(log + [e], role))
            == Squash(ArrivedText(log, role)) + if e.Arrived? && e.role == role then Squash(e.text) else ""
    ensures Squash(SettledText(log + [e], role))
            == Squash(SettledText(log, role)) + if !e.Arrived? && e.role == role then Squash(e.text) else ""
  {
    assert (log + [e])[..|log|] == log;
    SquashConcat(ArrivedText(log, role), if e.Arrived? && e.role == role then e.text else "");
    SquashConcat(SettledText(log, role), if !e.Arrived? && e.role == role then e.text else "");
  }

  lemma OtherRoleUntouched(log: seq<Entry>, e: Entry, role: Role, buffer: string)
    requires Balanced(log, role, buffer) && e.role != role
    ensures Balanced(log + [e], role, buffer)
  {
    assert (log + [e])[..|log|] == log;
    assert ArrivedText(log, role) + "" == ArrivedText(log, role);
    assert SettledText(log, role) + "" == SettledText(log, role);
  }

  lemma BufferSettles(log: seq<Entry>, e: Entry, buffer: string)
    requires Balanced(log, e.role, buffer) && !e.Arrived? && Squash(e.text) == Squash(buffer)
    ensures Balanced(log + [e], e.role, "")
  {
    EntryAppended(log, e, e.role);
    assert Squash("") == "";
  }

  lemma SeparatorIsBlank(buffer: string, text: string)
    ensures Squash(if buffer == "" then text else buffer + " " + text) == Squash(buffer) + Squash(text)
  {
    SquashConcat(buffer + " ", text);
    SquashConcat(buffer, " ");
    assert Squash("") == "";
    assert " "[1..] == "";
  }

  lemma BufferGrows(log: seq<Entry>, role: Role, buffer: string, text: string, grown: string)
    requires Balanced(log, role, buffer) && Squash(grown) == Squash(buffer) + Squash(text)
    ensures Balanced(log + [Arrived(role, text)], role, grown)
  {
    EntryAppended(log, Arrived(role, text), role);
    assert SettledText(log + [Arrived(role, text)], role) == SettledText(log, role) by {
      assert (log + [Arrived(role, text)])[..|log|] == log;
      assert SettledText(log, role) + "" == SettledText(log, role);
    }
    Regroup(Squash(SettledText(log, role)), Squash(buffer), Squash(text));
  }

  /** The entry made when a buffer of some text is flushed, returned or lost. */
  lemma SettlingConserves(s: State, t: State, e: Entry)
    requires Conserved(s) && !e.Arrived? && Squash(e.text) == Squash(Buffer(s, e.role))
    requires t.log == s.log + [e] || (t.log == s.log && Squash(e.text) == "")
    requires Buffer(t, e.role) == "" && (forall role | role != e.role :: Buffer(t, role) == Buffer(s, role))
    ensures Conserved(t)
  {
    var other := if e.role == User then Assistant else User;
    if t.log == s.log {
      assert Squash("") == "";
    } else {
      BufferSettles(s.log, e, Buffer(s, e.role));
      OtherRoleUntouched(s.log, e, other, Buffer(s, other));
    }
  }

  lemma FlushConserves(s: State, role: Role)
    requires Conserved(s)
    ensures Conserved(FlushRole(s, role))
  {
    TrimKeepsText(Buffer(s, role));
    SettlingConserves(s, FlushRole(s, role), Flushed(role, Trim(Buffer(s, role))));
  }

  lemma ResetConserves(s: State, role: Role)
    requires Conserved(s)
    ensures Conserved(Reset(s, role))
  {
    assert Squash("") == "";
    SettlingConserves(s, Reset(s, role), Lost(role, Buffer(s, role)));
  }

  lemma StartConserves(s: State, role: Role)
    requires Conserved(s)
    ensures Conserved(SpeechStart(s, role))
  {
    if role in s.pending {
      FlushConserves(s, role);
    }
    ResetConserves(if role in s.pending then FlushRole(s, role) else s, role);
  }

  lemma FinalConserves(s: State, role: Role, text: string)
    requires Conserved(s)
    ensures Conserved(TranscriptFinal(s, role, text))
  {
    var other := Other(role);
    SeparatorIsBlank(Buffer(s, role), text);
    BufferGrows(s.log, role, Buffer(s, role), text, Buffer(TranscriptFinal(s, role, text), role));
    OtherRoleUntouched(s.log, Arrived(role, text), other, Buffer(s, other));
  }

  lemma ReturningConserves(s: State, role: Role)
    requires Conserved(s)
    ensures Conserved(Return(s, role))
  {
    TrimKeepsText(Buffer(s, role));
    SettlingConserves(s, Return(s, role), Returned(role, Trim(Buffer(s, role))));
  }

  lemma FlushAllConserves(s: State, first: Role)
    requires Conserved(s)
    ensures Conserved(FlushAll(s, first))
  {
    var second := Other(first);
    var t := Return(Return(s, first), second);
    assert Conserved(t) by {
      ReturningConserves(s, first);
      ReturningConserves(Return(s, first), second);
    }
    assert Buffer(Return(s, first), second) == Buffer(s, second);
    assert FlushAll(s, first).log == t.log;
    assert Buffer(t, first) == "" && Buffer(t, second) == "";
  }

  lemma {:induction false} RunConserves(steps: seq<Step>)
    ensures Conserved(Run(steps))
  {
    assert Squash("") == "";
    if steps != [] {
      var s := Run(steps[..|steps| - 1]);
      RunConserves(steps[..|steps| - 1]);
      match steps[|steps| - 1]
      case StartsSpeaking(role) => StartConserves(s, role);
      case Final(role, text) => FinalConserves(s, role, text);
      case StopsSpeaking(role) =>
      case FlushEverything(first) => FlushAllConserves(s, first);
      case Fires(id) =>
        if id in s.live { FlushConserves(s.(live := s.live - {id}), s.live[id]); }
      case Unmount =>
    }
  }

  lemma {:induction false} SettledIsDeliveredOrLost(log: seq<Entry>, role: Role)
    ensures |Squash(SettledText(log, role))| == |Squash(DeliveredText(log, role))| + |Squash(LostText(log, role))|
    ensures Squash(LostText(log, role)) == "" ==> Squash(SettledText(log, role)) == Squash(DeliveredText(log, role))
  {
    if log != [] {
      var init, e := log[..|log| - 1], log[|log| - 1];
      SettledIsDeliveredOrLost(init, role);
      SquashConcat(SettledText(init, role), if !e.Arrived? && e.role == role then e.text else "");
      SquashConcat(DeliveredText(init, role), if (e.Flushed? || e.Returned?) && e.role == role then e.text else "");
      SquashConcat(LostText(init, role), if e.Lost? && e.role == role then e.text else "");
      assert Squash("") == "";
    }
  }

  /** A speech start on a buffer with text while no flush is pending for the role. */
  predicate DropsText(s: State, step: Step, role: Role) {
    step == StartsSpeaking(role) && role !in s.pending && !Blank(Buffer(s, role))
  }

  /** Step n of the run is one. */
  ghost predicate DropsTextAt(steps: seq<Step>, n: nat, role: Role)
    requires n < |steps|
  {
    DropsText(Run(steps[..n]), steps[n], role)
  }

  ghost predicate NeverDropsText(steps: seq<Step>, role: Role) {
    forall n: nat | n < |steps| :: !DropsTextAt(steps, n, role)
  }

  lemma DropsInPrefix(steps: seq<Step>, m: nat, n: nat, role: Role)
    requires n < m <= |steps|
    ensures DropsTextAt(steps[..m], n, role) <==> DropsTextAt(steps, n, role)
  {
    assert steps[..m][..n] == steps[..n];
  }

  lemma DropsSplit(steps: seq<Step>, role: Role)
    requires steps != []
    ensures NeverDropsText(steps, role)
            <==> NeverDropsText(steps[..|steps| - 1], role) && !DropsTextAt(steps, |steps| - 1, role)
  {
    var last := |steps| - 1;
    forall n: nat | n < last
      ensures DropsTextAt(steps[..last], n, role) <==> DropsTextAt(steps, n, role)
    {
      DropsInPrefix(steps, last, n, role);
    }
  }

  lemma LostAppended(log: seq<Entry>, r: Role, text: string)
    ensures Squash(LostText(log + LostEntry(r, text), r)) == Squash(LostText(log, r)) + Squash(text)
  {
    if text == "" {
      assert log + [] == log && Squash("") == "";
    } else {
      assert (log + [Lost(r, text)])[..|log|] == log;
      SquashConcat(LostText(log, r), text);
    }
  }

  /** Only such a start adds to the lost text, and it adds what the buffer held. */
  lemma LostGrowsExactly(s: State, step: Step, role: Role)
    ensures Squash(LostText(Apply(s, step).log, role))
            == Squash(LostText(s.log, role)) + if DropsText(s, step, role) then Squash(Buffer(s, role)) else ""
  {
    TrimKeepsText(Buffer(s, role));
    if step == StartsSpeaking(role) && role !in s.pending {
      LostAppended(s.log, role, Buffer(s, role));
    } else if LostText(Apply(s, step).log, role) != LostText(s.log, role) {
      LostOnlyOnUnflushedStart(s, step, role);
    }
  }

  lemma {:induction false} LostNothingExactlyWhen(steps: seq<Step>, role: Role)
    ensures Squash(LostText(Run(steps).log, role)) == "" <==> NeverDropsText(steps, role)
  {
    if steps == [] {
      assert Squash("") == "";
    } else {
      var init, last := steps[..|steps| - 1], steps[|steps| - 1];
      LostNothingExactlyWhen(init, role);
      LostGrowsExactly(Run(init), last, role);
      TrimKeepsText(Buffer(Run(init), role));
      DropsSplit(steps, role);
    }
  }

  /** Over any run a role's fragments are what was delivered for it, then its buffer, white space
      aside, exactly if no speech start of the run hits a buffer with text and no pending flush. */
  lemma FragmentsAreDelivered(steps: seq<Step>, role: Role)
    ensures var s := Run(steps);
            Squash(ArrivedText(s.log, role)) == Squash(DeliveredText(s.log, role)) + Squash(Buffer(s, role))
            <==> NeverDropsText(steps, role)
  {
    RunConserves(steps);
    var s := Run(steps);
    assert Balanced(s.log, role, Buffer(s, role)) by { if role == User { } else { } }
    SettledIsDeliveredOrLost(s.log, role);
    LostNothingExactlyWhen(steps, role);
  }

  const EARLY := [Final(User, "Hi"), StartsSpeaking(User)]
  const HEARD := State(map[User := "Hi"], map[], map[], 0, [Arrived(User, "Hi")])
  const RESET := State(map[User := ""], map[], map[], 0, [Arrived(User, "Hi"), Lost(User, "Hi")])

  lemma EarlyIsRun()
    ensures Run(EARLY[..1]) == HEARD && Run(EARLY) == RESET
  {
    assert EARLY[..1] == [Final(User, "Hi")] && EARLY[..1][..0] == [];
    assert [] + [Arrived(User, "Hi")] == [Arrived(User, "Hi")];
    assert Run(EARLY[..1]) == TranscriptFinal(INITIAL, User, "Hi");
    assert Run(EARLY) == SpeechStart(HEARD, User);
    assert [Arrived(User, "Hi")] + [Lost(User, "Hi")] == RESET.log;
  }

  /** A run that loses text: the fragment arrives before its speech start. */
  lemma EarlyFragmentIsLost()
    ensures DropsTextAt(EARLY, 1, User)
    ensures var s := Run(EARLY);
            Buffer(s, User) == "" && DeliveredText(s.log, User) == "" && ArrivedText(s.log, User) == "Hi"
  {
    EarlyIsRun();
    assert !Blank("Hi");
    assert RESET.log[..1] == [Arrived(User, "Hi")] && RESET.log[..1][..0] == [];
  }

  /** Text is lost only when speech starts on a buffer with text and no flush pending. */
  lemma LostOnlyOnUnflushedStart(s: State, step: Step, role: Role)
    requires LostText(Apply(s, step).log, role) != LostText(s.log, role)
    ensures step == StartsSpeaking(role) && role !in s.pending && Buffer(s, role) != ""
  {
    match step
    case StartsSpeaking(r) =>
      FlushedIsNotLost(s.log, r, Buffer(s, r), role);
      ResetLoses(if r in s.pending then FlushRole(s, r) else s, r, role);
    case Final(r, text) => NotLostAppended(s.log, Arrived(r, text), role);
    case StopsSpeaking(r) =>
    case FlushEverything(first) =>
      ReturnedIsNotLost(s.log, first, Buffer(s, first), role);
      ReturnedIsNotLost(s.log + ReturnedEntry(first, Buffer(s, first)), Other(first), Buffer(s, Other(first)), role);
    case Fires(id) =>
      if id in s.live { FlushedIsNotLost(s.log, s.live[id], Buffer(s, s.live[id]), role); }
    case Unmount =>
  }

  lemma ResetLoses(s: State, r: Role, role: Role)
    ensures r != role || Buffer(s, r) == "" ==> LostText(Reset(s, r).log, role) == LostText(s.log, role)
  {
    NotLostAppended(s.log, Lost(r, Buffer(s, r)), role);
  }

  lemma NotLostAppended(log: seq<Entry>, e: Entry, role: Role)
    ensures !e.Lost? || e.role != role ==> LostText(log + [e], role) == LostText(log, role)
    ensures LostText(log + [], role) == LostText(log, role)
  {
    assert (log + [e])[..|log|] == log && log + [] == log;
  }

  lemma FlushedIsNotLost(log: seq<Entry>, r: Role, text: string, role: Role)
    ensures LostText(log + FlushedEntry(r, text), role) == LostText(log, role)
  {
    NotLostAppended(log, Flushed(r, Trim(text)), role);
  }

  lemma ReturnedIsNotLost(log: seq<Entry>, r: Role, text: string, role: Role)
    ensures LostText(log + ReturnedEntry(r, text), role) == LostText(log, role)
  {
    NotLostAppended(log, Returned(r, Trim(text)), role);
  }

  /** After flushAll nothing waits: no text, and no timer that could deliver any. */
  lemma FlushAllLeavesNothing(s: State, first: Role)
    requires Reachable(s)
    ensures var t := FlushAll(s, first); t.live == map[] && t.pending == map[] && t.buffers == map[]
  {
    var steps :| s == Run(steps);
    RunKeepsTimers(steps);
    ClearingKeepsTimers(s);
  }
}
