/** What every callback of the gateway keeps. */
module GatewayInvariant {
  import opened Json
  import opened Options
  import opened HarnessStream
  import opened HostAttempt
  import opened Gateway
  import AA = ActiveAssignment

  // ---- the part of a recorded stream that was numbered without a gap

  /** The longest prefix numbered 1, 2, 3, ... */
  ghost function ContiguousPrefix(es: seq<Event>): seq<Event> {
    if es == [] then []
    else
      var front := es[..|es| - 1];
      var p := ContiguousPrefix(front);
      if p == front && es[|es| - 1].sequence == |es| then es else p
  }

  lemma {:induction false} ContiguousPrefixIs(es: seq<Event>)
    ensures var p := ContiguousPrefix(es);
            && p <= es && Contiguous(p)
            && (p == es <==> Contiguous(es))
            && (|p| < |es| ==> es[|p|].sequence != |p| + 1)
  {
    if es != [] {
      var front := es[..|es| - 1];
      ContiguousPrefixIs(front);
      assert forall i | 0 <= i < |front| :: front[i] == es[i];
      if Contiguous(es) { assert Contiguous(front); }
    }
  }

  lemma {:induction false} SequenceAtLeastIndex(es: seq<Event>, i: nat)
    requires i < |es| && AllWellFormed(es) && Increasing(es)
    ensures i + 1 <= es[i].sequence
  {
    if i > 0 {
      SequenceAtLeastIndex(es, i - 1);
      assert es[i - 1].sequence < es[i].sequence;
    }
  }

  /** The disconnect record takes an event the fence passed exactly when the recorded
      stream stays contiguous; after one gap it never takes another. */
  lemma RecordFollowsContiguousPrefix(id: Identity, es: seq<Event>, e: Event)
    requires Accepted(id, es) && FenceOf(id, es).lastSequence < e.sequence
    ensures e.sequence == NextSequence(ContiguousPrefix(es)) ==>
              ContiguousPrefix(es) == es && ContiguousPrefix(es + [e]) == es + [e]
    ensures e.sequence != NextSequence(ContiguousPrefix(es)) ==> ContiguousPrefix(es + [e]) == ContiguousPrefix(es)
  {
    ContiguousPrefixIs(es);
    var p, all := ContiguousPrefix(es), es + [e];
    assert all[..|all| - 1] == es;
    assert NextSequence(p) == |p| + 1;
    if |p| < |es| {
      SequenceAtLeastIndex(es, |p|);
      if |p| < |es| - 1 { assert es[|p|].sequence < es[|es| - 1].sequence; }
    }
  }

  // ---- the invariant

  type Turns = map<string, LiveAttempt>
  type Results = map<string, LiveResultAttempt>

  ghost function Live(turns: Turns, results: Results): set<string> {
    turns.Keys + results.Keys
  }

  ghost function BindingOf(turns: Turns, results: Results, id: string): Option<string>
    requires id in Live(turns, results)
  {
    if id in turns then AttemptBinding(turns[id]) else Some(results[id].bindingId)
  }

  ghost function HostOf(turns: Turns, results: Results, id: string): string
    requires id in Live(turns, results)
  {
    if id in turns then turns[id].hostId else results[id].hostId
  }

  ghost predicate Disjoint(turns: Turns, results: Results) {
    forall id | id in turns :: id !in results
  }

  /** At most one live entry per binding, across both maps. */
  ghost predicate SingleFlight(turns: Turns, results: Results) {
    forall i, j | i in Live(turns, results) && j in Live(turns, results) ::
      BindingOf(turns, results, i) == BindingOf(turns, results, j) ==> i == j
  }

  /** No orphaned wait: every live entry's host has a registered socket. */
  ghost predicate Registered(turns: Turns, results: Results, hosts: set<string>) {
    forall id | id in Live(turns, results) :: HostOf(turns, results, id) in hosts
  }

  ghost predicate MapsInv(turns: Turns, results: Results, hosts: set<string>) {
    Disjoint(turns, results) && SingleFlight(turns, results) && Registered(turns, results, hosts)
  }

  ghost predicate SocketsOwned(hostSockets: map<string, SocketId>, owner: map<SocketId, string>) {
    forall h | h in hostSockets :: hostSockets[h] in owner && owner[hostSockets[h]] == h
  }

  ghost predicate NoTerminal(es: seq<Event>) {
    forall i | 0 <= i < |es| :: !es[i].kind.Terminal?
  }

  ghost predicate LiveTurn(a: LiveAttempt, id: string) {
    && a.envelope.invocationId == id
    && a.request.Start?
    && a.record.id == a.request.id
    && a.record.id.invocationId == id
    && a.record.id.generation == a.envelope.generation
    && LiveAttemptState(a.record)
    && Accepted(a.record.id, a.events)
    && NoTerminal(a.events)
    && a.fence == FenceOf(a.record.id, a.events)
    && a.record.events == ContiguousPrefix(a.events)
  }

  ghost predicate TurnsLive(turns: Turns) {
    forall id | id in turns :: LiveTurn(turns[id], id)
  }

  /** A live streamed attempt's caller is unanswered and has seen exactly the events its
      disconnect record holds. */
  ghost predicate TurnTracked(calls: seq<Call>, id: string, a: LiveAttempt) {
    a.call < |calls| && calls[a.call] == Call(id, Some(a.record.id), a.record.events, [])
  }

  ghost predicate ResultTracked(calls: seq<Call>, id: string, r: LiveResultAttempt) {
    && r.envelope.invocationId == id
    && r.envelope.operation in {"provider.describe", "thread.ensure"}
    && r.call < |calls|
    && calls[r.call] == Call(id, None, [], [])
  }

  /** What a caller answered with a completed stream has seen of it. */
  ghost predicate CompletedStream(call: Call, es: seq<Event>) {
    && ValidStream(es)
    && call.attempt == Some(es[0].id)
    && call.delivered == ContiguousPrefix(es[..|es| - 1]) + [es[|es| - 1]]
  }

  ghost predicate AnswerSound(call: Call, answer: Answer) {
    match answer
    case Completed(es) => CompletedStream(call, es)
    case Outcome(es) => ValidStream(es) && call.attempt == Some(es[0].id) && call.delivered == es
    case HostResult(_) => call.delivered == []
    case CancelAccepted(_) => call.delivered == []
    case Rejected(_) => NoTerminal(call.delivered) && Contiguous(call.delivered)
  }

  ghost predicate CallSound(call: Call) {
    && |call.answers| <= 1
    && (call.answers != [] ==> AnswerSound(call, call.answers[0]))
  }

  ghost predicate IsLive(turns: Turns, results: Results, id: string, c: CallId) {
    || (id in turns && turns[id].call == c)
    || (id in results && results[id].call == c)
  }

  ghost predicate PendingIsLive(turns: Turns, results: Results, calls: seq<Call>, c: CallId)
    requires c < |calls|
  {
    calls[c].answers == [] ==> IsLive(turns, results, calls[c].invocationId, c)
  }

  /** Entries and unanswered callers are in one-to-one correspondence. */
  ghost predicate Tracked(turns: Turns, results: Results, calls: seq<Call>) {
    && (forall c: CallId | c < |calls| :: PendingIsLive(turns, results, calls, c))
    && (forall id | id in turns :: TurnTracked(calls, id, turns[id]))
    && (forall id | id in results :: ResultTracked(calls, id, results[id]))
  }

  ghost predicate CallsSound(calls: seq<Call>) {
    forall c | 0 <= c < |calls| :: CallSound(calls[c])
  }

  ghost predicate Inv(s: State) {
    && MapsInv(s.attempts, s.resultAttempts, s.hostSockets.Keys)
    && SocketsOwned(s.hostSockets, s.owner)
    && TurnsLive(s.attempts)
    && CallsSound(s.calls)
    && Tracked(s.attempts, s.resultAttempts, s.calls)
  }

  lemma InitialInv(assignments: AA.Assignments)
    ensures Inv(Initial(assignments))
  {
  }

  // ---- each way the maps and the calls change together

  ghost predicate Submaps(turns: Turns, results: Results, turns': Turns, results': Results) {
    && (forall id | id in turns' :: id in turns && turns'[id] == turns[id])
    && (forall id | id in results' :: id in results && results'[id] == results[id])
  }

  lemma SubmapsKeepMapsInv(turns: Turns, results: Results, turns': Turns, results': Results,
                           hosts: set<string>, hosts': set<string>)
    requires MapsInv(turns, results, hosts)
    requires Submaps(turns, results, turns', results') && Registered(turns', results', hosts')
    ensures MapsInv(turns', results', hosts')
  {
    forall i, j | i in Live(turns', results') && j in Live(turns', results')
      ensures BindingOf(turns', results', i) == BindingOf(turns', results', j) ==> i == j
    {
      assert BindingOf(turns, results, i) == BindingOf(turns', results', i);
      assert BindingOf(turns, results, j) == BindingOf(turns', results', j);
    }
  }

  lemma SubmapsStayRegistered(turns: Turns, results: Results, turns': Turns, results': Results, hosts: set<string>)
    requires Disjoint(turns, results) && Registered(turns, results, hosts)
    requires Submaps(turns, results, turns', results')
    ensures Registered(turns', results', hosts)
  {
    forall id | id in Live(turns', results') ensures HostOf(turns', results', id) in hosts {
      assert HostOf(turns, results, id) == HostOf(turns', results', id);
    }
  }

  /** Dropping entries while every host stays registered. */
  lemma ShrinkKeepsMapsInv(turns: Turns, results: Results, turns': Turns, results': Results, hosts: set<string>)
    requires MapsInv(turns, results, hosts) && Submaps(turns, results, turns', results')
    ensures MapsInv(turns', results', hosts)
  {
    SubmapsStayRegistered(turns, results, turns', results', hosts);
    SubmapsKeepMapsInv(turns, results, turns', results', hosts, hosts);
  }

  /** A call answered on the spot. */
  lemma AppendKeepsTracked(turns: Turns, results: Results, calls: seq<Call>, call: Call)
    requires Tracked(turns, results, calls) && call.answers != []
    ensures Tracked(turns, results, calls + [call])
  {
    var calls' := calls + [call];
    forall c: CallId | c < |calls'| ensures PendingIsLive(turns, results, calls', c) {
      if c < |calls| { assert PendingIsLive(turns, results, calls, c); }
    }
    forall id | id in turns ensures TurnTracked(calls', id, turns[id]) { assert TurnTracked(calls, id, turns[id]); }
    forall id | id in results ensures ResultTracked(calls', id, results[id]) { assert ResultTracked(calls, id, results[id]); }
  }

  /** Settling a streamed attempt: the entry goes and its caller is answered, possibly with
      one last delivery. */
  lemma SettleTurnKeepsTracked(turns: Turns, results: Results, calls: seq<Call>, id: string, call: Call)
    requires Tracked(turns, results, calls) && id in turns
    requires call.answers != []
    ensures turns[id].call < |calls|
    ensures Tracked(turns - {id}, results, calls[turns[id].call := call])
  {
    assert TurnTracked(calls, id, turns[id]);
    var k := turns[id].call;
    var turns', calls' := turns - {id}, calls[k := call];
    forall c: CallId | c < |calls'| ensures PendingIsLive(turns', results, calls', c) {
      assert PendingIsLive(turns, results, calls, c);
    }
    forall i | i in turns' ensures TurnTracked(calls', i, turns'[i]) { assert TurnTracked(calls, i, turns[i]); }
    forall i | i in results ensures ResultTracked(calls', i, results[i]) { assert ResultTracked(calls, i, results[i]); }
  }

  lemma SettleResultKeepsTracked(turns: Turns, results: Results, calls: seq<Call>, id: string, call: Call)
    requires Tracked(turns, results, calls) && id in results
    requires call.answers != []
    ensures results[id].call < |calls|
    ensures Tracked(turns, results - {id}, calls[results[id].call := call])
  {
    assert ResultTracked(calls, id, results[id]);
    var k := results[id].call;
    var results', calls' := results - {id}, calls[k := call];
    forall c: CallId | c < |calls'| ensures PendingIsLive(turns, results', calls', c) {
      assert PendingIsLive(turns, results, calls, c);
    }
    forall i | i in turns ensures TurnTracked(calls', i, turns[i]) { assert TurnTracked(calls, i, turns[i]); }
    forall i | i in results' ensures ResultTracked(calls', i, results'[i]) { assert ResultTracked(calls, i, results[i]); }
  }

  /** A streamed attempt that stays live: its caller sees what its record holds. */
  lemma ProgressKeepsTracked(turns: Turns, results: Results, calls: seq<Call>, id: string, a: LiveAttempt)
    requires Tracked(turns, results, calls) && id in turns
    requires a.call == turns[id].call && a.record.id == turns[id].record.id
    ensures a.call < |calls|
    ensures Tracked(turns[id := a], results, calls[a.call := calls[a.call].(delivered := a.record.events)])
  {
    assert TurnTracked(calls, id, turns[id]);
    var k := a.call;
    var turns', calls' := turns[id := a], calls[k := calls[k].(delivered := a.record.events)];
    forall c: CallId | c < |calls'| ensures PendingIsLive(turns', results, calls', c) {
      assert PendingIsLive(turns, results, calls, c);
    }
    forall i | i in turns' ensures TurnTracked(calls', i, turns'[i]) { assert TurnTracked(calls, i, turns[i]); }
    forall i | i in results ensures ResultTracked(calls', i, results[i]) { assert ResultTracked(calls, i, results[i]); }
  }

  lemma ProgressKeepsMapsInv(turns: Turns, results: Results, hosts: set<string>, id: string, a: LiveAttempt)
    requires MapsInv(turns, results, hosts) && id in turns
    requires a.request == turns[id].request && a.hostId == turns[id].hostId
    ensures MapsInv(turns[id := a], results, hosts)
  {
    var turns' := turns[id := a];
    forall i | i in Live(turns', results)
      ensures i in Live(turns, results)
      ensures BindingOf(turns, results, i) == BindingOf(turns', results, i)
      ensures HostOf(turns, results, i) == HostOf(turns', results, i)
    {
    }
  }

  /** Storing a new entry under a free id and a free binding. */
  lemma StoreKeepsMapsInv(turns: Turns, results: Results, turns': Turns, results': Results, hosts: set<string>, id: string)
    requires MapsInv(turns, results, hosts)
    requires id !in Live(turns, results)
    requires id in Live(turns', results') && Disjoint(turns', results')
    requires HostOf(turns', results', id) in hosts
    requires Submaps(turns, results, turns' - {id}, results' - {id})
    requires forall i | i in Live(turns, results) ::
               BindingOf(turns, results, i) != BindingOf(turns', results', id)
    ensures MapsInv(turns', results', hosts)
  {
    forall i | i in Live(turns', results') && i != id
      ensures i in Live(turns, results)
      ensures BindingOf(turns, results, i) == BindingOf(turns', results', i)
      ensures HostOf(turns, results, i) == HostOf(turns', results', i)
    {
      if i in turns' { assert i in turns' - {id}; } else { assert i in results' - {id}; }
    }
  }

  lemma StoreTurnKeepsTracked(turns: Turns, results: Results, calls: seq<Call>, a: LiveAttempt)
    requires Tracked(turns, results, calls)
    requires var id := a.envelope.invocationId;
             a.call == |calls| && a.record.events == [] && id !in Live(turns, results)
    ensures var id := a.envelope.invocationId;
            Tracked(turns[id := a], results, calls + [Call(id, Some(a.record.id), [], [])])
  {
    var id := a.envelope.invocationId;
    var turns', calls' := turns[id := a], calls + [Call(id, Some(a.record.id), [], [])];
    forall c: CallId | c < |calls'| ensures PendingIsLive(turns', results, calls', c) {
      if c < |calls| { assert PendingIsLive(turns, results, calls, c); }
    }
    forall i | i in turns' ensures TurnTracked(calls', i, turns'[i]) {
      if i != id { assert TurnTracked(calls, i, turns[i]); }
    }
    forall i | i in results ensures ResultTracked(calls', i, results[i]) { assert ResultTracked(calls, i, results[i]); }
  }

  lemma StoreResultKeepsTracked(turns: Turns, results: Results, calls: seq<Call>, r: LiveResultAttempt)
    requires Tracked(turns, results, calls)
    requires var id := r.envelope.invocationId;
             && r.envelope.operation in {"provider.describe", "thread.ensure"}
             && r.call == |calls| && id !in Live(turns, results)
    ensures var id := r.envelope.invocationId;
            Tracked(turns, results[id := r], calls + [Call(id, None, [], [])])
  {
    var id := r.envelope.invocationId;
    var results', calls' := results[id := r], calls + [Call(id, None, [], [])];
    forall c: CallId | c < |calls'| ensures PendingIsLive(turns, results', calls', c) {
      if c < |calls| { assert PendingIsLive(turns, results, calls, c); }
    }
    forall i | i in turns ensures TurnTracked(calls', i, turns[i]) { assert TurnTracked(calls, i, turns[i]); }
    forall i | i in results' ensures ResultTracked(calls', i, results'[i]) {
      if i != id { assert ResultTracked(calls, i, results[i]); }
    }
  }
}
