/** Incremental summarisation of a conversation (mobile/lib/compact.ts over mobile/db/summaries.ts).
    A summary is the text the model returned together with the messages that went into it. */
module Compaction {
  import opened Options

  const COMPACT_THRESHOLD := 20
  const KEEP_RECENT := 10
  const NO_SUMMARY := "Unable to generate summary."

  datatype Message = Message(role: string, content: string)

  datatype Summary = Summary(text: string, absorbed: seq<Message>)

  datatype StoredSummary = StoredSummary(summary: Summary, count: nat, createdAt: int)

  /** The context handed to the model: the summary as a system message, then messages verbatim. */
  datatype Context = Context(summary: Option<Summary>, verbatim: seq<Message>)

  /** What compactMessages does next: answer at once, or ask for a summary first. */
  datatype Plan = Answer(context: Context) | Summarise(existing: Option<Summary>, more: seq<Message>)

  function Clamp(i: int, n: nat): (k: nat)
    ensures k <= n
  {
    if i < 0 then (if n + i < 0 then 0 else n + i) else if i < n then i else n
  }

  /** Array.prototype.slice. */
  function Slice(ms: seq<Message>, from: int, to: int): seq<Message> {
    var a, b := Clamp(from, |ms|), Clamp(to, |ms|);
    if a < b then ms[a..b] else []
  }

  function Recent(ms: seq<Message>): seq<Message> {
    Slice(ms, -KEEP_RECENT, |ms|)
  }

  function PlanFor(ms: seq<Message>, cached: Option<StoredSummary>): Plan {
    if |ms| <= COMPACT_THRESHOLD then
      Answer(if cached.None? then Context(None, ms) else Context(Some(cached.value.summary), ms))
    else if cached.Some? && cached.value.count == |ms| then
      Answer(Context(Some(cached.value.summary), Recent(ms)))
    else if cached.Some? then
      var more := Slice(ms, cached.value.count - KEEP_RECENT, |ms| - KEEP_RECENT);
      if more == [] then Answer(Context(Some(cached.value.summary), Recent(ms)))
      else Summarise(Some(cached.value.summary), more)
    else
      Summarise(None, Slice(ms, 0, -KEEP_RECENT))
  }

  /** An empty existing summary is left out of the prompt; an empty reply is replaced. */
  function Generated(existing: Option<Summary>, more: seq<Message>, reply: string): Summary {
    Summary(if reply == "" then NO_SUMMARY else reply,
            (if existing.Some? && existing.value.text != "" then existing.value.absorbed else []) + more)
  }

  /** The context after the request for a summary: the whole history when it failed. */
  function ContextAfter(ms: seq<Message>, existing: Option<Summary>, more: seq<Message>, reply: Option<string>): Context {
    if reply.None? then Context(None, ms)
    else Context(Some(Generated(existing, more, reply.value)), Recent(ms))
  }

  // ---- runs: the conversation grows while calls of compactMessages interleave

  datatype Call = Call(messages: seq<Message>, cached: Option<StoredSummary>)

  datatype Returned = Returned(call: Call, context: Context)

  datatype State = State(conversation: seq<Message>, rows: seq<StoredSummary>, pending: map<nat, Call>, returned: seq<Returned>)

  const INITIAL := State([], [], map[], [])

  /** A row that ORDER BY created_at DESC LIMIT 1 may return. */
  predicate IsLatest(rows: seq<StoredSummary>, i: nat) {
    i < |rows| && forall k | 0 <= k < |rows| :: rows[k].createdAt <= rows[i].createdAt
  }

  datatype Step =
    | Append(message: Message)
    | Begin(id: nat, upTo: nat, row: nat, readFails: bool)
    | Finish(id: nat, reply: Option<string>, now: int)

  /** A call on the first upTo messages reads the stored summary. A read that fails rejects a short
      call and leaves a long one with the whole history. */
  function BeginCall(s: State, id: nat, upTo: nat, row: nat, readFails: bool): State {
    if upTo > |s.conversation| || id in s.pending || (s.rows != [] && !IsLatest(s.rows, row)) then s
    else if readFails then
      if upTo <= COMPACT_THRESHOLD then s
      else s.(returned := s.returned + [Returned(Call(s.conversation[..upTo], None), Context(None, s.conversation[..upTo]))])
    else
      var call := Call(s.conversation[..upTo], if s.rows == [] then None else Some(s.rows[row]));
      var plan := PlanFor(call.messages, call.cached);
      if plan.Answer? then s.(returned := s.returned + [Returned(call, plan.context)])
      else s.(pending := s.pending[id := call])
  }

  /** The summary arrives and is stored; or the request for it, or storing it, fails. */
  function FinishCall(s: State, id: nat, reply: Option<string>, now: int): State {
    if id !in s.pending then s
    else
      var call := s.pending[id];
      var plan := PlanFor(call.messages, call.cached);
      if plan.Answer? then s
      else
        s.(pending := s.pending - {id},
           rows := if reply.None? then s.rows
                   else s.rows + [StoredSummary(Generated(plan.existing, plan.more, reply.value), |call.messages|, now)],
           returned := s.returned + [Returned(call, ContextAfter(call.messages, plan.existing, plan.more, reply))])
  }

  function Apply(s: State, step: Step): State {
    match step
    case Append(m) => s.(conversation := s.conversation + [m])
    case Begin(id, upTo, row, readFails) => BeginCall(s, id, upTo, row, readFails)
    case Finish(id, reply, now) => FinishCall(s, id, reply, now)
  }

  function Run(steps: seq<Step>): State {
    if steps == [] then INITIAL else Apply(Run(steps[..|steps| - 1]), steps[|steps| - 1])
  }

  // ---- what is kept

  /** The summary has absorbed exactly the messages before the last ten of the first count, in order. */
  ghost predicate Faithful(row: StoredSummary, conversation: seq<Message>) {
    && COMPACT_THRESHOLD < row.count <= |conversation|
    && row.summary.text != ""
    && row.summary.absorbed == conversation[..row.count - KEEP_RECENT]
  }

  /** Every message once and in order, in the summary or verbatim. */
  ghost predicate Covers(c: Context, ms: seq<Message>) {
    (if c.summary.Some? then c.summary.value.absorbed else []) + c.verbatim == ms
  }

  predicate UpToDate(call: Call) {
    call.cached.None? || call.cached.value.count <= |call.messages|
  }

  ghost predicate CallSound(call: Call, conversation: seq<Message>) {
    && call.messages <= conversation
    && (call.cached.Some? ==> Faithful(call.cached.value, conversation))
  }

  ghost predicate Sound(s: State) {
    && (forall i | 0 <= i < |s.rows| :: Faithful(s.rows[i], s.conversation))
    && (forall id | id in s.pending :: CallSound(s.pending[id], s.conversation)
                                       && PlanFor(s.pending[id].messages, s.pending[id].cached).Summarise?)
    && (forall i | 0 <= i < |s.returned| ::
          CallSound(s.returned[i].call, s.conversation)
          && (Covers(s.returned[i].context, s.returned[i].call.messages) <==> UpToDate(s.returned[i].call)))
  }

  lemma RecentIsTail(ms: seq<Message>)
    requires |ms| > COMPACT_THRESHOLD
    ensures Recent(ms) == ms[|ms| - KEEP_RECENT..]
  {
  }

  lemma SummariseIsUpToDate(call: Call, conversation: seq<Message>)
    requires CallSound(call, conversation) && PlanFor(call.messages, call.cached).Summarise?
    ensures UpToDate(call) && |call.messages| > COMPACT_THRESHOLD
  {
  }

  /** A context made at once covers the messages exactly if the stored summary was not ahead of them. */
  lemma AnswerCovers(call: Call, conversation: seq<Message>)
    requires CallSound(call, conversation) && PlanFor(call.messages, call.cached).Answer?
    ensures Covers(PlanFor(call.messages, call.cached).context, call.messages) <==> UpToDate(call)
  {
    var ms, plan := call.messages, PlanFor(call.messages, call.cached);
    assert [] + ms == ms;
    if call.cached.Some? {
      var row := call.cached.value;
      var covered := row.summary.absorbed + plan.context.verbatim;
      if |ms| > COMPACT_THRESHOLD { RecentIsTail(ms); }
      if row.count == |ms| {
        assert conversation[..|ms|] == ms;
        assert row.summary.absorbed == ms[..|ms| - KEEP_RECENT];
      } else if row.count > |ms| {
        assert |covered| > |ms|;
      }
    }
  }

  /** What the old summary absorbed, then the messages since, up to the last ten. */
  lemma AbsorbedGrows(ms: seq<Message>, conversation: seq<Message>, k: int)
    requires ms <= conversation && 0 <= k < |ms| - KEEP_RECENT
    ensures conversation[..k] + Slice(ms, k, |ms| - KEEP_RECENT) == ms[..|ms| - KEEP_RECENT]
  {
    assert conversation[..k] == ms[..k];
  }

  /** A new summary has absorbed what the old one had, then the messages since. */
  lemma GeneratedIsFaithful(call: Call, conversation: seq<Message>, reply: string, now: int)
    requires CallSound(call, conversation) && PlanFor(call.messages, call.cached).Summarise?
    ensures var plan := PlanFor(call.messages, call.cached);
            var summary := Generated(plan.existing, plan.more, reply);
            && Faithful(StoredSummary(summary, |call.messages|, now), conversation)
            && summary.absorbed == call.messages[..|call.messages| - KEEP_RECENT]
  {
    var ms := call.messages;
    SummariseIsUpToDate(call, conversation);
    assert conversation[..|ms| - KEEP_RECENT] == ms[..|ms| - KEEP_RECENT];
    if call.cached.Some? {
      AbsorbedGrows(ms, conversation, call.cached.value.count - KEEP_RECENT);
    } else {
      assert [] + Slice(ms, 0, -KEEP_RECENT) == ms[..|ms| - KEEP_RECENT];
    }
  }

  lemma SummaryAndRecent(ms: seq<Message>, summary: Summary)
    requires |ms| > COMPACT_THRESHOLD && summary.absorbed == ms[..|ms| - KEEP_RECENT]
    ensures Covers(Context(Some(summary), ms[|ms| - KEEP_RECENT..]), ms)
  {
  }

  lemma FinishCovers(call: Call, conversation: seq<Message>, reply: Option<string>)
    requires CallSound(call, conversation) && PlanFor(call.messages, call.cached).Summarise?
    ensures var plan := PlanFor(call.messages, call.cached);
            Covers(ContextAfter(call.messages, plan.existing, plan.more, reply), call.messages)
  {
    var ms := call.messages;
    if reply.None? {
      assert [] + ms == ms;
    } else {
      var plan := PlanFor(ms, call.cached);
      SummariseIsUpToDate(call, conversation);
      RecentIsTail(ms);
      GeneratedIsFaithful(call, conversation, reply.value, 0);
      SummaryAndRecent(ms, Generated(plan.existing, plan.more, reply.value));
    }
  }

  lemma ConversationGrows(call: Call, conversation: seq<Message>, m: Message)
    requires CallSound(call, conversation)
    ensures CallSound(call, conversation + [m])
  {
    if call.cached.Some? { RowStaysFaithful(call.cached.value, conversation, m); }
  }

  lemma RowStaysFaithful(row: StoredSummary, conversation: seq<Message>, m: Message)
    requires Faithful(row, conversation)
    ensures Faithful(row, conversation + [m])
  {
    assert (conversation + [m])[..row.count - KEEP_RECENT] == conversation[..row.count - KEEP_RECENT];
  }

  lemma AppendKeeps(s: State, m: Message)
    requires Sound(s)
    ensures Sound(Apply(s, Append(m)))
  {
    forall i | 0 <= i < |s.rows|
      ensures Faithful(s.rows[i], s.conversation + [m])
    {
      RowStaysFaithful(s.rows[i], s.conversation, m);
    }
    forall id | id in s.pending
      ensures CallSound(s.pending[id], s.conversation + [m])
    {
      ConversationGrows(s.pending[id], s.conversation, m);
    }
    forall i | 0 <= i < |s.returned|
      ensures CallSound(s.returned[i].call, s.conversation + [m])
    {
      ConversationGrows(s.returned[i].call, s.conversation, m);
    }
  }

  lemma BeginKeeps(s: State, id: nat, upTo: nat, row: nat, readFails: bool)
    requires Sound(s)
    ensures Sound(BeginCall(s, id, upTo, row, readFails))
  {
    if upTo <= |s.conversation| {
      assert [] + s.conversation[..upTo] == s.conversation[..upTo];
    }
    if upTo <= |s.conversation| && id !in s.pending && (s.rows == [] || IsLatest(s.rows, row)) {
      var call := Call(s.conversation[..upTo], if s.rows == [] then None else Some(s.rows[row]));
      assert CallSound(call, s.conversation);
      if PlanFor(call.messages, call.cached).Answer? { AnswerCovers(call, s.conversation); }
    }
  }

  lemma FinishKeeps(s: State, id: nat, reply: Option<string>, now: int)
    requires Sound(s)
    ensures Sound(FinishCall(s, id, reply, now))
  {
    if id in s.pending {
      var call := s.pending[id];
      SummariseIsUpToDate(call, s.conversation);
      FinishCovers(call, s.conversation, reply);
      if reply.Some? { GeneratedIsFaithful(call, s.conversation, reply.value, now); }
    }
  }

  lemma {:induction false} RunIsSound(steps: seq<Step>)
    ensures Sound(Run(steps))
  {
    if steps != [] {
      RunIsSound(steps[..|steps| - 1]);
      var s := Run(steps[..|steps| - 1]);
      match steps[|steps| - 1]
      case Append(m) => AppendKeeps(s, m);
      case Begin(id, upTo, row, readFails) => BeginKeeps(s, id, upTo, row, readFails);
      case Finish(id, reply, now) => FinishKeeps(s, id, reply, now);
    }
  }

  // ---- theorems

  /** The states of all runs. */
  ghost predicate Reachable(s: State) {
    exists steps :: s == Run(steps)
  }

  /** However calls interleave and fail, a stored summary with count n has absorbed exactly the
      first n - 10 messages, once each and in order, just as one summary made from scratch. */
  lemma StoredSummariesAreFaithful(s: State, i: nat)
    requires Reachable(s) && i < |s.rows|
    ensures var row := s.rows[i];
            && COMPACT_THRESHOLD < row.count <= |s.conversation|
            && row.summary.absorbed == s.conversation[..row.count - KEEP_RECENT]
            && row.summary.absorbed == Generated(None, Slice(s.conversation[..row.count], 0, -KEEP_RECENT), "").absorbed
  {
    var steps :| s == Run(steps);
    RunIsSound(steps);
    var row := s.rows[i];
    var ms := s.conversation[..row.count];
    assert Faithful(row, s.conversation);
    assert [] + ms[0..row.count - KEEP_RECENT] == s.conversation[..row.count - KEEP_RECENT];
  }

  /** A returned context covers each of its messages exactly once exactly if the summary it read
      was not made from more messages than it was given. */
  lemma ContextCoversExactlyWhen(s: State, i: nat)
    requires Reachable(s) && i < |s.returned|
    ensures Covers(s.returned[i].context, s.returned[i].call.messages) <==> UpToDate(s.returned[i].call)
  {
    var steps :| s == Run(steps);
    RunIsSound(steps);
  }

  // ---- the text of a summary

  /** The reply of the model, or the fixed text in place of an empty one. */
  predicate Says(text: string, reply: string) {
    text == if reply != "" then reply else "Unable to generate summary."
  }

  /** Step n stores row i: it brings the reply to a pending call, stores what it says, dated then and
      counting that call's messages, and returns it with the last ten of them. */
  ghost predicate MadeAt(steps: seq<Step>, n: nat, i: nat)
    requires n < |steps|
  {
    var s, t := Run(steps[..n]), Run(steps[..n + 1]);
    && steps[n].Finish? && steps[n].id in s.pending && steps[n].reply.Some?
    && |s.rows| == i && |t.rows| == i + 1 && |t.returned| == |s.returned| + 1
    && var row, given := t.rows[i], s.pending[steps[n].id].messages;
       && COMPACT_THRESHOLD < |given|
       && Says(row.summary.text, steps[n].reply.value) && row.createdAt == steps[n].now && row.count == |given|
       && t.returned[|s.returned|].context == Context(Some(row.summary), given[|given| - KEEP_RECENT..])
  }

  lemma RunOneMore(steps: seq<Step>, step: Step)
    ensures Run(steps + [step]) == Apply(Run(steps), step)
  {
    assert (steps + [step])[..|steps|] == steps;
  }

  lemma StepKeepsRows(s: State, step: Step)
    ensures s.rows <= Apply(s, step).rows && s.returned <= Apply(s, step).returned
    ensures Apply(s, step).rows != s.rows ==>
              |Apply(s, step).rows| == |s.rows| + 1 && step.Finish? && step.id in s.pending && step.reply.Some?
  {
  }

  lemma MadeByFinish(steps: seq<Step>)
    requires steps != []
    requires var s := Run(steps[..|steps| - 1]); Run(steps).rows != s.rows
    ensures MadeAt(steps, |steps| - 1, |Run(steps).rows| - 1)
  {
    var last := |steps| - 1;
    var s, step := Run(steps[..last]), steps[last];
    assert steps[..last + 1] == steps;
    StepKeepsRows(s, step);
    RunIsSound(steps[..last]);
    var call := s.pending[step.id];
    SummariseIsUpToDate(call, s.conversation);
    RecentIsTail(call.messages);
  }

  /** Row i was stored by step n of the run and is still what it was. */
  ghost predicate StoredBy(steps: seq<Step>, n: nat, i: nat)
    requires n < |steps|
  {
    MadeAt(steps, n, i) && i < |Run(steps).rows| && Run(steps[..n + 1]).rows[i] == Run(steps).rows[i]
  }

  lemma StoredBefore(steps: seq<Step>, n: nat, i: nat)
    requires steps != [] && n < |steps| - 1 && StoredBy(steps[..|steps| - 1], n, i)
    ensures StoredBy(steps, n, i)
  {
    var front := steps[..|steps| - 1];
    assert front[..n] == steps[..n] && front[..n + 1] == steps[..n + 1] && front[n] == steps[n];
    StepKeepsRows(Run(front), steps[|steps| - 1]);
  }

  /** Over every run each stored row says what the model replied in the step that stored it, and the
      context returned by that step holds it. */
  lemma {:induction false} StoredTextIsTheReply(steps: seq<Step>, i: nat)
    requires i < |Run(steps).rows|
    ensures exists n: nat :: n < |steps| && StoredBy(steps, n, i)
  {
    assert steps != [];
    var last := |steps| - 1;
    StepKeepsRows(Run(steps[..last]), steps[last]);
    if i < |Run(steps[..last]).rows| {
      StoredTextIsTheReply(steps[..last], i);
      var n: nat :| n < last && StoredBy(steps[..last], n, i);
      StoredBefore(steps, n, i);
    } else {
      MadeByFinish(steps);
      assert steps[..last + 1] == steps;
      assert StoredBy(steps, last, i);
    }
  }

  /** A context's summary is that of the row its call read, or of a row stored since. */
  ghost predicate FromRow(s: State, r: Returned) {
    r.context.summary.Some? ==>
      (r.call.cached.Some? && r.context.summary == Some(r.call.cached.value.summary))
      || exists i :: 0 <= i < |s.rows| && r.context.summary == Some(s.rows[i].summary)
  }

  lemma {:induction false} ContextsComeFromRows(steps: seq<Step>, j: nat)
    requires j < |Run(steps).returned|
    ensures FromRow(Run(steps), Run(steps).returned[j])
  {
    assert steps != [];
    var last := |steps| - 1;
    var s, t := Run(steps[..last]), Run(steps);
    StepKeepsRows(s, steps[last]);
    if j < |s.returned| {
      ContextsComeFromRows(steps[..last], j);
      if i :| 0 <= i < |s.rows| && s.returned[j].context.summary == Some(s.rows[i].summary) {
        assert t.rows[i] == s.rows[i];
      }
    } else if t.rows != s.rows {
      assert t.returned[j].context.summary == Some(t.rows[|s.rows|].summary);
    }
  }

  /** A summary is asked for exactly if there are more than twenty messages and the stored one, if any,
      was made from fewer. */
  lemma RequestsExactlyWhen(call: Call, conversation: seq<Message>)
    requires CallSound(call, conversation)
    ensures PlanFor(call.messages, call.cached).Summarise?
            <==> |call.messages| > 20 && (call.cached.None? || call.cached.value.count < |call.messages|)
  {
  }

  // ---- a call that reads a summary of more messages than it was given

  const LINE := Message("user", "Hi")

  function Lines(n: nat): seq<Message> {
    if n == 0 then [] else Lines(n - 1) + [LINE]
  }

  function Appends(n: nat): seq<Step> {
    if n == 0 then [] else Appends(n - 1) + [Append(LINE)]
  }

  lemma {:induction false} LinesAre(n: nat)
    ensures |Lines(n)| == n
  {
    if n > 0 { LinesAre(n - 1); }
  }

  lemma {:induction false} AppendsRun(n: nat)
    ensures Run(Appends(n)) == State(Lines(n), [], map[], [])
  {
    if n > 0 {
      AppendsRun(n - 1);
      assert Appends(n)[..|Appends(n)| - 1] == Appends(n - 1);
    }
  }

  /** After n messages a call on all of them stores their summary. */
  lemma SummaryIsStored(n: nat) returns (row: StoredSummary)
    requires n > COMPACT_THRESHOLD
    ensures Reachable(State(Lines(n), [row], map[], [Returned(Call(Lines(n), None), Context(Some(row.summary), Recent(Lines(n))))]))
    ensures row.count == n
  {
    LinesAre(n);
    AppendsRun(n);
    var steps, call := Appends(n), Call(Lines(n), None);
    var begun := State(Lines(n), [], map[0 := call], []);
    assert Lines(n)[..n] == Lines(n);
    RunOneMore(steps, Begin(0, n, 0, false));
    assert Run(steps + [Begin(0, n, 0, false)]) == begun;
    var plan := PlanFor(call.messages, None);
    row := StoredSummary(Generated(None, plan.more, "Greetings"), n, 1);
    RunOneMore(steps + [Begin(0, n, 0, false)], Finish(0, Some("Greetings"), 1));
    assert map[0 := call] - {0} == map[];
    assert [] + [row] == [row];
    var context := Context(Some(row.summary), Recent(Lines(n)));
    assert [] + [Returned(call, context)] == [Returned(call, context)];
    assert Run(steps + [Begin(0, n, 0, false)] + [Finish(0, Some("Greetings"), 1)])
        == State(Lines(n), [row], map[], [Returned(call, context)]);
  }

  /** Twenty-one messages, their summary stored, then a call on the first five: its context holds
      the summary of eleven messages and the five again. */
  lemma StaleCallIsNotCovered()
    ensures exists s: State :: Reachable(s) && |s.returned| == 2 && |s.returned[1].call.messages| == 5
                               && !Covers(s.returned[1].context, s.returned[1].call.messages)
  {
    var row := SummaryIsStored(21);
    LinesAre(21);
    var first := Returned(Call(Lines(21), None), Context(Some(row.summary), Recent(Lines(21))));
    var s := State(Lines(21), [row], map[], [first]);
    var steps :| s == Run(steps);
    RunOneMore(steps, Begin(1, 5, 0, false));
    assert IsLatest([row], 0);
    var t := BeginCall(s, 1, 5, 0, false);
    assert t == Run(steps + [Begin(1, 5, 0, false)]);
    assert t.returned[1].call == Call(Lines(21)[..5], Some(row));
    ContextCoversExactlyWhen(t, 1);
  }

  /** Every call was given the whole conversation of that moment. */
  ghost predicate WholeConversation(steps: seq<Step>) {
    forall n | 0 <= n < |steps| && steps[n].Begin? :: steps[n].upTo == |Run(steps[..n]).conversation|
  }

  /** Then every context returned covers its messages. */
  lemma {:induction false} WholeConversationIsCovered(steps: seq<Step>)
    requires WholeConversation(steps)
    ensures forall i | 0 <= i < |Run(steps).returned| ::
              Covers(Run(steps).returned[i].context, Run(steps).returned[i].call.messages)
  {
    if steps != [] {
      var init, last := steps[..|steps| - 1], steps[|steps| - 1];
      forall n | 0 <= n < |init| && init[n].Begin?
        ensures init[n].upTo == |Run(init[..n]).conversation|
      {
        assert steps[n] == init[n] && steps[..n] == init[..n];
      }
      WholeConversationIsCovered(init);
      RunIsSound(init);
      RunIsSound(steps);
      if last.Begin? {
        assert steps[..|steps| - 1] == init && last.upTo == |Run(init).conversation|;
      } else if last.Finish? && last.id in Run(init).pending {
        SummariseIsUpToDate(Run(init).pending[last.id], Run(init).conversation);
      }
    }
  }

  // ---- one call, as the code runs it

  class SummaryStore {
    var rows: seq<StoredSummary>

    constructor ()
      ensures rows == []
    {
      rows := [];
    }

    /** Scans for the newest row. */
    method GetSummary() returns (cached: Option<StoredSummary>)
      ensures cached.None? <==> rows == []
      ensures cached.Some? ==> exists i: nat :: IsLatest(rows, i) && rows[i] == cached.value
    {
      if rows == [] { return None; }
      var best := 0;
      for i := 1 to |rows|
        invariant 0 <= best < |rows|
        invariant forall k | 0 <= k < i :: rows[k].createdAt <= rows[best].createdAt
      {
        if rows[i].createdAt > rows[best].createdAt { best := i; }
      }
      assert IsLatest(rows, best);
      cached := Some(rows[best]);
    }

    method SaveSummary(summary: Summary, count: nat, now: int)
      modifies this
      ensures rows == old(rows) + [StoredSummary(summary, count, now)]
    {
      rows := rows + [StoredSummary(summary, count, now)];
    }

    /** One call with nothing in between. cached is the row the call read, unless reading fails;
        reply is what the summary request brings, None when it or the saving fails. A call that
        rejects returns no context. */
    method CompactMessages(messages: seq<Message>, readFails: bool, reply: Option<string>, now: int)
        returns (context: Option<Context>, cached: Option<StoredSummary>)
      modifies this
      ensures !readFails ==> (cached.None? <==> old(rows) == [])
      ensures cached.Some? ==> exists i: nat :: IsLatest(old(rows), i) && old(rows)[i] == cached.value
      ensures readFails ==> rows == old(rows)
                            && context == if |messages| <= COMPACT_THRESHOLD then None else Some(Context(None, messages))
      ensures !readFails ==>
                var plan := PlanFor(messages, cached);
                if plan.Answer? then context == Some(plan.context) && rows == old(rows)
                else context == Some(ContextAfter(messages, plan.existing, plan.more, reply))
                     && rows == if reply.None? then old(rows)
                                else old(rows) + [StoredSummary(Generated(plan.existing, plan.more, reply.value), |messages|, now)]
      ensures rows == old(rows)
              || (context.Some? && context.value.summary.Some? && reply.Some?
                  && Says(context.value.summary.value.text, reply.value)
                  && rows == old(rows) + [StoredSummary(context.value.summary.value, |messages|, now)])
    {
      cached := None;
      if readFails {
        context := if |messages| <= COMPACT_THRESHOLD then None else Some(Context(None, messages));
        return;
      }
      cached := GetSummary();
      if |messages| <= COMPACT_THRESHOLD {
        context := Some(if cached.None? then Context(None, messages) else Context(Some(cached.value.summary), messages));
        return;
      }
      if cached.Some? && cached.value.count == |messages| {
        context := Some(Context(Some(cached.value.summary), Recent(messages)));
        return;
      }
      var existing, more := None, Slice(messages, 0, -KEEP_RECENT);
      if cached.Some? {
        existing := Some(cached.value.summary);
        more := Slice(messages, cached.value.count - KEEP_RECENT, |messages| - KEEP_RECENT);
        if |more| == 0 {
          context := Some(Context(existing, Recent(messages)));
          return;
        }
      }
      if reply.None? {
        context := Some(Context(None, messages));
        return;
      }
      var summary := Generated(existing, more, reply.value);
      SaveSummary(summary, |messages|, now);
      context := Some(Context(Some(summary), Recent(messages)));
    }
  }
}
