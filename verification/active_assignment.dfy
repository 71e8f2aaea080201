/** Which host holds each logical provider binding, and at which authority generation
    (relay-server/src/desktop-host/active-assignment.ts, with the connected-host set of
    host-connection.ts and the commit queue of plugin-kernel/control-state-store.ts). */
module ActiveAssignment {
  import opened Options

  /** A legacy record names no provider and no workspace. */
  datatype Record = Record(
    bindingId: string, hostId: string, providerId: Option<string>,
    workspaceBindingId: Option<string>, generation: nat)

  datatype ReadyKey = ReadyKey(hostId: string, bindingId: string, providerId: string, workspaceBindingId: string)

  /** A queued commit: a selection writes the record it computed, a reconnect raises the
      generation of whatever its host holds by then. */
  datatype Commit = SetRecord(record: Record) | BumpHost(hostId: string)

  /** queue holds the commits that wait for the writes before them, first come first served. */
  datatype Assignments = Assignments(
    records: seq<Record>, ready: set<ReadyKey>, connected: set<string>, queue: seq<Commit>)

  datatype Status = Ready | Unready | Offline

  datatype Inspected = Inspected(record: Record, status: Status)

  function FindBinding(records: seq<Record>, bindingId: string): Option<Record> {
    if records == [] then None
    else if records[0].bindingId == bindingId then Some(records[0])
    else FindBinding(records[1..], bindingId)
  }

  predicate HoldsTuple(r: Record, hostId: string, providerId: string, workspaceBindingId: Option<string>) {
    r.hostId == hostId && r.providerId == Some(providerId) && r.workspaceBindingId == workspaceBindingId
  }

  function FindTuple(records: seq<Record>, hostId: string, providerId: string, workspaceBindingId: Option<string>)
    : Option<Record>
  {
    if records == [] then None
    else if HoldsTuple(records[0], hostId, providerId, workspaceBindingId) then Some(records[0])
    else FindTuple(records[1..], hostId, providerId, workspaceBindingId)
  }

  predicate IsReady(a: Assignments, r: Record) {
    && r.providerId.Some?
    && r.workspaceBindingId.Some?
    && ReadyKey(r.hostId, r.bindingId, r.providerId.value, r.workspaceBindingId.value) in a.ready
  }

  function StatusOf(a: Assignments, r: Record): Status {
    if r.hostId !in a.connected then Offline else if IsReady(a, r) then Ready else Unready
  }

  /** None where the source throws assignment_not_found. */
  function Inspect(a: Assignments, bindingId: string): Option<Inspected> {
    match FindBinding(a.records, bindingId)
    case None => None
    case Some(r) => Some(Inspected(r, StatusOf(a, r)))
  }

  function Find(a: Assignments, hostId: string, providerId: string, workspaceBindingId: Option<string>)
    : Option<Inspected>
  {
    match FindTuple(a.records, hostId, providerId, workspaceBindingId)
    case None => None
    case Some(r) => Inspect(a, r.bindingId)
  }

  /** The calls that change the assignments, and the landing of a queued commit, whose write may
      fail; a call the source refuses changes nothing. */
  datatype Change =
    | Admit(hostId: string)
    | Reconnect(hostId: string)
    | ReportReadiness(key: ReadyKey, isReady: bool)
    | Select(key: ReadyKey, authorized: bool)
    | Disconnect(hostId: string)
    | CommitNext(written: bool)

  function Without(records: seq<Record>, bindingId: string): seq<Record> {
    if records == [] then []
    else if records[0].bindingId == bindingId then Without(records[1..], bindingId)
    else [records[0]] + Without(records[1..], bindingId)
  }

  function Bumped(records: seq<Record>, hostId: string): seq<Record> {
    if records == [] then []
    else
      [if records[0].hostId == hostId then records[0].(generation := records[0].generation + 1) else records[0]]
      + Bumped(records[1..], hostId)
  }

  predicate HoldsAny(records: seq<Record>, hostId: string) {
    exists i :: 0 <= i < |records| && records[i].hostId == hostId
  }

  predicate CanSelect(a: Assignments, key: ReadyKey, authorized: bool) {
    authorized && key.hostId in a.connected && key in a.ready
  }

  /** The record a selection computes from what is stored when it is called. */
  function Selected(records: seq<Record>, key: ReadyKey): Record {
    var previous := FindBinding(records, key.bindingId);
    Record(key.bindingId, key.hostId, Some(key.providerId), Some(key.workspaceBindingId),
           if previous.Some? then previous.value.generation + 1 else 1)
  }

  function Landed(records: seq<Record>, commit: Commit): seq<Record> {
    match commit
    case SetRecord(r) => Without(records, r.bindingId) + [r]
    case BumpHost(h) => Bumped(records, h)
  }

  function Apply(a: Assignments, c: Change): Assignments {
    match c
    case Admit(h) => a.(connected := a.connected + {h})
    case Reconnect(h) =>
      if h in a.connected && HoldsAny(a.records, h) then a.(queue := a.queue + [BumpHost(h)]) else a
    case ReportReadiness(key, isReady) =>
      if key.hostId !in a.connected then a
      else a.(ready := if isReady then a.ready + {key} else a.ready - {key})
    case Select(key, authorized) =>
      if CanSelect(a, key, authorized) then a.(queue := a.queue + [SetRecord(Selected(a.records, key))]) else a
    case Disconnect(h) =>
      a.(connected := a.connected - {h}, ready := set k | k in a.ready && k.hostId != h)
    case CommitNext(written) =>
      if a.queue == [] then a
      else a.(queue := a.queue[1..], records := if written then Landed(a.records, a.queue[0]) else a.records)
  }

  lemma {:induction false} FoundBindingIsOwn(records: seq<Record>, bindingId: string)
    ensures FindBinding(records, bindingId).Some? ==> FindBinding(records, bindingId).value.bindingId == bindingId
  {
    if records != [] { FoundBindingIsOwn(records[1..], bindingId); }
  }

  lemma {:induction false} FoundTupleHolds(records: seq<Record>, h: string, p: string, w: Option<string>)
    ensures var r := FindTuple(records, h, p, w);
            r.Some? ==> r.value in records && HoldsTuple(r.value, h, p, w)
  {
    if records != [] { FoundTupleHolds(records[1..], h, p, w); }
  }

  lemma {:induction false} WithoutKeepsOthers(records: seq<Record>, dropped: string, b: string)
    ensures FindBinding(Without(records, dropped), b)
            == if b == dropped then None else FindBinding(records, b)
  {
    if records != [] {
      WithoutKeepsOthers(records[1..], dropped, b);
      var rest := Without(records[1..], dropped);
      assert ([records[0]] + rest)[1..] == rest;
    }
  }

  lemma {:induction false} AppendedFound(records: seq<Record>, r: Record, b: string)
    ensures FindBinding(records + [r], b)
            == if FindBinding(records, b).Some? then FindBinding(records, b)
               else if r.bindingId == b then Some(r) else None
  {
    if records == [] {
      assert records + [r] == [r];
    } else {
      assert (records + [r])[1..] == records[1..] + [r];
      AppendedFound(records[1..], r, b);
    }
  }

  lemma {:induction false} BumpedFound(records: seq<Record>, h: string, b: string)
    ensures FindBinding(Bumped(records, h), b)
            == match FindBinding(records, b)
               case None => None
               case Some(r) => Some(if r.hostId == h then r.(generation := r.generation + 1) else r)
  {
    if records != [] { BumpedFound(records[1..], h, b); }
  }

  lemma LandedFound(records: seq<Record>, commit: Commit, b: string)
    ensures FindBinding(Landed(records, commit), b)
            == match commit
               case SetRecord(r) => if r.bindingId == b then Some(r) else FindBinding(records, b)
               case BumpHost(h) =>
                 match FindBinding(records, b)
                 case None => None
                 case Some(r) => Some(if r.hostId == h then r.(generation := r.generation + 1) else r)
  {
    match commit
    case SetRecord(r) =>
      WithoutKeepsOthers(records, r.bindingId, b);
      AppendedFound(Without(records, r.bindingId), r, b);
    case BumpHost(h) => BumpedFound(records, h, b);
  }

  // ---- generations as a fence

  /** The binding is kept, its generation is not lowered, and at the same generation it is held
      exactly as before: same host, provider and workspace. */
  predicate Fences(before: seq<Record>, after: seq<Record>, bindingId: string) {
    FindBinding(before, bindingId).Some? ==>
      && FindBinding(after, bindingId).Some?
      && var was, now := FindBinding(before, bindingId).value, FindBinding(after, bindingId).value;
         was.generation <= now.generation && (was.generation == now.generation ==> now == was)
  }

  /** The commit about to land is a selection of the binding whose computed generation does not
      exceed the one stored by now, and which is not that record itself. */
  predicate StaleCommit(a: Assignments, c: Change, bindingId: string) {
    && c == CommitNext(true) && a.queue != [] && a.queue[0].SetRecord? && a.queue[0].record.bindingId == bindingId
    && FindBinding(a.records, bindingId).Some?
    && a.queue[0].record.generation <= FindBinding(a.records, bindingId).value.generation
    && a.queue[0].record != FindBinding(a.records, bindingId).value
  }

  /** Generations fence a binding at every change except exactly the landing of a stale selection. */
  lemma GenerationsFenceExactlyWhen(a: Assignments, c: Change, bindingId: string)
    ensures Fences(a.records, Apply(a, c).records, bindingId) <==> !StaleCommit(a, c, bindingId)
  {
    if c.CommitNext? && a.queue != [] && c.written {
      FoundBindingIsOwn(a.records, bindingId);
      LandedFound(a.records, a.queue[0], bindingId);
    }
  }

  /** A waiting commit that will change the binding. */
  predicate Affects(commit: Commit, records: seq<Record>, bindingId: string) {
    match commit
    case SetRecord(r) => r.bindingId == bindingId
    case BumpHost(h) => FindBinding(records, bindingId).Some? && FindBinding(records, bindingId).value.hostId == h
  }

  predicate NoneAffects(commits: seq<Commit>, records: seq<Record>, bindingId: string) {
    forall j | 0 <= j < |commits| :: !Affects(commits[j], records, bindingId)
  }

  /** A selection called while a commit that will change its binding is waiting. */
  predicate Overlaps(a: Assignments, c: Change) {
    c.Select? && CanSelect(a, c.key, c.authorized) && !NoneAffects(a.queue, a.records, c.key.bindingId)
  }

  predicate Exceeds(r: Record, records: seq<Record>) {
    FindBinding(records, r.bindingId).Some? ==> FindBinding(records, r.bindingId).value.generation < r.generation
  }

  /** Every waiting selection exceeds what is stored, and nothing before it changes its binding. */
  ghost predicate QueueFresh(records: seq<Record>, queue: seq<Commit>) {
    forall i | 0 <= i < |queue| && queue[i].SetRecord? ::
      Exceeds(queue[i].record, records) && NoneAffects(queue[..i], records, queue[i].record.bindingId)
  }

  lemma LandingStaysFresh(records: seq<Record>, queue: seq<Commit>)
    requires queue != [] && QueueFresh(records, queue)
    ensures QueueFresh(Landed(records, queue[0]), queue[1..]) && QueueFresh(records, queue[1..])
  {
    var rest, landed := queue[1..], Landed(records, queue[0]);
    forall i | 0 <= i < |rest| && rest[i].SetRecord?
      ensures Exceeds(rest[i].record, records) && NoneAffects(rest[..i], records, rest[i].record.bindingId)
      ensures Exceeds(rest[i].record, landed) && NoneAffects(rest[..i], landed, rest[i].record.bindingId)
    {
      var b := rest[i].record.bindingId;
      assert rest[i] == queue[i + 1] && queue[..i + 1] == [queue[0]] + rest[..i];
      assert !Affects(queue[..i + 1][0], records, b);
      forall j | 0 <= j < i
        ensures !Affects(rest[..i][j], records, b)
      {
        assert rest[..i][j] == queue[..i + 1][j + 1];
      }
      LandedFound(records, queue[0], b);
    }
  }

  lemma QueueingStaysFresh(records: seq<Record>, queue: seq<Commit>, commit: Commit)
    requires QueueFresh(records, queue)
    requires commit.SetRecord? ==> Exceeds(commit.record, records) && NoneAffects(queue, records, commit.record.bindingId)
    ensures QueueFresh(records, queue + [commit])
  {
    var all := queue + [commit];
    forall i | 0 <= i < |all| && all[i].SetRecord?
      ensures Exceeds(all[i].record, records) && NoneAffects(all[..i], records, all[i].record.bindingId)
    {
      assert all[..i] == queue[..i];
      if i == |queue| { assert queue[..i] == queue; }
    }
  }

  /** When no selection is called while a commit that will change its binding is waiting, no
      selection that lands is stale. */
  lemma SeparateSelectionsAreFresh(a: Assignments, c: Change)
    requires QueueFresh(a.records, a.queue) && !Overlaps(a, c)
    ensures QueueFresh(Apply(a, c).records, Apply(a, c).queue)
    ensures forall b :: !StaleCommit(a, c, b)
  {
    match c
    case Select(key, authorized) =>
      if CanSelect(a, key, authorized) {
        FoundBindingIsOwn(a.records, key.bindingId);
        QueueingStaysFresh(a.records, a.queue, SetRecord(Selected(a.records, key)));
      }
    case Reconnect(h) => QueueingStaysFresh(a.records, a.queue, BumpHost(h));
    case CommitNext(written) =>
      if a.queue != [] { LandingStaysFresh(a.records, a.queue); }
    case _ =>
  }

  /** The control-state document keeps one record per binding. */
  ghost predicate UniqueBindings(records: seq<Record>) {
    forall i, j | 0 <= i < |records| && 0 <= j < |records| && records[i].bindingId == records[j].bindingId :: i == j
  }

  lemma {:induction false} WithoutKeepsSome(records: seq<Record>, dropped: string)
    ensures forall r | r in Without(records, dropped) :: r in records && r.bindingId != dropped
  {
    if records != [] { WithoutKeepsSome(records[1..], dropped); }
  }

  lemma UniqueTail(records: seq<Record>)
    requires records != [] && UniqueBindings(records)
    ensures UniqueBindings(records[1..])
    ensures forall r | r in records[1..] :: r.bindingId != records[0].bindingId
  {
    var rest := records[1..];
    assert forall i | 0 <= i < |rest| :: rest[i] == records[i + 1];
  }

  lemma UniqueCons(first: Record, rest: seq<Record>)
    requires UniqueBindings(rest) && forall r | r in rest :: r.bindingId != first.bindingId
    ensures UniqueBindings([first] + rest) && UniqueBindings(rest + [first])
  {
    assert forall i | 0 <= i < |rest| :: rest[i].bindingId != first.bindingId;
  }

  lemma {:induction false} WithoutStaysUnique(records: seq<Record>, dropped: string)
    requires UniqueBindings(records)
    ensures UniqueBindings(Without(records, dropped))
  {
    if records != [] {
      UniqueTail(records);
      WithoutStaysUnique(records[1..], dropped);
      WithoutKeepsSome(records[1..], dropped);
      if records[0].bindingId != dropped { UniqueCons(records[0], Without(records[1..], dropped)); }
    }
  }

  lemma {:induction false} BumpedHoldsSame(records: seq<Record>, h: string)
    ensures SameHolders(records, Bumped(records, h))
  {
    if records != [] {
      BumpedHoldsSame(records[1..], h);
    }
  }

  /** One record per binding stays one record per binding. */
  lemma BindingsStayUnique(a: Assignments, c: Change)
    requires UniqueBindings(a.records)
    ensures UniqueBindings(Apply(a, c).records)
  {
    if c.CommitNext? && c.written && a.queue != [] {
      match a.queue[0]
      case SetRecord(r) =>
        WithoutStaysUnique(a.records, r.bindingId);
        WithoutKeepsSome(a.records, r.bindingId);
        UniqueCons(r, Without(a.records, r.bindingId));
      case BumpHost(h) =>
        BumpedHoldsSame(a.records, h);
        SameHoldersStayUnique(a.records, Bumped(a.records, h));
    }
  }

  lemma {:induction false} FoundInTable(records: seq<Record>, b: string)
    ensures FindBinding(records, b).Some? ==> FindBinding(records, b).value in records
    ensures FindBinding(records, b).None? ==> forall i | 0 <= i < |records| :: records[i].bindingId != b
  {
    if records != [] {
      FoundInTable(records[1..], b);
      if FindBinding(records, b).None? {
        forall i | 0 <= i < |records| ensures records[i].bindingId != b {
          if i > 0 { assert records[i] == records[1..][i - 1]; }
        }
      }
    }
  }

  lemma UniqueIsFound(records: seq<Record>, r: Record)
    requires UniqueBindings(records) && r in records
    ensures FindBinding(records, r.bindingId) == Some(r)
  {
    FoundInTable(records, r.bindingId);
    FoundBindingIsOwn(records, r.bindingId);
    var i :| 0 <= i < |records| && records[i] == r;
    var j :| 0 <= j < |records| && records[j] == FindBinding(records, r.bindingId).value;
  }

  /** Two tables that give every binding the same holder and may differ in generations. */
  ghost predicate SameHolders(x: seq<Record>, y: seq<Record>) {
    |x| == |y| && forall i | 0 <= i < |x| :: y[i] == x[i].(generation := y[i].generation)
  }

  lemma {:induction false} SameHoldersFindSame(x: seq<Record>, y: seq<Record>, h: string, p: string, w: Option<string>)
    requires SameHolders(x, y)
    ensures FindTuple(x, h, p, w).Some? <==> FindTuple(y, h, p, w).Some?
    ensures FindTuple(x, h, p, w).Some? ==> FindTuple(x, h, p, w).value.bindingId == FindTuple(y, h, p, w).value.bindingId
  {
    if x != [] { SameHoldersFindSame(x[1..], y[1..], h, p, w); }
  }

  lemma SameHoldersStayUnique(x: seq<Record>, y: seq<Record>)
    requires SameHolders(x, y) && UniqueBindings(x)
    ensures UniqueBindings(y)
  {
    forall i, j | 0 <= i < |y| && 0 <= j < |y| && y[i].bindingId == y[j].bindingId ensures i == j {
      assert x[i].bindingId == x[j].bindingId;
    }
  }

  // ---- readiness and selection

  ghost predicate ReadyAreConnected(a: Assignments) {
    forall key | key in a.ready :: key.hostId in a.connected
  }

  function After(a: Assignments, changes: seq<Change>): Assignments {
    if changes == [] then a else Apply(After(a, changes[..|changes| - 1]), changes[|changes| - 1])
  }

  /** Over every sequence of changes only connected hosts count as ready. */
  lemma {:induction false} ReadyHostsAreConnected(a: Assignments, changes: seq<Change>)
    requires ReadyAreConnected(a)
    ensures ReadyAreConnected(After(a, changes))
  {
    if changes != [] { ReadyHostsAreConnected(a, changes[..|changes| - 1]); }
  }

  predicate SameHolder(r: Record, other: Record) {
    r == other.(generation := r.generation)
  }

  /** Change n selects r's holder, authorised, while its host is connected and reported ready. */
  ghost predicate SelectedAt(a: Assignments, changes: seq<Change>, n: nat, r: Record)
    requires n < |changes|
  {
    && r.providerId.Some? && r.workspaceBindingId.Some?
    && var key := ReadyKey(r.hostId, r.bindingId, r.providerId.value, r.workspaceBindingId.value);
       && changes[n] == Select(key, true)
       && key.hostId in After(a, changes[..n]).connected && key in After(a, changes[..n]).ready
  }

  ghost predicate WasSelected(a: Assignments, changes: seq<Change>, r: Record) {
    exists n: nat :: n < |changes| && SelectedAt(a, changes, n, r)
  }

  /** The table the changes start from already had this holder, or one of the changes selected it. */
  ghost predicate HasOrigin(a: Assignments, changes: seq<Change>, r: Record) {
    (exists i :: 0 <= i < |a.records| && SameHolder(a.records[i], r)) || WasSelected(a, changes, r)
  }

  lemma OriginStays(a: Assignments, changes: seq<Change>, r: Record, now: Record)
    requires changes != [] && HasOrigin(a, changes[..|changes| - 1], r) && SameHolder(now, r)
    ensures HasOrigin(a, changes, now)
  {
    var front := changes[..|changes| - 1];
    if n: nat :| n < |front| && SelectedAt(a, front, n, r) {
      assert front[..n] == changes[..n];
      assert SelectedAt(a, changes, n, now);
    }
  }

  lemma {:induction false} BumpedFrom(records: seq<Record>, h: string, r: Record)
    requires r in Bumped(records, h)
    ensures exists i :: 0 <= i < |records| && SameHolder(r, records[i])
  {
    if r == Bumped(records, h)[0] {
      assert SameHolder(r, records[0]);
    } else {
      BumpedFrom(records[1..], h, r);
      var i :| 0 <= i < |records[1..]| && SameHolder(r, records[1..][i]);
      assert records[1..][i] == records[i + 1];
    }
  }

  lemma LandedFrom(records: seq<Record>, commit: Commit, r: Record)
    requires r in Landed(records, commit)
    ensures (commit.SetRecord? && r == commit.record) || exists i :: 0 <= i < |records| && SameHolder(r, records[i])
  {
    match commit
    case SetRecord(written) =>
      if r != written {
        WithoutKeepsSome(records, written.bindingId);
        var i :| 0 <= i < |records| && records[i] == r;
        assert SameHolder(r, records[i]);
      }
    case BumpHost(h) => BumpedFrom(records, h, r);
  }

  lemma AppliedFrom(a: Assignments, c: Change, r: Record)
    requires r in Apply(a, c).records
    ensures (a.queue != [] && a.queue[0].SetRecord? && r == a.queue[0].record)
            || exists i :: 0 <= i < |a.records| && SameHolder(r, a.records[i])
  {
    if c.CommitNext? && c.written && a.queue != [] {
      LandedFrom(a.records, a.queue[0], r);
    } else {
      assert SameHolder(r, r);
    }
  }

  ghost predicate AllHaveOrigin(a: Assignments, changes: seq<Change>) {
    var t := After(a, changes);
    && (forall i | 0 <= i < |t.records| :: HasOrigin(a, changes, t.records[i]))
    && (forall i | 0 <= i < |t.queue| && t.queue[i].SetRecord? :: HasOrigin(a, changes, t.queue[i].record))
  }

  /** Every holder stored after any changes, or waiting to be, was held to begin with or was selected
      by one of them: authorised, with its host connected and reported ready at that moment. */
  lemma {:induction false} HoldersWereSelected(a: Assignments, changes: seq<Change>)
    requires a.queue == []
    ensures AllHaveOrigin(a, changes)
  {
    if changes == [] {
      forall i | 0 <= i < |a.records| ensures HasOrigin(a, changes, a.records[i]) {
        assert SameHolder(a.records[i], a.records[i]);
      }
    } else {
      var last := |changes| - 1;
      var s, t := After(a, changes[..last]), After(a, changes);
      HoldersWereSelected(a, changes[..last]);
      forall i | 0 <= i < |t.records| ensures HasOrigin(a, changes, t.records[i]) {
        RecordHasOrigin(a, changes, i);
      }
      forall i | 0 <= i < |t.queue| && t.queue[i].SetRecord? ensures HasOrigin(a, changes, t.queue[i].record) {
        QueuedHasOrigin(a, changes, i);
      }
    }
  }

  lemma RecordHasOrigin(a: Assignments, changes: seq<Change>, i: nat)
    requires changes != [] && AllHaveOrigin(a, changes[..|changes| - 1]) && i < |After(a, changes).records|
    ensures HasOrigin(a, changes, After(a, changes).records[i])
  {
    var last := |changes| - 1;
    var s, r := After(a, changes[..last]), After(a, changes).records[i];
    AppliedFrom(s, changes[last], r);
    if j :| 0 <= j < |s.records| && SameHolder(r, s.records[j]) {
      OriginStays(a, changes, s.records[j], r);
    } else {
      OriginStays(a, changes, s.queue[0].record, r);
    }
  }

  lemma QueuedHasOrigin(a: Assignments, changes: seq<Change>, i: nat)
    requires changes != [] && AllHaveOrigin(a, changes[..|changes| - 1])
    requires i < |After(a, changes).queue| && After(a, changes).queue[i].SetRecord?
    ensures HasOrigin(a, changes, After(a, changes).queue[i].record)
  {
    var last := |changes| - 1;
    var s, t := After(a, changes[..last]), After(a, changes);
    var r := t.queue[i].record;
    match changes[last]
    case Select(key, authorized) =>
      if i < |s.queue| {
        OriginStays(a, changes, r, r);
      } else {
        assert SelectedAt(a, changes, last, r);
      }
    case CommitNext(written) =>
      if s.queue != [] { assert t.queue[i] == s.queue[i + 1]; }
      OriginStays(a, changes, r, r);
    case _ => OriginStays(a, changes, r, r);
  }
}
