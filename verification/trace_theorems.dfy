/** Ingesting twice, in another order, or cut into other requests. */
module TraceTheorems {
  import opened Options
  import opened Tables
  import opened TraceIngest

  // ---- the merges

  lemma ObservationMerges()
    ensures Merges(MergeObservation)
  {
  }

  lemma MediaMerges()
    ensures Merges(MergeMedia)
  {
  }

  lemma TraceMerges()
    ensures Merges(MergeTrace)
  {
  }

  // ---- idempotence

  lemma WritesJoin(a: seq<MediaRow>, again: seq<MediaRow>, b: seq<MediaRow>, bAgain: seq<MediaRow>)
    requires SameWrites(a, again) && SameWrites(b, bAgain)
    ensures SameWrites(a + b, again + bAgain)
  {
  }

  lemma RoleRowAgain(item: Item, session: Option<string>, kind: string, m: RoleMedia, now: int, later: int)
    ensures SameWrites(RoleRow(item, session, kind, m, now), RoleRow(item, session, kind, m, later))
  {
  }

  lemma SessionRowAgain(item: Item, session: Option<string>, kind: string, codec: string, rate: Option<int>,
                        duration: Option<int>, path: Option<string>, now: int, later: int)
    ensures SameWrites(SessionRow(item, session, kind, codec, rate, duration, path, now),
                       SessionRow(item, session, kind, codec, rate, duration, path, later))
  {
  }

  lemma MediaOfAgain(item: Item, now: int, later: int)
    ensures SameWrites(MediaOf(item, now), MediaOf(item, later))
  {
    RoleMediaAgain(item, now, later);
    SessionMediaAgain(item, now, later);
    WritesJoin(RoleRows(item, now), RoleRows(item, later), SessionRows(item, now), SessionRows(item, later));
  }

  lemma RoleMediaAgain(item: Item, now: int, later: int)
    ensures SameWrites(RoleRows(item, now), RoleRows(item, later))
  {
    var s := SessionIdOf(item);
    RoleRowAgain(item, s, "user_audio", item.span.userAudio, now, later);
    RoleRowAgain(item, s, "assistant_audio", item.span.assistantAudio, now, later);
    RoleRowAgain(item, s, "video", item.span.userVideo, now, later);
    WritesJoin(RoleRow(item, s, "user_audio", item.span.userAudio, now), RoleRow(item, s, "user_audio", item.span.userAudio, later),
               RoleRow(item, s, "assistant_audio", item.span.assistantAudio, now),
               RoleRow(item, s, "assistant_audio", item.span.assistantAudio, later));
  }

  lemma SessionMediaAgain(item: Item, now: int, later: int)
    ensures SameWrites(SessionRows(item, now), SessionRows(item, later))
  {
    var s, m := SessionIdOf(item), item.span.session;
    SessionRowAgain(item, s, "session_user_audio", "wav_pcm_s16le", m.sampleRate, m.userDuration, m.userPath, now, later);
    SessionRowAgain(item, s, "session_assistant_audio", "wav_pcm_s16le", m.sampleRate, m.assistantDuration, m.assistantPath, now, later);
    SessionRowAgain(item, s, "session_peaks", "json", m.sampleRate, None, m.peaksPath, now, later);
    SessionRowAgain(item, s, "session_thumbnails", "json", None, None, m.thumbnailsPath, now, later);
  }

  lemma {:induction false} MediaAgain(items: seq<Item>, now: int, later: int)
    ensures SameWrites(Media(items, now), Media(items, later))
  {
    if items != [] {
      var init, last := items[..|items| - 1], items[|items| - 1];
      MediaAgain(init, now, later);
      MediaOfAgain(last, now, later);
      WritesJoin(Media(init, now), Media(init, later), MediaOf(last, now), MediaOf(last, later));
    }
  }

  /** Ingesting a request a second time, at any later moment, changes no row, from any database,
      also when the request repeats a span id. */
  lemma IngestIsIdempotent(db: Db, req: Request, now: int, later: int)
    ensures Ingest(Ingest(db, req, now), req, later) == Ingest(db, req, now)
  {
    var items := Items(req);
    ObservationMerges();
    MediaMerges();
    TraceMerges();
    UpsertMapTwice(db.traces, Touched(items), MergeTrace);
    UpsertTwice(db.observations, Observations(items), Observations(items), MergeObservation);
    MediaAgain(items, now, later);
    UpsertTwice(db.media, Media(items, now), Media(items, later), MergeMedia);
  }

  // ---- what a trace row says about its spans

  predicate Of(item: Item, id: string) {
    item.span.traceId == id
  }

  predicate Complete(item: Item) {
    item.span.start.Some? && item.span.end.Some?
  }

  /** The field holds a value some span of the trace supplies, or nothing when none does. */
  ghost predicate Supplied(field: Option<string>, items: seq<Item>, id: string, get: Item -> Option<string>) {
    && (field.Some? ==> exists item :: item in items && Of(item, id) && get(item) == field)
    && (field.None? ==> forall item | item in items && Of(item, id) :: get(item).None?)
  }

  ghost predicate Starts(start: Option<int>, items: seq<Item>, id: string) {
    && (exists item :: item in items && Of(item, id) && item.span.start == start)
    && (forall item | item in items && Of(item, id) :: item.span.start.Some? && start.Some? && start.value <= item.span.start.value)
  }

  ghost predicate Ends(end: Option<int>, items: seq<Item>, id: string) {
    && (exists item :: item in items && Of(item, id) && item.span.end == end)
    && (forall item | item in items && Of(item, id) :: item.span.end.Some? && end.Some? && item.span.end.value <= end.value)
  }

  /** Everything but the status: the earliest start, the latest end, and supplied values. */
  ghost predicate Summarises(c: TraceColumns, items: seq<Item>, id: string) {
    && Starts(c.start, items, id) && Ends(c.end, items, id)
    && Supplied(c.sessionId, items, id, SessionIdOf) && Supplied(c.userId, items, id, UserIdOf)
    && Supplied(c.name, items, id, NameOf) && Supplied(c.input, items, id, InputOf) && Supplied(c.output, items, id, OutputOf)
    && c.metadata.None?
  }

  ghost predicate Touches(items: seq<Item>, id: string) {
    exists item :: item in items && Of(item, id)
  }

  ghost predicate AllComplete(items: seq<Item>, id: string) {
    forall item | item in items && Of(item, id) :: Complete(item)
  }

  /** Two values of one field, each from its own spans; the first is preferred. */
  lemma SuppliedJoins(a: Option<string>, xs: seq<Item>, b: Option<string>, ys: seq<Item>, id: string, get: Item -> Option<string>)
    requires Supplied(a, xs, id, get) && Supplied(b, ys, id, get)
    ensures Supplied(Coalesce(a, b), xs + ys, id, get) && Supplied(Coalesce(a, b), ys + xs, id, get)
  {
  }

  lemma IntervalJoins(a: TraceColumns, xs: seq<Item>, b: TraceColumns, ys: seq<Item>, id: string)
    requires Starts(a.start, xs, id) && Starts(b.start, ys, id) && Ends(a.end, xs, id) && Ends(b.end, ys, id)
    ensures Starts(SqlMin(a.start, b.start), xs + ys, id) && Ends(SqlMax(a.end, b.end), xs + ys, id)
    ensures Starts(SqlMin(a.start, b.start), ys + xs, id) && Ends(SqlMax(a.end, b.end), ys + xs, id)
  {
  }

  lemma SummariesJoin(a: TraceColumns, xs: seq<Item>, b: TraceColumns, ys: seq<Item>, id: string)
    requires Summarises(a, xs, id) && Summarises(b, ys, id)
    ensures Summarises(MergeTrace(a, b), ys + xs, id)
  {
    IntervalJoins(a, xs, b, ys, id);
    SuppliedJoins(a.sessionId, xs, b.sessionId, ys, id, SessionIdOf);
    SuppliedJoins(a.userId, xs, b.userId, ys, id, UserIdOf);
    SuppliedJoins(a.name, xs, b.name, ys, id, NameOf);
    SuppliedJoins(a.input, xs, b.input, ys, id, InputOf);
    SuppliedJoins(a.output, xs, b.output, ys, id, OutputOf);
  }

  lemma SummaryGrows(c: TraceColumns, items: seq<Item>, more: seq<Item>, id: string)
    requires Summarises(c, items, id) && !Touches(more, id)
    ensures Summarises(c, items + more, id)
  {
    assert forall item :: item in items + more && Of(item, id) <==> item in items && Of(item, id);
  }

  lemma FirstItem(item: Item)
    requires Complete(item)
    ensures Summarises(Touch(NOTHING, item), [item], item.span.traceId)
  {
    assert item in [item] && Of(item, item.span.traceId);
  }

  /** Touching a row with one more span is merging that span's own row into it. */
  lemma TouchIsMerge(prev: TraceColumns, item: Item)
    requires Complete(item) && prev.start.Some? && prev.end.Some? && prev.metadata.None?
    ensures Touch(prev, item).(status := None) == MergeTrace(prev, Touch(NOTHING, item)).(status := None)
  {
  }

  lemma {:induction false} TouchedSummarises(items: seq<Item>, id: string)
    requires AllComplete(items, id)
    ensures id in Touched(items) <==> Touches(items, id)
    ensures id in Touched(items) ==> Summarises(Touched(items)[id], items, id)
  {
    if items != [] {
      var init, last := items[..|items| - 1], items[|items| - 1];
      assert items == init + [last];
      TouchedSummarises(init, id);
      if Of(last, id) {
        assert last in items && Touches(items, id);
        FirstItem(last);
        if id in Touched(init) {
          var prev, own := Touched(init)[id], Touch(NOTHING, last);
          SummariesJoin(own, [last], prev, init, id);
          PreferringEither(prev, init, last, id);
        } else {
          assert forall item | item in items && Of(item, id) :: item == last;
          SummaryOfOne(Touched(items)[id], items, last, id);
        }
      } else {
        OtherItem(init, last, id);
        if id in Touched(init) { SummaryGrows(Touched(init)[id], init, [last], id); }
      }
    }
  }

  lemma OtherItem(init: seq<Item>, last: Item, id: string)
    requires !Of(last, id)
    ensures !Touches([last], id) && (Touches(init + [last], id) <==> Touches(init, id))
  {
    assert forall item :: item in init + [last] && Of(item, id) <==> item in init && Of(item, id);
  }

  lemma SummaryOfOne(c: TraceColumns, items: seq<Item>, last: Item, id: string)
    requires Summarises(c, [last], id) && last in items
    requires forall item | item in items && Of(item, id) :: item == last
    ensures Summarises(c, items, id)
  {
    assert last in [last];
  }

  /** Within a request the earlier value is preferred, between requests the later one; both summarise. */
  lemma PreferringEither(prev: TraceColumns, init: seq<Item>, last: Item, id: string)
    requires Summarises(prev, init, id) && Complete(last) && Of(last, id)
    ensures Summarises(Touch(prev, last), init + [last], id)
  {
    var own := Touch(NOTHING, last);
    FirstItem(last);
    var joined := MergeTrace(prev, own);
    TouchIsMerge(prev, last);
    IntervalJoins(prev, init, own, [last], id);
    SuppliedJoins(prev.sessionId, init, own.sessionId, [last], id, SessionIdOf);
    SuppliedJoins(prev.userId, init, own.userId, [last], id, UserIdOf);
    SuppliedJoins(prev.name, init, own.name, [last], id, NameOf);
    SuppliedJoins(prev.input, init, own.input, [last], id, InputOf);
    SuppliedJoins(prev.output, init, own.output, [last], id, OutputOf);
    assert Summarises(joined, init + [last], id);
    assert Touch(prev, last) == joined.(status := Touch(prev, last).status);
  }

  // ---- several requests

  function IngestAll(db: Db, reqs: seq<(Request, int)>): Db {
    if reqs == [] then db
    else Ingest(IngestAll(db, reqs[..|reqs| - 1]), reqs[|reqs| - 1].0, reqs[|reqs| - 1].1)
  }

  function AllItems(reqs: seq<(Request, int)>): seq<Item> {
    if reqs == [] then [] else AllItems(reqs[..|reqs| - 1]) + Items(reqs[|reqs| - 1].0)
  }

  /** A trace's stored row summarises all its spans, whatever requests brought them. */
  lemma {:induction false} StoredRowSummarises(db: Db, reqs: seq<(Request, int)>, id: string)
    requires id !in db.traces && AllComplete(AllItems(reqs), id)
    ensures id in IngestAll(db, reqs).traces <==> Touches(AllItems(reqs), id)
    ensures id in IngestAll(db, reqs).traces ==> Summarises(IngestAll(db, reqs).traces[id], AllItems(reqs), id)
  {
    if reqs != [] {
      var init, items := reqs[..|reqs| - 1], Items(reqs[|reqs| - 1].0);
      assert AllItems(reqs) == AllItems(init) + items;
      StoredRowSummarises(db, init, id);
      TouchedSummarises(items, id);
      var stored := IngestAll(db, init).traces;
      if id in Touched(items) {
        assert Touches(AllItems(reqs), id);
        if id in stored {
          SummariesJoin(Touched(items)[id], items, stored[id], AllItems(init), id);
        } else {
          assert forall item :: item in AllItems(reqs) && Of(item, id) <==> item in items && Of(item, id);
          SameSpansSameSummary(Touched(items)[id], items, AllItems(reqs), id);
        }
      } else {
        assert forall item :: item in AllItems(reqs) && Of(item, id) <==> item in AllItems(init) && Of(item, id);
        if id in stored { SameSpansSameSummary(stored[id], AllItems(init), AllItems(reqs), id); }
      }
    }
  }

  ghost predicate SameSpans(xs: seq<Item>, ys: seq<Item>, id: string) {
    forall item :: item in xs && Of(item, id) <==> item in ys && Of(item, id)
  }

  lemma SameSpansSameSummary(c: TraceColumns, xs: seq<Item>, ys: seq<Item>, id: string)
    requires Summarises(c, xs, id) && SameSpans(xs, ys, id)
    ensures Summarises(c, ys, id)
  {
  }

  /** Spans of the trace that supply a field supply the same value. One root per trace gives this
      for name, input and output. */
  ghost predicate Agree(items: seq<Item>, id: string, get: Item -> Option<string>) {
    forall a, b | a in items && b in items && Of(a, id) && Of(b, id) && get(a).Some? && get(b).Some? :: get(a) == get(b)
  }

  ghost predicate AllAgree(items: seq<Item>, id: string) {
    Agree(items, id, SessionIdOf) && Agree(items, id, UserIdOf)
    && Agree(items, id, NameOf) && Agree(items, id, InputOf) && Agree(items, id, OutputOf)
  }

  ghost predicate AtMostOneRoot(items: seq<Item>, id: string) {
    forall a, b | a in items && b in items && Of(a, id) && Of(b, id) && IsRoot(a) && IsRoot(b) :: a.span == b.span
  }

  lemma OneRootAgrees(items: seq<Item>, id: string)
    requires AtMostOneRoot(items, id)
    ensures Agree(items, id, NameOf) && Agree(items, id, InputOf) && Agree(items, id, OutputOf)
  {
  }

  lemma SuppliedOnce(a: Option<string>, b: Option<string>, items: seq<Item>, id: string, get: Item -> Option<string>)
    requires Supplied(a, items, id, get) && Supplied(b, items, id, get) && Agree(items, id, get)
    ensures a == b
  {
  }

  lemma SummaryIsUnique(a: TraceColumns, b: TraceColumns, items: seq<Item>, id: string)
    requires Summarises(a, items, id) && Summarises(b, items, id) && AllAgree(items, id)
    ensures a.(status := None) == b.(status := None)
  {
    SuppliedOnce(a.sessionId, b.sessionId, items, id, SessionIdOf);
    SuppliedOnce(a.userId, b.userId, items, id, UserIdOf);
    SuppliedOnce(a.name, b.name, items, id, NameOf);
    SuppliedOnce(a.input, b.input, items, id, InputOf);
    SuppliedOnce(a.output, b.output, items, id, OutputOf);
    IntervalIsUnique(a, b, items, id);
  }

  lemma IntervalIsUnique(a: TraceColumns, b: TraceColumns, items: seq<Item>, id: string)
    requires Starts(a.start, items, id) && Starts(b.start, items, id) && Ends(a.end, items, id) && Ends(b.end, items, id)
    ensures a.start == b.start && a.end == b.end
  {
  }

  const EMPTY := Db(map[], map[], map[])

  /** What was stored before only enters by one last merge. */
  lemma {:induction false} OldRowMergesLast(db: Db, reqs: seq<(Request, int)>, id: string)
    ensures var rows, own := IngestAll(db, reqs).traces, IngestAll(EMPTY, reqs).traces;
            && (id in rows <==> id in db.traces || id in own)
            && (id in rows ==> rows[id] == if id !in own then db.traces[id]
                                           else if id in db.traces then MergeTrace(own[id], db.traces[id]) else own[id])
  {
    if reqs != [] {
      OldRowMergesLast(db, reqs[..|reqs| - 1], id);
      TraceMerges();
    }
  }

  /** From any database, the stored row apart from its status depends neither on the order of the
      spans nor on how they are split into requests, nor on resending. */
  lemma OrderAndSplitDoNotMatter(db: Db, one: seq<(Request, int)>, other: seq<(Request, int)>, id: string)
    requires SameSpans(AllItems(one), AllItems(other), id)
    requires AllComplete(AllItems(one), id)
    requires AllAgree(AllItems(one), id)
    ensures id in IngestAll(db, one).traces <==> id in IngestAll(db, other).traces
    ensures id in IngestAll(db, one).traces ==>
              IngestAll(db, one).traces[id].(status := None) == IngestAll(db, other).traces[id].(status := None)
  {
    OldRowMergesLast(db, one, id);
    OldRowMergesLast(db, other, id);
    StoredRowSummarises(EMPTY, one, id);
    StoredRowSummarises(EMPTY, other, id);
    if id in IngestAll(EMPTY, one).traces && id in IngestAll(EMPTY, other).traces {
      SameSpansSameSummary(IngestAll(EMPTY, other).traces[id], AllItems(other), AllItems(one), id);
      SummaryIsUnique(IngestAll(EMPTY, one).traces[id], IngestAll(EMPTY, other).traces[id], AllItems(one), id);
    }
  }

  // ---- the status

  ghost predicate HasError(items: seq<Item>, id: string) {
    exists item :: item in items && Of(item, id) && item.span.isError
  }

  /** Within a request an error anywhere in the trace wins, in any order. */
  lemma {:induction false} TouchedStatus(items: seq<Item>, id: string)
    ensures id in Touched(items) <==> Touches(items, id)
    ensures id in Touched(items) ==>
              Touched(items)[id].status == if HasError(items, id) then Some("error") else Some("ok")
  {
    if items != [] {
      var init, last := items[..|items| - 1], items[|items| - 1];
      assert items == init + [last];
      TouchedStatus(init, id);
      assert last in items;
      assert forall item | item in init :: item in items;
      assert forall item | item in items :: item in init || item == last;
    }
  }

  /** Between requests the last one to touch the trace decides: error is stored exactly if it had one. */
  lemma {:induction false} StatusIsLastRequests(db: Db, reqs: seq<(Request, int)>, last: (Request, int), id: string)
    requires Touches(Items(last.0), id)
    ensures id in IngestAll(db, reqs + [last]).traces
    ensures IngestAll(db, reqs + [last]).traces[id].status
            == if HasError(Items(last.0), id) then Some("error") else Some("ok")
  {
    assert (reqs + [last])[..|reqs|] == reqs;
    TouchedStatus(Items(last.0), id);
  }

  // ---- a missing end time

  lemma {:induction false} TouchedEnd(items: seq<Item>, id: string)
    ensures id in Touched(items) <==> Touches(items, id)
    ensures id in Touched(items) ==>
              (Touched(items)[id].end.Some? <==> exists item :: item in items && Of(item, id) && item.span.end.Some?)
  {
    if items != [] {
      var init, last := items[..|items| - 1], items[|items| - 1];
      assert items == init + [last];
      TouchedEnd(init, id);
      assert last in items;
      assert forall item | item in init :: item in items;
      assert forall item | item in items :: item in init || item == last;
    }
  }

  ghost predicate BringsEnd(req: Request, id: string) {
    Touches(Items(req), id) ==> exists item :: item in Items(req) && Of(item, id) && item.span.end.Some?
  }

  ghost predicate EachBringsEnd(reqs: seq<(Request, int)>, id: string) {
    reqs == [] || (EachBringsEnd(reqs[..|reqs| - 1], id) && BringsEnd(reqs[|reqs| - 1].0, id))
  }

  ghost predicate NoneTouches(reqs: seq<(Request, int)>, id: string) {
    reqs == [] || (NoneTouches(reqs[..|reqs| - 1], id) && !Touches(Items(reqs[|reqs| - 1].0), id))
  }

  lemma {:induction false} NoneTouchesBrings(reqs: seq<(Request, int)>, id: string)
    requires NoneTouches(reqs, id)
    ensures EachBringsEnd(reqs, id)
  {
    if reqs != [] { NoneTouchesBrings(reqs[..|reqs| - 1], id); }
  }

  /** A stored trace has an end exactly if every request that touched it brought one: SQLite's
      MAX keeps a NULL for good. */
  lemma {:induction false} EndIsKnownExactlyWhen(db: Db, reqs: seq<(Request, int)>, id: string)
    requires id !in db.traces
    ensures id in IngestAll(db, reqs).traces <==> !NoneTouches(reqs, id)
    ensures id in IngestAll(db, reqs).traces ==>
              (IngestAll(db, reqs).traces[id].end.Some? <==> EachBringsEnd(reqs, id))
  {
    if reqs != [] {
      var init, items := reqs[..|reqs| - 1], Items(reqs[|reqs| - 1].0);
      EndIsKnownExactlyWhen(db, init, id);
      TouchedEnd(items, id);
      if NoneTouches(init, id) { NoneTouchesBrings(init, id); }
    }
  }
}
