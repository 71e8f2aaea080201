/** The collector's database and its ingest loop, row by row; proved against TraceIngest. */
module TracingCollector {
  import opened Options
  import opened Tables
  import opened TraceIngest

  class TracingDb {
    var traces: map<string, TraceColumns>
    var observations: Table<string, ObservationKey, ObservationColumns>
    var media: Table<(string, string), int, MediaColumns>

    function View(): Db
      reads this
    {
      Db(traces, observations, media)
    }

    constructor ()
      ensures View() == Db(map[], map[], map[])
    {
      traces, observations, media := map[], map[], map[];
    }

    method UpsertTrace(id: string, row: TraceColumns)
      modifies this`traces
      ensures traces == UpsertOne(old(traces), id, row)
    {
      if id in traces {
        var stored := traces[id];
        traces := traces[id := TraceColumns(
          Coalesce(row.sessionId, stored.sessionId), Coalesce(row.userId, stored.userId), Coalesce(row.name, stored.name),
          SqlMin(row.start, stored.start), SqlMax(row.end, stored.end), Coalesce(row.input, stored.input),
          Coalesce(row.output, stored.output), Coalesce(row.metadata, stored.metadata), Coalesce(row.status, stored.status))];
      } else {
        traces := traces[id := row];
      }
    }

    method UpsertObservation(row: (string, Row<ObservationKey, ObservationColumns>))
      modifies this`observations
      ensures observations == Upsert(old(observations), row.0, row.1, MergeObservation)
    {
      if row.0 in observations {
        var stored := observations[row.0];
        observations := observations[row.0 := stored.(columns := MergeObservation(row.1.columns, stored.columns))];
      } else {
        observations := observations[row.0 := row.1];
      }
    }

    method UpsertMedia(row: MediaRow)
      modifies this`media
      ensures media == Upsert(old(media), row.0, row.1, MergeMedia)
    {
      if row.0 in media {
        var stored := media[row.0];
        media := media[row.0 := stored.(columns := MergeMedia(row.1.columns, stored.columns))];
      } else {
        media := media[row.0 := row.1];
      }
    }

    /** The rows of one span's media, written in turn. */
    method UpsertMediaRows(rows: seq<MediaRow>)
      modifies this`media
      ensures media == UpsertAll(old(media), rows, MergeMedia)
    {
      for i := 0 to |rows|
        invariant media == UpsertAll(old(media), rows[..i], MergeMedia)
      {
        assert rows[..i + 1][..i] == rows[..i];
        UpsertMedia(rows[i]);
      }
      assert rows[..|rows|] == rows;
    }

    /** One span: its observation, its media, and the trace it belongs to. */
    method IngestSpan(item: Item, now: int, tracesTouched: map<string, TraceColumns>)
        returns (touched: map<string, TraceColumns>)
      modifies this`observations, this`media
      ensures observations == Upsert(old(observations), ObservationOf(item).0, ObservationOf(item).1, MergeObservation)
      ensures media == UpsertAll(old(media), MediaOf(item, now), MergeMedia)
      ensures touched == tracesTouched[item.span.traceId := Touch(
                if item.span.traceId in tracesTouched then tracesTouched[item.span.traceId] else NOTHING, item)]
    {
      UpsertObservation(ObservationOf(item));
      var rows := ExtractMediaRows(item, now);
      UpsertMediaRows(rows);
      var id := item.span.traceId;
      var prev := if id in tracesTouched then tracesTouched[id] else NOTHING;
      touched := tracesTouched[id := Touch(prev, item)];
    }

    ghost predicate Reached(before: Db, items: seq<Item>, now: int, touched: map<string, TraceColumns>)
      reads this
    {
      && traces == before.traces && touched == Touched(items)
      && observations == UpsertAll(before.observations, Observations(items), MergeObservation)
      && media == UpsertAll(before.media, Media(items, now), MergeMedia)
    }

    method IngestScope(r: Resource, spans: seq<Span>, now: int, tracesTouched: map<string, TraceColumns>,
                       ghost before: Db, ghost done: seq<Item>)
        returns (touched: map<string, TraceColumns>)
      requires Reached(before, done, now, tracesTouched)
      modifies this`observations, this`media
      ensures Reached(before, done + ScopeItems(r, spans), now, touched)
    {
      touched := tracesTouched;
      ghost var items := done;
      assert done + [] == done;
      for i := 0 to |spans|
        invariant items == done + ScopeItems(r, spans[..i])
        invariant Reached(before, items, now, touched)
      {
        var item := Item(r, spans[i]);
        touched := IngestSpan(item, now, touched);
        OneMoreItem(before, items, item, now);
        ScopeStep(done, r, spans, i);
        items := items + [item];
      }
      assert spans[..|spans|] == spans;
    }

    method IngestResource(r: Resource, scopes: seq<seq<Span>>, now: int, tracesTouched: map<string, TraceColumns>,
                          ghost before: Db, ghost done: seq<Item>)
        returns (touched: map<string, TraceColumns>)
      requires Reached(before, done, now, tracesTouched)
      modifies this`observations, this`media
      ensures Reached(before, done + ResourceItems(r, scopes), now, touched)
    {
      touched := tracesTouched;
      ghost var items := done;
      assert done + [] == done;
      for i := 0 to |scopes|
        invariant items == done + ResourceItems(r, scopes[..i])
        invariant Reached(before, items, now, touched)
      {
        touched := IngestScope(r, scopes[i], now, touched, before, items);
        ResourceStep(done, r, scopes, i);
        items := items + ScopeItems(r, scopes[i]);
      }
      assert scopes[..|scopes|] == scopes;
    }

    method Ingest(req: Request, now: int)
      modifies this
      ensures View() == TraceIngest.Ingest(old(View()), req, now)
    {
      ghost var before := View();
      var tracesTouched: map<string, TraceColumns> := map[];
      ghost var items: seq<Item> := [];
      for i := 0 to |req|
        invariant items == Items(req[..i])
        invariant Reached(before, items, now, tracesTouched)
      {
        tracesTouched := IngestResource(req[i].resource, req[i].scopes, now, tracesTouched, before, items);
        assert req[..i + 1][..i] == req[..i];
        items := items + ResourceItems(req[i].resource, req[i].scopes);
      }
      assert req[..|req|] == req;
      WriteTraces(tracesTouched);
    }

    /** The merged rows are written last, one per trace, in whatever order the map gives them. */
    method WriteTraces(touched: map<string, TraceColumns>)
      modifies this`traces
      ensures traces == UpsertMap(old(traces), touched, MergeTrace)
    {
      var ids := touched.Keys;
      ghost var was, written := traces, Written(touched, ids);
      NothingWritten(was);
      while ids != {}
        invariant ids <= touched.Keys && written == Written(touched, ids)
        invariant traces == UpsertMap(was, written, MergeTrace)
        decreases |ids|
      {
        var id :| id in ids;
        OneMoreTrace(was, written, id, touched[id]);
        UpsertTrace(id, touched[id]);
        WrittenStep(touched, ids, id);
        ids := ids - {id};
        written := Written(touched, ids);
      }
      assert Written(touched, {}) == touched;
    }
  }

  /** The rows written when those of ids are still to come. */
  function Written(touched: map<string, TraceColumns>, ids: set<string>): map<string, TraceColumns> {
    touched - ids
  }

  lemma WrittenStep(touched: map<string, TraceColumns>, ids: set<string>, id: string)
    requires id in ids && id in touched
    ensures Written(touched, ids - {id}) == Written(touched, ids)[id := touched[id]] && id !in Written(touched, ids)
  {
  }

  lemma NothingWritten(t: map<string, TraceColumns>)
    ensures UpsertMap(t, map[], MergeTrace) == t
    ensures forall touched: map<string, TraceColumns> :: Written(touched, touched.Keys) == map[]
  {
  }

  lemma ScopeStep(done: seq<Item>, r: Resource, spans: seq<Span>, i: nat)
    requires i < |spans|
    ensures done + ScopeItems(r, spans[..i + 1]) == done + ScopeItems(r, spans[..i]) + [Item(r, spans[i])]
  {
    assert spans[..i + 1][..i] == spans[..i];
  }

  lemma ResourceStep(done: seq<Item>, r: Resource, scopes: seq<seq<Span>>, i: nat)
    requires i < |scopes|
    ensures done + ResourceItems(r, scopes[..i + 1]) == done + ResourceItems(r, scopes[..i]) + ScopeItems(r, scopes[i])
  {
    assert scopes[..i + 1][..i] == scopes[..i];
  }

  function UpsertOne(t: map<string, TraceColumns>, id: string, row: TraceColumns): map<string, TraceColumns> {
    t[id := if id in t then MergeTrace(row, t[id]) else row]
  }

  lemma OneMoreTrace(t: map<string, TraceColumns>, writes: map<string, TraceColumns>, id: string, row: TraceColumns)
    requires id !in writes
    ensures UpsertMap(t, writes[id := row], MergeTrace) == UpsertOne(UpsertMap(t, writes, MergeTrace), id, row)
  {
  }

  /** Pushes a row per medium the span carries. */
  method ExtractMediaRows(item: Item, now: int) returns (rows: seq<MediaRow>)
    ensures rows == MediaOf(item, now)
  {
    var session := SessionIdOf(item);
    var roles := [("user_audio", item.span.userAudio), ("assistant_audio", item.span.assistantAudio), ("video", item.span.userVideo)];
    rows := [];
    for i := 0 to |roles|
      invariant rows == RowsOf(item, session, roles[..i], now)
    {
      assert roles[..i + 1][..i] == roles[..i];
      var m := roles[i].1;
      if !Present(m.path) && !Present(m.url) && !Present(m.langfuseId) {
        continue;
      }
      rows := rows + RoleRow(item, session, roles[i].0, m, now);
    }
    ThreeRoles(item, session, roles, now);
    assert roles[..|roles|] == roles;
    var s := item.span.session;
    var more := SessionRow(item, session, "session_user_audio", "wav_pcm_s16le", s.sampleRate, s.userDuration, s.userPath, now);
    more := more + SessionRow(item, session, "session_assistant_audio", "wav_pcm_s16le", s.sampleRate,
                              s.assistantDuration, s.assistantPath, now);
    more := more + SessionRow(item, session, "session_peaks", "json", s.sampleRate, None, s.peaksPath, now);
    more := more + SessionRow(item, session, "session_thumbnails", "json", None, None, s.thumbnailsPath, now);
    rows := rows + more;
  }

  ghost function RowsOf(item: Item, session: Option<string>, roles: seq<(string, RoleMedia)>, now: int): seq<MediaRow> {
    if roles == [] then []
    else
      var last := roles[|roles| - 1];
      RowsOf(item, session, roles[..|roles| - 1], now) + RoleRow(item, session, last.0, last.1, now)
  }

  lemma ThreeRoles(item: Item, session: Option<string>, roles: seq<(string, RoleMedia)>, now: int)
    requires session == SessionIdOf(item)
    requires roles == [("user_audio", item.span.userAudio), ("assistant_audio", item.span.assistantAudio), ("video", item.span.userVideo)]
    ensures RowsOf(item, session, roles, now) == RoleRows(item, now)
  {
    assert roles[..2][..1] == roles[..1] && roles[..1][..0] == [];
    assert RowsOf(item, session, roles[..1], now) == RoleRow(item, session, "user_audio", item.span.userAudio, now);
    assert RowsOf(item, session, roles[..2], now)
        == RowsOf(item, session, roles[..1], now) + RoleRow(item, session, "assistant_audio", item.span.assistantAudio, now);
  }

  lemma OneMoreItem(db: Db, items: seq<Item>, item: Item, now: int)
    ensures Touched(items + [item]) == Touched(items)[item.span.traceId := Touch(
              if item.span.traceId in Touched(items) then Touched(items)[item.span.traceId] else NOTHING, item)]
    ensures UpsertAll(db.observations, Observations(items + [item]), MergeObservation)
            == Upsert(UpsertAll(db.observations, Observations(items), MergeObservation),
                      ObservationOf(item).0, ObservationOf(item).1, MergeObservation)
    ensures UpsertAll(db.media, Media(items + [item], now), MergeMedia)
            == UpsertAll(UpsertAll(db.media, Media(items, now), MergeMedia), MediaOf(item, now), MergeMedia)
  {
    assert (items + [item])[..|items|] == items;
    var rows := Observations(items);
    assert (rows + [ObservationOf(item)])[..|rows|] == rows;
    UpsertConcat(db.media, Media(items, now), MediaOf(item, now), MergeMedia);
  }
}
