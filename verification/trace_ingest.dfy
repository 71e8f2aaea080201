/** Trace ingest (tracing-collector/src/otlp.ts and db.ts): one pass over the spans of a request,
    then one merge per trace. Attribute decoding is done before: a span carries what is read from it. */
module TraceIngest {
  import opened Options
  import opened Tables

  datatype RoleMedia = RoleMedia(
    path: Option<string>, url: Option<string>, langfuseId: Option<string>, codec: Option<string>,
    sampleRate: Option<int>, bytes: Option<int>, duration: Option<int>, startOffset: Option<int>)

  datatype SessionMedia = SessionMedia(
    sampleRate: Option<int>, userPath: Option<string>, userDuration: Option<int>,
    assistantPath: Option<string>, assistantDuration: Option<int>, peaksPath: Option<string>, thumbnailsPath: Option<string>)

  datatype Span = Span(
    traceId: string, spanId: string, parent: Option<string>, name: Option<string>, kind: Option<string>,
    start: Option<int>, end: Option<int>, statusCode: Option<string>, isError: bool, statusMessage: Option<string>,
    attributes: string, events: Option<string>, observationType: Option<string>, model: Option<string>,
    tokensInput: Option<int>, tokensOutput: Option<int>, tokensCached: Option<int>,
    sessionId: Option<string>, userId: Option<string>, input: Option<string>, output: Option<string>,
    userAudio: RoleMedia, assistantAudio: RoleMedia, userVideo: RoleMedia, session: SessionMedia)

  datatype Resource = Resource(serviceName: Option<string>, sessionId: Option<string>, userId: Option<string>)

  datatype ResourceSpans = ResourceSpans(resource: Resource, scopes: seq<seq<Span>>)

  type Request = seq<ResourceSpans>

  /** A span together with its resource. */
  datatype Item = Item(resource: Resource, span: Span)

  // ---- columns and their merges

  datatype ObservationKey = ObservationKey(
    traceId: string, parent: Option<string>, name: Option<string>, kind: Option<string>,
    observationType: Option<string>, serviceName: Option<string>, start: int)

  datatype ObservationColumns = ObservationColumns(
    end: Option<int>, duration: Option<int>, statusCode: Option<string>, statusMessage: Option<string>,
    attributes: Option<string>, events: Option<string>, model: Option<string>,
    tokensInput: Option<int>, tokensOutput: Option<int>, tokensCached: Option<int>, cost: Option<real>)

  datatype MediaColumns = MediaColumns(
    traceId: Option<string>, sessionId: Option<string>, codec: Option<string>, sampleRate: Option<int>, bytes: Option<int>,
    duration: Option<int>, startOffset: Option<int>, filePath: Option<string>, langfuseId: Option<string>)

  datatype TraceColumns = TraceColumns(
    sessionId: Option<string>, userId: Option<string>, name: Option<string>, start: Option<int>, end: Option<int>,
    input: Option<string>, output: Option<string>, metadata: Option<string>, status: Option<string>)

  datatype Db = Db(
    traces: map<string, TraceColumns>,
    observations: Table<string, ObservationKey, ObservationColumns>,
    media: Table<(string, string), int, MediaColumns>)

  function Coalesce<T>(a: Option<T>, b: Option<T>): Option<T> {
    if a.Some? then a else b
  }

  /** SQLite's scalar MIN and MAX are NULL when any argument is. */
  function SqlMin(a: Option<int>, b: Option<int>): Option<int> {
    if a.None? || b.None? then None else Some(if a.value <= b.value then a.value else b.value)
  }

  function SqlMax(a: Option<int>, b: Option<int>): Option<int> {
    if a.None? || b.None? then None else Some(if a.value >= b.value then a.value else b.value)
  }

  function MergeObservation(excluded: ObservationColumns, stored: ObservationColumns): ObservationColumns {
    ObservationColumns(
      Coalesce(excluded.end, stored.end), Coalesce(excluded.duration, stored.duration),
      Coalesce(excluded.statusCode, stored.statusCode), Coalesce(excluded.statusMessage, stored.statusMessage),
      Coalesce(excluded.attributes, stored.attributes), Coalesce(excluded.events, stored.events),
      Coalesce(excluded.model, stored.model), Coalesce(excluded.tokensInput, stored.tokensInput),
      Coalesce(excluded.tokensOutput, stored.tokensOutput), Coalesce(excluded.tokensCached, stored.tokensCached),
      Coalesce(excluded.cost, stored.cost))
  }

  function MergeMedia(excluded: MediaColumns, stored: MediaColumns): MediaColumns {
    MediaColumns(
      Coalesce(excluded.traceId, stored.traceId), Coalesce(excluded.sessionId, stored.sessionId),
      Coalesce(excluded.codec, stored.codec), Coalesce(excluded.sampleRate, stored.sampleRate),
      Coalesce(excluded.bytes, stored.bytes), Coalesce(excluded.duration, stored.duration),
      Coalesce(excluded.startOffset, stored.startOffset), Coalesce(excluded.filePath, stored.filePath),
      Coalesce(excluded.langfuseId, stored.langfuseId))
  }

  function MergeTrace(excluded: TraceColumns, stored: TraceColumns): TraceColumns {
    TraceColumns(
      Coalesce(excluded.sessionId, stored.sessionId), Coalesce(excluded.userId, stored.userId),
      Coalesce(excluded.name, stored.name), SqlMin(excluded.start, stored.start), SqlMax(excluded.end, stored.end),
      Coalesce(excluded.input, stored.input), Coalesce(excluded.output, stored.output),
      Coalesce(excluded.metadata, stored.metadata), Coalesce(excluded.status, stored.status))
  }

  // ---- what one span writes

  function Duration(s: Span): Option<int> {
    if s.start.None? || s.end.None? then None
    else Some(if s.end.value < s.start.value then 0 else (s.end.value - s.start.value) / 1_000_000)
  }

  function ObservationOf(item: Item): (string, Row<ObservationKey, ObservationColumns>) {
    var s := item.span;
    (s.spanId,
     Row(ObservationKey(s.traceId, s.parent, s.name, s.kind, s.observationType, item.resource.serviceName,
                        if s.start.Some? then s.start.value else 0),
         ObservationColumns(s.end, Duration(s), s.statusCode, s.statusMessage, Some(s.attributes), s.events, s.model,
                            s.tokensInput, s.tokensOutput, s.tokensCached, None)))
  }

  /** Attribute strings that JavaScript takes as true. */
  predicate Present(s: Option<string>) {
    s.Some? && s.value != ""
  }

  type MediaRow = ((string, string), Row<int, MediaColumns>)

  function RoleRow(item: Item, session: Option<string>, kind: string, m: RoleMedia, now: int): seq<MediaRow> {
    if !Present(m.path) && !Present(m.url) && !Present(m.langfuseId) then []
    else
      [((item.span.spanId, kind),
        Row(now, MediaColumns(Some(item.span.traceId), session, m.codec, m.sampleRate, m.bytes, m.duration,
                              Coalesce(m.startOffset, Some(0)), m.path, m.langfuseId)))]
  }

  function SessionRow(item: Item, session: Option<string>, kind: string, codec: string, rate: Option<int>,
                      duration: Option<int>, path: Option<string>, now: int): seq<MediaRow> {
    if !Present(path) then []
    else
      [((item.span.spanId, kind),
        Row(now, MediaColumns(Some(item.span.traceId), session, Some(codec), rate, None, duration, Some(0), path, None)))]
  }

  function SessionIdOf(item: Item): Option<string> {
    Coalesce(item.resource.sessionId, item.span.sessionId)
  }

  function UserIdOf(item: Item): Option<string> {
    Coalesce(item.resource.userId, item.span.userId)
  }

  function RoleRows(item: Item, now: int): seq<MediaRow> {
    var session := SessionIdOf(item);
    RoleRow(item, session, "user_audio", item.span.userAudio, now)
    + RoleRow(item, session, "assistant_audio", item.span.assistantAudio, now)
    + RoleRow(item, session, "video", item.span.userVideo, now)
  }

  function SessionRows(item: Item, now: int): seq<MediaRow> {
    var session, m := SessionIdOf(item), item.span.session;
    SessionRow(item, session, "session_user_audio", "wav_pcm_s16le", m.sampleRate, m.userDuration, m.userPath, now)
    + SessionRow(item, session, "session_assistant_audio", "wav_pcm_s16le", m.sampleRate, m.assistantDuration, m.assistantPath, now)
    + SessionRow(item, session, "session_peaks", "json", m.sampleRate, None, m.peaksPath, now)
    + SessionRow(item, session, "session_thumbnails", "json", None, None, m.thumbnailsPath, now)
  }

  /** extractMediaRows. */
  function MediaOf(item: Item, now: int): seq<MediaRow> {
    RoleRows(item, now) + SessionRows(item, now)
  }

  // ---- the trace row a request builds up

  /** minBigInt and maxBigInt: a missing argument does not count. */
  function MinBigInt(a: Option<int>, b: Option<int>): Option<int> {
    if a.None? then b else if b.None? then a else if a.value < b.value then a else b
  }

  function MaxBigInt(a: Option<int>, b: Option<int>): Option<int> {
    if a.None? then b else if b.None? then a else if a.value > b.value then a else b
  }

  predicate IsRoot(item: Item) {
    item.span.parent.None?
  }

  function NameOf(item: Item): Option<string> {
    if IsRoot(item) then item.span.name else None
  }

  function InputOf(item: Item): Option<string> {
    if IsRoot(item) then item.span.input else None
  }

  function OutputOf(item: Item): Option<string> {
    if IsRoot(item) then item.span.output else None
  }

  const NOTHING := TraceColumns(None, None, None, None, None, None, None, None, None)

  function Touch(prev: TraceColumns, item: Item): TraceColumns {
    TraceColumns(
      Coalesce(prev.sessionId, SessionIdOf(item)), Coalesce(prev.userId, UserIdOf(item)), Coalesce(prev.name, NameOf(item)),
      Coalesce(MinBigInt(prev.start, item.span.start), Some(0)), MaxBigInt(prev.end, item.span.end),
      Coalesce(prev.input, InputOf(item)), Coalesce(prev.output, OutputOf(item)), None,
      if prev.status == Some("error") || item.span.isError then Some("error") else Coalesce(prev.status, Some("ok")))
  }

  /** tracesTouched after the items of a request. */
  function Touched(items: seq<Item>): map<string, TraceColumns> {
    if items == [] then map[]
    else
      var before, last := Touched(items[..|items| - 1]), items[|items| - 1];
      var id := last.span.traceId;
      before[id := Touch(if id in before then before[id] else NOTHING, last)]
  }

  function Observations(items: seq<Item>): seq<(string, Row<ObservationKey, ObservationColumns>)> {
    if items == [] then [] else Observations(items[..|items| - 1]) + [ObservationOf(items[|items| - 1])]
  }

  function Media(items: seq<Item>, now: int): seq<MediaRow> {
    if items == [] then [] else Media(items[..|items| - 1], now) + MediaOf(items[|items| - 1], now)
  }

  // ---- a request

  function ScopeItems(r: Resource, spans: seq<Span>): seq<Item> {
    if spans == [] then [] else ScopeItems(r, spans[..|spans| - 1]) + [Item(r, spans[|spans| - 1])]
  }

  function ResourceItems(r: Resource, scopes: seq<seq<Span>>): seq<Item> {
    if scopes == [] then [] else ResourceItems(r, scopes[..|scopes| - 1]) + ScopeItems(r, scopes[|scopes| - 1])
  }

  function Items(req: Request): seq<Item> {
    if req == [] then []
    else Items(req[..|req| - 1]) + ResourceItems(req[|req| - 1].resource, req[|req| - 1].scopes)
  }

  function IngestItems(db: Db, items: seq<Item>, now: int): Db {
    Db(UpsertMap(db.traces, Touched(items), MergeTrace),
       UpsertAll(db.observations, Observations(items), MergeObservation),
       UpsertAll(db.media, Media(items, now), MergeMedia))
  }

  function Ingest(db: Db, req: Request, now: int): Db {
    IngestItems(db, Items(req), now)
  }
}
