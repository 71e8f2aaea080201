/** Which span a stored column comes from, whatever the order and number of the writes. */
module TraceColumnOrigins {
  import opened Options
  import opened Tables
  import opened TraceIngest
  import opened TraceTheorems

  predicate IsSpan(item: Item, spanId: string) {
    item.span.spanId == spanId
  }

  /** The first item of the span. */
  function First(items: seq<Item>, spanId: string): Option<Item> {
    if items == [] then None
    else
      var before, last := First(items[..|items| - 1], spanId), items[|items| - 1];
      if before.None? && IsSpan(last, spanId) then Some(last) else before
  }

  /** What the last item of the span to supply the value supplies. */
  function Latest<T>(items: seq<Item>, spanId: string, get: Item -> Option<T>): Option<T> {
    if items == [] then None
    else
      var last := items[|items| - 1];
      if IsSpan(last, spanId) && get(last).Some? then get(last) else Latest(items[..|items| - 1], spanId, get)
  }

  // ---- what an item supplies

  function End(item: Item): Option<int> { item.span.end }

  /** Milliseconds, none for a span that ends before it starts. */
  function Lasted(item: Item): Option<int> {
    match (item.span.start, item.span.end)
    case (Some(from), Some(to)) => Some(if from < to then (to - from) / 1_000_000 else 0)
    case _ => None
  }

  function StatusCode(item: Item): Option<string> { item.span.statusCode }
  function StatusMessage(item: Item): Option<string> { item.span.statusMessage }
  function Attributes(item: Item): Option<string> { Some(item.span.attributes) }
  function Events(item: Item): Option<string> { item.span.events }
  function Model(item: Item): Option<string> { item.span.model }
  function TokensInput(item: Item): Option<int> { item.span.tokensInput }
  function TokensOutput(item: Item): Option<int> { item.span.tokensOutput }
  function TokensCached(item: Item): Option<int> { item.span.tokensCached }

  /** Every merged column holds the latest value supplied for it; the cost is never computed. */
  ghost predicate HoldsLatest(c: ObservationColumns, items: seq<Item>, spanId: string) {
    && c.end == Latest(items, spanId, End)
    && c.duration == Latest(items, spanId, Lasted)
    && c.statusCode == Latest(items, spanId, StatusCode)
    && c.statusMessage == Latest(items, spanId, StatusMessage)
    && c.attributes == Latest(items, spanId, Attributes)
    && c.events == Latest(items, spanId, Events)
    && c.model == Latest(items, spanId, Model)
    && c.tokensInput == Latest(items, spanId, TokensInput)
    && c.tokensOutput == Latest(items, spanId, TokensOutput)
    && c.tokensCached == Latest(items, spanId, TokensCached)
    && c.cost == None
  }

  /** The insert-only columns are those of the first item; a missing start is stored as 0. */
  predicate HoldsFirst(k: ObservationKey, item: Item) {
    && k.traceId == item.span.traceId && k.parent == item.span.parent && k.name == item.span.name
    && k.kind == item.span.kind && k.observationType == item.span.observationType
    && k.serviceName == item.resource.serviceName
    && (match item.span.start case Some(start) => k.start == start case None => k.start == 0)
  }

  ghost predicate IsStored(row: Row<ObservationKey, ObservationColumns>, items: seq<Item>, spanId: string) {
    && First(items, spanId).Some? && HoldsFirst(row.fixed, First(items, spanId).value)
    && HoldsLatest(row.columns, items, spanId)
  }

  ghost predicate NothingSupplied(items: seq<Item>, spanId: string) {
    First(items, spanId).None? && HoldsLatest(ObservationColumns(None, None, None, None, None, None, None, None, None, None, None), items, spanId)
  }

  /** One write more, to a row that held the latest values so far or to no row. */
  lemma WriteHoldsLatest(before: ObservationColumns, init: seq<Item>, last: Item)
    requires HoldsLatest(before, init, last.span.spanId)
    ensures HoldsLatest(MergeObservation(ObservationOf(last).1.columns, before), init + [last], last.span.spanId)
  {
    assert (init + [last])[..|init|] == init;
  }

  lemma OtherWriteHoldsLatest(c: ObservationColumns, init: seq<Item>, last: Item, spanId: string)
    requires HoldsLatest(c, init, spanId) && !IsSpan(last, spanId)
    ensures HoldsLatest(c, init + [last], spanId)
  {
    assert (init + [last])[..|init|] == init;
  }

  lemma {:induction false} ObservationsHold(items: seq<Item>, spanId: string)
    ensures var rows := UpsertAll(map[], Observations(items), MergeObservation);
            if spanId in rows then IsStored(rows[spanId], items, spanId) else NothingSupplied(items, spanId)
  {
    if items != [] {
      var init, last := items[..|items| - 1], items[|items| - 1];
      assert items == init + [last];
      var rows, id := UpsertAll(map[], Observations(init), MergeObservation), last.span.spanId;
      assert Observations(items)[..|Observations(init)|] == Observations(init);
      ObservationsHold(init, spanId);
      var before := if spanId in rows then rows[spanId].columns
                    else ObservationColumns(None, None, None, None, None, None, None, None, None, None, None);
      if IsSpan(last, spanId) {
        WriteHoldsLatest(before, init, last);
      } else {
        OtherWriteHoldsLatest(before, init, last, spanId);
      }
    }
  }

  lemma {:induction false} ObservationsConcat(xs: seq<Item>, ys: seq<Item>)
    ensures Observations(xs + ys) == Observations(xs) + Observations(ys)
  {
    if ys == [] {
      assert xs + ys == xs;
    } else {
      assert (xs + ys)[..|xs + ys| - 1] == xs + ys[..|ys| - 1];
      ObservationsConcat(xs, ys[..|ys| - 1]);
    }
  }

  lemma {:induction false} RequestsConcat(reqs: seq<(Request, int)>)
    ensures IngestAll(EMPTY, reqs).observations == UpsertAll(map[], Observations(AllItems(reqs)), MergeObservation)
  {
    if reqs != [] {
      var init, items := reqs[..|reqs| - 1], Items(reqs[|reqs| - 1].0);
      RequestsConcat(init);
      ObservationsConcat(AllItems(init), items);
      UpsertConcat(map[], Observations(AllItems(init)), Observations(items), MergeObservation);
    }
  }

  /** Over every sequence of requests: a stored observation has the insert-only columns of its span's
      first item and, in each other column, the value of the last item that supplies one; a span of
      which nothing arrived has no row. */
  lemma StoredObservationsHold(reqs: seq<(Request, int)>, spanId: string)
    ensures var rows := IngestAll(EMPTY, reqs).observations;
            if spanId in rows then IsStored(rows[spanId], AllItems(reqs), spanId)
            else First(AllItems(reqs), spanId).None?
  {
    RequestsConcat(reqs);
    ObservationsHold(AllItems(reqs), spanId);
  }

  // ---- media

  /** What the last write to the key to supply the value supplies. */
  function LatestWrite<T>(rows: seq<MediaRow>, key: (string, string), get: MediaColumns -> Option<T>): Option<T> {
    if rows == [] then None
    else
      var last := rows[|rows| - 1];
      if last.0 == key && get(last.1.columns).Some? then get(last.1.columns) else LatestWrite(rows[..|rows| - 1], key, get)
  }

  function MediaTrace(c: MediaColumns): Option<string> { c.traceId }
  function MediaSession(c: MediaColumns): Option<string> { c.sessionId }
  function Codec(c: MediaColumns): Option<string> { c.codec }
  function SampleRate(c: MediaColumns): Option<int> { c.sampleRate }
  function Bytes(c: MediaColumns): Option<int> { c.bytes }
  function MediaLasted(c: MediaColumns): Option<int> { c.duration }
  function StartOffset(c: MediaColumns): Option<int> { c.startOffset }
  function FilePath(c: MediaColumns): Option<string> { c.filePath }
  function LangfuseId(c: MediaColumns): Option<string> { c.langfuseId }

  ghost predicate HoldsLatestWrite(c: MediaColumns, rows: seq<MediaRow>, key: (string, string)) {
    && c.traceId == LatestWrite(rows, key, MediaTrace) && c.sessionId == LatestWrite(rows, key, MediaSession)
    && c.codec == LatestWrite(rows, key, Codec) && c.sampleRate == LatestWrite(rows, key, SampleRate)
    && c.bytes == LatestWrite(rows, key, Bytes) && c.duration == LatestWrite(rows, key, MediaLasted)
    && c.startOffset == LatestWrite(rows, key, StartOffset) && c.filePath == LatestWrite(rows, key, FilePath)
    && c.langfuseId == LatestWrite(rows, key, LangfuseId)
  }

  const NO_MEDIA := MediaColumns(None, None, None, None, None, None, None, None, None)

  /** A re-emitted medium keeps what the new write leaves out, column by column, and its creation time. */
  lemma {:induction false} MediaHold(rows: seq<MediaRow>, key: (string, string))
    ensures var stored := UpsertAll(map[], rows, MergeMedia);
            && HoldsLatestWrite(if key in stored then stored[key].columns else NO_MEDIA, rows, key)
            && (key in stored <==> FirstFixed(rows, key).Some?)
            && (key in stored ==> stored[key].fixed == FirstFixed(rows, key).value)
  {
    if rows != [] { MediaHold(rows[..|rows| - 1], key); }
  }

  // ---- trace columns that spans supply

  /** What the first item of the trace to supply the value supplies. */
  function FirstSupplied(items: seq<Item>, id: string, get: Item -> Option<string>): Option<string> {
    if items == [] then None
    else
      var before, last := FirstSupplied(items[..|items| - 1], id, get), items[|items| - 1];
      if before.None? && Of(last, id) then get(last) else before
  }

  ghost predicate HoldsFirstSupplied(c: TraceColumns, items: seq<Item>, id: string) {
    && c.sessionId == FirstSupplied(items, id, SessionIdOf) && c.userId == FirstSupplied(items, id, UserIdOf)
    && c.name == FirstSupplied(items, id, NameOf)
    && c.input == FirstSupplied(items, id, InputOf) && c.output == FirstSupplied(items, id, OutputOf)
  }

  /** Within a request the first value supplied wins. */
  lemma {:induction false} TouchedHoldsFirst(items: seq<Item>, id: string)
    ensures HoldsFirstSupplied(if id in Touched(items) then Touched(items)[id] else NOTHING, items, id)
  {
    if items != [] { TouchedHoldsFirst(items[..|items| - 1], id); }
  }

  /** The value of the last request that supplies one. */
  function LastRequest(reqs: seq<(Request, int)>, id: string, get: Item -> Option<string>): Option<string> {
    if reqs == [] then None
    else
      Coalesce(FirstSupplied(Items(reqs[|reqs| - 1].0), id, get), LastRequest(reqs[..|reqs| - 1], id, get))
  }

  ghost predicate HoldsLastRequest(c: TraceColumns, reqs: seq<(Request, int)>, id: string) {
    && c.sessionId == LastRequest(reqs, id, SessionIdOf) && c.userId == LastRequest(reqs, id, UserIdOf)
    && c.name == LastRequest(reqs, id, NameOf)
    && c.input == LastRequest(reqs, id, InputOf) && c.output == LastRequest(reqs, id, OutputOf)
  }

  /** Between requests the last request to supply a value wins. */
  lemma {:induction false} StoredTracesHold(reqs: seq<(Request, int)>, id: string)
    ensures var rows := IngestAll(EMPTY, reqs).traces;
            HoldsLastRequest(if id in rows then rows[id] else NOTHING, reqs, id)
  {
    if reqs != [] {
      StoredTracesHold(reqs[..|reqs| - 1], id);
      TouchedHoldsFirst(Items(reqs[|reqs| - 1].0), id);
    }
  }
}
