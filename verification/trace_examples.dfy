/** Two requests each, showing what the stored trace row forgets. */
module TraceExamples {
  import opened Options
  import opened TraceIngest
  import opened TraceTheorems

  const NO_MEDIUM := RoleMedia(None, None, None, None, None, None, None, None)
  const NO_SESSION := SessionMedia(None, None, None, None, None, None, None)

  function SpanOf(spanId: string, end: Option<int>, isError: bool): Span {
    Span("t", spanId, None, None, None, Some(1), end, None, isError, None, "{}", None, None, None, None, None, None,
         None, None, None, None, NO_MEDIUM, NO_MEDIUM, NO_MEDIUM, NO_SESSION)
  }

  function RequestOf(span: Span): Request {
    [ResourceSpans(Resource(None, None, None), [[span]])]
  }

  lemma ItemsOfRequest(span: Span)
    ensures Items(RequestOf(span)) == [Item(Resource(None, None, None), span)]
  {
    var r := Resource(None, None, None);
    assert [span][..0] == [] && [[span]][..0] == [] && RequestOf(span)[..0] == [];
    assert ScopeItems(r, [span]) == [Item(r, span)];
    assert ResourceItems(r, [[span]]) == [Item(r, span)];
  }

  lemma TouchesTrace(span: Span)
    requires span.traceId == "t"
    ensures Touches(Items(RequestOf(span)), "t")
  {
    ItemsOfRequest(span);
    assert Item(Resource(None, None, None), span) in Items(RequestOf(span));
  }

  const FAILED := RequestOf(SpanOf("a", Some(2), true))
  const FINE := RequestOf(SpanOf("b", Some(3), false))
  const OPEN := RequestOf(SpanOf("c", None, false))

  /** An error span in the first request, none in the second: the stored status is "ok". */
  lemma LaterRequestClearsError()
    ensures HasError(Items(FAILED), "t")
    ensures var rows := IngestAll(EMPTY, [(FAILED, 1)] + [(FINE, 2)]).traces;
            "t" in rows && rows["t"].status == Some("ok")
  {
    ItemsOfRequest(SpanOf("a", Some(2), true));
    assert Item(Resource(None, None, None), SpanOf("a", Some(2), true)) in Items(FAILED);
    ItemsOfRequest(SpanOf("b", Some(3), false));
    TouchesTrace(SpanOf("b", Some(3), false));
    assert !HasError(Items(FINE), "t");
    StatusIsLastRequests(EMPTY, [(FAILED, 1)], (FINE, 2), "t");
  }

  /** A first request without an end time: the end the second one brings is not stored. */
  lemma LaterEndIsNotStored()
    ensures BringsEnd(FINE, "t")
    ensures var rows := IngestAll(EMPTY, [(OPEN, 1), (FINE, 2)]).traces;
            "t" in rows && rows["t"].end == None
  {
    var reqs: seq<(Request, int)> := [(OPEN, 1), (FINE, 2)];
    ItemsOfRequest(SpanOf("c", None, false));
    ItemsOfRequest(SpanOf("b", Some(3), false));
    TouchesTrace(SpanOf("c", None, false));
    TouchesTrace(SpanOf("b", Some(3), false));
    assert Item(Resource(None, None, None), SpanOf("b", Some(3), false)) in Items(FINE);
    assert !BringsEnd(OPEN, "t");
    assert reqs[..1] == [(OPEN, 1)] && |reqs[..1][..0]| == 0;
    assert !NoneTouches(reqs, "t") && !EachBringsEnd(reqs[..1], "t");
    EndIsKnownExactlyWhen(EMPTY, reqs, "t");
  }
}
