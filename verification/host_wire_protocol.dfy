/** The frame in which a Desktop Host sends one event (relay-server/src/desktop-host/host-wire-protocol.ts,
    isInvocationEventFrame), as the untyped value that arrives on the socket. */
module HostWireProtocol {
  import opened Json
  import opened Options
  import opened HarnessStream

  const FRAME_KEYS := {"version", "type", "event"}
  const FRAME_TYPE := "host.invocation.event"

  function Frame(e: Event): Json {
    Obj(map["version" := Number(1.0), "type" := Str(FRAME_TYPE), "event" := Encode(e)])
  }

  /** The frame's own keys, version and type. */
  predicate HasFrameHead(frame: Json) {
    && IsExactRecord(frame, FRAME_KEYS)
    && frame.fields["version"] == Number(1.0)
    && frame.fields["type"] == Str(FRAME_TYPE)
  }

  lemma FramedEvent(frame: Json)
    requires HasFrameHead(frame) && IsHarnessExecutionEvent(frame.fields["event"])
    ensures frame == Frame(Decode(frame.fields["event"]))
  {
    AcceptedIsEncoding(frame.fields["event"]);
    assert frame.fields == Frame(Decode(frame.fields["event"])).fields;
  }

  lemma FrameIsRead(e: Event)
    requires FrameAdmits(e)
    ensures HasFrameHead(Frame(e)) && IsHarnessExecutionEvent(Frame(e).fields["event"])
    ensures Decode(Frame(e).fields["event"]) == e
  {
    FrameAdmitsWhen(e);
    ShapeCheckIsWellFormedness(e);
    assert Frame(e).fields.Keys == FRAME_KEYS;
  }

  /** A frame carries no admissible event but the one it decodes to. */
  lemma NoOtherEvent(frame: Json)
    ensures forall e | FrameAdmits(e) && frame == Frame(e) ::
              HasFrameHead(frame) && IsHarnessExecutionEvent(frame.fields["event"])
              && Decode(frame.fields["event"]) == e
  {
    forall e | FrameAdmits(e) && frame == Frame(e)
      ensures HasFrameHead(frame) && IsHarnessExecutionEvent(frame.fields["event"])
      ensures Decode(frame.fields["event"]) == e
    {
      FrameIsRead(e);
    }
  }

  /** Takes exactly the frames that carry an event which can end a stream, or be followed by the
      end of one. */
  method ReadEventFrame(frame: Json) returns (event: Option<Event>)
    ensures event.Some? ==> FrameAdmits(event.value) && frame == Frame(event.value)
    ensures event.None? ==> forall e | FrameAdmits(e) :: frame != Frame(e)
  {
    NoOtherEvent(frame);
    if !HasFrameHead(frame) || !IsHarnessExecutionEvent(frame.fields["event"]) { return None; }
    FramedEvent(frame);
    var e := Decode(frame.fields["event"]);
    var ok := IsValidStream(CompletedToStream(e));
    return if ok then Some(e) else None;
  }
}
