/**
 * The stream plumbing both proxy handlers share: buffering the caller's
 * frames, the two forwarding loops and the loop that joins their results.
 * A stream is seen as the frames it yields followed by the error that ends
 * it; the other side's writes are seen as a sink that accepts a number of
 * writes and then fails.
 */
module Relay {
  import opened Wrappers
  import opened Types
  import opened Metadata

  /** The error that ends a stream: io.EOF, or anything else. */
  datatype StreamErr = EOF | Broken(reason: string)

  /** What a receiving loop will read: `frames`, then `end` for ever after. */
  datatype Inbound = Inbound(frames: seq<Bytes>, end: StreamErr)

  /** A writing side: writes succeed until `failAt` of them have been done, then fail with `err`. */
  datatype Sink = Sink(failAt: Option<nat>, err: StreamErr)

  /** The write number `i` (from 0) fails. */
  predicate FailsAt(sink: Sink, i: nat)
  {
    sink.failAt == Some(i)
  }

  /** How many of `n` attempted writes succeed. */
  function Accepted(sink: Sink, n: nat): (k: nat)
    ensures k <= n
    ensures k < n ==> FailsAt(sink, k)
  {
    if sink.failAt.Some? && sink.failAt.value < n then sink.failAt.value else n
  }

  /** The payload the buffering loop keeps: the last frame, or nothing if none arrived. */
  function LastFrame(frames: seq<Bytes>): (b: Bytes)
    ensures frames != [] ==> b == frames[|frames| - 1]
    ensures frames == [] ==> b == []
  {
    if frames == [] then [] else frames[|frames| - 1]
  }

  /** The receive loop before matching: reads until the first error, keeping the last payload. */
  method Drain(inbound: Inbound) returns (req: Bytes, recvs: nat)
    ensures req == LastFrame(inbound.frames)
    ensures recvs == |inbound.frames| + 1
  {
    req := [];
    var i := 0;
    while true
      invariant i <= |inbound.frames|
      invariant req == LastFrame(inbound.frames[..i])
      decreases |inbound.frames| - i
    {
      if i == |inbound.frames| {
        break;
      }
      assert inbound.frames[..i + 1][..i] == inbound.frames[..i];
      req := inbound.frames[i];
      i := i + 1;
    }
    assert inbound.frames[..i] == inbound.frames;
    recvs := i + 1;
  }

  /** What forwardClientToServer does: the frames sent to the backend and the error it reports. */
  datatype Forwarded = Forwarded(sent: seq<Bytes>, result: StreamErr)

  /**
   * forwardClientToServer: the buffered request goes first, then every
   * further frame read from the caller, in order, up to the first failed
   * write or read.
   */
  function ClientToServer(req: Bytes, rest: Inbound, backend: Sink): (f: Forwarded)
    ensures var all := [req] + rest.frames;
      var k := Accepted(backend, |all|);
      f.sent == all[..k] &&
      (k < |all| ==> f.result == backend.err) &&
      (k == |all| ==> f.result == rest.end)
    ensures |f.sent| >= 1 || FailsAt(backend, 0)
  {
    var all := [req] + rest.frames;
    var k := Accepted(backend, |all|);
    if k < |all| then Forwarded(all[..k], backend.err) else Forwarded(all, rest.end)
  }

  method ForwardClientToServer(req: Bytes, rest: Inbound, backend: Sink) returns (f: Forwarded)
    ensures f == ClientToServer(req, rest, backend)
  {
    var frame := req;
    var sent: seq<Bytes> := [];
    var i := 0;
    while true
      invariant i <= |rest.frames|
      invariant sent == ([req] + rest.frames)[..i]
      invariant frame == ([req] + rest.frames)[i]
      invariant forall j :: 0 <= j < i ==> !FailsAt(backend, j)
      decreases |rest.frames| - i
    {
      if FailsAt(backend, i) {
        return Forwarded(sent, backend.err);
      }
      sent := sent + [frame];
      if i == |rest.frames| {
        assert sent == [req] + rest.frames;
        return Forwarded(sent, rest.end);
      }
      frame := rest.frames[i];
      i := i + 1;
    }
  }

  /** What the caller sees of the backend's answer. */
  datatype Event = Header(md: MD) | Message(payload: Bytes) | Trailer(md: MD) | MockMsg(resp: Option<Msg>)

  function Messages(frames: seq<Bytes>): (es: seq<Event>)
    ensures |es| == |frames|
    ensures forall i :: 0 <= i < |frames| ==> es[i] == Message(frames[i])
  {
    if frames == [] then [] else [Message(frames[0])] + Messages(frames[1..])
  }

  /** The backend's reply: its header (or the error reading it) and its frames. */
  datatype Reply = Reply(header: Result<MD, StreamErr>, body: Inbound)

  datatype Relayed = Relayed(events: seq<Event>, result: StreamErr)

  /**
   * forwardServerToClient: once the first frame has arrived, the backend's
   * header is sent, then every frame in order, up to the first failure.
   */
  function ServerToClient(reply: Reply, caller: Sink): (r: Relayed)
  {
    if reply.body.frames == [] then Relayed([], reply.body.end)
    else if reply.header.Err? then Relayed([], reply.header.error)
    else
      var all := [Header(reply.header.value)] + Messages(reply.body.frames);
      var k := Accepted(caller, |all|);
      if k < |all| then Relayed(all[..k], caller.err) else Relayed(all, reply.body.end)
  }

  /** The header is sent at most once, and before any message. */
  lemma HeaderFirst(reply: Reply, caller: Sink)
    ensures var es := ServerToClient(reply, caller).events;
      (forall i :: 0 < i < |es| ==> es[i].Message?) &&
      (es != [] ==> es[0].Header?) &&
      (forall i :: 0 <= i < |es| && es[i].Message? ==> es[0].Header?)
    ensures forall i :: 0 <= i < |ServerToClient(reply, caller).events| ==>
      ServerToClient(reply, caller).events[i] != Trailer(map[])
  {
    var es := ServerToClient(reply, caller).events;
    if reply.body.frames != [] && reply.header.Ok? {
      var all := [Header(reply.header.value)] + Messages(reply.body.frames);
      assert forall i :: 0 < i < |all| ==> all[i] == Message(reply.body.frames[i - 1]);
    }
  }

  /** The frames are relayed in order: message `i` the caller gets is backend frame `i`. */
  lemma RelayInOrder(reply: Reply, caller: Sink)
    ensures var es := ServerToClient(reply, caller).events;
      forall i :: 1 <= i < |es| ==> es[i] == Message(reply.body.frames[i - 1])
  {
    if reply.body.frames != [] && reply.header.Ok? {
      var all := [Header(reply.header.value)] + Messages(reply.body.frames);
      assert forall i :: 1 <= i < |all| ==> all[i] == Message(reply.body.frames[i - 1]);
    }
  }

  method ForwardServerToClient(reply: Reply, caller: Sink) returns (r: Relayed)
    ensures r == ServerToClient(reply, caller)
  {
    var frames := reply.body.frames;
    var events: seq<Event> := [];
    var i := 0;
    while true
      invariant i <= |frames|
      invariant i == 0 ==> events == []
      invariant i > 0 ==> reply.header.Ok?
      invariant i > 0 ==> events == ([Header(reply.header.value)] + Messages(frames))[..i + 1]
      invariant i > 0 ==> forall j :: 0 <= j <= i ==> !FailsAt(caller, j)
      decreases |frames| - i
    {
      if i == |frames| {
        if i > 0 {
          assert events == [Header(reply.header.value)] + Messages(frames);
        }
        return Relayed(events, reply.body.end);
      }
      if i == 0 {
        if reply.header.Err? {
          return Relayed(events, reply.header.error);
        }
        if FailsAt(caller, 0) {
          return Relayed(events, caller.err);
        }
        events := events + [Header(reply.header.value)];
      }
      ghost var all := [Header(reply.header.value)] + Messages(frames);
      if FailsAt(caller, i + 1) {
        assert events == all[..i + 1];
        return Relayed(events, caller.err);
      }
      assert all[..i + 2] == all[..i + 1] + [Message(frames[i])];
      events := events + [Message(frames[i])];
      i := i + 1;
    }
  }

  /** One of the two results the join loop waits for. */
  datatype Arrival = FromCaller(c2b: StreamErr) | FromBackend(b2c: StreamErr)

  /** What the handler returns to gRPC. */
  datatype CallStatus =
    | StatusOK
    | Internal(reason: string)
    | NotFound(reason: string)
    | Raised(err: StreamErr)  // an error passed through unchanged
    | Panic                   // the handler goroutine panics instead of returning

  const NeverReached := "gRPC proxying should never reach this stage."

  datatype Joined = Joined(status: CallStatus, closedSend: bool, cancelled: bool, trailerSet: bool)

  /** Exactly one result from each direction, in the order they arrive. */
  predicate OnePerSide(arrivals: seq<Arrival>)
  {
    |arrivals| == 2 && (arrivals[0].FromCaller? <==> arrivals[1].FromBackend?)
  }

  /**
   * The join: a caller-side EOF closes the send side and keeps waiting; any
   * other caller-side error cancels the backend call and fails with
   * Internal; the backend side's result sets the trailer and ends the call,
   * successfully on EOF and with that error otherwise.
   */
  function JoinSpec(arrivals: seq<Arrival>): (j: Joined)
    requires OnePerSide(arrivals)
    ensures j.status != Internal(NeverReached)
    ensures j.status == StatusOK ==> j.trailerSet && !j.cancelled
    ensures j.cancelled <==> j.status.Internal?
  {
    var first := arrivals[0];
    var second := arrivals[1];
    match first
    case FromBackend(e) => Joined(if e == EOF then StatusOK else Raised(e), false, false, true)
    case FromCaller(e) =>
      if e != EOF then Joined(Internal("failed proxying s2c"), false, true, false)
      else
        var e2 := second.b2c;
        Joined(if e2 == EOF then StatusOK else Raised(e2), true, false, true)
  }

  method Join(arrivals: seq<Arrival>) returns (j: Joined)
    requires OnePerSide(arrivals)
    ensures j == JoinSpec(arrivals)
  {
    var closedSend := false;
    var i := 0;
    while i < 2
      invariant 0 <= i <= 2
      invariant closedSend <==> i > 0
      invariant i > 0 ==> arrivals[0] == FromCaller(EOF)
      invariant i > 1 ==> arrivals[1] == FromCaller(EOF)
    {
      var a := arrivals[i];
      if a.FromBackend? {
        return Joined(if a.b2c == EOF then StatusOK else Raised(a.b2c), closedSend, false, true);
      }
      if a.c2b != EOF {
        return Joined(Internal("failed proxying s2c"), closedSend, true, false);
      }
      closedSend := true;
      i := i + 1;
    }
    // Both results came from the caller's side: impossible with one per side.
    assert false;
    j := Joined(Internal(NeverReached), closedSend, false, false);
  }

  /** The header a mocked answer carries. */
  const MockHeader: MD := map["mock" := ["matched"]]

  /** What the caller sees of a mocked answer: an empty trailer, the mock header, then the response once. */
  function MockEvents(resp: Option<Msg>): (es: seq<Event>)
    ensures |es| == 3 && es[0] == Trailer(map[]) && es[1] == Header(MockHeader) && es[2] == MockMsg(resp)
  {
    [Trailer(map[]), Header(MockHeader), MockMsg(resp)]
  }

  /**
   * The backend side of a proxied call: whether NewClientStream fails, how
   * many writes the backend accepts, what it answers, its trailer, and
   * which of the two forwarding results reaches the join loop first.
   */
  datatype Backend = Backend(openErr: Option<string>, sink: Sink, reply: Reply, trailer: MD, backendFirst: bool)

  datatype Proxied = Proxied(
    status: CallStatus, streamOpened: bool, toCaller: seq<Event>, toBackend: seq<Bytes>, closedSend: bool, cancelled: bool)

  /** The order in which the join loop receives the two results. */
  function Arrivals(c2b: StreamErr, b2c: StreamErr, backendFirst: bool): (a: seq<Arrival>)
    ensures OnePerSide(a)
  {
    if backendFirst then [FromBackend(b2c), FromCaller(c2b)] else [FromCaller(c2b), FromBackend(b2c)]
  }

  /**
   * The proxy phase once the caller's frames are drained: open the backend
   * stream, run both directions, join.  The caller's stream has already
   * reported `callerEnd`, so the forwarding loop reads it again at once.
   */
  function ProxySpec(req: Bytes, callerEnd: StreamErr, callerSink: Sink, backend: Backend): (p: Proxied)
    ensures p.status != Internal(NeverReached)
    ensures !p.streamOpened ==> p.toCaller == [] && p.toBackend == []
  {
    if backend.openErr.Some? then Proxied(Raised(Broken(backend.openErr.value)), false, [], [], false, false)
    else
      var c2b := ClientToServer(req, Inbound([], callerEnd), backend.sink);
      var b2c := ServerToClient(backend.reply, callerSink);
      var j := JoinSpec(Arrivals(c2b.result, b2c.result, backend.backendFirst));
      Proxied(j.status, true, b2c.events + (if j.trailerSet then [Trailer(backend.trailer)] else []),
              c2b.sent, j.closedSend, j.cancelled)
  }

  /** The frames drained before matching are gone: only the last of them reaches the backend. */
  lemma OnlyLastFrameForwarded(req: Bytes, callerEnd: StreamErr, callerSink: Sink, backend: Backend)
    requires backend.openErr.None?
    ensures var p := ProxySpec(req, callerEnd, callerSink, backend);
      (p.toBackend == [req] <==> !FailsAt(backend.sink, 0)) &&
      (p.toBackend == [] <==> FailsAt(backend.sink, 0))
  {
    var c2b := ClientToServer(req, Inbound([], callerEnd), backend.sink);
    assert [req] + [] == [req];
  }

  /** A proxied call succeeds exactly when the backend side ends with EOF and the caller side did not fail first. */
  lemma ProxySucceeds(req: Bytes, callerEnd: StreamErr, callerSink: Sink, backend: Backend)
    requires backend.openErr.None?
    ensures var c2b := ClientToServer(req, Inbound([], callerEnd), backend.sink);
      var b2c := ServerToClient(backend.reply, callerSink);
      ProxySpec(req, callerEnd, callerSink, backend).status == StatusOK <==>
        b2c.result == EOF && (backend.backendFirst || c2b.result == EOF)
  {
  }

  method ProxyCall(req: Bytes, callerEnd: StreamErr, callerSink: Sink, backend: Backend) returns (p: Proxied)
    ensures p == ProxySpec(req, callerEnd, callerSink, backend)
  {
    if backend.openErr.Some? {
      return Proxied(Raised(Broken(backend.openErr.value)), false, [], [], false, false);
    }
    var c2b := ForwardClientToServer(req, Inbound([], callerEnd), backend.sink);
    var b2c := ForwardServerToClient(backend.reply, callerSink);
    var j := Join(Arrivals(c2b.result, b2c.result, backend.backendFirst));
    var toCaller := b2c.events;
    if j.trailerSet {
      toCaller := toCaller + [Trailer(backend.trailer)];
    }
    p := Proxied(j.status, true, toCaller, c2b.sent, j.closedSend, j.cancelled);
  }
}
