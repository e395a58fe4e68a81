/** One WebTransport stream: the send and receive state machines of sections 3.1 and 3.2 of RFC 9000,
    with a write buffer metered by session credit and a queue of pending reads. */
module Streams {
  import opened Types
  import ErrorCodes

  datatype SendState = Ready | DataSent | DataAcked | ResetSent
  datatype ReceiveState = Receiving | AllReceived | AllRead | ResetRead

  datatype Chunk = Chunk(data: Bytes, request: RequestId, fin: bool)
  datatype PendingRead = PendingRead(request: RequestId, maxSize: nat)

  /** The sending half. `size` is a machine word in the source; it is an `int` here so that the
      subtraction in Flush is total, and `SendInv` shows that it never goes negative. */
  datatype SendHalf = SendHalf(
    state: Option<SendState>,
    error: Option<ErrorCode>,
    buffer: seq<Chunk>,
    size: int,
    pending: Option<RequestId>)

  datatype ReceiveHalf = ReceiveHalf(
    state: Option<ReceiveState>,
    error: Option<ErrorCode>,
    waiting: seq<PendingRead>)

  datatype StreamVal = StreamVal(
    id: StreamId,
    direction: Direction,
    peerInitiated: bool,
    maxWriteBufferSize: nat,
    send: SendHalf,
    receive: ReceiveHalf)

  /** A half after an operation, the effects to perform, and the session credit consumed. */
  datatype SendOutcome = SendOutcome(h: SendHalf, fx: seq<Effect>, sent: nat)
  datatype ReceiveOutcome = ReceiveOutcome(h: ReceiveHalf, fx: seq<Effect>)
  datatype Outcome = Outcome(st: StreamVal, fx: seq<Effect>, sent: nat)

  function NewStream(id: StreamId, direction: Direction, peerInitiated: bool, maxWriteBufferSize: nat): StreamVal {
    StreamVal(id, direction, peerInitiated, maxWriteBufferSize,
              SendHalf(if direction != ReceiveOnly then Some(Ready) else None, None, [], 0, None),
              ReceiveHalf(if direction != SendOnly then Some(Receiving) else None, None, []))
  }

  function ReadRequests(waiting: seq<PendingRead>): (rs: seq<RequestId>)
    ensures |rs| == |waiting|
    ensures forall i :: 0 <= i < |rs| ==> rs[i] == waiting[i].request
  {
    seq(|waiting|, i requires 0 <= i < |waiting| => waiting[i].request)
  }

  function ChunkRequests(buffer: seq<Chunk>): (rs: seq<RequestId>)
    ensures |rs| == |buffer|
    ensures forall i :: 0 <= i < |rs| ==> rs[i] == buffer[i].request
  {
    seq(|buffer|, i requires 0 <= i < |buffer| => buffer[i].request)
  }

  /** Is the write in flight the last part of its request? */
  predicate InFlightIsLast(h: SendHalf)
    requires h.pending.Some?
  {
    h.buffer == [] || h.buffer[0].request != h.pending.value
  }

  predicate SendBlocked(h: SendHalf) {
    h.pending.None? && h.buffer != []
  }

  predicate SendTerminated(h: SendHalf) {
    h.state == None || h.state == Some(DataAcked) || h.state == Some(ResetSent)
  }

  predicate ReceiveTerminated(h: ReceiveHalf) {
    h.state == None || h.state == Some(AllRead) || h.state == Some(ResetRead)
  }

  predicate IsBlocked(st: StreamVal) {
    SendBlocked(st.send)
  }

  predicate IsClosed(st: StreamVal) {
    ReceiveTerminated(st.receive) && SendTerminated(st.send)
  }

  // ----- the sending half

  function Flush(h: SendHalf, id: StreamId, credit: nat): SendOutcome {
    if h.pending.Some? || h.state != Some(Ready) || h.buffer == [] then SendOutcome(h, [], 0)
    else
      var front := h.buffer[0];
      if |front.data| > 0 && credit == 0 then SendOutcome(h, [], 0)
      else if |front.data| <= credit then
        SendOutcome(h.(buffer := h.buffer[1..],
                       size := h.size - |front.data|,
                       pending := Some(front.request),
                       state := if front.fin then Some(DataSent) else h.state),
                    [SendQuicData(id, front.data, front.fin)], |front.data|)
      else
        SendOutcome(h.(buffer := [front.(data := front.data[credit..])] + h.buffer[1..],
                       size := h.size - credit,
                       pending := Some(front.request)),
                    [SendQuicData(id, front.data[..credit], false)], credit)
  }

  /** Does the stream still take writes: open, with no FIN queued? */
  predicate TakesWrites(h: SendHalf) {
    h.state == Some(Ready) && (h.buffer == [] || !h.buffer[|h.buffer| - 1].fin)
  }

  function Enqueue(h: SendHalf, chunk: Chunk): SendHalf {
    h.(buffer := h.buffer + [chunk], size := h.size + |chunk.data|)
  }

  function SendWrite(h: SendHalf, id: StreamId, limit: nat, chunk: Chunk, credit: nat): SendOutcome {
    if h.state.None? then SendOutcome(h, [Failed(chunk.request, Some(ERR_LIB_STREAM_STATE_ERROR))], 0)
    else if !TakesWrites(h) then
      if chunk.data == [] && chunk.fin then SendOutcome(h, [Done(chunk.request, Nothing)], 0)
      else SendOutcome(h, [Failed(chunk.request, Some(ERR_LIB_STREAM_STATE_ERROR))], 0)
    else if h.size + |chunk.data| > limit then
      SendOutcome(h, [Failed(chunk.request, Some(ERR_LIB_STREAM_STATE_ERROR))], 0)
    else Flush(Enqueue(h, chunk), id, credit)
  }

  function SendComplete(h: SendHalf, id: StreamId, credit: nat): SendOutcome {
    if h.pending.None? then SendOutcome(h, [], 0)
    else
      var done := if InFlightIsLast(h) then [Done(h.pending.value, Nothing)] else [];
      var o := Flush(h.(pending := None), id, credit);
      o.(fx := done + o.fx)
  }

  function SendAcknowledge(h: SendHalf): SendHalf {
    if h.state == Some(DataSent) then h.(state := Some(DataAcked)) else h
  }

  function SendReset(h: SendHalf, id: StreamId, code: Option<ErrorCode>, http: ErrorCode): SendOutcome {
    if SendTerminated(h) then SendOutcome(h, [], 0)
    else
      var inFlight := if h.pending.Some? && InFlightIsLast(h) then [Failed(h.pending.value, code)] else [];
      SendOutcome(SendHalf(Some(ResetSent), code, [], 0, None),
                  [ResetQuicStream(id, http)] + inFlight + FailAll(ChunkRequests(h.buffer), code), 0)
  }

  // ----- the receiving half

  function ReceiveRead(h: ReceiveHalf, id: StreamId, request: RequestId, maxSize: nat): ReceiveOutcome {
    match h.state
    case None => ReceiveOutcome(h, [Failed(request, Some(ERR_LIB_STREAM_STATE_ERROR))])
    case Some(ResetRead) => ReceiveOutcome(h, [Failed(request, h.error)])
    case Some(state) =>
      if state == Receiving && maxSize > 0 then
        ReceiveOutcome(h.(waiting := h.waiting + [PendingRead(request, maxSize)]),
                       if h.waiting == [] then [ReceiveQuicData(id, maxSize)] else [])
      else
        ReceiveOutcome(if state == AllReceived && maxSize > 0 then h.(state := Some(AllRead)) else h,
                       [Done(request, ReadData([]))])
  }

  /** The empty results that end of stream gives to the reads still waiting. */
  function EndReads(waiting: seq<PendingRead>): (fx: seq<Effect>)
    ensures |fx| == |waiting|
    ensures forall i :: 0 <= i < |fx| ==> fx[i] == Done(waiting[i].request, ReadData([]))
  {
    if waiting == [] then [] else [Done(waiting[0].request, ReadData([]))] + EndReads(waiting[1..])
  }

  function ReceiveBytes(h: ReceiveHalf, id: StreamId, data: Bytes, fin: bool): ReceiveOutcome {
    if h.state != Some(Receiving) then ReceiveOutcome(h, [])
    else
      var served := if h.waiting == [] then [] else [Done(h.waiting[0].request, ReadData(data))];
      var rest := if h.waiting == [] then [] else h.waiting[1..];
      if fin then
        var readToEnd := (h.waiting != [] && data == []) || rest != [];
        ReceiveOutcome(h.(waiting := [], state := Some(if readToEnd then AllRead else AllReceived)),
                       served + EndReads(rest))
      else
        ReceiveOutcome(h.(waiting := rest),
                       served + (if rest == [] then [] else [ReceiveQuicData(id, rest[0].maxSize)]))
  }

  function ReceiveReset(h: ReceiveHalf, id: StreamId, http: ErrorCode): ReceiveOutcome {
    if ReceiveTerminated(h) then ReceiveOutcome(h, [])
    else
      var code := ErrorCodes.FromHttp(http);
      ReceiveOutcome(ReceiveHalf(Some(ResetRead), code, []),
                     [EmitStream(id, ResetReceived(code))] + FailAll(ReadRequests(h.waiting), code))
  }

  function SendStop(h: ReceiveHalf, id: StreamId, code: Option<ErrorCode>, http: ErrorCode): ReceiveOutcome {
    if ReceiveTerminated(h) then ReceiveOutcome(h, [])
    else
      var stop := if h.state == Some(Receiving) then [StopQuicStream(id, http)] else [];
      ReceiveOutcome(ReceiveHalf(Some(ResetRead), code, []),
                     stop + FailAll(ReadRequests(h.waiting), code))
  }

  // ----- the whole stream

  function WithSend(st: StreamVal, o: SendOutcome): Outcome {
    Outcome(st.(send := o.h), o.fx, o.sent)
  }

  function WithReceive(st: StreamVal, o: ReceiveOutcome): Outcome {
    Outcome(st.(receive := o.h), o.fx, 0)
  }

  function FlushWrites(st: StreamVal, credit: nat): Outcome {
    WithSend(st, Flush(st.send, st.id, credit))
  }

  function Write(st: StreamVal, request: RequestId, data: Bytes, fin: bool, credit: nat): Outcome {
    WithSend(st, SendWrite(st.send, st.id, st.maxWriteBufferSize, Chunk(data, request, fin), credit))
  }

  function CompleteWrite(st: StreamVal, credit: nat): Outcome {
    WithSend(st, SendComplete(st.send, st.id, credit))
  }

  function Acknowledge(st: StreamVal): StreamVal {
    st.(send := SendAcknowledge(st.send))
  }

  function Read(st: StreamVal, request: RequestId, maxSize: nat): Outcome {
    WithReceive(st, ReceiveRead(st.receive, st.id, request, maxSize))
  }

  function RecvData(st: StreamVal, data: Bytes, fin: bool): Outcome {
    WithReceive(st, ReceiveBytes(st.receive, st.id, data, fin))
  }

  function RecvReset(st: StreamVal, http: ErrorCode): Outcome {
    WithReceive(st, ReceiveReset(st.receive, st.id, http))
  }

  function RecvStop(st: StreamVal, http: ErrorCode): Outcome {
    if SendTerminated(st.send) then Outcome(st, [], 0)
    else
      var code := ErrorCodes.FromHttp(http);
      var o := SendReset(st.send, st.id, code, http);
      Outcome(st.(send := o.h), [EmitStream(st.id, StopSendingReceived(code))] + o.fx, 0)
  }

  function Reset(st: StreamVal, request: RequestId, code: ErrorCode): Outcome {
    if st.send.state.None? then Outcome(st, [Failed(request, Some(ERR_LIB_STREAM_STATE_ERROR))], 0)
    else
      var o := SendReset(st.send, st.id, Some(code), ErrorCodes.Clamp(code));
      Outcome(st.(send := o.h), o.fx + [Done(request, Nothing)], 0)
  }

  function Stop(st: StreamVal, request: RequestId, code: ErrorCode): Outcome {
    if st.receive.state.None? then Outcome(st, [Failed(request, Some(ERR_LIB_STREAM_STATE_ERROR))], 0)
    else
      var o := SendStop(st.receive, st.id, Some(code), ErrorCodes.Clamp(code));
      Outcome(st.(receive := o.h), o.fx + [Done(request, Nothing)], 0)
  }

  function Abort(st: StreamVal, code: ErrorCode): Outcome {
    var o := SendReset(st.send, st.id, Some(code), code);
    var p := SendStop(st.receive, st.id, Some(code), code);
    Outcome(st.(send := o.h, receive := p.h), o.fx + p.fx, 0)
  }

  // ----- what every stream operation keeps

  /** Buffered bytes awaiting credit. */
  function Total(buffer: seq<Chunk>): nat {
    if buffer == [] then 0 else |buffer[0].data| + Total(buffer[1..])
  }

  /** The sending half between operations, except for what a flush establishes. */
  ghost predicate Flushable(h: SendHalf, limit: nat) {
    && h.size == Total(h.buffer) <= limit
    && (h.state != Some(Ready) ==> h.buffer == [])
    && (SendTerminated(h) ==> h.pending.None?)
    && (forall i :: 0 <= i < |h.buffer| - 1 ==> !h.buffer[i].fin)
    && (forall i, j :: 0 <= i < j < |h.buffer| ==> h.buffer[i].request != h.buffer[j].request)
    && (h.pending.Some? ==> forall i :: 1 <= i < |h.buffer| ==> h.buffer[i].request != h.pending.value)
  }

  ghost predicate SendInv(h: SendHalf, limit: nat) {
    Flushable(h, limit) && (SendBlocked(h) ==> h.buffer[0].data != [])
  }

  ghost predicate ReceiveInv(h: ReceiveHalf) {
    && (h.state != Some(Receiving) ==> h.waiting == [])
    && (forall i :: 0 <= i < |h.waiting| ==> h.waiting[i].maxSize > 0)
  }

  ghost predicate Inv(st: StreamVal) {
    && SendInv(st.send, st.maxWriteBufferSize)
    && ReceiveInv(st.receive)
    && (st.receive.state.None? <==> st.direction == SendOnly)
    && (st.send.state.None? <==> st.direction == ReceiveOnly)
  }
}
