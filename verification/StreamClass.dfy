/** The stream as the source runs it: fields updated in place and queues drained by loops. Each
    method is proved to compute the corresponding function of module Streams. */
module StreamClass {
  import opened Types
  import ErrorCodes
  import S = Streams

  class Stream {
    const id: StreamId
    const direction: Direction
    const peerInitiated: bool
    const maxWriteBufferSize: nat
    var pendingReads: seq<S.PendingRead>
    var pendingWrite: Option<RequestId>
    var receiveError: Option<ErrorCode>
    var receiveState: Option<S.ReceiveState>
    var sendError: Option<ErrorCode>
    var sendState: Option<S.SendState>
    var writeBuffer: seq<S.Chunk>
    var writeBufferSize: int

    function Val(): S.StreamVal
      reads this
    {
      S.StreamVal(id, direction, peerInitiated, maxWriteBufferSize,
                  S.SendHalf(sendState, sendError, writeBuffer, writeBufferSize, pendingWrite),
                  S.ReceiveHalf(receiveState, receiveError, pendingReads))
    }

    constructor (id: StreamId, direction: Direction, peerInitiated: bool, maxWriteBufferSize: nat)
      ensures Val() == S.NewStream(id, direction, peerInitiated, maxWriteBufferSize)
    {
      this.id, this.direction, this.peerInitiated := id, direction, peerInitiated;
      this.maxWriteBufferSize := maxWriteBufferSize;
      pendingReads, pendingWrite, writeBuffer, writeBufferSize := [], None, [], 0;
      receiveError, sendError := None, None;
      receiveState := if direction != SendOnly then Some(S.Receiving) else None;
      sendState := if direction != ReceiveOnly then Some(S.Ready) else None;
    }

    /** The stream borrowed from a session's table: the table owns its streams, so a mutable borrow
        is a copy in and, through Val, a copy out. */
    constructor Borrow(st: S.StreamVal)
      ensures Val() == st
    {
      id, direction, peerInitiated, maxWriteBufferSize := st.id, st.direction, st.peerInitiated, st.maxWriteBufferSize;
      pendingReads, receiveError, receiveState := st.receive.waiting, st.receive.error, st.receive.state;
      sendError, sendState, pendingWrite := st.send.error, st.send.state, st.send.pending;
      writeBuffer, writeBufferSize := st.send.buffer, st.send.size;
    }

    method FlushWrites(credit: nat) returns (fx: seq<Effect>, sent: nat)
      modifies this
      ensures S.Outcome(Val(), fx, sent) == S.FlushWrites(old(Val()), credit)
    {
      if pendingWrite.Some? || sendState != Some(S.Ready) || writeBuffer == [] {
        return [], 0;
      }
      var front := writeBuffer[0];
      writeBuffer := writeBuffer[1..];
      if |front.data| > 0 && credit == 0 {
        writeBuffer := [front] + writeBuffer;
        return [], 0;
      }
      var data := front.data;
      var isComplete := |data| <= credit;
      if !isComplete {
        writeBuffer := [front.(data := data[credit..])] + writeBuffer;
        data := data[..credit];
      }
      sent := |data|;
      writeBufferSize := writeBufferSize - sent;
      pendingWrite := Some(front.request);
      if isComplete && front.fin {
        sendState := Some(S.DataSent);
      }
      fx := [SendQuicData(id, data, isComplete && front.fin)];
    }

    method Write(request: RequestId, data: Bytes, fin: bool, credit: nat) returns (fx: seq<Effect>, sent: nat)
      modifies this
      ensures S.Outcome(Val(), fx, sent) == S.Write(old(Val()), request, data, fin, credit)
    {
      if sendState.None? {
        return [Failed(request, Some(ERR_LIB_STREAM_STATE_ERROR))], 0;
      }
      var isFinishPending := writeBuffer != [] && writeBuffer[|writeBuffer| - 1].fin;
      if sendState != Some(S.Ready) || isFinishPending {
        if data == [] && fin {
          return [Done(request, Nothing)], 0;
        }
        return [Failed(request, Some(ERR_LIB_STREAM_STATE_ERROR))], 0;
      }
      if writeBufferSize + |data| > maxWriteBufferSize {
        return [Failed(request, Some(ERR_LIB_STREAM_STATE_ERROR))], 0;
      }
      writeBuffer := writeBuffer + [S.Chunk(data, request, fin)];
      writeBufferSize := writeBufferSize + |data|;
      fx, sent := FlushWrites(credit);
    }

    method CompleteWrite(credit: nat) returns (fx: seq<Effect>, sent: nat)
      modifies this
      ensures S.Outcome(Val(), fx, sent) == S.CompleteWrite(old(Val()), credit)
    {
      if pendingWrite.None? {
        return [], 0;
      }
      var request := pendingWrite.value;
      pendingWrite := None;
      fx := [];
      if writeBuffer == [] || writeBuffer[0].request != request {
        fx := [Done(request, Nothing)];
      }
      var flushed;
      flushed, sent := FlushWrites(credit);
      fx := fx + flushed;
    }

    method Acknowledge()
      modifies this
      ensures Val() == S.Acknowledge(old(Val()))
    {
      if sendState == Some(S.DataSent) {
        sendState := Some(S.DataAcked);
      }
    }

    method Read(request: RequestId, maxSize: nat) returns (fx: seq<Effect>)
      modifies this
      ensures S.Outcome(Val(), fx, 0) == S.Read(old(Val()), request, maxSize)
    {
      if receiveState.None? {
        return [Failed(request, Some(ERR_LIB_STREAM_STATE_ERROR))];
      }
      var state := receiveState.value;
      if state == S.Receiving && maxSize > 0 {
        pendingReads := pendingReads + [S.PendingRead(request, maxSize)];
        fx := if |pendingReads| == 1 then [ReceiveQuicData(id, maxSize)] else [];
      } else if state != S.ResetRead {
        if state == S.AllReceived && maxSize > 0 {
          receiveState := Some(S.AllRead);
        }
        fx := [Done(request, ReadData([]))];
      } else {
        fx := [Failed(request, receiveError)];
      }
    }

    method RecvData(data: Bytes, fin: bool) returns (fx: seq<Effect>)
      modifies this
      ensures S.Outcome(Val(), fx, 0) == S.RecvData(old(Val()), data, fin)
    {
      fx := [];
      if receiveState != Some(S.Receiving) {
        return;
      }
      if pendingReads != [] {
        fx := [Done(pendingReads[0].request, ReadData(data))];
        pendingReads := pendingReads[1..];
        if fin && data == [] {
          receiveState := Some(S.AllRead);
        }
      }
      if fin {
        if receiveState == Some(S.Receiving) {
          receiveState := Some(S.AllReceived);
        }
        var ended := EndReads();
        fx := fx + ended;
      } else if pendingReads != [] {
        fx := fx + [ReceiveQuicData(id, pendingReads[0].maxSize)];
      }
    }

    /** Answer every read still waiting with the end of the stream. */
    method EndReads() returns (fx: seq<Effect>)
      modifies this`pendingReads, this`receiveState
      ensures pendingReads == [] && fx == S.EndReads(old(pendingReads))
      ensures receiveState == if old(pendingReads) == [] then old(receiveState) else Some(S.AllRead)
    {
      fx := [];
      ghost var k := 0;
      while pendingReads != []
        invariant 0 <= k <= |old(pendingReads)| && pendingReads == old(pendingReads)[k..]
        invariant fx == S.EndReads(old(pendingReads))[..k]
        invariant receiveState == if k == 0 then old(receiveState) else Some(S.AllRead)
        decreases |pendingReads|
      {
        receiveState := Some(S.AllRead);
        fx := fx + [Done(pendingReads[0].request, ReadData([]))];
        pendingReads := pendingReads[1..];
        k := k + 1;
      }
    }

    /** Fail every read still waiting. */
    method FailReads(code: Option<ErrorCode>) returns (fx: seq<Effect>)
      modifies this`pendingReads
      ensures pendingReads == [] && fx == FailAll(S.ReadRequests(old(pendingReads)), code)
    {
      fx := [];
      ghost var k := 0;
      while pendingReads != []
        invariant 0 <= k <= |old(pendingReads)| && pendingReads == old(pendingReads)[k..]
        invariant fx == FailAll(S.ReadRequests(old(pendingReads)), code)[..k]
        decreases |pendingReads|
      {
        fx := fx + [Failed(pendingReads[0].request, code)];
        pendingReads := pendingReads[1..];
        k := k + 1;
      }
    }

    method RecvReset(http: ErrorCode) returns (fx: seq<Effect>)
      modifies this
      ensures S.Outcome(Val(), fx, 0) == S.RecvReset(old(Val()), http)
    {
      if receiveState in {None, Some(S.AllRead), Some(S.ResetRead)} {
        return [];
      }
      var code := ErrorCodes.FromHttp(http);
      receiveError := code;
      receiveState := Some(S.ResetRead);
      var failures := FailReads(code);
      fx := [EmitStream(id, ResetReceived(code))] + failures;
    }

    /** Fail every write still buffered. */
    method FailWrites(code: Option<ErrorCode>) returns (fx: seq<Effect>)
      modifies this`writeBuffer
      ensures writeBuffer == [] && fx == FailAll(S.ChunkRequests(old(writeBuffer)), code)
    {
      fx := [];
      ghost var k := 0;
      while writeBuffer != []
        invariant 0 <= k <= |old(writeBuffer)| && writeBuffer == old(writeBuffer)[k..]
        invariant fx == FailAll(S.ChunkRequests(old(writeBuffer)), code)[..k]
        decreases |writeBuffer|
      {
        fx := fx + [Failed(writeBuffer[0].request, code)];
        writeBuffer := writeBuffer[1..];
        k := k + 1;
      }
    }

    method SendReset(code: Option<ErrorCode>, http: ErrorCode) returns (fx: seq<Effect>)
      modifies this
      ensures S.Outcome(Val(), fx, 0) == S.WithSend(old(Val()), S.SendReset(old(Val()).send, id, code, http))
    {
      if sendState in {None, Some(S.DataAcked), Some(S.ResetSent)} {
        return [];
      }
      sendError := code;
      sendState := Some(S.ResetSent);
      writeBufferSize := 0;
      var inFlight := [];
      if pendingWrite.Some? && (writeBuffer == [] || writeBuffer[0].request != pendingWrite.value) {
        inFlight := [Failed(pendingWrite.value, code)];
      }
      pendingWrite := None;
      var failures := FailWrites(code);
      fx := [ResetQuicStream(id, http)] + inFlight + failures;
    }

    method SendStop(code: Option<ErrorCode>, http: ErrorCode) returns (fx: seq<Effect>)
      modifies this
      ensures S.Outcome(Val(), fx, 0) == S.WithReceive(old(Val()), S.SendStop(old(Val()).receive, id, code, http))
    {
      fx := [];
      match receiveState {
        case Some(Receiving) => fx := [StopQuicStream(id, http)];
        case Some(AllReceived) =>
        case _ => return;
      }
      receiveError := code;
      receiveState := Some(S.ResetRead);
      var failures := FailReads(code);
      fx := fx + failures;
    }

    method RecvStop(http: ErrorCode) returns (fx: seq<Effect>)
      modifies this
      ensures S.Outcome(Val(), fx, 0) == S.RecvStop(old(Val()), http)
    {
      if sendState in {None, Some(S.DataAcked), Some(S.ResetSent)} {
        return [];
      }
      var code := ErrorCodes.FromHttp(http);
      var reset := SendReset(code, http);
      fx := [EmitStream(id, StopSendingReceived(code))] + reset;
    }

    method Reset(request: RequestId, code: ErrorCode) returns (fx: seq<Effect>)
      modifies this
      ensures S.Outcome(Val(), fx, 0) == S.Reset(old(Val()), request, code)
    {
      if sendState.None? {
        return [Failed(request, Some(ERR_LIB_STREAM_STATE_ERROR))];
      }
      fx := [];
      if sendState !in {Some(S.DataAcked), Some(S.ResetSent)} {
        fx := SendReset(Some(code), ErrorCodes.Clamp(code));
      }
      fx := fx + [Done(request, Nothing)];
    }

    method Stop(request: RequestId, code: ErrorCode) returns (fx: seq<Effect>)
      modifies this
      ensures S.Outcome(Val(), fx, 0) == S.Stop(old(Val()), request, code)
    {
      if receiveState.None? {
        return [Failed(request, Some(ERR_LIB_STREAM_STATE_ERROR))];
      }
      fx := [];
      if receiveState !in {Some(S.AllRead), Some(S.ResetRead)} {
        fx := SendStop(Some(code), ErrorCodes.Clamp(code));
      }
      fx := fx + [Done(request, Nothing)];
    }

    method Abort(code: ErrorCode) returns (fx: seq<Effect>)
      modifies this
      ensures S.Outcome(Val(), fx, 0) == S.Abort(old(Val()), code)
    {
      var reset := SendReset(Some(code), code);
      var stop := SendStop(Some(code), code);
      fx := reset + stop;
    }
  }
}
