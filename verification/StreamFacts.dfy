/** What the stream operations keep: the stream invariant, the request ledger, and the byte meter. */
module StreamFacts {
  import opened Types
  import opened Streams
  import opened Traces

  /** How often a half holds a request. A write partly sent and partly buffered is held once. */
  ghost function SendHeld(h: SendHalf, r: RequestId): nat {
    Count(ChunkRequests(h.buffer), r) + if h.pending == Some(r) && InFlightIsLast(h) then 1 else 0
  }

  ghost function ReceiveHeld(h: ReceiveHalf, r: RequestId): nat {
    Count(ReadRequests(h.waiting), r)
  }

  ghost function Held(st: StreamVal, r: RequestId): nat {
    SendHeld(st.send, r) + ReceiveHeld(st.receive, r)
  }

  // ----- the sending half

  lemma {:induction false} TotalAppend(a: seq<Chunk>, b: seq<Chunk>)
    ensures Total(a + b) == Total(a) + Total(b)
  {
    if a == [] {
      assert a + b == b;
    } else {
      assert (a + b)[1..] == a[1..] + b;
      TotalAppend(a[1..], b);
    }
  }

  lemma RequestsSplit(buffer: seq<Chunk>, r: RequestId)
    requires buffer != []
    ensures Count(ChunkRequests(buffer), r) ==
            (if buffer[0].request == r then 1 else 0) + Count(ChunkRequests(buffer[1..]), r)
  {
    assert ChunkRequests(buffer)[1..] == ChunkRequests(buffer[1..]);
  }

  /** Work conservation on one stream: a flush leaves the stream blocked only when there was no credit. */
  lemma FlushInv(h: SendHalf, limit: nat, id: StreamId, credit: nat)
    requires Flushable(h, limit)
    ensures var o := Flush(h, id, credit);
            SendInv(o.h, limit) && o.sent <= credit && (SendBlocked(o.h) ==> credit == 0)
    ensures var o := Flush(h, id, credit);
            SentBytes(o.fx) == o.sent && Plain(o.fx) && Silent(o.fx)
    ensures Flush(h, id, credit).h.state.None? <==> h.state.None?
  {
    var o := Flush(h, id, credit);
    if o.fx != [] {
      assert o.fx[1..] == [];
      var front := h.buffer[0];
      if |front.data| <= credit {
        assert front.fin ==> h.buffer[1..] == [];
      } else {
        assert o.h.buffer[1..] == h.buffer[1..];
      }
    }
  }

  lemma FlushHeld(h: SendHalf, limit: nat, id: StreamId, credit: nat, r: RequestId)
    requires Flushable(h, limit)
    ensures SendHeld(Flush(h, id, credit).h, r) == SendHeld(h, r) && Answers(Flush(h, id, credit).fx, r) == 0
  {
    var o := Flush(h, id, credit);
    if o.fx != [] {
      assert o.fx[1..] == [];
      RequestsSplit(h.buffer, r);
      if |h.buffer[0].data| > credit {
        RequestsSplit(o.h.buffer, r);
        assert o.h.buffer[1..] == h.buffer[1..];
      }
    }
  }

  lemma EnqueueInv(h: SendHalf, limit: nat, chunk: Chunk)
    requires SendInv(h, limit) && TakesWrites(h) && h.size + |chunk.data| <= limit
    requires SendHeld(h, chunk.request) == 0
    ensures Flushable(Enqueue(h, chunk), limit)
    ensures h.pending != Some(chunk.request)
  {
    TotalAppend(h.buffer, [chunk]);
    assert Total([chunk]) == |chunk.data| by {
      assert [chunk][1..] == [];
    }
    CountZero(ChunkRequests(h.buffer), chunk.request);
    assert forall i :: 0 <= i < |h.buffer| ==> ChunkRequests(h.buffer)[i] != chunk.request;
  }

  lemma EnqueueHeld(h: SendHalf, chunk: Chunk, r: RequestId)
    requires h.pending != Some(chunk.request)
    ensures SendHeld(Enqueue(h, chunk), r) == SendHeld(h, r) + if chunk.request == r then 1 else 0
  {
    assert ChunkRequests(h.buffer + [chunk]) == ChunkRequests(h.buffer) + [chunk.request];
    CountAppend(ChunkRequests(h.buffer), [chunk.request], r);
    assert [chunk.request][1..] == [];
  }

  lemma WriteInv(h: SendHalf, limit: nat, id: StreamId, chunk: Chunk, credit: nat)
    requires SendInv(h, limit) && SendHeld(h, chunk.request) == 0
    ensures var o := SendWrite(h, id, limit, chunk, credit);
            SendInv(o.h, limit) && o.sent <= credit && (SendBlocked(o.h) ==> credit == 0 || o.h == h)
    ensures var o := SendWrite(h, id, limit, chunk, credit);
            SentBytes(o.fx) == o.sent && Plain(o.fx) && Silent(o.fx)
    ensures SendWrite(h, id, limit, chunk, credit).h.state.None? <==> h.state.None?
  {
    if TakesWrites(h) && h.size + |chunk.data| <= limit {
      EnqueueInv(h, limit, chunk);
      FlushInv(Enqueue(h, chunk), limit, id, credit);
    } else {
      MuteFacts(SendWrite(h, id, limit, chunk, credit).fx);
    }
  }

  lemma WriteHeld(h: SendHalf, limit: nat, id: StreamId, chunk: Chunk, credit: nat, r: RequestId)
    requires SendInv(h, limit) && SendHeld(h, chunk.request) == 0
    ensures var o := SendWrite(h, id, limit, chunk, credit);
            SendHeld(o.h, r) + Answers(o.fx, r) == SendHeld(h, r) + if chunk.request == r then 1 else 0
  {
    if TakesWrites(h) && h.size + |chunk.data| <= limit {
      EnqueueInv(h, limit, chunk);
      EnqueueHeld(h, chunk, r);
      FlushHeld(Enqueue(h, chunk), limit, id, credit, r);
    } else {
      assert SendWrite(h, id, limit, chunk, credit).fx[1..] == [];
    }
  }

  lemma CompleteInv(h: SendHalf, limit: nat, id: StreamId, credit: nat)
    requires SendInv(h, limit)
    ensures var o := SendComplete(h, id, credit);
            SendInv(o.h, limit) && o.sent <= credit && (SendBlocked(o.h) ==> credit == 0 || o.h == h)
    ensures var o := SendComplete(h, id, credit);
            SentBytes(o.fx) == o.sent && Plain(o.fx) && Silent(o.fx)
    ensures SendComplete(h, id, credit).h.state.None? <==> h.state.None?
  {
    if h.pending.Some? {
      var idle := h.(pending := None);
      FlushInv(idle, limit, id, credit);
      var done := if InFlightIsLast(h) then [Done(h.pending.value, Nothing)] else [];
      MuteFacts(done);
      SentAppend(done, Flush(idle, id, credit).fx);
    }
  }

  lemma CompleteHeld(h: SendHalf, limit: nat, id: StreamId, credit: nat, r: RequestId)
    requires SendInv(h, limit)
    ensures var o := SendComplete(h, id, credit); SendHeld(o.h, r) + Answers(o.fx, r) == SendHeld(h, r)
  {
    if h.pending.Some? {
      var idle := h.(pending := None);
      FlushHeld(idle, limit, id, credit, r);
      var done := if InFlightIsLast(h) then [Done(h.pending.value, Nothing)] else [];
      AnswersAppend(done, Flush(idle, id, credit).fx, r);
      assert done != [] ==> done[1..] == [];
    }
  }

  lemma ResetInv(h: SendHalf, limit: nat, id: StreamId, code: Option<ErrorCode>, http: ErrorCode)
    requires SendInv(h, limit)
    ensures var o := SendReset(h, id, code, http);
            SendInv(o.h, limit) && SendTerminated(o.h) && o.h.buffer == [] && o.sent == 0
    ensures var o := SendReset(h, id, code, http); Plain(o.fx) && Silent(o.fx) && Mute(o.fx)
    ensures SendReset(h, id, code, http).h.state.None? <==> h.state.None?
  {
  }

  lemma ResetHeld(h: SendHalf, id: StreamId, code: Option<ErrorCode>, http: ErrorCode, r: RequestId)
    ensures var o := SendReset(h, id, code, http); SendHeld(o.h, r) + Answers(o.fx, r) == SendHeld(h, r)
  {
    if !SendTerminated(h) {
      var reset := [ResetQuicStream(id, http)];
      var inFlight := if h.pending.Some? && InFlightIsLast(h) then [Failed(h.pending.value, code)] else [];
      var rest := FailAll(ChunkRequests(h.buffer), code);
      FailAllAnswers(ChunkRequests(h.buffer), code, r);
      AnswersAppend(reset, inFlight, r);
      AnswersAppend(reset + inFlight, rest, r);
      assert reset[1..] == [] && (inFlight != [] ==> inFlight[1..] == []);
    }
  }

  // ----- the receiving half

  lemma ReadInv(h: ReceiveHalf, id: StreamId, request: RequestId, maxSize: nat)
    requires ReceiveInv(h)
    ensures var o := ReceiveRead(h, id, request, maxSize);
            ReceiveInv(o.h) && Plain(o.fx) && Silent(o.fx) && Mute(o.fx) && (o.h.state.None? <==> h.state.None?)
  {
  }

  lemma ReadHeld(h: ReceiveHalf, id: StreamId, request: RequestId, maxSize: nat, r: RequestId)
    ensures var o := ReceiveRead(h, id, request, maxSize);
            ReceiveHeld(o.h, r) + Answers(o.fx, r) == ReceiveHeld(h, r) + if request == r then 1 else 0
  {
    var o := ReceiveRead(h, id, request, maxSize);
    assert o.fx != [] ==> o.fx[1..] == [];
    if o.h.waiting != h.waiting {
      assert ReadRequests(o.h.waiting) == ReadRequests(h.waiting) + [request];
      CountAppend(ReadRequests(h.waiting), [request], r);
      assert [request][1..] == [];
    }
  }

  lemma {:induction false} EndReadsAnswers(waiting: seq<PendingRead>, r: RequestId)
    ensures Answers(EndReads(waiting), r) == Count(ReadRequests(waiting), r)
  {
    if waiting != [] {
      EndReadsAnswers(waiting[1..], r);
      assert ReadRequests(waiting)[1..] == ReadRequests(waiting[1..]);
      assert EndReads(waiting)[1..] == EndReads(waiting[1..]);
    }
  }

  lemma BytesInv(h: ReceiveHalf, id: StreamId, data: Bytes, fin: bool)
    requires ReceiveInv(h)
    ensures var o := ReceiveBytes(h, id, data, fin);
            ReceiveInv(o.h) && Plain(o.fx) && Silent(o.fx) && Mute(o.fx) && (o.h.state.None? <==> h.state.None?)
  {
  }

  lemma BytesHeld(h: ReceiveHalf, id: StreamId, data: Bytes, fin: bool, r: RequestId)
    ensures var o := ReceiveBytes(h, id, data, fin); ReceiveHeld(o.h, r) + Answers(o.fx, r) == ReceiveHeld(h, r)
  {
    if h.state == Some(Receiving) {
      var served := if h.waiting == [] then [] else [Done(h.waiting[0].request, ReadData(data))];
      var rest := if h.waiting == [] then [] else h.waiting[1..];
      var tail := if fin then EndReads(rest) else if rest == [] then [] else [ReceiveQuicData(id, rest[0].maxSize)];
      AnswersAppend(served, tail, r);
      EndReadsAnswers(rest, r);
      assert served != [] ==> served[1..] == [];
      assert !fin && tail != [] ==> tail[1..] == [];
      assert h.waiting != [] ==> ReadRequests(h.waiting)[1..] == ReadRequests(rest);
    }
  }

  lemma ReceiveResetInv(h: ReceiveHalf, id: StreamId, http: ErrorCode)
    requires ReceiveInv(h)
    ensures var o := ReceiveReset(h, id, http);
            ReceiveInv(o.h) && ReceiveTerminated(o.h) && Plain(o.fx) && Mute(o.fx) && (o.h.state.None? <==> h.state.None?)
  {
  }

  lemma ReceiveResetHeld(h: ReceiveHalf, id: StreamId, http: ErrorCode, r: RequestId)
    ensures var o := ReceiveReset(h, id, http); ReceiveHeld(o.h, r) + Answers(o.fx, r) == ReceiveHeld(h, r)
  {
    if !ReceiveTerminated(h) {
      var code := ErrorCodes.FromHttp(http);
      var shown := [EmitStream(id, ResetReceived(code))];
      FailAllAnswers(ReadRequests(h.waiting), code, r);
      AnswersAppend(shown, FailAll(ReadRequests(h.waiting), code), r);
      assert shown[1..] == [];
    }
  }

  lemma StopInv(h: ReceiveHalf, id: StreamId, code: Option<ErrorCode>, http: ErrorCode)
    requires ReceiveInv(h)
    ensures var o := SendStop(h, id, code, http);
            && ReceiveInv(o.h) && ReceiveTerminated(o.h)
            && Plain(o.fx) && Silent(o.fx) && Mute(o.fx) && (o.h.state.None? <==> h.state.None?)
  {
  }

  lemma StopHeld(h: ReceiveHalf, id: StreamId, code: Option<ErrorCode>, http: ErrorCode, r: RequestId)
    ensures var o := SendStop(h, id, code, http); ReceiveHeld(o.h, r) + Answers(o.fx, r) == ReceiveHeld(h, r)
  {
    if !ReceiveTerminated(h) {
      var stop := if h.state == Some(Receiving) then [StopQuicStream(id, http)] else [];
      FailAllAnswers(ReadRequests(h.waiting), code, r);
      AnswersAppend(stop, FailAll(ReadRequests(h.waiting), code), r);
      assert stop != [] ==> stop[1..] == [];
    }
  }

  // ----- the whole stream

  /** A stream operation keeps the invariant and the stream's identity, lends no request, sends no
      capsule, and reports exactly the payload it sent. */
  ghost predicate Keeps(st: StreamVal, o: Outcome) {
    && Inv(o.st)
    && o.st.id == st.id && o.st.direction == st.direction && o.st.peerInitiated == st.peerInitiated
    && Plain(o.fx) && SentBytes(o.fx) == o.sent
  }

  lemma FlushKeeps(st: StreamVal, credit: nat)
    requires Inv(st)
    ensures Keeps(st, FlushWrites(st, credit))
  {
    FlushInv(st.send, st.maxWriteBufferSize, st.id, credit);
  }

  lemma WriteKeeps(st: StreamVal, request: RequestId, data: Bytes, fin: bool, credit: nat)
    requires Inv(st) && Held(st, request) == 0
    ensures Keeps(st, Write(st, request, data, fin, credit))
  {
    WriteInv(st.send, st.maxWriteBufferSize, st.id, Chunk(data, request, fin), credit);
  }

  lemma CompleteKeeps(st: StreamVal, credit: nat)
    requires Inv(st)
    ensures Keeps(st, CompleteWrite(st, credit))
  {
    CompleteInv(st.send, st.maxWriteBufferSize, st.id, credit);
  }

  /** The environment reports a FIN acknowledged only after the send that carried it was completed. */
  predicate MayAcknowledge(st: StreamVal) {
    st.send.state == Some(DataSent) ==> st.send.pending.None?
  }

  lemma AcknowledgeKeeps(st: StreamVal)
    requires Inv(st) && MayAcknowledge(st)
    ensures Keeps(st, Outcome(Acknowledge(st), [], 0))
    ensures forall r :: Held(Acknowledge(st), r) == Held(st, r)
  {
  }

  lemma ReadKeeps(st: StreamVal, request: RequestId, maxSize: nat)
    requires Inv(st)
    ensures Keeps(st, Read(st, request, maxSize))
  {
    ReadInv(st.receive, st.id, request, maxSize);
    MuteFacts(Read(st, request, maxSize).fx);
  }

  lemma RecvDataKeeps(st: StreamVal, data: Bytes, fin: bool)
    requires Inv(st)
    ensures Keeps(st, RecvData(st, data, fin))
  {
    BytesInv(st.receive, st.id, data, fin);
    MuteFacts(RecvData(st, data, fin).fx);
  }

  lemma RecvResetKeeps(st: StreamVal, http: ErrorCode)
    requires Inv(st)
    ensures Keeps(st, RecvReset(st, http))
  {
    ReceiveResetInv(st.receive, st.id, http);
    MuteFacts(RecvReset(st, http).fx);
  }

  lemma RecvStopKeeps(st: StreamVal, http: ErrorCode)
    requires Inv(st)
    ensures Keeps(st, RecvStop(st, http)) && !IsBlocked(RecvStop(st, http).st)
  {
    ResetInv(st.send, st.maxWriteBufferSize, st.id, ErrorCodes.FromHttp(http), http);
    MuteFacts(RecvStop(st, http).fx);
  }

  lemma RecvStopHeld(st: StreamVal, http: ErrorCode, r: RequestId)
    ensures var o := RecvStop(st, http); Held(o.st, r) + Answers(o.fx, r) == Held(st, r)
  {
    var code := ErrorCodes.FromHttp(http);
    var shown := [EmitStream(st.id, StopSendingReceived(code))];
    ResetHeld(st.send, st.id, code, http, r);
    AnswersAppend(shown, SendReset(st.send, st.id, code, http).fx, r);
    assert shown[1..] == [];
  }

  lemma ResetKeeps(st: StreamVal, request: RequestId, code: ErrorCode)
    requires Inv(st)
    ensures Keeps(st, Reset(st, request, code)) && !IsBlocked(Reset(st, request, code).st)
  {
    ResetInv(st.send, st.maxWriteBufferSize, st.id, Some(code), ErrorCodes.Clamp(code));
    MuteFacts(Reset(st, request, code).fx);
  }

  lemma AnsweredLast(fx: seq<Effect>, request: RequestId, r: RequestId)
    ensures Answers(fx + [Done(request, Nothing)], r) == Answers(fx, r) + if request == r then 1 else 0
  {
    AnswersAppend(fx, [Done(request, Nothing)], r);
    assert [Done(request, Nothing)][1..] == [];
  }

  lemma ResetStreamHeld(st: StreamVal, request: RequestId, code: ErrorCode, r: RequestId)
    ensures var o := Reset(st, request, code);
            Held(o.st, r) + Answers(o.fx, r) == Held(st, r) + if request == r then 1 else 0
  {
    var o := SendReset(st.send, st.id, Some(code), ErrorCodes.Clamp(code));
    ResetHeld(st.send, st.id, Some(code), ErrorCodes.Clamp(code), r);
    AnsweredLast(o.fx, request, r);
    assert st.send.state.None? ==> Reset(st, request, code).fx[1..] == [];
  }

  lemma StopKeeps(st: StreamVal, request: RequestId, code: ErrorCode)
    requires Inv(st)
    ensures Keeps(st, Stop(st, request, code))
  {
    StopInv(st.receive, st.id, Some(code), ErrorCodes.Clamp(code));
    MuteFacts(Stop(st, request, code).fx);
  }

  lemma StopStreamHeld(st: StreamVal, request: RequestId, code: ErrorCode, r: RequestId)
    ensures var o := Stop(st, request, code);
            Held(o.st, r) + Answers(o.fx, r) == Held(st, r) + if request == r then 1 else 0
  {
    var o := SendStop(st.receive, st.id, Some(code), ErrorCodes.Clamp(code));
    StopHeld(st.receive, st.id, Some(code), ErrorCodes.Clamp(code), r);
    AnsweredLast(o.fx, request, r);
    assert st.receive.state.None? ==> Stop(st, request, code).fx[1..] == [];
  }

  /** Aborting closes both halves whatever state they were in. */
  lemma AbortKeeps(st: StreamVal, code: ErrorCode)
    requires Inv(st)
    ensures Keeps(st, Abort(st, code)) && IsClosed(Abort(st, code).st) && Silent(Abort(st, code).fx) && Mute(Abort(st, code).fx)
  {
    ResetInv(st.send, st.maxWriteBufferSize, st.id, Some(code), code);
    StopInv(st.receive, st.id, Some(code), code);
    MuteFacts(Abort(st, code).fx);
  }

  lemma AbortHeld(st: StreamVal, code: ErrorCode, r: RequestId)
    ensures var o := Abort(st, code); Held(o.st, r) + Answers(o.fx, r) == Held(st, r)
  {
    var o := SendReset(st.send, st.id, Some(code), code);
    var p := SendStop(st.receive, st.id, Some(code), code);
    ResetHeld(st.send, st.id, Some(code), code, r);
    StopHeld(st.receive, st.id, Some(code), code, r);
    AnswersAppend(o.fx, p.fx, r);
  }

  /** A closed stream holds no request, so dropping it from the session loses none. */
  lemma ClosedHoldsNothing(st: StreamVal, r: RequestId)
    requires Inv(st) && IsClosed(st)
    ensures Held(st, r) == 0
  {
  }
}
