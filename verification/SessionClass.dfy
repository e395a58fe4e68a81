/** The session as the source runs it: counters, queues and the stream table updated in place, queues drained
    by loops. Each method is proved to compute the corresponding function of module Sessions, so that what is
    proved of runs of that state machine holds of this code. */
module SessionClass {
  import opened Types
  import opened S = Sessions
  import opened Streams
  import SessionInvariant
  import StreamClass
  import Varint
  import Utf8

  /** A step continued by another. */
  function Then(fx: seq<Effect>, o: Step): Step {
    Step(o.s, fx + o.fx)
  }

  lemma Onward(fx: seq<Effect>, gx: seq<Effect>, o: Step)
    ensures Then(fx, Then(gx, o)) == Then(fx + gx, o)
  {
    assert fx + (gx + o.fx) == fx + gx + o.fx;
  }

  lemma FlushTurn(s: SessionVal, n: nat)
    requires s.credit.queue != [] && n > 0
    ensures var t := FirstTurn(s);
            FlushQueue(s, n) == if t.stop then Step(t.s, t.fx) else Then(t.fx, FlushQueue(t.s, n - 1))
  {
    hide FirstTurn;
  }

  /** Nothing is left to serve. */
  lemma FlushedAll(s: SessionVal, fx: seq<Effect>, n: nat)
    ensures n == 0 || s.credit.queue == [] ==> Then(fx, FlushQueue(s, n)) == Step(s, fx)
    ensures Then([], FlushQueue(s, n)) == FlushQueue(s, n)
  {
    assert [] + FlushQueue(s, n).fx == FlushQueue(s, n).fx;
    assert fx + [] == fx;
  }

  class Session {
    const cfg: Config
    var phase: Phase
    var dataSent: nat
    var peerMaxData: nat
    var lastDataBlockedSent: Option<nat>
    var blockedStreams: set<StreamId>
    var blockedStreamsQueue: seq<StreamId>
    var dataReceived: nat
    var dataConsumed: nat
    var localMaxData: nat
    var bidi: Quota
    var uni: Quota
    var pendingCapsules: seq<Capsule>
    var pendingDatagramRequests: seq<RequestId>
    var pendingDatagrams: seq<Bytes>
    var pendingStreams: seq<StreamId>
    var streams: map<StreamId, StreamVal>

    function Credit(): SendCredit
      reads this
    {
      SendCredit(dataSent, peerMaxData, lastDataBlockedSent, blockedStreams, blockedStreamsQueue)
    }

    function Val(): SessionVal
      reads this
    {
      SessionVal(cfg, phase, Credit(), ReceiveCredit(dataReceived, dataConsumed, localMaxData), bidi, uni,
                 pendingCapsules, pendingDatagramRequests, pendingDatagrams, pendingStreams, streams)
    }

    constructor (cfg: Config, initialMaxData: nat, initialBidi: nat, initialUni: nat,
                 peerMaxData: nat, peerBidi: nat, peerUni: nat)
      ensures Val() == NewSession(cfg, initialMaxData, initialBidi, initialUni, peerMaxData, peerBidi, peerUni)
    {
      this.cfg, phase := cfg, Connecting;
      dataSent, this.peerMaxData, lastDataBlockedSent, blockedStreams, blockedStreamsQueue := 0, peerMaxData, None, {}, [];
      dataReceived, dataConsumed, localMaxData := 0, 0, initialMaxData;
      bidi, uni := NewQuota(initialBidi, peerBidi), NewQuota(initialUni, peerUni);
      pendingCapsules, pendingDatagramRequests, pendingDatagrams, pendingStreams, streams := [], [], [], [], map[];
    }

    /** The session borrowed from a connection's table, as a session borrows its streams. */
    constructor Borrow(s: SessionVal)
      ensures Val() == s
    {
      cfg, phase := s.cfg, s.phase;
      dataSent, peerMaxData, lastDataBlockedSent := s.credit.sent, s.credit.limit, s.credit.lastBlocked;
      blockedStreams, blockedStreamsQueue := s.credit.blocked, s.credit.queue;
      dataReceived, dataConsumed, localMaxData := s.window.received, s.window.consumed, s.window.limit;
      bidi, uni := s.bidi, s.uni;
      pendingCapsules, pendingDatagramRequests, pendingDatagrams := s.capsules, s.datagramRequests, s.datagrams;
      pendingStreams, streams := s.pendingStreams, s.streams;
    }

    function SessionCredit(): nat
      reads this
    {
      AvailableCredit(cfg, Credit())
    }

    method SetQuota(isUni: bool, q: Quota)
      modifies this`bidi, this`uni
      ensures Val() == WithQuota(old(Val()), isUni, q)
    {
      if isUni {
        uni := q;
      } else {
        bidi := q;
      }
    }

    // ----- credit

    method EmitDataBlocked() returns (fx: seq<Effect>)
      modifies this`lastDataBlockedSent
      ensures var e := S.EmitDataBlocked(cfg, old(Credit())); Val() == old(Val()).(credit := e.c) && fx == e.fx
    {
      fx := [];
      if !cfg.flowControl {
        return;
      }
      if dataSent >= peerMaxData && blockedStreams != {} && (lastDataBlockedSent.None? || peerMaxData > lastDataBlockedSent.value) {
        lastDataBlockedSent := Some(peerMaxData);
        fx := LimitCapsule(CAPSULE_DATA_BLOCKED, peerMaxData);
      }
    }

    method EmitStreamsBlocked(isUni: bool) returns (fx: seq<Effect>)
      modifies this`bidi, this`uni
      ensures var e := S.EmitStreamsBlocked(QuotaOf(old(Val()), isUni), cfg.flowControl, isUni);
              Val() == WithQuota(old(Val()), isUni, e.q) && fx == e.fx
    {
      fx := [];
      if !cfg.flowControl {
        return;
      }
      var q := if isUni then uni else bidi;
      if q.waiting == [] || q.issued < q.peerMax || (q.lastBlocked.Some? && q.peerMax <= q.lastBlocked.value) {
        return;
      }
      if Varint.Write(q.peerMax).Some? {
        SetQuota(isUni, q.(lastBlocked := Some(q.peerMax)));
        fx := LimitCapsule(if isUni then CAPSULE_STREAMS_BLOCKED_UNI else CAPSULE_STREAMS_BLOCKED_BIDI, q.peerMax);
      }
    }

    method ReplenishDataCredit(force: bool) returns (fx: seq<Effect>)
      modifies this`localMaxData
      ensures Step(Val(), fx) == ReplenishData(old(Val()), force)
    {
      fx := [];
      if !MayGrant(Val()) {
        return;
      }
      var newLimit := SatAdd(dataConsumed, cfg.receiveWindow);
      var threshold := if force then 0 else cfg.receiveWindow / 2;
      if newLimit <= SatAdd(localMaxData, threshold) {
        return;
      }
      if Varint.Write(newLimit).Some? {
        localMaxData := newLimit;
        fx := LimitCapsule(CAPSULE_MAX_DATA, newLimit);
      }
    }

    method ReplenishStreamsCredit(isUni: bool, force: bool) returns (fx: seq<Effect>)
      modifies this`bidi, this`uni
      ensures Step(Val(), fx) == ReplenishStreams(old(Val()), isUni, force)
    {
      fx := [];
      if !MayGrant(Val()) {
        return;
      }
      var q := if isUni then uni else bidi;
      var newLimit := SatAdd(q.peerClosed, q.initial);
      var threshold := if force then 0 else q.initial / 2;
      if newLimit <= q.localMax || newLimit < SatAdd(q.localMax, threshold) {
        return;
      }
      if Varint.Write(newLimit).Some? {
        SetQuota(isUni, q.(localMax := newLimit));
        fx := LimitCapsule(if isUni then CAPSULE_MAX_STREAMS_UNI else CAPSULE_MAX_STREAMS_BIDI, newLimit);
      }
    }

    // ----- writes

    /** Put a stream back in the table after an operation that may have sent data. */
    method Settle(id: StreamId, o: Outcome) returns (fx: seq<Effect>)
      requires id in streams
      modifies this
      ensures Step(Val(), fx) == AfterSend(old(Val()), id, o)
    {
      hide S.EmitDataBlocked, IsBlocked, NoteBlocked;
      Meter(id, o);
      var more := EmitDataBlocked();
      fx := o.fx + more;
    }

    method Meter(id: StreamId, o: Outcome)
      requires id in streams
      modifies this
      ensures var metered := old(Credit()).(sent := old(dataSent) + o.sent);
              Val() == old(Val()).(streams := old(streams)[id := o.st],
                                   credit := if IsBlocked(o.st) then NoteBlocked(metered, id) else metered)
    {
      hide IsBlocked;
      streams := streams[id := o.st];
      dataSent := dataSent + o.sent;
      if IsBlocked(o.st) && id !in blockedStreams {
        blockedStreams := blockedStreams + {id};
        blockedStreamsQueue := blockedStreamsQueue + [id];
      }
    }

    method WriteStream(id: StreamId, request: RequestId, data: Bytes, fin: bool) returns (fx: seq<Effect>)
      modifies this
      ensures Step(Val(), fx) == S.WriteStream(old(Val()), id, request, data, fin)
    {
      if id !in streams {
        if data == [] && fin {
          return [Done(request, Nothing)];
        }
        return [Failed(request, Some(ERR_LIB_STREAM_STATE_ERROR))];
      }
      var stream := new StreamClass.Stream.Borrow(streams[id]);
      var effects, sent := stream.Write(request, data, fin, SessionCredit());
      fx := Settle(id, Outcome(stream.Val(), effects, sent));
    }

    method CompleteWrite(id: StreamId) returns (fx: seq<Effect>)
      modifies this
      ensures Step(Val(), fx) == CompleteStreamWrite(old(Val()), id)
    {
      if id !in streams {
        return [];
      }
      var stream := new StreamClass.Stream.Borrow(streams[id]);
      var effects, sent := stream.CompleteWrite(SessionCredit());
      fx := Settle(id, Outcome(stream.Val(), effects, sent));
    }

    /** Serve the blocked streams in turn, each at most once, until credit runs out. */
    method FlushBlockedWrites() returns (fx: seq<Effect>)
      modifies this
      ensures Step(Val(), fx) == S.FlushBlockedWrites(old(Val()))
    {
      hide FlushQueue, S.EmitDataBlocked;
      fx := [];
      if cfg.flowControl && dataSent >= peerMaxData {
        return;
      }
      ghost var start := Val();
      var count := |blockedStreamsQueue|;
      var i := 0;
      FlushedAll(start, [], count);
      while i < count
        invariant 0 <= i <= count && cfg == start.cfg
        invariant FlushQueue(start, count) == Then(fx, FlushQueue(Val(), count - i))
      {
        if blockedStreamsQueue == [] {
          break;
        }
        FlushTurn(Val(), count - i);
        var served, stop := ServeNext();
        i := i + 1;
        Onward(fx, served, FlushQueue(Val(), count - i));
        fx := fx + served;
        if stop {
          i := count;
          FlushedAll(Val(), fx, 0);
          break;
        }
      }
      FlushedAll(Val(), fx, count - i);
      var more := EmitDataBlocked();
      fx := fx + more;
    }

    /** One turn of the loop above: take the first blocked stream and flush it, unless no credit is left. */
    method ServeNext() returns (fx: seq<Effect>, stop: bool)
      requires blockedStreamsQueue != []
      modifies this
      ensures Turn(Val(), fx, stop) == FirstTurn(old(Val()))
    {
      hide FlushWrites, IsBlocked;
      var id := blockedStreamsQueue[0];
      blockedStreamsQueue := blockedStreamsQueue[1..];
      blockedStreams := blockedStreams - {id};
      if SessionCredit() == 0 {
        blockedStreamsQueue := [id] + blockedStreamsQueue;
        blockedStreams := blockedStreams + {id};
        return [], true;
      }
      fx, stop := [], false;
      if id in streams {
        fx := ServeBlocked(id);
      }
    }

    /** Flush one stream that was just taken from the blocked queue. */
    method ServeBlocked(id: StreamId) returns (fx: seq<Effect>)
      requires id in streams
      modifies this`streams, this`dataSent, this`blockedStreams, this`blockedStreamsQueue
      ensures var o := FlushWrites(old(streams)[id], old(SessionCredit()));
              && fx == o.fx && streams == old(streams)[id := o.st] && dataSent == old(dataSent) + o.sent
              && blockedStreamsQueue == (if IsBlocked(o.st) then old(blockedStreamsQueue) + [id] else old(blockedStreamsQueue))
              && blockedStreams == if IsBlocked(o.st) then old(blockedStreams) + {id} else old(blockedStreams)
    {
      var stream := new StreamClass.Stream.Borrow(streams[id]);
      var effects, sent := stream.FlushWrites(SessionCredit());
      streams := streams[id := stream.Val()];
      fx := effects;
      dataSent := dataSent + sent;
      if IsBlocked(stream.Val()) {
        blockedStreamsQueue := blockedStreamsQueue + [id];
        blockedStreams := blockedStreams + {id};
      }
    }

    // ----- streams of our own

    method CreateStream(request: RequestId, isUni: bool) returns (fx: seq<Effect>)
      modifies this
      ensures Step(Val(), fx) == S.CreateStream(old(Val()), request, isUni)
    {
      hide S.EmitStreamsBlocked;
      if !IsOpen(Val()) {
        return [Failed(request, Some(ERR_LIB_SESSION_STATE_ERROR))];
      }
      var q := if isUni then uni else bidi;
      if cfg.flowControl && q.issued >= q.peerMax {
        SetQuota(isUni, q.(waiting := q.waiting + [request]));
        fx := EmitStreamsBlocked(isUni);
      } else {
        SetQuota(isUni, q.(issued := q.issued + 1));
        fx := [CreateQuicStream(request, isUni)];
      }
    }

    method DeferStream(request: RequestId, isUni: bool) returns (fx: seq<Effect>)
      modifies this
      ensures Step(Val(), fx) == S.DeferStream(old(Val()), request, isUni)
    {
      if !IsOpen(Val()) {
        return [Failed(request, Some(ERR_LIB_SESSION_STATE_ERROR))];
      }
      var q := if isUni then uni else bidi;
      SetQuota(isUni, q.(issued := q.issued - 1, waiting := q.waiting + [request]));
      fx := [];
    }

    /** Reissue waiting stream requests, in order, while the peer's limit allows. */
    static method ReissueWaiting(start: Quota, flowControl: bool, isUni: bool) returns (q: Quota, fx: seq<Effect>)
      ensures QuotaStep(q, fx) == Reissue(start, flowControl, isUni)
    {
      hide Reissue;
      q, fx := start, [];
      while q.waiting != [] && !(flowControl && q.issued >= q.peerMax)
        invariant var o := Reissue(q, flowControl, isUni); Reissue(start, flowControl, isUni) == QuotaStep(o.q, fx + o.fx)
        decreases |q.waiting|
      {
        ReissueFirst(q, flowControl, isUni, fx);
        fx := fx + [CreateQuicStream(q.waiting[0], isUni)];
        q := q.(issued := q.issued + 1, waiting := q.waiting[1..]);
      }
      ReissueNone(q, flowControl, isUni, fx);
    }

    method FlushBlockedStreamRequests(isUni: bool) returns (fx: seq<Effect>)
      modifies this`bidi, this`uni
      ensures Step(Val(), fx) == FlushStreamRequests(old(Val()), isUni)
    {
      hide S.EmitStreamsBlocked, Reissue;
      var q, reissued := ReissueWaiting(if isUni then uni else bidi, cfg.flowControl, isUni);
      SetQuota(isUni, q);
      var more := EmitStreamsBlocked(isUni);
      fx := reissued + more;
    }

    method BindStream(id: StreamId, request: RequestId, isUni: bool) returns (fx: seq<Effect>)
      modifies this
      ensures Step(Val(), fx) == S.BindStream(old(Val()), id, request, isUni)
    {
      var direction := if isUni then SendOnly else Bidirectional;
      if !IsOpen(Val()) {
        fx := [ResetQuicStream(id, ERR_WT_SESSION_GONE)];
        if !isUni {
          fx := fx + [StopQuicStream(id, ERR_WT_SESSION_GONE)];
        }
        fx := fx + [Failed(request, Some(ERR_LIB_SESSION_STATE_ERROR))];
        return;
      }
      var stream := new StreamClass.Stream(id, direction, false, cfg.maxWriteBufferSize);
      streams := streams[id := stream.Val()];
      fx := [EmitStream(id, Opened(false, direction)), Done(request, BoundStream(id))];
    }

    // ----- streams that end

    method CloseCounted(isUni: bool) returns (fx: seq<Effect>)
      modifies this`bidi, this`uni
      ensures Step(Val(), fx) == CountClosed(old(Val()), isUni)
    {
      hide ReplenishStreams;
      var q := if isUni then uni else bidi;
      SetQuota(isUni, q.(peerClosed := q.peerClosed + 1));
      fx := ReplenishStreamsCredit(isUni, false);
    }

    method HandleClosed(id: StreamId) returns (fx: seq<Effect>)
      modifies this
      ensures Step(Val(), fx) == S.HandleClosed(old(Val()), id)
    {
      hide CountClosed, Suppress, IsClosed;
      if id !in streams || !IsClosed(streams[id]) {
        return [];
      }
      fx := Suppress(Val(), id, [EmitStream(id, StreamClosed)]);
      streams := streams - {id};
      blockedStreams := blockedStreams - {id};
      if IsPeerInitiated(id, cfg.isClient) {
        var more := CloseCounted(IsUnidirectional(id));
        fx := fx + more;
      }
    }

    /** Put a stream back in the table and drop it if the operation closed it. */
    method Return(id: StreamId, o: Outcome) returns (fx: seq<Effect>)
      modifies this
      ensures Step(Val(), fx) == AfterStreamOp(old(Val()), id, o)
    {
      hide S.HandleClosed;
      streams := streams[id := o.st];
      var closed := HandleClosed(id);
      fx := o.fx + closed;
    }

    method AcknowledgeWrite(id: StreamId) returns (fx: seq<Effect>)
      modifies this
      ensures Step(Val(), fx) == AcknowledgeStream(old(Val()), id)
    {
      hide AfterStreamOp;
      if id !in streams {
        return [];
      }
      var stream := new StreamClass.Stream.Borrow(streams[id]);
      stream.Acknowledge();
      fx := Return(id, Outcome(stream.Val(), [], 0));
    }

    method ReadStream(id: StreamId, request: RequestId, maxSize: nat) returns (fx: seq<Effect>)
      modifies this
      ensures Step(Val(), fx) == S.ReadStream(old(Val()), id, request, maxSize)
    {
      hide AfterStreamOp, Read;
      if id !in streams {
        return [Failed(request, Some(ERR_LIB_STREAM_STATE_ERROR))];
      }
      var stream := new StreamClass.Stream.Borrow(streams[id]);
      var effects := stream.Read(request, maxSize);
      fx := Return(id, Outcome(stream.Val(), effects, 0));
    }

    method ResetStream(id: StreamId, request: RequestId, code: ErrorCode) returns (fx: seq<Effect>)
      modifies this
      ensures Step(Val(), fx) == S.ResetStream(old(Val()), id, request, code)
    {
      hide AfterStreamOp, Reset;
      if id !in streams {
        return [Done(request, Nothing)];
      }
      var stream := new StreamClass.Stream.Borrow(streams[id]);
      var effects := stream.Reset(request, code);
      fx := Return(id, Outcome(stream.Val(), effects, 0));
    }

    method StopStream(id: StreamId, request: RequestId, code: ErrorCode) returns (fx: seq<Effect>)
      modifies this
      ensures Step(Val(), fx) == S.StopStream(old(Val()), id, request, code)
    {
      hide AfterStreamOp, Stop;
      if id !in streams {
        return [Done(request, Nothing)];
      }
      var stream := new StreamClass.Stream.Borrow(streams[id]);
      var effects := stream.Stop(request, code);
      fx := Return(id, Outcome(stream.Val(), effects, 0));
    }

    method RecvStreamReset(id: StreamId, http: ErrorCode) returns (fx: seq<Effect>)
      modifies this
      ensures Step(Val(), fx) == S.RecvStreamReset(old(Val()), id, http)
    {
      hide AfterStreamOp, RecvReset, Suppress;
      if id !in streams {
        return [];
      }
      var stream := new StreamClass.Stream.Borrow(streams[id]);
      var effects := stream.RecvReset(http);
      fx := Return(id, Outcome(stream.Val(), Suppress(Val(), id, effects), 0));
    }

    method RecvStopSending(id: StreamId, http: ErrorCode) returns (fx: seq<Effect>)
      modifies this
      ensures Step(Val(), fx) == S.RecvStopSending(old(Val()), id, http)
    {
      hide AfterStreamOp, RecvStop, Suppress;
      if id !in streams {
        return [];
      }
      var stream := new StreamClass.Stream.Borrow(streams[id]);
      var effects := stream.RecvStop(http);
      fx := Return(id, Outcome(stream.Val(), Suppress(Val(), id, effects), 0));
    }

    // ----- teardown

    /** Abort the streams one by one in the order of their ids. */
    method AbortInOrder(ids: seq<StreamId>) returns (fx: seq<Effect>)
      modifies this
      ensures Step(Val(), fx) == AbortEach(old(Val()), ids)
    {
      hide AfterStreamOp, Suppress, Streams.Abort;
      fx := [];
      ghost var start := Val();
      var i := 0;
      AbortedNone(start, ids);
      while i < |ids|
        invariant 0 <= i <= |ids|
        invariant AbortEach(start, ids) == Then(fx, AbortEach(Val(), ids[i..]))
      {
        ghost var here := Val();
        AbortFirst(here, ids, i);
        var id := ids[i];
        var effects := [];
        if id in streams {
          var stream := new StreamClass.Stream.Borrow(streams[id]);
          effects := stream.Abort(ERR_WT_SESSION_GONE);
          effects := Return(id, Outcome(stream.Val(), Suppress(Val(), id, effects), 0));
        }
        i := i + 1;
        Onward(fx, effects, AbortEach(Val(), ids[i..]));
        fx := fx + effects;
      }
      assert ids[i..] == [] && fx + [] == fx;
    }

    /** Fail the requests of a queue, in order. */
    static method FailQueue(requests: seq<RequestId>) returns (fx: seq<Effect>)
      ensures fx == FailAll(requests, None)
    {
      fx := [];
      var i := 0;
      while i < |requests|
        invariant 0 <= i <= |requests| && fx == FailAll(requests, None)[..i]
      {
        fx := fx + [Failed(requests[i], None)];
        i := i + 1;
      }
    }

    method AbortStreams() returns (fx: seq<Effect>)
      modifies this
      ensures Step(Val(), fx) == S.AbortStreams(old(Val()))
    {
      hide AbortEach, Sorted, FailAll;
      fx := AbortInOrder(Sorted(streams.Keys));
      blockedStreams, blockedStreamsQueue, pendingStreams := {}, [], [];
      var f := FailQueue(bidi.waiting);
      bidi := bidi.(waiting := []);
      var g := FailQueue(uni.waiting);
      uni := uni.(waiting := []);
      fx := fx + f + g;
    }

    method Shutdown(to: Phase) returns (fx: seq<Effect>)
      modifies this
      ensures Step(Val(), fx) == S.Shutdown(old(Val()), to)
    {
      hide S.AbortStreams, FailAll;
      phase, pendingCapsules, pendingDatagrams := to, [], [];
      fx := AbortStreams();
      var f := FailQueue(pendingDatagramRequests);
      pendingDatagramRequests := [];
      fx := fx + f;
    }

    method Abort(code: ErrorCode) returns (fx: seq<Effect>)
      modifies this
      ensures Step(Val(), fx) == AbortSession(old(Val()), code)
    {
      hide S.Shutdown;
      if phase == Closed || phase == Closing {
        return [];
      }
      fx := Shutdown(Closed);
      fx := fx + [ResetQuicStream(cfg.id, code), EmitSession(SessionClosed(Some(code)))];
    }

    method Close(request: RequestId, code: ErrorCode, reason: Bytes) returns (fx: seq<Effect>)
      modifies this
      ensures Step(Val(), fx) == CloseSession(old(Val()), request, code, reason)
    {
      hide S.Shutdown;
      if phase == Closed || phase == Closing {
        return [Done(request, Nothing)];
      }
      fx := Shutdown(Closing);
      var goodbye := SendQuicData(cfg.id, [], true);
      if code != ERR_APP_NO_ERROR || reason != [] {
        var shown := if code <= 0xFFFF_FFFF then code else 0xFFFF_FFFF;
        goodbye := SendCapsule(Capsule(CAPSULE_CLOSE_SESSION, Varint.BigEndian(shown, 4) + reason), true);
      }
      fx := fx + [goodbye, EmitSession(SessionClosed(Some(code))), Done(request, Nothing)];
    }

    method RecvConnectClose(code: ErrorCode) returns (fx: seq<Effect>)
      modifies this
      ensures Step(Val(), fx) == S.RecvConnectClose(old(Val()), code)
    {
      hide S.Shutdown;
      if phase == Closed {
        return [];
      }
      if phase == Closing {
        phase := Closed;
        return [];
      }
      fx := Shutdown(Closed);
      fx := fx + [EmitSession(SessionClosed(Some(code)))];
    }

    method Reject(request: RequestId, acceptable: bool) returns (fx: seq<Effect>)
      modifies this
      ensures Step(Val(), fx) == RejectSession(old(Val()), request, acceptable)
    {
      hide S.Shutdown;
      if cfg.isClient {
        return [Failed(request, None)];
      }
      if phase != Connecting {
        return [Failed(request, Some(ERR_LIB_SESSION_STATE_ERROR))];
      }
      if !acceptable {
        return [Failed(request, None)];
      }
      fx := Shutdown(Closed);
      fx := fx + [SendHeaders(true), EmitSession(SessionClosed(None)), Done(request, Nothing)];
    }

    method Drain() returns (fx: seq<Effect>)
      modifies this`phase
      ensures Step(Val(), fx) == S.Drain(old(Val()))
    {
      if phase != Connected {
        return [];
      }
      phase := Draining;
      fx := [SendCapsule(Capsule(CAPSULE_DRAIN_SESSION, []), false), EmitSession(SessionDraining)];
    }

    // ----- streams and data of the peer

    method HandleStreamOpened(id: StreamId) returns (fx: seq<Effect>)
      modifies this
      ensures Step(Val(), fx) == StreamOpened(old(Val()), id)
    {
      hide AbortSession, AdmitStream;
      var direction := DirectionOf(id, cfg.isClient);
      var isUni := direction == ReceiveOnly;
      if !IsOpen(Val()) {
        fx := if direction == Bidirectional then [ResetQuicStream(id, ERR_WT_SESSION_GONE)] else [];
        fx := fx + [StopQuicStream(id, ERR_WT_SESSION_GONE)];
        return;
      }
      if direction == SendOnly {
        return [];
      }
      var q := if isUni then uni else bidi;
      if cfg.flowControl && q.peerOpened >= q.localMax {
        var effects := Abort(ERR_WT_FLOW_CONTROL_ERROR);
        fx := (if isUni then [] else [ResetQuicStream(id, ERR_WT_SESSION_GONE)]) + [StopQuicStream(id, ERR_WT_SESSION_GONE)]
              + effects;
        return;
      }
      SetQuota(isUni, q.(peerOpened := q.peerOpened + 1));
      fx := Admit(id, direction, isUni);
    }

    method Admit(id: StreamId, direction: Direction, isUni: bool) returns (fx: seq<Effect>)
      modifies this
      ensures Step(Val(), fx) == AdmitStream(old(Val()), id, direction, isUni)
    {
      hide CountClosed;
      if phase == Connecting && |pendingStreams| >= cfg.maxPendingStreams {
        var more := CloseCounted(isUni);
        fx := (if isUni then [] else [ResetQuicStream(id, ERR_WT_BUFFERED_STREAM_REJECTED)])
              + [StopQuicStream(id, ERR_WT_BUFFERED_STREAM_REJECTED)] + more;
        return;
      }
      var stream := new StreamClass.Stream(id, direction, true, cfg.maxWriteBufferSize);
      streams := streams[id := stream.Val()];
      if phase == Connecting {
        pendingStreams := pendingStreams + [id];
        fx := [];
      } else {
        fx := [EmitStream(id, Opened(true, direction))];
      }
    }

    static lemma RecvDataCases(s: SessionVal, id: StreamId, data: Bytes, fin: bool)
      ensures var t := s.(window := s.window.(received := s.window.received + |data|));
              && (id !in s.streams ==> S.RecvStreamData(s, id, data, fin) == Step(s, []))
              && (id in s.streams ==>
                    if s.cfg.flowControl && t.window.received > t.window.limit then
                      S.RecvStreamData(s, id, data, fin) == AbortSession(t, ERR_WT_FLOW_CONTROL_ERROR)
                    else
                      var o := RecvData(s.streams[id], data, fin);
                      var g := ReplenishData(t.(streams := s.streams[id := o.st],
                                                window := t.window.(consumed := s.window.consumed + |data|)), false);
                      var c := S.HandleClosed(g.s, id);
                      S.RecvStreamData(s, id, data, fin) == Step(c.s, o.fx + g.fx + c.fx))
    {
      hide AbortSession, RecvData, ReplenishData, S.HandleClosed;
    }

    method RecvStreamData(id: StreamId, data: Bytes, fin: bool) returns (fx: seq<Effect>)
      modifies this
      ensures Step(Val(), fx) == S.RecvStreamData(old(Val()), id, data, fin)
    {
      hide AbortSession, RecvData, ReplenishData, S.HandleClosed, S.RecvStreamData;
      RecvDataCases(Val(), id, data, fin);
      if id !in streams {
        return [];
      }
      dataReceived := dataReceived + |data|;
      if cfg.flowControl && dataReceived > localMaxData {
        fx := Abort(ERR_WT_FLOW_CONTROL_ERROR);
        return;
      }
      var effects := Deliver(id, data, fin);
      var grant := ReplenishDataCredit(false);
      var closed := HandleClosed(id);
      fx := effects + grant + closed;
    }

    /** Hand bytes to a stream and count them as consumed. */
    method Deliver(id: StreamId, data: Bytes, fin: bool) returns (fx: seq<Effect>)
      requires id in streams
      modifies this`streams, this`dataConsumed
      ensures var o := RecvData(old(streams)[id], data, fin);
              streams == old(streams)[id := o.st] && fx == o.fx && dataConsumed == old(dataConsumed) + |data|
    {
      hide RecvData;
      var stream := new StreamClass.Stream.Borrow(streams[id]);
      fx := stream.RecvData(data, fin);
      streams := streams[id := stream.Val()];
      dataConsumed := dataConsumed + |data|;
    }

    // ----- datagrams

    method ReadDatagram(request: RequestId) returns (fx: seq<Effect>)
      modifies this
      ensures Step(Val(), fx) == S.ReadDatagram(old(Val()), request)
    {
      if !IsOpen(Val()) {
        return [Failed(request, Some(ERR_LIB_SESSION_STATE_ERROR))];
      }
      if phase != Connecting && pendingDatagrams != [] {
        fx := [Done(request, DatagramData(pendingDatagrams[0]))];
        pendingDatagrams := pendingDatagrams[1..];
      } else {
        pendingDatagramRequests := pendingDatagramRequests + [request];
        fx := [];
      }
    }

    method RecvDatagram(data: Bytes) returns (fx: seq<Effect>)
      modifies this`pendingDatagramRequests, this`pendingDatagrams
      ensures Step(Val(), fx) == S.RecvDatagram(old(Val()), data)
    {
      fx := [];
      if !IsOpen(Val()) {
        return;
      }
      if phase != Connecting && pendingDatagramRequests != [] {
        fx := [Done(pendingDatagramRequests[0], DatagramData(data))];
        pendingDatagramRequests := pendingDatagramRequests[1..];
      } else if |pendingDatagrams| < cfg.maxPendingDatagrams {
        pendingDatagrams := pendingDatagrams + [data];
      }
    }

    method SendDatagramOut(request: RequestId, data: Bytes, maxFrameSize: nat) returns (fx: seq<Effect>)
      ensures Step(Val(), fx) == SendDatagramTo(Val(), request, data, maxFrameSize)
    {
      if !IsOpen(Val()) {
        return [Failed(request, Some(ERR_LIB_SESSION_STATE_ERROR))];
      }
      var maxPayload := SatSub(maxFrameSize, Varint.Size(cfg.id / 4));
      if |data| > maxPayload {
        return [Failed(request, None)];
      }
      fx := [SendDatagram(data), Done(request, Nothing)];
    }

    // ----- capsules

    method RecvClose(value: Bytes) returns (fx: seq<Effect>)
      modifies this
      ensures Step(Val(), fx) == S.RecvClose(old(Val()), value)
    {
      hide AbortSession, S.Shutdown, Utf8.IsValid, Varint.FromBigEndian;
      if |value| < 4 || |value| - 4 > CLOSE_REASON_SIZE_LIMIT || !Utf8.IsValid(value[4..]) {
        fx := Abort(ERR_H3_MESSAGE_ERROR);
        return;
      }
      fx := Shutdown(Closed);
      fx := fx + [SendQuicData(cfg.id, [], true), EmitSession(SessionClosed(Some(Varint.FromBigEndian(value[..4]))))];
    }

    method RecvLimit(kind: nat, limit: nat) returns (fx: seq<Effect>)
      requires kind in {CAPSULE_MAX_DATA, CAPSULE_MAX_STREAMS_BIDI, CAPSULE_MAX_STREAMS_UNI,
                        CAPSULE_STREAMS_BLOCKED_BIDI, CAPSULE_STREAMS_BLOCKED_UNI}
      modifies this
      ensures Step(Val(), fx) ==
              if kind == CAPSULE_MAX_DATA then RecvMaxData(old(Val()), limit)
              else if kind == CAPSULE_MAX_STREAMS_BIDI || kind == CAPSULE_MAX_STREAMS_UNI then
                RecvMaxStreams(old(Val()), kind == CAPSULE_MAX_STREAMS_UNI, limit)
              else RecvStreamsBlocked(old(Val()), kind == CAPSULE_STREAMS_BLOCKED_UNI, limit)
    {
      hide AbortSession, S.FlushBlockedWrites, FlushStreamRequests, ReplenishStreams;
      var isUni := kind == CAPSULE_MAX_STREAMS_UNI || kind == CAPSULE_STREAMS_BLOCKED_UNI;
      var q := if isUni then uni else bidi;
      if kind == CAPSULE_MAX_DATA {
        if limit <= peerMaxData {
          fx := Abort(ERR_WT_FLOW_CONTROL_ERROR);
        } else {
          peerMaxData := limit;
          var more := FlushBlockedWrites();
          fx := [EmitSession(SessionMaxDataUpdated(limit))] + more;
        }
      } else if limit > STREAMS_LIMIT {
        fx := Abort(ERR_WT_FLOW_CONTROL_ERROR);
      } else if kind == CAPSULE_MAX_STREAMS_BIDI || kind == CAPSULE_MAX_STREAMS_UNI {
        if limit <= q.peerMax {
          fx := Abort(ERR_WT_FLOW_CONTROL_ERROR);
        } else {
          SetQuota(isUni, q.(peerMax := limit));
          var more := FlushBlockedStreamRequests(isUni);
          fx := [EmitSession(SessionMaxStreamsUpdated(isUni, limit))] + more;
        }
      } else {
        fx := ReplenishStreamsCredit(isUni, true);
        if fx == [] {
          fx := [EmitSession(SessionStreamsBlocked(isUni))];
        }
      }
    }

    method Process(c: Capsule) returns (fx: seq<Effect>)
      modifies this
      ensures Step(Val(), fx) == ProcessCapsule(old(Val()), c)
    {
      hide AbortSession, S.RecvClose, RecvMaxData, RecvMaxStreams, RecvStreamsBlocked, ReplenishData, Varint.Read;
      fx := [];
      if !cfg.flowControl && IsFlowControlCapsule(c.kind) {
        return;
      }
      if c.kind == CAPSULE_CLOSE_SESSION {
        fx := RecvClose(c.value);
      } else if c.kind == CAPSULE_DATA_BLOCKED {
        fx := ReplenishDataCredit(true);
        if fx == [] {
          fx := [EmitSession(SessionDataBlocked)];
        }
      } else if c.kind == CAPSULE_DRAIN_SESSION {
        if phase == Connected {
          phase := Draining;
          fx := [EmitSession(SessionDraining)];
        }
      } else if c.kind == CAPSULE_MAX_STREAM_DATA || c.kind == CAPSULE_STREAM_DATA_BLOCKED {
        fx := Abort(ERR_H3_FRAME_UNEXPECTED);
      } else if c.kind in {CAPSULE_MAX_DATA, CAPSULE_MAX_STREAMS_BIDI, CAPSULE_MAX_STREAMS_UNI,
                           CAPSULE_STREAMS_BLOCKED_BIDI, CAPSULE_STREAMS_BLOCKED_UNI} {
        match Varint.Read(c.value) {
          case Incomplete => fx := Abort(ERR_H3_GENERAL_PROTOCOL_ERROR);
          case Got(limit, _) => fx := RecvLimit(c.kind, limit);
        }
      }
    }

    method RecvCapsule(c: Capsule) returns (fx: seq<Effect>)
      modifies this
      ensures Step(Val(), fx) == S.RecvCapsule(old(Val()), c)
    {
      hide AbortSession, ProcessCapsule;
      match phase {
        case Connecting =>
          if |pendingCapsules| >= cfg.maxPendingCapsules {
            fx := Abort(ERR_H3_EXCESSIVE_LOAD);
          } else {
            pendingCapsules := pendingCapsules + [c];
            fx := [];
          }
        case Closing => fx := [];
        case Closed => fx := [ResetQuicStream(cfg.id, ERR_H3_MESSAGE_ERROR)];
        case _ => fx := Process(c);
      }
    }

    // ----- confirmation

    /** Replay what was buffered while connecting: capsules until one of them ends that phase, then datagrams
        for the reads that wait, then the openings of the streams still alive. */
    method ReplayPendingQueues() returns (fx: seq<Effect>)
      requires phase == Connected
      modifies this
      ensures Step(Val(), fx) == ReplayCapsules(old(Val()), |old(pendingCapsules)|)
    {
      hide ProcessCapsule, ReplayDatagrams;
      fx := [];
      ghost var start := Val();
      ReplayedNone(start);
      while pendingCapsules != []
        invariant phase == Connected
        invariant ReplayCapsules(start, |start.capsules|) == Then(fx, ReplayCapsules(Val(), |pendingCapsules|))
        decreases |pendingCapsules|
      {
        ghost var here := Val();
        var c := pendingCapsules[0];
        pendingCapsules := pendingCapsules[1..];
        SessionInvariant.ProcessCapsuleFrame(Val(), c);
        var effects := Process(c);
        ReplayFirst(here);
        if phase != Connected {
          fx := fx + effects;
          return;
        }
        Onward(fx, effects, ReplayCapsules(Val(), |pendingCapsules|));
        fx := fx + effects;
      }
      var rest := ReplayRest();
      fx := fx + rest;
    }

    method ReplayRest() returns (fx: seq<Effect>)
      requires phase == Connected
      modifies this
      ensures Step(Val(), fx) == ReplayDatagrams(old(Val()))
    {
      hide ShowEach;
      fx := [];
      ghost var start := Val();
      ReplayedDatagrams(start);
      while pendingDatagramRequests != [] && pendingDatagrams != []
        invariant phase == Connected
        invariant ReplayDatagrams(start) == Then(fx, ReplayDatagrams(Val()))
        decreases |pendingDatagrams|
      {
        ghost var here := Val();
        var data := pendingDatagrams[0];
        pendingDatagrams := pendingDatagrams[1..];
        var effects := RecvDatagram(data);
        assert ReplayDatagrams(here) == Then(effects, ReplayDatagrams(Val()));
        Onward(fx, effects, ReplayDatagrams(Val()));
        fx := fx + effects;
      }
      ghost var settled := Val();
      var openings := [];
      while pendingStreams != []
        invariant Val() == settled.(pendingStreams := pendingStreams)
        invariant ShowEach(settled, settled.pendingStreams) == openings + ShowEach(settled, pendingStreams)
        decreases |pendingStreams|
      {
        ShowFirst(settled, pendingStreams);
        var id := pendingStreams[0];
        pendingStreams := pendingStreams[1..];
        if id in streams {
          openings := openings + [EmitStream(id, Opened(true, DirectionOf(id, cfg.isClient)))];
        }
      }
      ShowNone(settled);
      fx := fx + openings;
    }

    method Confirm() returns (fx: seq<Effect>)
      modifies this
      ensures Step(Val(), fx) == ConfirmSession(old(Val()))
    {
      hide ReplayCapsules;
      if phase != Connecting {
        return [];
      }
      phase := Connected;
      var rest := ReplayPendingQueues();
      fx := [EmitSession(SessionReady)] + rest;
    }

    method Accept(request: RequestId, acceptable: bool) returns (fx: seq<Effect>)
      modifies this
      ensures Step(Val(), fx) == AcceptSession(old(Val()), request, acceptable)
    {
      hide ReplayCapsules;
      if cfg.isClient {
        return [Failed(request, None)];
      }
      if phase != Connecting {
        return [Failed(request, Some(ERR_LIB_SESSION_STATE_ERROR))];
      }
      if !acceptable {
        return [Failed(request, None)];
      }
      phase := Connected;
      var rest := ReplayPendingQueues();
      fx := [SendHeaders(false), EmitSession(SessionReady), Done(request, Nothing)] + rest;
    }

    method HandleControl(e: Event) returns (fx: seq<Effect>)
      requires e.UserAccept? || e.UserReject? || e.UserClose? || e.PeerConfirmed?
      modifies this
      ensures Step(Val(), fx) == S.Handle(old(Val()), e)
    {
      hide AcceptSession, RejectSession, CloseSession, ConfirmSession, S.RecvConnectClose, AbortSession, S.Drain, S.RecvCapsule,
      S.ReadStream, S.WriteStream, S.ResetStream, S.StopStream, CompleteStreamWrite, AcknowledgeStream, S.RecvStreamReset,
      S.RecvStopSending, S.CreateStream, S.ReadDatagram, SendDatagramTo, S.BindStream, S.DeferStream, FlushStreamRequests,
      StreamOpened, S.RecvStreamData, S.RecvDatagram;
      match e {
        case UserAccept(request, acceptable) => fx := Accept(request, acceptable);
        case UserReject(request, acceptable) => fx := Reject(request, acceptable);
        case UserClose(request, code, reason) => fx := Close(request, code, reason);
        case PeerConfirmed => fx := Confirm();
      }
    }

    method HandleOutside(e: Event) returns (fx: seq<Effect>)
      requires e.PeerCapsule? || e.PeerClosed? || e.AbortAll? || e.DrainAll?
      modifies this
      ensures Step(Val(), fx) == S.Handle(old(Val()), e)
    {
      hide AcceptSession, RejectSession, CloseSession, ConfirmSession, S.RecvConnectClose, AbortSession, S.Drain, S.RecvCapsule,
      S.ReadStream, S.WriteStream, S.ResetStream, S.StopStream, CompleteStreamWrite, AcknowledgeStream, S.RecvStreamReset,
      S.RecvStopSending, S.CreateStream, S.ReadDatagram, SendDatagramTo, S.BindStream, S.DeferStream, FlushStreamRequests,
      StreamOpened, S.RecvStreamData, S.RecvDatagram;
      match e {
        case PeerCapsule(c) => fx := RecvCapsule(c);
        case PeerClosed(code) => fx := RecvConnectClose(code);
        case AbortAll(code) => fx := Abort(code);
        case DrainAll => fx := Drain();
      }
    }

    method HandleOnStream(e: Event) returns (fx: seq<Effect>)
      requires e.UserRead? || e.UserWrite? || e.UserReset? || e.UserStop?
               || e.TransportCompleted? || e.TransportAcknowledged? || e.PeerReset? || e.PeerStop?
      modifies this
      ensures Step(Val(), fx) == S.Handle(old(Val()), e)
    {
      hide AcceptSession, RejectSession, CloseSession, ConfirmSession, S.RecvConnectClose, AbortSession, S.Drain, S.RecvCapsule,
      S.ReadStream, S.WriteStream, S.ResetStream, S.StopStream, CompleteStreamWrite, AcknowledgeStream, S.RecvStreamReset,
      S.RecvStopSending, S.CreateStream, S.ReadDatagram, SendDatagramTo, S.BindStream, S.DeferStream, FlushStreamRequests,
      StreamOpened, S.RecvStreamData, S.RecvDatagram;
      match e {
        case UserRead(id, request, maxSize) => fx := ReadStream(id, request, maxSize);
        case UserWrite(id, request, data, fin) => fx := WriteStream(id, request, data, fin);
        case UserReset(id, request, code) => fx := ResetStream(id, request, code);
        case UserStop(id, request, code) => fx := StopStream(id, request, code);
        case TransportCompleted(id) => fx := CompleteWrite(id);
        case TransportAcknowledged(id) => fx := AcknowledgeWrite(id);
        case PeerReset(id, code) => fx := RecvStreamReset(id, code);
        case PeerStop(id, code) => fx := RecvStopSending(id, code);
      }
    }

    method HandleRest(e: Event) returns (fx: seq<Effect>)
      requires e.UserCreate? || e.UserReadDatagram? || e.UserSendDatagram? || e.TransportBind? || e.TransportDefer?
               || e.TransportMaxStreams? || e.PeerOpened? || e.PeerData? || e.PeerDatagram?
      modifies this
      ensures Step(Val(), fx) == S.Handle(old(Val()), e)
    {
      hide AcceptSession, RejectSession, CloseSession, ConfirmSession, S.RecvConnectClose, AbortSession, S.Drain, S.RecvCapsule,
      S.ReadStream, S.WriteStream, S.ResetStream, S.StopStream, CompleteStreamWrite, AcknowledgeStream, S.RecvStreamReset,
      S.RecvStopSending, S.CreateStream, S.ReadDatagram, SendDatagramTo, S.BindStream, S.DeferStream, FlushStreamRequests,
      StreamOpened, S.RecvStreamData, S.RecvDatagram;
      match e {
        case UserCreate(request, isUni) => fx := CreateStream(request, isUni);
        case UserReadDatagram(request) => fx := ReadDatagram(request);
        case UserSendDatagram(request, data, size) => fx := SendDatagramOut(request, data, size);
        case TransportBind(id, request, isUni) => fx := BindStream(id, request, isUni);
        case TransportDefer(request, isUni) => fx := DeferStream(request, isUni);
        case TransportMaxStreams(isUni) => fx := FlushBlockedStreamRequests(isUni);
        case PeerOpened(id) => fx := HandleStreamOpened(id);
        case PeerData(id, data, fin) => fx := RecvStreamData(id, data, fin);
        case PeerDatagram(data) => fx := RecvDatagram(data);
      }
    }

    /** Every event does to this object what the state machine does to its value. */
    method Handle(e: Event) returns (fx: seq<Effect>)
      modifies this
      ensures Step(Val(), fx) == S.Handle(old(Val()), e)
    {
      hide S.Handle;
      if SessionInvariant.OnStream(e) {
        fx := HandleOnStream(e);
      } else if e.UserAccept? || e.UserReject? || e.UserClose? || e.PeerConfirmed? {
        fx := HandleControl(e);
      } else if e.PeerCapsule? || e.PeerClosed? || e.AbortAll? || e.DrainAll? {
        fx := HandleOutside(e);
      } else {
        fx := HandleRest(e);
      }
    }
  }

  lemma ReissueFirst(q: Quota, flowControl: bool, isUni: bool, fx: seq<Effect>)
    requires q.waiting != [] && !(flowControl && q.issued >= q.peerMax)
    ensures var next := Reissue(q.(issued := q.issued + 1, waiting := q.waiting[1..]), flowControl, isUni);
            var o := Reissue(q, flowControl, isUni);
            o.q == next.q && fx + o.fx == fx + [CreateQuicStream(q.waiting[0], isUni)] + next.fx
  {
  }

  lemma ReissueNone(q: Quota, flowControl: bool, isUni: bool, fx: seq<Effect>)
    requires q.waiting == [] || (flowControl && q.issued >= q.peerMax)
    ensures Reissue(q, flowControl, isUni) == QuotaStep(q, []) && fx + [] == fx
  {
  }

  lemma AbortedNone(s: SessionVal, ids: seq<StreamId>)
    ensures AbortEach(s, ids) == Then([], AbortEach(s, ids[0..]))
  {
    assert ids[0..] == ids;
    assert [] + AbortEach(s, ids).fx == AbortEach(s, ids).fx;
  }

  lemma AbortFirst(s: SessionVal, ids: seq<StreamId>, i: nat)
    requires i < |ids|
    ensures var id := ids[i];
            AbortEach(s, ids[i..]) ==
            if id in s.streams then
              var o := Streams.Abort(s.streams[id], ERR_WT_SESSION_GONE);
              var head := AfterStreamOp(s, id, o.(fx := Suppress(s, id, o.fx)));
              Then(head.fx, AbortEach(head.s, ids[i + 1..]))
            else Then([], AbortEach(s, ids[i + 1..]))
  {
    hide AfterStreamOp, Suppress, Streams.Abort;
    assert ids[i..][1..] == ids[i + 1..] && ids[i..][0] == ids[i];
  }

  lemma ReplayedNone(s: SessionVal)
    ensures ReplayCapsules(s, |s.capsules|) == Then([], ReplayCapsules(s, |s.capsules|))
  {
    assert [] + ReplayCapsules(s, |s.capsules|).fx == ReplayCapsules(s, |s.capsules|).fx;
  }

  lemma ReplayFirst(s: SessionVal)
    requires s.capsules != []
    ensures var p := ProcessCapsule(s.(capsules := s.capsules[1..]), s.capsules[0]);
            ReplayCapsules(s, |s.capsules|) ==
            if p.s.phase != Connected then p else Then(p.fx, ReplayCapsules(p.s, |s.capsules| - 1))
  {
    hide ProcessCapsule, ReplayDatagrams;
  }

  lemma ReplayedDatagrams(s: SessionVal)
    ensures ReplayDatagrams(s) == Then([], ReplayDatagrams(s))
  {
    assert [] + ReplayDatagrams(s).fx == ReplayDatagrams(s).fx;
  }

  lemma ShowFirst(s: SessionVal, ids: seq<StreamId>)
    requires ids != []
    ensures ShowEach(s, ids) ==
            (if ids[0] in s.streams then [EmitStream(ids[0], Opened(true, DirectionOf(ids[0], s.cfg.isClient)))] else [])
            + ShowEach(s, ids[1..])
  {
  }

  lemma ShowNone(s: SessionVal)
    ensures ShowEach(s, []) == []
  {
  }
}
