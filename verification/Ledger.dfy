/** The request ledger: at every point of every run a request given to a session is held in one place,
    lent to the transport, or answered once. */
module Ledger {
  import opened Types
  import opened Streams
  import opened Sessions
  import opened Traces
  import opened SessionInvariant
  import SF = StreamFacts

  /** Effects that touch no request. */
  ghost predicate NoRequests(fx: seq<Effect>) {
    forall i :: 0 <= i < |fx| ==> !fx[i].Done? && !fx[i].Failed? && !fx[i].CreateQuicStream?
  }

  lemma {:induction false} NoRequestsFacts(fx: seq<Effect>, r: RequestId)
    requires NoRequests(fx)
    ensures Answers(fx, r) == 0 && Lends(fx, r) == 0
  {
    if fx != [] {
      NoRequestsFacts(fx[1..], r);
    }
  }

  lemma PlainLends(fx: seq<Effect>, r: RequestId)
    requires Plain(fx)
    ensures Lends(fx, r) == 0
  {
    PlainFacts(fx);
  }

  lemma Append(a: seq<Effect>, b: seq<Effect>, r: RequestId)
    ensures Answers(a + b, r) == Answers(a, r) + Answers(b, r)
    ensures Lends(a + b, r) == Lends(a, r) + Lends(b, r)
  {
    AnswersAppend(a, b, r);
    LendsAppend(a, b, r);
  }

  /** The books balance: what was held and given is held, answered or lent. */
  ghost predicate Balanced(s: SessionVal, given: nat, o: Step, r: RequestId) {
    Held(o.s, r) + Answers(o.fx, r) + Lends(o.fx, r) == Held(s, r) + given
  }

  lemma Sequence(s: SessionVal, given: nat, o: Step, p: Step, r: RequestId)
    requires Balanced(s, given, o, r) && Balanced(o.s, 0, p, r)
    ensures Balanced(s, given, Step(p.s, o.fx + p.fx), r)
  {
    Append(o.fx, p.fx, r);
  }

  /** Effects without requests, appended or put in front, change nothing in the books. */
  lemma Decorate(s: SessionVal, given: nat, o: Step, before: seq<Effect>, after: seq<Effect>, r: RequestId)
    requires Balanced(s, given, o, r) && NoRequests(before) && NoRequests(after)
    ensures Balanced(s, given, Step(o.s, before + o.fx + after), r)
    ensures Balanced(s, given, Step(o.s, before + o.fx), r)
    ensures Balanced(s, given, Step(o.s, o.fx + after), r)
  {
    Append(before, o.fx, r);
    Append(before + o.fx, after, r);
    Append(o.fx, after, r);
    NoRequestsFacts(before, r);
    NoRequestsFacts(after, r);
  }

  /** Answering the request just given. */
  lemma AnswerNow(s: SessionVal, e: Effect, r: RequestId)
    requires e.Done? || e.Failed?
    ensures Balanced(s, if e.request == r then 1 else 0, Step(s, [e]), r)
  {
    assert [e][1..] == [];
  }

  lemma AnswerLast(s: SessionVal, given: nat, o: Step, e: Effect, r: RequestId)
    requires Balanced(s, given, o, r) && (e.Done? || e.Failed?)
    ensures Balanced(s, given + if e.request == r then 1 else 0, Step(o.s, o.fx + [e]), r)
  {
    Append(o.fx, [e], r);
    assert [e][1..] == [];
  }

  lemma SameHeld(s: SessionVal, t: SessionVal, r: RequestId)
    requires t.streams == s.streams && t.bidi.waiting == s.bidi.waiting && t.uni.waiting == s.uni.waiting
    requires t.datagramRequests == s.datagramRequests
    ensures Held(t, r) == Held(s, r)
  {
  }

  // ----- streams

  lemma CountClosedBalance(s: SessionVal, uni: bool, r: RequestId)
    ensures Balanced(s, 0, CountClosed(s, uni), r) && NoRequests(CountClosed(s, uni).fx)
  {
    hide Varint.Write, Held;
    var c := CountClosed(s, uni);
    SameHeld(s, c.s, r);
    NoRequestsFacts(c.fx, r);
  }

  lemma ClosedShown(s: SessionVal, id: StreamId)
    ensures var shown := Suppress(s, id, [EmitStream(id, StreamClosed)]);
            shown == if id in s.pendingStreams then [] else [EmitStream(id, StreamClosed)]
  {
    assert [EmitStream(id, StreamClosed)][1..] == [];
    assert WithoutStreamEvents([]) == [];
  }

  lemma HandleClosedBalance(s: SessionVal, id: StreamId, r: RequestId)
    requires StreamsOk(s)
    ensures Balanced(s, 0, HandleClosed(s, id), r)
  {
    if id in s.streams && IsClosed(s.streams[id]) {
      SF.ClosedHoldsNothing(s.streams[id], r);
      TableRemove(s.streams, id, r);
      var dropped := s.(streams := s.streams - {id}, credit := s.credit.(blocked := s.credit.blocked - {id}));
      var shown := Suppress(s, id, [EmitStream(id, StreamClosed)]);
      ClosedShown(s, id);
      NoRequestsFacts(shown, r);
      if IsPeerInitiated(id, s.cfg.isClient) {
        CountClosedBalance(dropped, IsUnidirectional(id), r);
        Append(shown, CountClosed(dropped, IsUnidirectional(id)).fx, r);
        hide CountClosed, Suppress, StreamsOk;
      }
    }
  }

  lemma AfterStreamOpBalance(s: SessionVal, id: StreamId, o: Outcome, given: nat, r: RequestId)
    requires StreamsOk(s) && Storable(s, id, o)
    requires SF.Held(o.st, r) + Answers(o.fx, r) == SF.Held(s.streams[id], r) + given
    ensures Balanced(s, given, AfterStreamOp(s, id, o), r)
  {
    var stored := s.(streams := s.streams[id := o.st]);
    StoreStreams(s, id, o);
    TableUpdate(s.streams, id, o.st, r);
    PlainLends(o.fx, r);
    HandleClosedBalance(stored, id, r);
    Sequence(s, given, Step(stored, o.fx), HandleClosed(stored, id), r);
    hide HandleClosed, StreamsOk, Storable;
  }

  lemma EmitDataBlockedQuiet(cfg: Config, c: SendCredit)
    ensures NoRequests(EmitDataBlocked(cfg, c).fx)
  {
    hide Varint.Write;
  }

  lemma AfterSendBalance(s: SessionVal, id: StreamId, o: Outcome, given: nat, r: RequestId)
    requires Storable(s, id, o)
    requires SF.Held(o.st, r) + Answers(o.fx, r) == SF.Held(s.streams[id], r) + given
    ensures Balanced(s, given, AfterSend(s, id, o), r)
  {
    hide NoteBlocked, EmitDataBlocked, SF.Held, IsBlocked, Streams.Inv;
    TableUpdate(s.streams, id, o.st, r);
    PlainLends(o.fx, r);
    var metered := s.credit.(sent := s.credit.sent + o.sent);
    var noted := if IsBlocked(o.st) then NoteBlocked(metered, id) else metered;
    var e := EmitDataBlocked(s.cfg, noted);
    EmitDataBlockedQuiet(s.cfg, noted);
    Decorate(s, given, Step(s.(streams := s.streams[id := o.st], credit := e.c), o.fx), [], e.fx, r);
  }

  lemma SuppressBalance(s: SessionVal, id: StreamId, fx: seq<Effect>, r: RequestId)
    ensures Answers(Suppress(s, id, fx), r) == Answers(fx, r)
    ensures Plain(fx) ==> Plain(Suppress(s, id, fx))
    ensures SentBytes(Suppress(s, id, fx)) == SentBytes(fx)
  {
    SuppressKeeps(fx);
  }

  /** The request an event brings: from the user, or back from the transport. */
  function Given(e: Event, r: RequestId): nat {
    match e
    case UserAccept(q, _) => if q == r then 1 else 0
    case UserReject(q, _) => if q == r then 1 else 0
    case UserClose(q, _, _) => if q == r then 1 else 0
    case UserCreate(q, _) => if q == r then 1 else 0
    case UserRead(_, q, _) => if q == r then 1 else 0
    case UserWrite(_, q, _, _) => if q == r then 1 else 0
    case UserReset(_, q, _) => if q == r then 1 else 0
    case UserStop(_, q, _) => if q == r then 1 else 0
    case UserReadDatagram(q) => if q == r then 1 else 0
    case UserSendDatagram(q, _, _) => if q == r then 1 else 0
    case TransportBind(_, q, _) => if q == r then 1 else 0
    case TransportDefer(q, _) => if q == r then 1 else 0
    case _ => 0
  }

  lemma WriteBalance(s: SessionVal, id: StreamId, request: RequestId, data: Bytes, fin: bool, r: RequestId)
    requires StreamsOk(s) && id in s.streams && Held(s, request) == 0
    ensures Balanced(s, if request == r then 1 else 0, WriteStream(s, id, request, data, fin), r)
  {
    var st := s.streams[id];
    var credit := AvailableCredit(s.cfg, s.credit);
    HeldByStream(s, id, request);
    SF.WriteKeeps(st, request, data, fin, credit);
    SF.WriteHeld(st.send, st.maxWriteBufferSize, st.id, Chunk(data, request, fin), credit, r);
    AfterSendBalance(s, id, Write(st, request, data, fin, credit), if request == r then 1 else 0, r);
    hide AfterSend, StreamsOk;
  }

  lemma CompleteBalance(s: SessionVal, id: StreamId, r: RequestId)
    requires StreamsOk(s) && id in s.streams
    ensures Balanced(s, 0, CompleteStreamWrite(s, id), r)
  {
    var st := s.streams[id];
    var credit := AvailableCredit(s.cfg, s.credit);
    SF.CompleteKeeps(st, credit);
    SF.CompleteHeld(st.send, st.maxWriteBufferSize, st.id, credit, r);
    AfterSendBalance(s, id, CompleteWrite(st, credit), 0, r);
    hide AfterSend, StreamsOk;
  }

  lemma ReadBalance(s: SessionVal, id: StreamId, request: RequestId, maxSize: nat, r: RequestId)
    requires StreamsOk(s) && id in s.streams
    ensures Balanced(s, if request == r then 1 else 0, ReadStream(s, id, request, maxSize), r)
  {
    var st := s.streams[id];
    SF.ReadKeeps(st, request, maxSize);
    SF.ReadHeld(st.receive, st.id, request, maxSize, r);
    AfterStreamOpBalance(s, id, Read(st, request, maxSize), if request == r then 1 else 0, r);
    hide AfterStreamOp, StreamsOk;
  }

  lemma ResetStopBalance(s: SessionVal, id: StreamId, request: RequestId, code: ErrorCode, r: RequestId)
    requires StreamsOk(s) && id in s.streams
    ensures Balanced(s, if request == r then 1 else 0, ResetStream(s, id, request, code), r)
    ensures Balanced(s, if request == r then 1 else 0, StopStream(s, id, request, code), r)
  {
    var st := s.streams[id];
    SF.ResetKeeps(st, request, code);
    SF.ResetStreamHeld(st, request, code, r);
    AfterStreamOpBalance(s, id, Reset(st, request, code), if request == r then 1 else 0, r);
    SF.StopKeeps(st, request, code);
    SF.StopStreamHeld(st, request, code, r);
    AfterStreamOpBalance(s, id, Stop(st, request, code), if request == r then 1 else 0, r);
    hide AfterStreamOp, StreamsOk;
  }

  lemma AcknowledgeBalance(s: SessionVal, id: StreamId, r: RequestId)
    requires StreamsOk(s) && id in s.streams && SF.MayAcknowledge(s.streams[id])
    ensures Balanced(s, 0, AcknowledgeStream(s, id), r)
  {
    SF.AcknowledgeKeeps(s.streams[id]);
    AfterStreamOpBalance(s, id, Outcome(Acknowledge(s.streams[id]), [], 0), 0, r);
    hide AfterStreamOp, StreamsOk;
  }

  lemma PeerResetBalance(s: SessionVal, id: StreamId, code: ErrorCode, r: RequestId)
    requires StreamsOk(s) && id in s.streams
    ensures Balanced(s, 0, RecvStreamReset(s, id, code), r)
  {
    var st := s.streams[id];
    var o := RecvReset(st, code);
    SF.RecvResetKeeps(st, code);
    SF.ReceiveResetHeld(st.receive, st.id, code, r);
    SuppressBalance(s, id, o.fx, r);
    AfterStreamOpBalance(s, id, o.(fx := Suppress(s, id, o.fx)), 0, r);
    hide AfterStreamOp, StreamsOk, Suppress;
  }

  lemma PeerStopBalance(s: SessionVal, id: StreamId, code: ErrorCode, r: RequestId)
    requires StreamsOk(s) && id in s.streams
    ensures Balanced(s, 0, RecvStopSending(s, id, code), r)
  {
    var st := s.streams[id];
    var o := RecvStop(st, code);
    SF.RecvStopKeeps(st, code);
    SF.RecvStopHeld(st, code, r);
    SuppressBalance(s, id, o.fx, r);
    AfterStreamOpBalance(s, id, o.(fx := Suppress(s, id, o.fx)), 0, r);
    hide AfterStreamOp, StreamsOk, Suppress;
  }

  /** Operations on a live stream. */
  lemma StreamOpBalance(s: SessionVal, e: Event, r: RequestId)
    requires Base(s) && Allowed(s, e) && OnStream(e) && e.stream in s.streams
    ensures Balanced(s, Given(e, r), Handle(s, e), r)
  {
    hide Balanced, StreamsOk, Queued, Spent, QuotaOk, ShutOk;
    hide ReadStream, WriteStream, ResetStream, StopStream, CompleteStreamWrite, AcknowledgeStream, RecvStreamReset,
    RecvStopSending;
    match e {
      case UserRead(id, request, maxSize) => ReadBalance(s, id, request, maxSize, r);
      case UserWrite(id, request, data, fin) => WriteBalance(s, id, request, data, fin, r);
      case UserReset(id, request, code) => ResetStopBalance(s, id, request, code, r);
      case UserStop(id, request, code) => ResetStopBalance(s, id, request, code, r);
      case TransportCompleted(id) => CompleteBalance(s, id, r);
      case TransportAcknowledged(id) => AcknowledgeBalance(s, id, r);
      case PeerReset(id, code) => PeerResetBalance(s, id, code, r);
      case PeerStop(id, code) => PeerStopBalance(s, id, code, r);
    }
  }

  /** Operations on a stream the session does not have are answered on the spot. */
  lemma MissingStreamBalance(s: SessionVal, e: Event, r: RequestId)
    requires OnStream(e) && e.stream !in s.streams
    ensures Balanced(s, Given(e, r), Handle(s, e), r)
  {
    hide Held;
    var o := Handle(s, e);
    assert o.s == s && |o.fx| <= 1;
    if o.fx == [] {
    } else {
      assert o.fx == [o.fx[0]];
      AnswerNow(s, o.fx[0], r);
    }
  }

  // ----- teardown

  lemma {:induction false} AbortEachBalance(s: SessionVal, ids: seq<StreamId>, r: RequestId)
    requires StreamsOk(s)
    ensures Balanced(s, 0, AbortEach(s, ids), r)
    decreases |ids|
  {
    hide Held, StreamsOk, AfterStreamOp, Suppress, Abort;
    if ids != [] {
      var id := ids[0];
      if id in s.streams {
        var o := Abort(s.streams[id], ERR_WT_SESSION_GONE);
        var quiet := o.(fx := Suppress(s, id, o.fx));
        AbortOneBalance(s, id, r);
        var head := AfterStreamOp(s, id, quiet);
        AbortEachBalance(head.s, ids[1..], r);
        Sequence(s, 0, head, AbortEach(head.s, ids[1..]), r);
      } else {
        AbortEachBalance(s, ids[1..], r);
        assert [] + AbortEach(s, ids[1..]).fx == AbortEach(s, ids[1..]).fx;
      }
    }
  }

  lemma AbortOneBalance(s: SessionVal, id: StreamId, r: RequestId)
    requires StreamsOk(s) && id in s.streams
    ensures var o := Abort(s.streams[id], ERR_WT_SESSION_GONE);
            var head := AfterStreamOp(s, id, o.(fx := Suppress(s, id, o.fx)));
            Balanced(s, 0, head, r) && StreamsOk(head.s)
  {
    var o := Abort(s.streams[id], ERR_WT_SESSION_GONE);
    SF.AbortKeeps(s.streams[id], ERR_WT_SESSION_GONE);
    SF.AbortHeld(s.streams[id], ERR_WT_SESSION_GONE, r);
    SuppressBalance(s, id, o.fx, r);
    var quiet := o.(fx := Suppress(s, id, o.fx));
    AfterStreamOpBalance(s, id, quiet, 0, r);
    StoreStreams(s, id, quiet);
    CloseStreamsOk(s.(streams := s.streams[id := o.st]), id);
    hide Suppress, HandleClosed, Held, Abort;
  }

  lemma CloseStreamsOk(s: SessionVal, id: StreamId)
    requires StreamsOk(s)
    ensures StreamsOk(HandleClosed(s, id).s)
  {
  }

  lemma FailWaiting(requests: seq<RequestId>, r: RequestId)
    ensures Answers(FailAll(requests, None), r) == Count(requests, r) && Lends(FailAll(requests, None), r) == 0
  {
    FailAllAnswers(requests, None, r);
    PlainLends(FailAll(requests, None), r);
  }

  /** Leaving the open phases answers every request the session holds. */
  lemma ShutdownBalance(s: SessionVal, phase: Phase, r: RequestId)
    requires StreamsOk(s)
    ensures Balanced(s, 0, Shutdown(s, phase), r)
  {
    var b := s.(phase := phase, capsules := [], datagrams := []);
    var ids := Sorted(b.streams.Keys);
    assert StreamsOk(b);
    AbortEachBalance(b, ids, r);
    var a := AbortEach(b, ids);
    hide StreamsOk, AbortEach, Sorted;
    var f := FailAll(a.s.bidi.waiting, None);
    var g := FailAll(a.s.uni.waiting, None);
    var h := FailAll(a.s.datagramRequests, None);
    FailWaiting(a.s.bidi.waiting, r);
    FailWaiting(a.s.uni.waiting, r);
    FailWaiting(a.s.datagramRequests, r);
    Append(a.fx, f, r);
    Append(a.fx + f, g, r);
    Append(a.fx + f + g, h, r);
  }

  lemma AbortBalance(s: SessionVal, code: ErrorCode, r: RequestId)
    requires StreamsOk(s)
    ensures Balanced(s, 0, AbortSession(s, code), r)
  {
    hide Held, Shutdown, StreamsOk;
    if IsOpen(s) {
      ShutdownBalance(s, Closed, r);
      Decorate(s, 0, Shutdown(s, Closed), [], [ResetQuicStream(s.cfg.id, code), EmitSession(SessionClosed(Some(code)))], r);
    }
  }

  lemma RejectBalance(s: SessionVal, request: RequestId, acceptable: bool, r: RequestId)
    requires StreamsOk(s)
    ensures Balanced(s, if request == r then 1 else 0, RejectSession(s, request, acceptable), r)
  {
    hide Held, Shutdown, StreamsOk, Balanced;
    if !s.cfg.isClient && s.phase == Connecting && acceptable {
      ShutdownBalance(s, Closed, r);
      var d := Shutdown(s, Closed);
      var tail := [SendHeaders(true), EmitSession(SessionClosed(None))];
      Decorate(s, 0, d, [], tail, r);
      AnswerLast(s, 0, Step(d.s, d.fx + tail), Done(request, Nothing), r);
      assert d.fx + tail + [Done(request, Nothing)] == d.fx + [SendHeaders(true), EmitSession(SessionClosed(None)), Done(request, Nothing)];
    } else {
      AnswerNow(s, RejectSession(s, request, acceptable).fx[0], r);
    }
  }

  lemma CloseBalance(s: SessionVal, request: RequestId, code: ErrorCode, reason: Bytes, r: RequestId)
    requires StreamsOk(s)
    ensures Balanced(s, if request == r then 1 else 0, CloseSession(s, request, code, reason), r)
  {
    hide Held, Shutdown, StreamsOk, Balanced, Varint.BigEndian;
    if IsOpen(s) {
      ShutdownBalance(s, Closing, r);
      var d := Shutdown(s, Closing);
      var fx := CloseSession(s, request, code, reason).fx;
      var tail := [fx[|d.fx|], EmitSession(SessionClosed(Some(code)))];
      Decorate(s, 0, d, [], tail, r);
      AnswerLast(s, 0, Step(d.s, d.fx + tail), Done(request, Nothing), r);
      assert d.fx + tail + [Done(request, Nothing)] == fx;
    } else {
      AnswerNow(s, Done(request, Nothing), r);
    }
  }

  lemma ConnectCloseBalance(s: SessionVal, code: ErrorCode, r: RequestId)
    requires StreamsOk(s)
    ensures Balanced(s, 0, RecvConnectClose(s, code), r)
  {
    hide Held, Shutdown, StreamsOk;
    ShutdownBalance(s, Closed, r);
    Decorate(s, 0, Shutdown(s, Closed), [], [EmitSession(SessionClosed(Some(code)))], r);
    SameHeld(s, s.(phase := Closed), r);
  }

  // ----- stream requests

  lemma WithQuotaHeld(s: SessionVal, uni: bool, q: Quota, r: RequestId)
    ensures Held(WithQuota(s, uni, q), r) + Count(QuotaOf(s, uni).waiting, r) == Held(s, r) + Count(q.waiting, r)
  {
  }

  lemma EmitStreamsBlockedQuiet(q: Quota, flowControl: bool, uni: bool)
    ensures NoRequests(EmitStreamsBlocked(q, flowControl, uni).fx)
    ensures EmitStreamsBlocked(q, flowControl, uni).q.waiting == q.waiting
  {
    hide Varint.Write;
  }

  lemma CountOne(requests: seq<RequestId>, request: RequestId, r: RequestId)
    ensures Count(requests + [request], r) == Count(requests, r) + if request == r then 1 else 0
  {
    CountAppend(requests, [request], r);
    assert [request][1..] == [];
  }

  lemma LendNow(request: RequestId, uni: bool, r: RequestId)
    ensures Answers([CreateQuicStream(request, uni)], r) == 0
    ensures Lends([CreateQuicStream(request, uni)], r) == if request == r then 1 else 0
  {
    assert [CreateQuicStream(request, uni)][1..] == [];
  }

  lemma CreateBalance(s: SessionVal, request: RequestId, uni: bool, r: RequestId)
    ensures Balanced(s, if request == r then 1 else 0, CreateStream(s, request, uni), r)
  {
    hide Held, EmitStreamsBlocked, WithQuota;
    var q := QuotaOf(s, uni);
    var o := CreateStream(s, request, uni);
    if !IsOpen(s) {
      AnswerNow(s, o.fx[0], r);
    } else if s.cfg.flowControl && q.issued >= q.peerMax {
      var waiting := q.(waiting := q.waiting + [request]);
      var e := EmitStreamsBlocked(waiting, s.cfg.flowControl, uni);
      EmitStreamsBlockedQuiet(waiting, s.cfg.flowControl, uni);
      NoRequestsFacts(e.fx, r);
      CountOne(q.waiting, request, r);
      WithQuotaHeld(s, uni, e.q, r);
    } else {
      WithQuotaHeld(s, uni, q.(issued := q.issued + 1), r);
      LendNow(request, uni, r);
    }
  }

  lemma DeferBalance(s: SessionVal, request: RequestId, uni: bool, r: RequestId)
    ensures Balanced(s, if request == r then 1 else 0, DeferStream(s, request, uni), r)
  {
    hide Held, WithQuota;
    var q := QuotaOf(s, uni);
    if !IsOpen(s) {
      AnswerNow(s, DeferStream(s, request, uni).fx[0], r);
    } else {
      CountOne(q.waiting, request, r);
      WithQuotaHeld(s, uni, q.(issued := q.issued - 1, waiting := q.waiting + [request]), r);
    }
  }

  lemma {:induction false} ReissueBalance(q: Quota, flowControl: bool, uni: bool, r: RequestId)
    ensures var o := Reissue(q, flowControl, uni);
            Count(o.q.waiting, r) + Lends(o.fx, r) == Count(q.waiting, r) && Answers(o.fx, r) == 0
    decreases |q.waiting|
  {
    if q.waiting != [] && !(flowControl && q.issued >= q.peerMax) {
      var q' := q.(issued := q.issued + 1, waiting := q.waiting[1..]);
      ReissueBalance(q', flowControl, uni, r);
      var head := [CreateQuicStream(q.waiting[0], uni)];
      assert head[1..] == [];
      Append(head, Reissue(q', flowControl, uni).fx, r);
    }
  }

  lemma FlushRequestsBalance(s: SessionVal, uni: bool, r: RequestId)
    ensures Balanced(s, 0, FlushStreamRequests(s, uni), r)
  {
    hide Held, Reissue, EmitStreamsBlocked, WithQuota;
    var o := Reissue(QuotaOf(s, uni), s.cfg.flowControl, uni);
    var e := EmitStreamsBlocked(o.q, s.cfg.flowControl, uni);
    ReissueBalance(QuotaOf(s, uni), s.cfg.flowControl, uni, r);
    EmitStreamsBlockedQuiet(o.q, s.cfg.flowControl, uni);
    NoRequestsFacts(e.fx, r);
    Append(o.fx, e.fx, r);
    WithQuotaHeld(s, uni, e.q, r);
  }

  // ----- new streams

  lemma NewStreamHolds(id: StreamId, direction: Direction, peer: bool, limit: nat, r: RequestId)
    ensures SF.Held(NewStream(id, direction, peer, limit), r) == 0
  {
  }

  lemma BindBalance(s: SessionVal, id: StreamId, request: RequestId, uni: bool, r: RequestId)
    requires id !in s.streams
    ensures Balanced(s, if request == r then 1 else 0, BindStream(s, id, request, uni), r)
  {
    hide NewStream, SF.Held;
    var o := BindStream(s, id, request, uni);
    if !IsOpen(s) {
      var head := o.fx[..|o.fx| - 1];
      assert o.fx == head + [Failed(request, Some(ERR_LIB_SESSION_STATE_ERROR))];
      NoRequestsFacts(head, r);
      AnswerLast(s, 0, Step(s, head), Failed(request, Some(ERR_LIB_SESSION_STATE_ERROR)), r);
    } else {
      var direction := if uni then SendOnly else Bidirectional;
      NewStreamHolds(id, direction, false, s.cfg.maxWriteBufferSize, r);
      TableUpdate(s.streams, id, NewStream(id, direction, false, s.cfg.maxWriteBufferSize), r);
      var head := [o.fx[0]];
      NoRequestsFacts(head, r);
      AnswerLast(s, 0, Step(o.s, head), o.fx[1], r);
      assert o.fx == head + [o.fx[1]];
    }
  }

  lemma AdmitBalance(s: SessionVal, id: StreamId, direction: Direction, uni: bool, r: RequestId)
    requires id !in s.streams
    ensures Balanced(s, 0, AdmitStream(s, id, direction, uni), r)
  {
    hide NewStream, SF.Held, CountClosed, Held;
    if s.phase == Connecting && |s.pendingStreams| >= s.cfg.maxPendingStreams {
      CountClosedBalance(s, uni, r);
      var head := (if uni then [] else [ResetQuicStream(id, ERR_WT_BUFFERED_STREAM_REJECTED)])
                  + [StopQuicStream(id, ERR_WT_BUFFERED_STREAM_REJECTED)];
      Decorate(s, 0, CountClosed(s, uni), head, [], r);
    } else {
      var st := NewStream(id, direction, true, s.cfg.maxWriteBufferSize);
      NewStreamHolds(id, direction, true, s.cfg.maxWriteBufferSize, r);
      InsertHeld(s, id, st, r);
      var o := AdmitStream(s, id, direction, uni);
      SameHeld(s.(streams := s.streams[id := st]), o.s, r);
      NoRequestsFacts(o.fx, r);
    }
  }

  lemma InsertHeld(s: SessionVal, id: StreamId, st: StreamVal, r: RequestId)
    requires id !in s.streams
    ensures Held(s.(streams := s.streams[id := st]), r) == Held(s, r) + SF.Held(st, r)
  {
    hide SF.Held;
    TableUpdate(s.streams, id, st, r);
  }

  lemma OpenedBalance(s: SessionVal, id: StreamId, r: RequestId)
    requires StreamsOk(s) && id !in s.streams
    ensures Balanced(s, 0, StreamOpened(s, id), r)
  {
    hide AdmitStream, AbortSession, StreamsOk, Held;
    var direction := DirectionOf(id, s.cfg.isClient);
    var uni := direction == ReceiveOnly;
    var q := QuotaOf(s, uni);
    if !IsOpen(s) || direction == SendOnly {
      NoRequestsFacts(StreamOpened(s, id).fx, r);
    } else if s.cfg.flowControl && q.peerOpened >= q.localMax {
      AbortBalance(s, ERR_WT_FLOW_CONTROL_ERROR, r);
      var head := (if uni then [] else [ResetQuicStream(id, ERR_WT_SESSION_GONE)]) + [StopQuicStream(id, ERR_WT_SESSION_GONE)];
      Decorate(s, 0, AbortSession(s, ERR_WT_FLOW_CONTROL_ERROR), head, [], r);
    } else {
      var b := WithQuota(s, uni, q.(peerOpened := q.peerOpened + 1));
      SameHeld(s, b, r);
      AdmitBalance(b, id, direction, uni, r);
    }
  }

  // ----- data, datagrams and capsules

  lemma ReplenishDataQuiet(s: SessionVal, force: bool, r: RequestId)
    ensures Balanced(s, 0, ReplenishData(s, force), r) && NoRequests(ReplenishData(s, force).fx)
  {
    hide Held, Varint.Write;
    var g := ReplenishData(s, force);
    SameHeld(s, g.s, r);
    NoRequestsFacts(g.fx, r);
  }

  lemma ReplenishStreamsQuiet(s: SessionVal, uni: bool, force: bool, r: RequestId)
    ensures Balanced(s, 0, ReplenishStreams(s, uni, force), r) && NoRequests(ReplenishStreams(s, uni, force).fx)
  {
    hide Held, Varint.Write;
    var g := ReplenishStreams(s, uni, force);
    SameHeld(s, g.s, r);
    NoRequestsFacts(g.fx, r);
  }

  /** Storing a stream after it took bytes from the peer. */
  lemma StoreDataBalance(s: SessionVal, id: StreamId, data: Bytes, fin: bool, w: ReceiveCredit, r: RequestId)
    requires StreamsOk(s) && id in s.streams
    ensures var o := RecvData(s.streams[id], data, fin);
            var stored := s.(streams := s.streams[id := o.st], window := w);
            StreamsOk(stored) && Balanced(s, 0, Step(stored, o.fx), r)
  {
    hide RecvData, Held, SF.Held, ReceiveBytes, IsBlocked;
    var st := s.streams[id];
    var o := RecvData(st, data, fin);
    var b := s.(streams := s.streams[id := o.st]);
    SF.RecvDataKeeps(st, data, fin);
    RecvDataHeld(st, data, fin, r);
    StoreStreams(s, id, o);
    hide StreamsOk, SF.Keeps;
    PlainLends(o.fx, r);
    StoredHeld(s, id, o.st, r);
    SameHeld(b, b.(window := w), r);
    SameStreamsOk(b, b.(window := w));
  }

  lemma RecvDataHeld(st: StreamVal, data: Bytes, fin: bool, r: RequestId)
    requires Streams.Inv(st)
    ensures var o := RecvData(st, data, fin);
            SF.Held(o.st, r) + Answers(o.fx, r) == SF.Held(st, r)
  {
    SF.BytesHeld(st.receive, st.id, data, fin, r);
  }

  lemma SettleDataBalance(s: SessionVal, id: StreamId, o: Outcome, stored: SessionVal, r: RequestId)
    requires StreamsOk(stored) && Balanced(s, 0, Step(stored, o.fx), r)
    ensures var g := ReplenishData(stored, false);
            var c := HandleClosed(g.s, id);
            Balanced(s, 0, Step(c.s, o.fx + g.fx + c.fx), r)
  {
    var g := ReplenishData(stored, false);
    ReplenishDataQuiet(stored, false, r);
    ReplenishDataFrame(stored, false);
    HandleClosedBalance(g.s, id, r);
    hide StreamsOk, Held, ReplenishData, HandleClosed, Balanced;
    Sequence(s, 0, Step(stored, o.fx), g, r);
    Sequence(s, 0, Step(g.s, o.fx + g.fx), HandleClosed(g.s, id), r);
  }

  lemma PeerDataBalance(s: SessionVal, id: StreamId, data: Bytes, fin: bool, r: RequestId)
    requires StreamsOk(s)
    ensures Balanced(s, 0, RecvStreamData(s, id, data, fin), r)
  {
    hide RecvData, StreamsOk, Held, ReplenishData, HandleClosed, AbortSession;
    if id in s.streams {
      var w := s.window.(received := s.window.received + |data|);
      if s.cfg.flowControl && w.received > w.limit {
        var b := s.(window := w);
        SameStreamsOk(s, b);
        SameHeld(s, b, r);
        AbortBalance(b, ERR_WT_FLOW_CONTROL_ERROR, r);
      } else {
        var o := RecvData(s.streams[id], data, fin);
        var full := w.(consumed := s.window.consumed + |data|);
        StoreDataBalance(s, id, data, fin, full, r);
        SettleDataBalance(s, id, o, s.(streams := s.streams[id := o.st], window := full), r);
      }
    }
  }

  lemma SameStreamsOk(s: SessionVal, t: SessionVal)
    requires StreamsOk(s) && t.cfg == s.cfg && t.streams == s.streams && t.pendingStreams == s.pendingStreams
    ensures StreamsOk(t)
  {
  }

  lemma ReplenishDataFrame(s: SessionVal, force: bool)
    ensures ReplenishData(s, force).s == s.(window := ReplenishData(s, force).s.window)
  {
  }

  lemma StoredHeld(s: SessionVal, id: StreamId, st: StreamVal, r: RequestId)
    requires id in s.streams
    ensures Held(s.(streams := s.streams[id := st]), r) + SF.Held(s.streams[id], r) == Held(s, r) + SF.Held(st, r)
  {
    hide SF.Held;
    TableUpdate(s.streams, id, st, r);
  }

  lemma ReadDatagramBalance(s: SessionVal, request: RequestId, r: RequestId)
    ensures Balanced(s, if request == r then 1 else 0, ReadDatagram(s, request), r)
  {
    hide TableHeld;
    CountOne(s.datagramRequests, request, r);
    var o := ReadDatagram(s, request);
    if o.fx != [] {
      AnswerNow(s, o.fx[0], r);
      SameHeld(s, o.s, r);
      assert o.fx == [o.fx[0]];
    }
  }

  lemma RecvDatagramBalance(s: SessionVal, data: Bytes, r: RequestId)
    ensures Balanced(s, 0, RecvDatagram(s, data), r)
  {
    hide TableHeld;
    var o := RecvDatagram(s, data);
    if o.fx != [] {
      AnswerNow(o.s, o.fx[0], r);
      assert o.fx == [o.fx[0]];
    } else {
      SameHeld(s, o.s, r);
    }
  }

  lemma SendDatagramBalance(s: SessionVal, request: RequestId, data: Bytes, maxFrameSize: nat, r: RequestId)
    ensures Balanced(s, if request == r then 1 else 0, SendDatagramTo(s, request, data, maxFrameSize), r)
  {
    hide Held, Varint.Size;
    var o := SendDatagramTo(s, request, data, maxFrameSize);
    if |o.fx| == 1 {
      AnswerNow(s, o.fx[0], r);
      assert o.fx == [o.fx[0]];
    } else {
      NoRequestsFacts([o.fx[0]], r);
      AnswerLast(s, 0, Step(s, [o.fx[0]]), o.fx[1], r);
      assert o.fx == [o.fx[0]] + [o.fx[1]];
    }
  }

  lemma {:induction false} FlushQueueBalance(s: SessionVal, n: nat, r: RequestId)
    requires StreamsOk(s)
    ensures Balanced(s, 0, FlushQueue(s, n), r)
    decreases n
  {
    hide Held, FlushWrites, IsBlocked, SF.Held, StreamsOk;
    if n > 0 && s.credit.queue != [] {
      var id := s.credit.queue[0];
      var popped := s.credit.(queue := s.credit.queue[1..], blocked := s.credit.blocked - {id});
      var credit := AvailableCredit(s.cfg, popped);
      if credit == 0 {
        SameHeld(s, FlushQueue(s, n).s, r);
      } else if id !in s.streams {
        var b := s.(credit := popped);
        SameHeld(s, b, r);
        SameStreamsOk(s, b);
        FlushQueueBalance(b, n - 1, r);
        assert [] + FlushQueue(b, n - 1).fx == FlushQueue(b, n - 1).fx;
      } else {
        var o := FlushWrites(s.streams[id], credit);
        var metered := popped.(sent := popped.sent + o.sent);
        var noted := if IsBlocked(o.st) then metered.(queue := metered.queue + [id], blocked := metered.blocked + {id})
                     else metered;
        var b := s.(streams := s.streams[id := o.st], credit := noted);
        FlushOneBalance(s, id, credit, noted, r);
        FlushQueueBalance(b, n - 1, r);
        Sequence(s, 0, Step(b, o.fx), FlushQueue(b, n - 1), r);
      }
    }
  }

  lemma FlushOneBalance(s: SessionVal, id: StreamId, credit: nat, c: SendCredit, r: RequestId)
    requires StreamsOk(s) && id in s.streams
    ensures var o := FlushWrites(s.streams[id], credit);
            var b := s.(streams := s.streams[id := o.st], credit := c);
            Balanced(s, 0, Step(b, o.fx), r) && StreamsOk(b)
  {
    hide FlushWrites, Held, SF.Held, IsBlocked;
    var st := s.streams[id];
    var o := FlushWrites(st, credit);
    var b := s.(streams := s.streams[id := o.st]);
    SF.FlushKeeps(st, credit);
    FlushWritesHeld(st, credit, r);
    StoreStreams(s, id, o);
    hide StreamsOk, SF.Keeps;
    StoredHeld(s, id, o.st, r);
    PlainLends(o.fx, r);
    SameHeld(b, b.(credit := c), r);
    SameStreamsOk(b, b.(credit := c));
  }

  lemma FlushWritesHeld(st: StreamVal, credit: nat, r: RequestId)
    requires Streams.Inv(st)
    ensures var o := FlushWrites(st, credit);
            SF.Held(o.st, r) + Answers(o.fx, r) == SF.Held(st, r)
  {
    SF.FlushHeld(st.send, st.maxWriteBufferSize, st.id, credit, r);
  }

  lemma MaxDataBalance(s: SessionVal, limit: nat, r: RequestId)
    requires StreamsOk(s)
    ensures Balanced(s, 0, RecvMaxData(s, limit), r)
  {
    if limit <= s.credit.limit {
      hide StreamsOk, Held, AbortSession;
      AbortBalance(s, ERR_WT_FLOW_CONTROL_ERROR, r);
    } else {
      var b := s.(credit := s.credit.(limit := limit));
      assert StreamsOk(b);
      hide StreamsOk, Held, FlushQueue, EmitDataBlocked;
      SameHeld(s, b, r);
      var n := |b.credit.queue|;
      FlushQueueBalance(b, n, r);
      var f := FlushQueue(b, n);
      var e := EmitDataBlocked(f.s.cfg, f.s.credit);
      EmitDataBlockedQuiet(f.s.cfg, f.s.credit);
      Decorate(b, 0, f, [], e.fx, r);
      var t := f.s.(credit := e.c);
      SameHeld(f.s, t, r);
      var fb := FlushBlockedWrites(b);
      assert Balanced(b, 0, fb, r);
      Decorate(b, 0, fb, [EmitSession(SessionMaxDataUpdated(limit))], [], r);
    }
  }

  lemma MaxStreamsBalance(s: SessionVal, uni: bool, limit: nat, r: RequestId)
    requires StreamsOk(s)
    ensures Balanced(s, 0, RecvMaxStreams(s, uni, limit), r)
  {
    hide StreamsOk, Held, AbortSession, FlushStreamRequests;
    AbortBalance(s, ERR_WT_FLOW_CONTROL_ERROR, r);
    var b := WithQuota(s, uni, QuotaOf(s, uni).(peerMax := limit));
    SameHeld(s, b, r);
    FlushRequestsBalance(b, uni, r);
    Decorate(b, 0, FlushStreamRequests(b, uni), [EmitSession(SessionMaxStreamsUpdated(uni, limit))], [], r);
  }

  lemma CloseCapsuleBalance(s: SessionVal, value: Bytes, r: RequestId)
    requires StreamsOk(s)
    ensures Balanced(s, 0, RecvClose(s, value), r)
  {
    hide StreamsOk, Held, AbortSession, Shutdown, Utf8.IsValid, Varint.FromBigEndian;
    AbortBalance(s, ERR_H3_MESSAGE_ERROR, r);
    ShutdownBalance(s, Closed, r);
    var o := RecvClose(s, value);
    if o != AbortSession(s, ERR_H3_MESSAGE_ERROR) {
      var d := Shutdown(s, Closed);
      Decorate(s, 0, d, [], o.fx[|d.fx|..], r);
    }
  }

  lemma BlockedBalance(s: SessionVal, uni: bool, limit: nat, r: RequestId)
    requires StreamsOk(s)
    ensures Balanced(s, 0, RecvDataBlocked(s), r) && Balanced(s, 0, RecvStreamsBlocked(s, uni, limit), r)
  {
    hide StreamsOk, Held, AbortSession, ReplenishData, ReplenishStreams;
    AbortBalance(s, ERR_WT_FLOW_CONTROL_ERROR, r);
    ReplenishDataQuiet(s, true, r);
    ReplenishStreamsQuiet(s, uni, true, r);
    NoRequestsFacts([EmitSession(SessionDataBlocked)], r);
    NoRequestsFacts([EmitSession(SessionStreamsBlocked(uni))], r);
  }

  lemma ProcessBalance(s: SessionVal, c: Capsule, r: RequestId)
    requires StreamsOk(s)
    ensures Balanced(s, 0, ProcessCapsule(s, c), r)
  {
    hide StreamsOk, Held, AbortSession, RecvMaxData, RecvMaxStreams, RecvClose, RecvDataBlocked, RecvStreamsBlocked;
    hide Varint.Read;
    AbortBalance(s, ERR_H3_FRAME_UNEXPECTED, r);
    AbortBalance(s, ERR_H3_GENERAL_PROTOCOL_ERROR, r);
    CloseCapsuleBalance(s, c.value, r);
    BlockedBalance(s, false, 0, r);
    SameHeld(s, s.(phase := Draining), r);
    NoRequestsFacts([EmitSession(SessionDraining)], r);
    match Varint.Read(c.value) {
      case Incomplete =>
      case Got(limit, _) =>
        MaxDataBalance(s, limit, r);
        MaxStreamsBalance(s, false, limit, r);
        MaxStreamsBalance(s, true, limit, r);
        BlockedBalance(s, false, limit, r);
        BlockedBalance(s, true, limit, r);
    }
  }

  lemma CapsuleBalance(s: SessionVal, c: Capsule, r: RequestId)
    requires StreamsOk(s)
    ensures Balanced(s, 0, RecvCapsule(s, c), r)
  {
    hide StreamsOk, Held, AbortSession, ProcessCapsule;
    AbortBalance(s, ERR_H3_EXCESSIVE_LOAD, r);
    SameHeld(s, s.(capsules := s.capsules + [c]), r);
    NoRequestsFacts([ResetQuicStream(s.cfg.id, ERR_H3_MESSAGE_ERROR)], r);
    ProcessBalance(s, c, r);
  }

  // ----- confirmation

  lemma {:induction false} ShowEachQuiet(s: SessionVal, ids: seq<StreamId>)
    ensures NoRequests(ShowEach(s, ids))
  {
    if ids != [] {
      ShowEachQuiet(s, ids[1..]);
    }
  }

  lemma {:induction false} ReplayDatagramsBalance(s: SessionVal, r: RequestId)
    ensures Balanced(s, 0, ReplayDatagrams(s), r)
    decreases |s.datagrams|
  {
    hide TableHeld, ShowEach;
    if s.datagramRequests == [] || s.datagrams == [] {
      ShowEachQuiet(s, s.pendingStreams);
      NoRequestsFacts(ShowEach(s, s.pendingStreams), r);
    } else {
      var b := s.(datagrams := s.datagrams[1..], datagramRequests := s.datagramRequests[1..]);
      ReplayDatagramsBalance(b, r);
      var head := [Done(s.datagramRequests[0], DatagramData(s.datagrams[0]))];
      assert head[1..] == [];
      Sequence(s, 0, Step(b, head), ReplayDatagrams(b), r);
    }
  }

  lemma {:induction false} ReplayCapsulesBalance(s: SessionVal, n: nat, r: RequestId)
    requires Base(s) && s.phase == Connected
    ensures Balanced(s, 0, ReplayCapsules(s, n), r)
    decreases n
  {
    hide Base, Held, ProcessCapsule, ReplayDatagrams;
    if n == 0 || s.capsules == [] {
      ReplayDatagramsBalance(s, r);
    } else {
      var b := s.(capsules := s.capsules[1..]);
      QueuesInv(s, s.capsules[1..], s.datagramRequests, s.datagrams);
      SameHeld(s, b, r);
      BaseParts(b);
      ProcessBalance(b, s.capsules[0], r);
      ProcessCapsuleInv(b, s.capsules[0]);
      var p := ProcessCapsule(b, s.capsules[0]);
      if p.s.phase == Connected {
        ReplayCapsulesBalance(p.s, n - 1, r);
        Sequence(s, 0, p, ReplayCapsules(p.s, n - 1), r);
      }
    }
  }

  lemma ConfirmBalance(s: SessionVal, e: Event, r: RequestId)
    requires Base(s) && (e.PeerConfirmed? || e.UserAccept?)
    ensures Balanced(s, Given(e, r), Handle(s, e), r)
  {
    hide Base, Held, ReplayCapsules;
    var o := Handle(s, e);
    if s.phase == Connecting {
      PhaseInv(s, []);
      var b := s.(phase := Connected);
      SameHeld(s, b, r);
      ReplayCapsulesBalance(b, |s.capsules|, r);
      var p := ReplayCapsules(b, |s.capsules|);
      Decorate(b, 0, p, [EmitSession(SessionReady)], [], r);
      if e.UserAccept? && !s.cfg.isClient && e.acceptable {
        var head := [SendHeaders(false), EmitSession(SessionReady)];
        NoRequestsFacts(head, r);
        AnswerLast(s, 0, Step(b, head), Done(e.request, Nothing), r);
        assert head + [Done(e.request, Nothing)] == [SendHeaders(false), EmitSession(SessionReady), Done(e.request, Nothing)];
        Sequence(s, Given(e, r), Step(b, head + [Done(e.request, Nothing)]), p, r);
      }
    }
    if e.UserAccept? && !(s.phase == Connecting && !s.cfg.isClient && e.acceptable) {
      AnswerNow(s, o.fx[0], r);
    }
  }

  // ----- whole runs

  /** Every step balances the books for every request. */
  lemma HandleBalance(s: SessionVal, e: Event, r: RequestId)
    requires Base(s) && Allowed(s, e)
    ensures Balanced(s, Given(e, r), Handle(s, e), r)
  {
    hide Balanced, StreamsOk, Queued, Spent, QuotaOk, ShutOk;
    hide StreamOpened, RecvStreamData, BindStream, CreateStream, DeferStream, FlushStreamRequests, RecvCapsule, ReadDatagram,
    RecvDatagram, SendDatagramTo, RecvConnectClose, AbortSession, CloseSession, RejectSession, ConfirmSession, AcceptSession;
    if OnStream(e) {
      if e.stream in s.streams {
        StreamOpBalance(s, e, r);
      } else {
        MissingStreamBalance(s, e, r);
      }
    } else {
      match e {
        case UserAccept(_, _) => ConfirmBalance(s, e, r);
        case PeerConfirmed => ConfirmBalance(s, e, r);
        case UserReject(request, acceptable) => RejectBalance(s, request, acceptable, r);
        case UserClose(request, code, reason) => CloseBalance(s, request, code, reason, r);
        case PeerClosed(code) => ConnectCloseBalance(s, code, r);
        case AbortAll(code) => AbortBalance(s, code, r);
        case UserCreate(request, uni) => CreateBalance(s, request, uni, r);
        case TransportDefer(request, uni) => DeferBalance(s, request, uni, r);
        case TransportMaxStreams(uni) => FlushRequestsBalance(s, uni, r);
        case TransportBind(id, request, uni) => BindBalance(s, id, request, uni, r);
        case UserReadDatagram(request) => ReadDatagramBalance(s, request, r);
        case PeerDatagram(data) => RecvDatagramBalance(s, data, r);
        case UserSendDatagram(request, data, size) => SendDatagramBalance(s, request, data, size, r);
        case PeerOpened(id) => OpenedBalance(s, id, r);
        case PeerData(id, data, fin) => PeerDataBalance(s, id, data, fin, r);
        case PeerCapsule(c) => CapsuleBalance(s, c, r);
        case DrainAll => DrainBalance(s, r);
      }
    }
  }

  lemma DrainBalance(s: SessionVal, r: RequestId)
    ensures Balanced(s, 0, Drain(s), r)
  {
    hide Held;
    SameHeld(s, s.(phase := Draining), r);
    NoRequestsFacts(Drain(s).fx, r);
  }

  /** How often the user, or the transport, hands a request over during a run. */
  function GivenBy(es: seq<Event>, r: RequestId): nat {
    if es == [] then 0 else Given(es[0], r) + GivenBy(es[1..], r)
  }

  lemma {:induction false} RunBalance(s: SessionVal, es: seq<Event>, r: RequestId)
    requires SessionInvariant.Inv(s) && AllowedRun(s, es)
    ensures Held(After(s, es), r) + Answers(Effects(s, es), r) + Lends(Effects(s, es), r) == Held(s, r) + GivenBy(es, r)
    decreases |es|
  {
    hide Base, Handle, Allowed, Held, Given;
    if es != [] {
      HandleBalance(s, es[0], r);
      HandleInv(s, es[0]);
      var o := Handle(s, es[0]);
      RunBalance(o.s, es[1..], r);
      Append(o.fx, Effects(o.s, es[1..]), r);
    }
  }

  /** The transport returns each stream it was asked to open at most once: by binding or by deferring it. */
  function Returned(es: seq<Event>, r: RequestId): nat {
    if es == [] then 0
    else (if es[0].TransportBind? || es[0].TransportDefer? then Given(es[0], r) else 0) + Returned(es[1..], r)
  }

  /** Exactly once: a request the user submits once to a new session is, after any run, held once, or out
      with the transport, or answered once - and never two of these. */
  lemma ExactlyOnce(s: SessionVal, es: seq<Event>, r: RequestId)
    requires SessionInvariant.Inv(s) && AllowedRun(s, es) && Held(s, r) == 0
    requires GivenBy(es, r) - Returned(es, r) == 1
    requires Returned(es, r) <= Lends(Effects(s, es), r)
    ensures Held(After(s, es), r) + Answers(Effects(s, es), r) + (Lends(Effects(s, es), r) - Returned(es, r)) == 1
  {
    hide Held, SessionInvariant.Inv, AllowedRun;
    RunBalance(s, es, r);
  }

  /** A session that left its open phases holds nothing: every request not out with the transport was answered. */
  lemma ClosedHoldsNothing(s: SessionVal, es: seq<Event>, r: RequestId)
    requires SessionInvariant.Inv(s) && AllowedRun(s, es) && !IsOpen(After(s, es))
    ensures Held(After(s, es), r) == 0
    ensures Answers(Effects(s, es), r) + Lends(Effects(s, es), r) == Held(s, r) + GivenBy(es, r)
  {
    RunInv(s, es);
    RunBalance(s, es, r);
    EmptyHeld(After(s, es), r);
    hide SessionInvariant.Inv, Held, After, Effects, AllowedRun;
  }

  lemma EmptyHeld(s: SessionVal, r: RequestId)
    requires ShutOk(s) && !IsOpen(s)
    ensures Held(s, r) == 0
  {
  }
}
