/** What was parked while a session was connecting: it is released when the session is confirmed, exactly if none of
    the capsules parked with it asks the session to drain. */
module Release {
  import opened Types
  import opened Streams
  import opened Sessions
  import opened Traces
  import opened SessionInvariant
  import G = Grammar
  import Varint
  import Utf8

  // ----- the replay

  predicate Drains(capsules: seq<Capsule>) {
    exists i :: 0 <= i < |capsules| && capsules[i].kind == CAPSULE_DRAIN_SESSION
  }

  /** The capsules behind the first that asks to drain. */
  function Behind(capsules: seq<Capsule>): seq<Capsule> {
    if capsules == [] then [] else if capsules[0].kind == CAPSULE_DRAIN_SESSION then capsules[1..] else Behind(capsules[1..])
  }

  lemma DrainsHead(capsules: seq<Capsule>)
    requires capsules != []
    ensures Drains(capsules) <==> capsules[0].kind == CAPSULE_DRAIN_SESSION || Drains(capsules[1..])
  {
    if Drains(capsules) && capsules[0].kind != CAPSULE_DRAIN_SESSION {
      var i :| 0 <= i < |capsules| && capsules[i].kind == CAPSULE_DRAIN_SESSION;
      assert capsules[1..][i - 1] == capsules[i];
    }
    if Drains(capsules[1..]) {
      var i :| 0 <= i < |capsules| - 1 && capsules[1..][i].kind == CAPSULE_DRAIN_SESSION;
      assert capsules[i + 1] == capsules[1..][i];
    }
  }

  /** Only a DRAIN capsule makes a connected session drain. */
  lemma OnlyDrainDrains(s: SessionVal, c: Capsule)
    requires s.phase == Connected
    ensures c.kind == CAPSULE_DRAIN_SESSION ==> ProcessCapsule(s, c).s == s.(phase := Draining)
    ensures c.kind != CAPSULE_DRAIN_SESSION ==> Parked(s, ProcessCapsule(s, c).s)
  {
    hide AbortSession, FlushBlockedWrites, FlushStreamRequests, Shutdown, Varint.Read, Utf8.IsValid;
    AbortParked(s, ERR_H3_FRAME_UNEXPECTED);
    AbortParked(s, ERR_H3_GENERAL_PROTOCOL_ERROR);
    AbortParked(s, ERR_WT_FLOW_CONTROL_ERROR);
    AbortParked(s, ERR_H3_MESSAGE_ERROR);
    ShutdownPhase(s, Closed);
    match Varint.Read(c.value) {
      case Incomplete =>
      case Got(limit, _) =>
        FlushParked(s.(credit := s.credit.(limit := limit)));
        RequestsParked(WithQuota(s, false, s.bidi.(peerMax := limit)), false);
        RequestsParked(WithQuota(s, true, s.uni.(peerMax := limit)), true);
    }
  }

  lemma {:induction false} DatagramsReleased(s: SessionVal)
    ensures var r := ReplayDatagrams(s).s;
            && r.phase == s.phase && r.capsules == s.capsules && r.pendingStreams == []
            && (r.datagrams == [] || r.datagramRequests == [])
    decreases |s.datagrams|
  {
    if s.datagramRequests != [] && s.datagrams != [] {
      DatagramsReleased(s.(datagrams := s.datagrams[1..], datagramRequests := s.datagramRequests[1..]));
    }
  }

  /** A session that went through its parked capsules: all is released, or it drains with the streams still parked and
      the capsules behind DRAIN unread. */
  ghost predicate Replayed(s: SessionVal, r: SessionVal) {
    if Drains(s.capsules) then r.phase == Draining && r.pendingStreams == s.pendingStreams && r.capsules == Behind(s.capsules)
    else
      && r.phase == Connected && r.pendingStreams == [] && r.capsules == []
      && (r.datagrams == [] || r.datagramRequests == [])
  }

  lemma {:induction false} ReplayOutcome(s: SessionVal, n: nat)
    requires s.phase == Connected && n == |s.capsules|
    ensures IsOpen(ReplayCapsules(s, n).s) ==> Replayed(s, ReplayCapsules(s, n).s)
    decreases n
  {
    hide ProcessCapsule, ReplayDatagrams, Drains;
    if n == 0 {
      DatagramsReleased(s);
      NoDrain();
    } else {
      var c := s.capsules[0];
      var b := s.(capsules := s.capsules[1..]);
      DrainsHead(s.capsules);
      OnlyDrainDrains(b, c);
      var p := ProcessCapsule(b, c);
      if p.s.phase == Connected {
        ReplayOutcome(p.s, n - 1);
      }
    }
  }

  lemma NoDrain()
    ensures !Drains([])
  {
  }

  /** Confirmation releases what was parked if and only if no parked capsule asks to drain; if one does, the parked
      streams stay parked and the capsules behind it stay unread. */
  lemma ConfirmReleases(s: SessionVal)
    requires s.phase == Connecting
    ensures var r := Handle(s, PeerConfirmed).s;
            IsOpen(r) ==>
              && Replayed(s, r)
              && (r.phase == Connected && r.pendingStreams == [] <==> !Drains(s.capsules))
  {
    hide ReplayCapsules, Drains;
    ReplayOutcome(s.(phase := Connected), |s.capsules|);
  }

  /** The same for a server's user, who accepts the session. */
  lemma AcceptReleases(s: SessionVal, request: RequestId)
    requires s.phase == Connecting && !s.cfg.isClient
    ensures var r := Handle(s, UserAccept(request, true)).s;
            IsOpen(r) ==>
              && Replayed(s, r)
              && (r.phase == Connected && r.pendingStreams == [] <==> !Drains(s.capsules))
  {
    hide ReplayCapsules, Drains;
    ReplayOutcome(s.(phase := Connected), |s.capsules|);
  }

  // ----- what is shown

  /** Stages do not return to the first. */
  lemma {:induction false} NotFreshAgain(g: G.Stage, events: seq<StreamEvent>)
    requires g != G.Fresh
    ensures G.Stages(g, events) != G.Fresh
    decreases |events|
  {
    if events != [] {
      NotFreshAgain(G.Advance(g, events[0]), events[1..]);
    }
  }

  lemma StagesShow(events: seq<StreamEvent>)
    ensures G.Stages(G.Fresh, events) == G.Fresh ==> events == []
    ensures G.Stages(G.Fresh, events).Active? ==> events != [] && events[0].Opened?
  {
    if events != [] {
      var g := G.Advance(G.Fresh, events[0]);
      NotFreshAgain(g, events[1..]);
      if !events[0].Opened? {
        G.OverIsFinal(g, events[1..]);
      }
    }
  }

  lemma ParkedTracks(s: SessionVal, id: StreamId)
    requires Count(s.pendingStreams, id) == 1
    ensures G.Tracks(s, id, G.Fresh) && id in s.pendingStreams
  {
    if id !in s.pendingStreams {
      CountZero(s.pendingStreams, id);
    }
  }

  /** When what was parked is released, every parked stream that is still alive is shown as opened, before anything
      else is shown of it. */
  lemma ReleasedIsShown(s: SessionVal, e: Event, id: StreamId)
    requires SessionInvariant.Inv(s) && s.phase == Connecting && !Drains(s.capsules) && Count(s.pendingStreams, id) == 1
    requires e.PeerConfirmed? || (e.UserAccept? && e.acceptable && !s.cfg.isClient)
    requires var r := Handle(s, e).s; IsOpen(r) && id in r.streams
    ensures var shown := Shown(Handle(s, e).fx, id); shown != [] && shown[0].Opened?
  {
    if e.PeerConfirmed? {
      ConfirmReleases(s);
    } else {
      AcceptReleases(s, e.request);
    }
    hide Handle, Drains, Base;
    ParkedTracks(s, id);
    G.ConfirmFollows(s, e, id, G.Fresh);
    StagesShow(Shown(Handle(s, e).fx, id));
  }

  // ----- a stream that stays parked is never shown

  lemma ShutdownHides(s: SessionVal, phase: Phase, id: StreamId)
    requires StreamsOk(s) && Count(s.pendingStreams, id) == 1
    ensures Shown(Shutdown(s, phase).fx, id) == []
  {
    hide StreamsOk, AbortEach, Sorted, Count;
    var b := s.(phase := phase, capsules := [], datagrams := []);
    var ids := Sorted(b.streams.Keys);
    var a := AbortEach(b, ids);
    SameStreamsOk(s, b);
    ParkedTracks(b, id);
    G.AbortEachFollows(b, ids, id, G.Fresh);
    StagesShow(Shown(a.fx, id));
    var f := FailAll(a.s.bidi.waiting, None);
    var g := FailAll(a.s.uni.waiting, None);
    var h := FailAll(a.s.datagramRequests, None);
    assert Shutdown(s, phase).fx == a.fx + f + g + h;
    HiddenWith(a.fx, f, id);
    HiddenWith(a.fx + f, g, id);
    HiddenWith(a.fx + f + g, h, id);
  }

  lemma SameStreamsOk(s: SessionVal, t: SessionVal)
    requires StreamsOk(s) && t.streams == s.streams && t.cfg == s.cfg
    ensures StreamsOk(t)
  {
  }

  lemma HiddenWith(fx: seq<Effect>, more: seq<Effect>, id: StreamId)
    requires Shown(fx, id) == [] && Silent(more)
    ensures Shown(fx + more, id) == [] && Shown(more + fx, id) == []
  {
    SilentFacts(more, id);
    ShownAppend(fx, more, id);
    ShownAppend(more, fx, id);
  }

  lemma AbortHides(s: SessionVal, code: ErrorCode, id: StreamId)
    requires StreamsOk(s) && Count(s.pendingStreams, id) == 1
    ensures Shown(AbortSession(s, code).fx, id) == []
  {
    hide Shutdown, StreamsOk, Count;
    ShutdownHides(s, Closed, id);
    HiddenWith(Shutdown(s, Closed).fx, [ResetQuicStream(s.cfg.id, code), EmitSession(SessionClosed(Some(code)))], id);
  }

  lemma UserCloseHides(s: SessionVal, request: RequestId, code: ErrorCode, reason: Bytes, id: StreamId)
    requires StreamsOk(s) && Count(s.pendingStreams, id) == 1 && s.phase == Draining
    ensures Shown(CloseSession(s, request, code, reason).fx, id) == []
  {
    hide Shutdown, StreamsOk, Count, Varint.BigEndian;
    ShutdownHides(s, Closing, id);
    var d := Shutdown(s, Closing);
    var fx := CloseSession(s, request, code, reason).fx;
    var tail := [fx[|d.fx|], EmitSession(SessionClosed(Some(code))), Done(request, Nothing)];
    assert fx == d.fx + tail && !tail[0].EmitStream?;
    hide CloseSession;
    HiddenWith(d.fx, tail, id);
  }

  lemma PeerCloseHides(s: SessionVal, code: ErrorCode, id: StreamId)
    requires StreamsOk(s) && Count(s.pendingStreams, id) == 1 && s.phase == Draining
    ensures Shown(RecvConnectClose(s, code).fx, id) == []
  {
    hide Shutdown, StreamsOk, Count;
    ShutdownHides(s, Closed, id);
    HiddenWith(Shutdown(s, Closed).fx, [EmitSession(SessionClosed(Some(code)))], id);
  }

  lemma EndingsHide(s: SessionVal, e: Event, id: StreamId)
    requires e.UserClose? || e.PeerClosed? || e.AbortAll? || e.UserReject?
    requires StreamsOk(s) && Count(s.pendingStreams, id) == 1 && s.phase == Draining
    ensures Shown(Handle(s, e).fx, id) == []
  {
    hide CloseSession, RecvConnectClose, AbortSession, StreamsOk, Count, Shutdown;
    match e {
      case UserClose(request, code, reason) => UserCloseHides(s, request, code, reason, id);
      case PeerClosed(code) => PeerCloseHides(s, code, id);
      case AbortAll(code) => AbortHides(s, code, id);
      case UserReject(_, _) => SilentFacts(Handle(s, e).fx, id);
    }
  }

  lemma OpeningHides(s: SessionVal, k: StreamId, id: StreamId)
    requires StreamsOk(s) && Count(s.pendingStreams, id) == 1 && s.phase == Draining && !IsOpen(StreamOpened(s, k).s)
    ensures Shown(StreamOpened(s, k).fx, id) == []
  {
    hide AbortSession, StreamsOk, Count, ReplenishQuota, NewStream;
    AbortHides(s, ERR_WT_FLOW_CONTROL_ERROR, id);
    var a := AbortSession(s, ERR_WT_FLOW_CONTROL_ERROR);
    var uni := DirectionOf(k, s.cfg.isClient) == ReceiveOnly;
    var head := (if uni then [] else [ResetQuicStream(k, ERR_WT_SESSION_GONE)]) + [StopQuicStream(k, ERR_WT_SESSION_GONE)];
    HiddenWith(a.fx, head, id);
    assert StreamOpened(s, k).fx == head + a.fx;
  }

  lemma DataHides(s: SessionVal, k: StreamId, data: Bytes, fin: bool, id: StreamId)
    requires StreamsOk(s) && Count(s.pendingStreams, id) == 1 && s.phase == Draining && !IsOpen(RecvStreamData(s, k, data, fin).s)
    ensures Shown(RecvStreamData(s, k, data, fin).fx, id) == []
  {
    hide AbortSession, StreamsOk, Count, ReplenishWindow, HandleClosed, RecvData;
    var w := s.(window := s.window.(received := s.window.received + |data|));
    SameStreamsOk(s, w);
    AbortHides(w, ERR_WT_FLOW_CONTROL_ERROR, id);
    if k in s.streams && !(s.cfg.flowControl && w.window.received > w.window.limit) {
      var o := RecvData(s.streams[k], data, fin);
      var stored := s.(streams := s.streams[k := o.st], window := w.window.(consumed := s.window.consumed + |data|));
      HandleClosedParked(ReplenishData(stored, false).s, k);
    }
  }

  lemma CapsuleHides(s: SessionVal, c: Capsule, id: StreamId)
    requires StreamsOk(s) && Count(s.pendingStreams, id) == 1 && s.phase == Draining && !IsOpen(ProcessCapsule(s, c).s)
    ensures Shown(ProcessCapsule(s, c).fx, id) == []
  {
    hide AbortSession, FlushBlockedWrites, FlushStreamRequests, Shutdown, Varint.Read, Utf8.IsValid, StreamsOk, Count;
    hide Varint.FromBigEndian;
    AbortHides(s, ERR_H3_FRAME_UNEXPECTED, id);
    AbortHides(s, ERR_H3_GENERAL_PROTOCOL_ERROR, id);
    AbortHides(s, ERR_WT_FLOW_CONTROL_ERROR, id);
    AbortHides(s, ERR_H3_MESSAGE_ERROR, id);
    if c.kind == CAPSULE_CLOSE_SESSION {
      CloseHides(s, c.value, id);
    } else {
      match Varint.Read(c.value) {
        case Incomplete =>
        case Got(limit, _) =>
          FlushParked(s.(credit := s.credit.(limit := limit)));
          RequestsOpen(WithQuota(s, false, s.bidi.(peerMax := limit)), false);
          RequestsOpen(WithQuota(s, true, s.uni.(peerMax := limit)), true);
      }
    }
  }

  lemma RequestsOpen(s: SessionVal, uni: bool)
    ensures FlushStreamRequests(s, uni).s.phase == s.phase
  {
    hide Reissue, EmitStreamsBlocked;
  }

  lemma CloseHides(s: SessionVal, value: Bytes, id: StreamId)
    requires StreamsOk(s) && Count(s.pendingStreams, id) == 1 && s.phase == Draining
    ensures Shown(RecvClose(s, value).fx, id) == []
  {
    hide AbortSession, Shutdown, StreamsOk, Count, Utf8.IsValid, Varint.FromBigEndian;
    AbortHides(s, ERR_H3_MESSAGE_ERROR, id);
    ShutdownHides(s, Closed, id);
    var o := RecvClose(s, value);
    if o != AbortSession(s, ERR_H3_MESSAGE_ERROR) {
      var d := Shutdown(s, Closed);
      HiddenWith(d.fx, o.fx[|d.fx|..], id);
      assert o.fx == d.fx + o.fx[|d.fx|..];
    }
  }

  lemma DrainingParked(s: SessionVal, e: Event)
    requires s.phase == Draining
    ensures Parked(s, Handle(s, e).s)
  {
    hide Parked, StreamOpened, RecvStreamData, BindStream, CreateStream, DeferStream, FlushStreamRequests;
    hide ProcessCapsule, ReadDatagram;
    hide RecvDatagram, RecvConnectClose, AbortSession, CloseSession, RejectSession, SendDatagramTo, ReplayCapsules;
    hide Shutdown;
    if OnStream(e) {
      StreamOpParked(s, e);
    } else if e.UserReject? || e.UserClose? || e.PeerClosed? || e.AbortAll? {
      EndingsParked(s, e);
    } else if e.PeerOpened? {
      PeerOpenedParked(s, e.stream);
    } else if e.PeerData? {
      PeerDataParked(s, e.stream, e.data, e.fin);
    } else if e.PeerCapsule? {
      ProcessCapsuleFrame(s, e.capsule);
    } else if e.PeerConfirmed? || e.UserAccept? || e.DrainAll? {
      SameParked(s);
    } else {
      OthersParked(s, e);
    }
  }

  lemma SameParked(s: SessionVal)
    ensures Parked(s, s)
  {
  }

  lemma ClosingHides(s: SessionVal, e: Event, id: StreamId)
    requires Base(s) && s.phase == Draining && Count(s.pendingStreams, id) == 1 && !IsOpen(Handle(s, e).s)
    ensures Shown(Handle(s, e).fx, id) == []
  {
    hide StreamOpened, RecvStreamData, ProcessCapsule, StreamsOk, Queued, Spent, QuotaOk, ShutOk, Count, CloseSession;
    hide RecvConnectClose;
    hide AbortSession, RejectSession, ReadStream, WriteStream, ResetStream, StopStream, CompleteStreamWrite;
    hide AcknowledgeStream;
    hide RecvStreamReset, RecvStopSending, BindStream, CreateStream, DeferStream, FlushStreamRequests, ReadDatagram;
    hide RecvDatagram;
    hide SendDatagramTo, ReplayCapsules;
    if e.UserClose? || e.PeerClosed? || e.AbortAll? || e.UserReject? {
      EndingsHide(s, e, id);
    } else if e.PeerOpened? {
      OpeningHides(s, e.stream, id);
    } else if e.PeerData? {
      DataHides(s, e.stream, e.data, e.fin, id);
    } else if e.PeerCapsule? {
      CapsuleHides(s, e.capsule, id);
    } else {
      StaysOpen(s, e);
    }
  }

  lemma StaysOpen(s: SessionVal, e: Event)
    requires s.phase == Draining
    requires !(e.UserClose? || e.PeerClosed? || e.AbortAll? || e.UserReject? || e.PeerOpened? || e.PeerData? || e.PeerCapsule?)
    ensures Handle(s, e).s.phase == Draining
  {
    hide AfterSend, AfterStreamOp, Suppress, Reissue, EmitStreamsBlocked, NewStream, ReplayCapsules;
    if OnStream(e) && e.stream in s.streams {
      OpPhase(s, e);
    }
  }

  lemma OpPhase(s: SessionVal, e: Event)
    requires OnStream(e) && e.stream in s.streams
    ensures Handle(s, e).s.phase == s.phase
  {
    hide Write, Read, CompleteWrite, Reset, Stop, RecvReset, RecvStop, Suppress, NoteBlocked, EmitDataBlocked;
    hide CountClosed;
    CountClosedPhase();
  }

  lemma CountClosedPhase()
    ensures forall t: SessionVal, uni: bool :: CountClosed(t, uni).s.phase == t.phase
  {
    forall t: SessionVal, uni: bool ensures CountClosed(t, uni).s.phase == t.phase {
    }
  }

  /** One event of a draining session: a parked stream is not shown, and stays parked or the session ends. */
  lemma StepHides(s: SessionVal, e: Event, id: StreamId)
    requires SessionInvariant.Inv(s) && Allowed(s, e) && s.phase == Draining && Count(s.pendingStreams, id) == 1
    ensures Shown(Handle(s, e).fx, id) == []
    ensures var t := Handle(s, e).s; (t.phase == Draining && t.pendingStreams == s.pendingStreams) || !IsOpen(t)
  {
    ParkedTracks(s, id);
    DrainingParked(s, e);
    hide Handle, Base, Count;
    NotOpenedAgain(s, e, id);
    if IsOpen(Handle(s, e).s) {
      G.HandleTracked(s, e, id, G.Fresh);
      StagesShow(Shown(Handle(s, e).fx, id));
    } else {
      ClosingHides(s, e, id);
    }
  }

  lemma NotOpenedAgain(s: SessionVal, e: Event, id: StreamId)
    requires Allowed(s, e) && id in s.pendingStreams
    ensures !G.Opens(e, id)
  {
  }

  /** A closed session shows nothing of any stream. */
  lemma ClosedHides(s: SessionVal, e: Event, id: StreamId)
    requires SessionInvariant.Inv(s) && !IsOpen(s)
    ensures Shown(Handle(s, e).fx, id) == [] && !IsOpen(Handle(s, e).s)
  {
    ShutParts(s);
    hide Base, Shutdown, ReplayCapsules, AbortStreams, Varint.BigEndian, AdmitStream, ProcessCapsule, Settled;
    hide AfterSend, AfterStreamOp, Write, Read, CompleteWrite, Reset, Stop, RecvReset, RecvStop, RecvData;
    hide FlushStreamRequests;
    NoRequestsWaiting(s);
    SilentFacts(Handle(s, e).fx, id);
  }

  lemma ShutParts(s: SessionVal)
    requires SessionInvariant.Inv(s) && !IsOpen(s)
    ensures s.streams == map[] && s.bidi.waiting == [] && s.uni.waiting == []
  {
  }

  lemma NoRequestsWaiting(s: SessionVal)
    requires s.bidi.waiting == [] && s.uni.waiting == []
    ensures forall uni :: FlushStreamRequests(s, uni) == Step(s, [])
  {
    forall uni ensures FlushStreamRequests(s, uni) == Step(s, []) {
      assert Reissue(QuotaOf(s, uni), s.cfg.flowControl, uni) == QuotaStep(QuotaOf(s, uni), []);
      assert EmitStreamsBlocked(QuotaOf(s, uni), s.cfg.flowControl, uni) == QuotaStep(QuotaOf(s, uni), []);
    }
  }

  lemma {:induction false} ClosedNeverShows(s: SessionVal, es: seq<Event>, id: StreamId)
    requires SessionInvariant.Inv(s) && !IsOpen(s) && AllowedRun(s, es)
    ensures Shown(Effects(s, es), id) == []
    decreases |es|
  {
    hide SessionInvariant.Inv, Handle, Allowed, IsOpen;
    if es != [] {
      ClosedHides(s, es[0], id);
      HandleInv(s, es[0]);
      ClosedNeverShows(Handle(s, es[0]).s, es[1..], id);
      ShownAppend(Handle(s, es[0]).fx, Effects(Handle(s, es[0]).s, es[1..]), id);
    }
  }

  /** Once a session drains with a stream parked, no later run shows anything of the stream: it is never opened to the
      user. */
  lemma {:induction false} ParkedForever(s: SessionVal, es: seq<Event>, id: StreamId)
    requires SessionInvariant.Inv(s) && s.phase == Draining && Count(s.pendingStreams, id) == 1 && AllowedRun(s, es)
    ensures Shown(Effects(s, es), id) == []
    decreases |es|
  {
    hide SessionInvariant.Inv, Handle, Allowed, Count;
    if es != [] {
      StepHides(s, es[0], id);
      HandleInv(s, es[0]);
      var o := Handle(s, es[0]);
      if IsOpen(o.s) {
        ParkedForever(o.s, es[1..], id);
      } else {
        ClosedNeverShows(o.s, es[1..], id);
      }
      ShownAppend(o.fx, Effects(o.s, es[1..]), id);
    }
  }

  // ----- a run in which it happens

  function Start(): SessionVal {
    NewSession(Config(0, true, false, 8, 8, 8, 8, 8), 8, 2, 2, 8, 2, 2)
  }

  const DRAIN: Capsule := Capsule(CAPSULE_DRAIN_SESSION, [])

  /** A client's session: the server opens stream 1 and asks to drain before its answer to the request arrives. */
  function DrainRun(): seq<Event> {
    [PeerOpened(1), PeerCapsule(DRAIN), PeerConfirmed]
  }

  function WithStream(): SessionVal {
    var s := Start();
    s.(bidi := s.bidi.(peerOpened := 1), streams := map[1 := NewStream(1, Bidirectional, true, 8)], pendingStreams := [1])
  }

  lemma OpensParked()
    ensures Handle(Start(), PeerOpened(1)) == Step(WithStream(), [])
  {
    assert map[][1 := NewStream(1, Bidirectional, true, 8)] == map[1 := NewStream(1, Bidirectional, true, 8)];
    assert [] + [1] == [1];
  }

  lemma DrainsParked()
    ensures Handle(WithStream(), PeerCapsule(DRAIN)) == Step(WithStream().(capsules := [DRAIN]), [])
  {
    assert [] + [DRAIN] == [DRAIN];
  }

  lemma ConfirmsParked()
    ensures Handle(WithStream().(capsules := [DRAIN]), PeerConfirmed).s == WithStream().(phase := Draining)
  {
    assert [DRAIN][1..] == [];
    var b := WithStream().(phase := Connected);
    assert ProcessCapsule(b, DRAIN) == Step(b.(phase := Draining), [EmitSession(SessionDraining)]);
    hide ProcessCapsule;
    assert ReplayCapsules(b.(capsules := [DRAIN]), 1).s == b.(phase := Draining);
  }

  lemma ThreeSteps(s: SessionVal, a: Event, b: Event, c: Event)
    ensures After(s, [a, b, c]) == Handle(Handle(Handle(s, a).s, b).s, c).s
    ensures AllowedRun(s, [a, b, c]) <==> Allowed(s, a) && Allowed(Handle(s, a).s, b) && Allowed(Handle(Handle(s, a).s, b).s, c)
  {
    hide Handle, Allowed;
    assert [a, b, c][1..] == [b, c] && [b, c][1..] == [c] && [c][1..] == [];
    var t := Handle(s, a).s;
    var u := Handle(t, b).s;
    assert After(u, [c]) == Handle(u, c).s && AllowedRun(u, [c]) == Allowed(u, c);
    assert After(t, [b, c]) == After(u, [c]) && AllowedRun(t, [b, c]) == (Allowed(t, b) && AllowedRun(u, [c]));
  }

  function Stranded(): SessionVal {
    WithStream().(phase := Draining)
  }

  lemma DrainRunEnds()
    ensures AllowedRun(Start(), DrainRun()) && After(Start(), DrainRun()) == Stranded()
  {
    OpensParked();
    DrainsParked();
    ConfirmsParked();
    StrandedInv();
    ThreeSteps(Start(), PeerOpened(1), PeerCapsule(DRAIN), PeerConfirmed);
    AlwaysAllowed(WithStream());
    AlwaysAllowed(WithStream().(capsules := [DRAIN]));
    hide Handle, After, AllowedRun, Allowed, SessionInvariant.Inv;
  }

  /** After this run the session is open and draining with a live stream, which no continuation ever shows. */
  lemma DrainStrands(es: seq<Event>)
    ensures AllowedRun(Start(), DrainRun())
    ensures var r := After(Start(), DrainRun());
            && r.phase == Draining && 1 in r.streams && r.pendingStreams == [1]
            && (AllowedRun(r, es) ==> Shown(Effects(r, es), 1) == [])
  {
    DrainRunEnds();
    StrandedInv();
    assert Count([1], 1) == 1 by {
      assert [1][1..] == [];
    }
    hide After, AllowedRun, Effects, Shown, SessionInvariant.Inv;
    if AllowedRun(Stranded(), es) {
      ParkedForever(Stranded(), es, 1);
    }
  }

  lemma StrandedInv()
    ensures SessionInvariant.Inv(WithStream().(phase := Draining)) && Allowed(Start(), PeerOpened(1))
  {
    var cfg := Config(0, true, false, 8, 8, 8, 8, 8);
    NewSessionInv(cfg, 8, 2, 2, 8, 2, 2);
    assert Allowed(Start(), PeerOpened(1));
    OpensParked();
    DrainsParked();
    ConfirmsParked();
    hide Handle, SessionInvariant.Inv, Allowed;
    AlwaysAllowed(WithStream());
    AlwaysAllowed(WithStream().(capsules := [DRAIN]));
    HandleInv(Start(), PeerOpened(1));
    HandleInv(WithStream(), PeerCapsule(DRAIN));
    HandleInv(WithStream().(capsules := [DRAIN]), PeerConfirmed);
  }

  lemma AlwaysAllowed(s: SessionVal)
    ensures Allowed(s, PeerCapsule(DRAIN)) && Allowed(s, PeerConfirmed)
  {
  }
}
