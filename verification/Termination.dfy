/** The end of a connection: every session is closed, every request that was waiting is answered, and from then on
    each request is answered in the call that brings it. */
module Termination {
  import opened Types
  import opened Streams
  import opened Sessions
  import opened Traces
  import SV = SessionInvariant
  import opened Connections
  import EE = EarlyEvents
  import SI = StreamIndex
  import ED = EarlyDelivery
  import CI = ConnInvariant
  import Ledger
  import Varint
  import OF = Outflow

  // ----- a closed session is inert

  ghost predicate Inert(s: SessionVal) {
    s.phase == Closed && SV.ShutOk(s)
  }

  predicate UserOnSession(e: Event) {
    e.UserAccept? || e.UserReject? || e.UserClose? || e.UserCreate? || e.UserReadDatagram? || e.UserSendDatagram?
  }

  predicate UserOnStream(e: Event, id: StreamId) {
    (e.UserRead? || e.UserWrite? || e.UserReset? || e.UserStop?) && e.stream == id
  }

  lemma InertStreams(s: SessionVal, e: Event)
    requires Inert(s) && (SV.OnStream(e) || e.PeerData?)
    ensures Handle(s, e).s == s
  {
    hide AfterSend, AfterStreamOp, Write, Read, CompleteWrite, Reset, Stop, RecvReset, RecvStop, RecvData;
  }

  lemma InertRequests(s: SessionVal, uni: bool)
    requires Inert(s)
    ensures FlushStreamRequests(s, uni) == Step(s, [])
  {
    assert Reissue(QuotaOf(s, uni), s.cfg.flowControl, uni) == QuotaStep(QuotaOf(s, uni), []);
    assert EmitStreamsBlocked(QuotaOf(s, uni), s.cfg.flowControl, uni) == QuotaStep(QuotaOf(s, uni), []);
  }

  /** Nothing changes a closed session. */
  lemma InertStays(s: SessionVal, e: Event)
    requires Inert(s)
    ensures Handle(s, e).s == s
  {
    hide Shutdown, ReplayCapsules, AbortStreams, FlushStreamRequests, Varint.BigEndian, AdmitStream, ProcessCapsule;
    hide AfterSend, AfterStreamOp, Write, Read, CompleteWrite, Reset, Stop, RecvReset, RecvStop, RecvData;
    if SV.OnStream(e) || e.PeerData? {
      InertStreams(s, e);
    } else if e.TransportMaxStreams? {
      InertRequests(s, e.uni);
    }
  }

  predicate IsAnswer(a: Effect, r: RequestId) {
    (a.Done? || a.Failed?) && a.request == r
  }

  /** The only effect is one answer to the request. */
  predicate OneAnswer(out: seq<Output>, r: RequestId) {
    |out| == 1 && out[0].Fx? && IsAnswer(out[0].effect, r)
  }

  lemma InertAnswers(s: SessionVal, e: Event)
    requires Inert(s) && (UserOnSession(e) || UserOnStream(e, if SV.OnStream(e) then e.stream else 0))
    ensures OneAnswer(Wrap(Handle(s, e).fx), e.request)
  {
    hide Shutdown, ReplayCapsules, FlushStreamRequests, AfterSend, AfterStreamOp, Write, Read, Reset, Stop;
    var fx := Handle(s, e).fx;
    assert |fx| == 1 && IsAnswer(fx[0], e.request);
    assert fx == [fx[0]];
    SI.WrapOne(fx[0]);
  }

  // ----- a dead connection stays dead

  ghost predicate AllInert(sessions: map<SessionId, SessionVal>) {
    forall k :: k in sessions ==> Inert(sessions[k])
  }

  /** The connection has ended: no request waits for a session, and every session is closed and holds nothing. */
  ghost predicate Dead(c: Conn) {
    c.phase == Ended && c.requests == map[] && c.request == None && AllInert(c.sessions)
  }

  lemma AtDead(c: Conn, session: SessionId, e: Event)
    requires Dead(c) && session in c.sessions
    ensures At(c, session, e).c == c
  {
    InertAt(c.sessions, session);
    hide Handle, Wrap, Inert;
    InertStays(c.sessions[session], e);
    assert c.sessions[session := c.sessions[session]] == c.sessions;
  }

  lemma InertAt(sessions: map<SessionId, SessionVal>, k: SessionId)
    requires AllInert(sessions) && k in sessions
    ensures Inert(sessions[k]) && sessions[k].streams == map[]
  {
  }

  lemma OpenAtDead(c: Conn, session: SessionId, id: StreamId, e: Event)
    requires Dead(c) && session in c.sessions
    ensures OpenAt(c, session, id, e).c == c
  {
    AtDead(c, session, e);
    InertAt(c.sessions, session);
    hide At, Dead;
  }

  lemma {:induction false} ToEachDead(c: Conn, sessions: seq<SessionId>, e: Event)
    requires Dead(c)
    ensures ToEach(c, sessions, e).c == c
    decreases |sessions|
  {
    hide At, Dead;
    if sessions != [] {
      if sessions[0] in c.sessions {
        AtDead(c, sessions[0], e);
      }
      ToEachDead(c, sessions[1..], e);
    }
  }

  lemma ToAllDead(c: Conn, e: Event)
    requires Dead(c)
    ensures ToAll(c, e).c == c
  {
    hide ToEach, Sorted, Dead;
    ToEachDead(c, Sorted(c.sessions.Keys), e);
  }

  lemma {:induction false} ReplayDead(c: Conn, session: SessionId, events: seq<EE.Stamped>)
    requires Dead(c) && session in c.sessions
    ensures ReplayEach(c, session, events).c == c
    decreases |events|
  {
    hide Dead, ReplayEach, At, OpenAt;
    if events == [] {
      ED.ReplayNone(c, session);
    } else {
      ED.ReplayStep(c, session, events);
      match events[0].event {
        case StreamIn(id) => OpenAtDead(c, session, id, PeerOpened(id));
        case DatagramIn(data) => AtDead(c, session, PeerDatagram(data));
      }
      ReplayDead(c, session, events[1..]);
    }
  }

  /** Dead connections may differ in what Dead does not look at. */
  ghost predicate SameCorpse(c: Conn, d: Conn) {
    d.phase == c.phase && d.requests == c.requests && d.request == c.request && d.sessions == c.sessions
  }

  lemma CorpseDead(c: Conn, d: Conn)
    requires Dead(c) && SameCorpse(c, d)
    ensures Dead(d)
  {
  }

  lemma ReplayEarlyDead(c: Conn, session: SessionId)
    requires Dead(c)
    ensures Dead(ReplayEarly(c, session).c)
  {
    hide ReplayEach, Dead, EE.Take, EE.RefuseAll, Wrap;
    var d := c.(early := EE.Take(c.early, session).buffer);
    CorpseDead(c, d);
    if session in c.sessions {
      ReplayDead(d, session, EE.Take(c.early, session).events);
    }
  }

  lemma TurnedDead(c: Conn, id: StreamId, request: RequestId, code: ErrorCode)
    requires Dead(c)
    ensures Dead(Turned(c, id, request, code).c)
  {
    hide At, AllInert;
    if id in c.sessions {
      AtDead(c, id, AbortAll(code));
    } else {
      assert c.requests - {request} == map[];
      assert Turned(c, id, request, code).c == c.(requests := c.requests - {request});
    }
  }

  lemma ConfirmedDead(c: Conn, id: StreamId, request: RequestId, made: SessionVal)
    requires Dead(c)
    ensures Dead(Confirmed(c, id, request, made).c)
  {
    hide At, AllInert;
    if id in c.sessions {
      AtDead(c, id, PeerConfirmed);
    } else {
      assert Confirmed(c, id, request, made).c == c;
    }
  }

  lemma JudgedDead(c: Conn, id: StreamId, verdict: Verdict, made: SessionVal)
    requires Dead(c) && ED.Expected(c, id)
    ensures Dead(ED.Judged(c, id, verdict, made).c)
  {
    hide Turned, Confirmed, AllInert;
    var request := c.pending[id];
    var d := c.(pending := c.pending - {id});
    match verdict {
      case WrongProtocol => TurnedDead(d, id, request, ERR_WT_ALPN_ERROR);
      case Granted => ConfirmedDead(d, id, request, made);
      case Rejected =>
        assert d.requests - {request} == map[];
        TurnedDead(d.(requests := d.requests - {request}), id, request, ERR_H3_REQUEST_REJECTED);
    }
  }

  lemma ResponseDead(c: Conn, id: StreamId, verdict: Verdict, made: SessionVal)
    requires Dead(c)
    ensures Dead(Response(c, id, verdict, made).c)
  {
    hide Dead, ED.Judged, ReplayEarly;
    if ED.Expected(c, id) {
      ED.ResponseJudged(c, id, verdict, made);
      JudgedDead(c, id, verdict, made);
      hide Response;
      ReplayEarlyDead(ED.Judged(c, id, verdict, made).c, id);
    } else {
      CI.ResponseUnexpected(c, id, verdict, made);
      CorpseDead(c, Response(c, id, verdict, made).c);
    }
  }

  lemma ByIndexDead(c: Conn, id: StreamId, e: Event)
    requires Dead(c)
    ensures Dead(ByIndex(c, id, e).c)
  {
    hide At, AllInert, NoStream, HasStream;
    if id in c.index && c.index[id] in c.sessions {
      AtDead(c, c.index[id], e);
      if !HasStream(c, c.index[id], id) {
        assert ByIndex(c, id, e).c == c.(index := c.index - {id});
      }
    } else if (e.PeerReset? || e.PeerStop?) && id in c.sessions {
      AtDead(c, id, AbortAll(e.code));
    } else {
      assert ByIndex(c, id, e).c == c;
    }
  }

  lemma EverywhereDead(c: Conn, uni: bool, request: RequestId)
    requires Dead(c)
    ensures Dead(MaxStreams(c, uni).c) && Dead(CloseGracefully(c, request).c)
  {
    hide ToAll, AllInert, WrapRequests;
    var d := if uni then c else c.(blocked := []);
    ToAllDead(d, TransportMaxStreams(uni));
    assert MaxStreams(c, uni).c == d;
    assert CloseGracefully(c, request).c == c;
  }

  lemma GoawayDead(c: Conn)
    requires Dead(c)
    ensures Dead(Goaway(c).c)
  {
    hide ToAll, AllInert, FailEach;
    var d := c.(goawayReceived := true, blocked := [], requests := c.requests - (set r | r in c.blocked));
    assert d.requests == map[];
    ToAllDead(d, DrainAll);
    assert Goaway(c).c == d;
  }

  lemma ArrivalsDead(c: Conn, session: SessionId, id: StreamId, data: Bytes, now: EE.Time)
    requires Dead(c)
    ensures Dead(StreamArrived(c, session, id, now).c) && Dead(DatagramArrived(c, session, data, now).c)
  {
    hide At, OpenAt, AllInert, EE.Store, Wrap;
    if session in c.sessions {
      OpenAtDead(c, session, id, PeerOpened(id));
      AtDead(c, session, PeerDatagram(data));
    } else {
      assert SameCorpse(c, StreamArrived(c, session, id, now).c);
      assert SameCorpse(c, DatagramArrived(c, session, data, now).c);
    }
  }

  lemma RequestDead(c: Conn, id: StreamId, limit: nat, valid: bool, made: SessionVal)
    requires Dead(c)
    ensures RequestArrived(c, id, limit, valid, made).c == c
  {
    hide AllInert, ReplayEarly;
  }

  lemma BoundDead(c: Conn, id: StreamId, request: RequestId, made: SessionVal)
    requires Dead(c)
    ensures Dead(BindSession(c, id, request, made).c)
  {
    hide AllInert;
    assert BindSession(c, id, request, made).c == c.(pending := c.pending[id := request]);
  }

  lemma PruneDead(c: Conn)
    requires Dead(c)
    ensures Dead(PruneSessions(c))
  {
    hide Inert;
    forall k | k in PruneSessions(c).sessions ensures Inert(PruneSessions(c).sessions[k]) {
      assert k in c.sessions;
    }
  }

  lemma AboutDead(c: Conn, e: ConnEvent)
    requires Dead(c) && AboutConnection(e)
    ensures SameCorpse(c, HandleConn(c, e).c)
  {
    hide AllInert, ToSession, ByIndex, OpenAt, NoSession, StreamArrived, DatagramArrived, Response, RequestArrived;
    hide MaxStreams;
    hide Goaway, CloseGracefully, Terminate, BindSession, PruneSessions, EE.Prune, Wrap;
    match e {
      case MakeSession(request, optimistic, limit, valid) => assert HandleConn(c, e).c == c;
      case SessionFailed(request, error) =>
        assert c.requests - {request} == c.requests;
        assert HandleConn(c, e).c == c.(requests := c.requests - {request});
      case CloseNow(request) => assert HandleConn(c, e).c == c;
      case SessionDeferred(request) => assert HandleConn(c, e).c == c.(blocked := c.blocked + [request]);
      case Handshake => assert HandleConn(c, e).c == c;
      case SettingsArrived => assert HandleConn(c, e).c == c.(settingsSeen := true);
    }
  }

  /** Once dead, always dead: no step opens a session or takes up a request again. */
  lemma DeadStays(c: Conn, e: ConnEvent)
    requires Dead(c)
    ensures Dead(HandleConn(c, e).c)
  {
    hide Dead, At, OpenAt, ByIndex, StreamArrived, DatagramArrived, Response, RequestArrived, MaxStreams, Goaway;
    hide CloseGracefully, BindSession, PruneSessions, EE.Prune, CreateSession, FailSession, CloseConnection;
    hide HandshakeDone;
    hide SettingsSeen, NoSession, Wrap, ToAll, FailEach, Sorted, Terminate;
    match e {
      case OnSession(session, event) =>
        if session in c.sessions {
          AtDead(c, session, event);
        }
      case OnOneStream(id, event) => ByIndexDead(c, id, event);
      case Bind(session, id, request, uni) =>
        if session in c.sessions {
          OpenAtDead(c, session, id, TransportBind(id, request, uni));
        }
      case Stream(session, id, now) => ArrivalsDead(c, session, id, [], now);
      case Datagram(session, data, now) => ArrivalsDead(c, session, 0, data, now);
      case ResponseSeen(id, verdict, made) => ResponseDead(c, id, verdict, made);
      case RequestSeen(id, limit, valid, made) => RequestDead(c, id, limit, valid, made);
      case StreamsAvailable(uni) => EverywhereDead(c, uni, 0);
      case GoawaySeen => GoawayDead(c);
      case CloseNicely(request) => EverywhereDead(c, true, request);
      case Terminated(code) => TwiceDead(c, code);
      case SessionBound(id, request, made) => BoundDead(c, id, request, made);
      case PruneClosed => PruneDead(c);
      case PruneEarlyEvents(_) => CorpseDead(c, HandleConn(c, e).c);
      case _ =>
        AboutDead(c, e);
        CorpseDead(c, HandleConn(c, e).c);
    }
  }

  lemma TwiceDead(c: Conn, code: ErrorCode)
    requires Dead(c)
    ensures Terminate(c, code) == ConnStep(c, [])
  {
    hide AllInert, ToAll, FailEach, Sorted;
  }

  // ----- after the end each request is answered at once

  /** The request that a user event brings. */
  function AskedBy(e: ConnEvent): Option<RequestId> {
    match e
    case OnSession(_, event) => if UserOnSession(event) then Some(event.request) else None
    case OnOneStream(id, event) => if UserOnStream(event, id) then Some(event.request) else None
    case MakeSession(request, _, _, _) => Some(request)
    case CloseNow(request) => request
    case CloseNicely(request) => Some(request)
    case _ => None
  }

  lemma SessionAnswers(c: Conn, session: SessionId, e: Event)
    requires Dead(c) && UserOnSession(e)
    ensures OneAnswer(ToSession(c, session, e).out, e.request)
  {
    hide Handle, Wrap, Inert;
    if session in c.sessions {
      InertAt(c.sessions, session);
      InertAnswers(c.sessions[session], e);
    }
  }

  lemma StreamAnswers(c: Conn, id: StreamId, e: Event)
    requires Dead(c) && UserOnStream(e, id)
    ensures OneAnswer(ByIndex(c, id, e).out, e.request)
  {
    hide Handle, Wrap, Inert, HasStream;
    if id in c.index && c.index[id] in c.sessions {
      InertAt(c.sessions, c.index[id]);
      InertAnswers(c.sessions[c.index[id]], e);
    }
  }

  /** In a dead connection a user event is answered in the same call: once, and with nothing else. */
  lemma DeadAnswers(c: Conn, e: ConnEvent)
    requires Dead(c) && AskedBy(e).Some?
    ensures OneAnswer(HandleConn(c, e).out, AskedBy(e).value)
  {
    hide ToSession, OpenAt, ByIndex, StreamArrived, DatagramArrived, Response, RequestArrived, MaxStreams, Goaway;
    hide Terminate, BindSession, PruneSessions, EE.Prune, FailSession, HandshakeDone, SettingsSeen, NoSession, Wrap;
    hide AllInert, ToAll;
    match e {
      case OnSession(session, event) => SessionAnswers(c, session, event);
      case OnOneStream(id, event) => StreamAnswers(c, id, event);
      case MakeSession(request, _, _, _) => assert |HandleConn(c, e).out| == 1;
      case CloseNow(_) => assert HandleConn(c, e).out == Answer(e.asker);
      case CloseNicely(request) => assert HandleConn(c, e).out == [Fx(Done(request, Nothing))];
    }
  }

  // ----- what the end itself does

  lemma InertAfterClose(s: SessionVal, code: ErrorCode)
    requires SV.Inv(s)
    ensures Inert(Handle(s, PeerClosed(code)).s)
  {
    ClosedBy(s, code);
    SV.HandleInv(s, PeerClosed(code));
    hide Handle;
  }

  lemma ClosedBy(s: SessionVal, code: ErrorCode)
    requires SV.Inv(s)
    ensures Handle(s, PeerClosed(code)).s.phase == Closed
  {
    hide Shutdown, SV.Base, SV.StreamsOk, SV.Queued, SV.Spent, SV.QuotaOk, SV.ShutOk;
    InvParts(s);
    SV.ShutdownInv(s, Closed);
  }

  lemma InvParts(s: SessionVal)
    requires SV.Inv(s)
    ensures SV.StreamsOk(s) && SV.Queued(s) && SV.QuotaOk(s, false) && SV.QuotaOk(s, true)
  {
  }

  /** Of the sessions listed, all are closed afterwards; the others stay as they were. */
  lemma {:induction false} ClosesEach(c: Conn, sessions: seq<SessionId>, code: ErrorCode)
    requires CI.SessionsOk(c)
    ensures var d := ToEach(c, sessions, PeerClosed(code)).c;
            && d == c.(sessions := d.sessions) && d.sessions.Keys == c.sessions.Keys
            && (forall k :: k in c.sessions && (k in sessions || Inert(c.sessions[k])) ==> Inert(d.sessions[k]))
    decreases |sessions|
  {
    hide At, CI.AllOk, Inert;
    if sessions != [] {
      var s := sessions[0];
      if s in c.sessions {
        var d := At(c, s, PeerClosed(code)).c;
        CI.HarmlessAllowed(c.sessions[s], PeerClosed(code));
        CI.AtOk(c, s, PeerClosed(code));
        CI.AtInv(c.sessions, s);
        AtClosed(c, s, code);
        ClosesEach(d, sessions[1..], code);
      } else {
        ClosesEach(c, sessions[1..], code);
      }
    }
  }

  lemma AtClosed(c: Conn, s: SessionId, code: ErrorCode)
    requires s in c.sessions && SV.Inv(c.sessions[s])
    ensures var d := At(c, s, PeerClosed(code)).c;
            && d == c.(sessions := d.sessions) && d.sessions.Keys == c.sessions.Keys && Inert(d.sessions[s])
            && (forall k :: k in c.sessions && k != s ==> d.sessions[k] == c.sessions[k])
  {
    hide Handle, Wrap, Inert, SV.Inv;
    InertAfterClose(c.sessions[s], code);
  }

  /** Termination kills: nothing is left in the requests for sessions or in any session. */
  lemma TerminateKills(c: Conn, code: ErrorCode)
    requires CI.SessionsOk(c) && c.phase != Ended
    ensures Dead(Terminate(c, code).c)
  {
    hide ToEach, CI.AllOk, Inert, Sorted, FailEach;
    var b := c.(phase := Ended, requests := map[], request := None, blocked := [], pending := map[]);
    ClosesEach(b, Sorted(b.sessions.Keys), code);
    assert Terminate(c, code).c == ToEach(b, Sorted(b.sessions.Keys), PeerClosed(code)).c;
  }

  /** Alive, or dead for good. */
  ghost predicate AliveOrDead(c: Conn) {
    CI.SessionsOk(c) && (c.phase == Ended ==> Dead(c))
  }

  /** A new connection meets what the theorems about runs start from. */
  lemma NewConnOk(isClient: bool, limits: EE.Limits, request: Option<RequestId>)
    ensures var c := NewConn(isClient, limits, request);
            SI.Indexed(c) && ED.BooksOk(c) && CI.SessionsOk(c) && AliveOrDead(c)
  {
  }

  ghost predicate SameRole(c: Conn, d: Conn) {
    d.phase == c.phase && d.isClient == c.isClient
  }

  lemma {:induction false} ToEachPhase(c: Conn, sessions: seq<SessionId>, e: Event)
    ensures SameRole(c, ToEach(c, sessions, e).c)
    decreases |sessions|
  {
    hide Handle, Wrap;
    if sessions != [] {
      ToEachPhase(if sessions[0] in c.sessions then At(c, sessions[0], e).c else c, sessions[1..], e);
    }
  }

  lemma ToAllPhase(c: Conn, e: Event)
    ensures SameRole(c, ToAll(c, e).c)
  {
    hide ToEach, Sorted;
    ToEachPhase(c, Sorted(c.sessions.Keys), e);
  }

  lemma MaxStreamsPhase(c: Conn, uni: bool)
    ensures SameRole(c, MaxStreams(c, uni).c)
  {
    hide ToAll, WrapRequests;
    ToAllPhase(if uni then c else c.(blocked := []), TransportMaxStreams(uni));
  }

  lemma GoawayPhase(c: Conn)
    ensures SameRole(c, Goaway(c).c)
  {
    hide ToAll, FailEach;
    ToAllPhase(c.(goawayReceived := true, blocked := [], requests := c.requests - (set r | r in c.blocked)), DrainAll);
  }

  lemma GracefulPhase(c: Conn, request: RequestId)
    ensures SameRole(c, CloseGracefully(c, request).c)
  {
    hide ToAll;
    ToAllPhase(c.(goawaySent := true), DrainAll);
  }

  lemma {:induction false} ReplayPhase(c: Conn, session: SessionId, events: seq<EE.Stamped>)
    ensures SameRole(c, ReplayEach(c, session, events).c)
    decreases |events|
  {
    hide ReplayEach, At, OpenAt;
    if events == [] || session !in c.sessions {
      ReplayNothing(c, session, events);
    } else {
      ED.ReplayStep(c, session, events);
      match events[0].event {
        case StreamIn(id) => AtPhase(c, session, id, PeerOpened(id));
        case DatagramIn(data) => AtPhase(c, session, 0, PeerDatagram(data));
      }
      ReplayPhase(ED.HandOver(c, session, events[0].event).c, session, events[1..]);
    }
  }

  lemma ReplayNothing(c: Conn, session: SessionId, events: seq<EE.Stamped>)
    requires events == [] || session !in c.sessions
    ensures ReplayEach(c, session, events).c == c
  {
  }

  lemma AtPhase(c: Conn, session: SessionId, id: StreamId, e: Event)
    requires session in c.sessions
    ensures SameRole(c, At(c, session, e).c) && SameRole(c, OpenAt(c, session, id, e).c)
  {
    hide Handle, Wrap, HasStream;
    var d := At(c, session, e).c;
    assert d == c.(sessions := d.sessions);
    if HasStream(d, session, id) {
      assert OpenAt(c, session, id, e).c == d.(index := d.index[id := session]);
    } else {
      assert OpenAt(c, session, id, e).c == d;
    }
  }

  lemma ReplayEarlyPhase(c: Conn, session: SessionId)
    ensures SameRole(c, ReplayEarly(c, session).c)
  {
    hide ReplayEach, EE.Take, EE.RefuseAll, Wrap;
    ReplayPhase(c.(early := EE.Take(c.early, session).buffer), session, EE.Take(c.early, session).events);
  }

  lemma TurnedPhase(c: Conn, id: StreamId, request: RequestId, code: ErrorCode)
    ensures SameRole(c, Turned(c, id, request, code).c)
  {
    hide At;
    if id in c.sessions {
      AtPhase(c, id, 0, AbortAll(code));
    } else {
      assert Turned(c, id, request, code).c == c.(requests := c.requests - {request});
    }
  }

  lemma ConfirmedPhase(c: Conn, id: StreamId, request: RequestId, made: SessionVal)
    ensures SameRole(c, Confirmed(c, id, request, made).c)
  {
    hide At;
    if id in c.sessions {
      AtPhase(c, id, 0, PeerConfirmed);
    } else if request in c.requests {
      var d := c.(requests := c.requests - {request}, sessions := c.sessions[id := made]);
      AtPhase(d, id, 0, PeerConfirmed);
    } else {
      assert Confirmed(c, id, request, made).c == c;
    }
  }

  lemma JudgedPhase(c: Conn, id: StreamId, verdict: Verdict, made: SessionVal)
    requires ED.Expected(c, id)
    ensures SameRole(c, ED.Judged(c, id, verdict, made).c)
  {
    hide Turned, Confirmed;
    var request := c.pending[id];
    var d := c.(pending := c.pending - {id});
    match verdict {
      case WrongProtocol => TurnedPhase(d, id, request, ERR_WT_ALPN_ERROR);
      case Granted => ConfirmedPhase(d, id, request, made);
      case Rejected => TurnedPhase(d.(requests := d.requests - {request}), id, request, ERR_H3_REQUEST_REJECTED);
    }
  }

  lemma ResponsePhase(c: Conn, id: StreamId, verdict: Verdict, made: SessionVal)
    ensures SameRole(c, Response(c, id, verdict, made).c)
  {
    hide ED.Judged, ReplayEarly;
    if ED.Expected(c, id) {
      ED.ResponseJudged(c, id, verdict, made);
      JudgedPhase(c, id, verdict, made);
      hide Response;
      ReplayEarlyPhase(ED.Judged(c, id, verdict, made).c, id);
    } else {
      CI.ResponseUnexpected(c, id, verdict, made);
    }
  }

  lemma RequestPhase(c: Conn, id: StreamId, limit: nat, valid: bool, made: SessionVal)
    ensures SameRole(c, RequestArrived(c, id, limit, valid, made).c)
  {
    hide ReplayEarly;
    if ED.Admits(c, id, limit, valid) {
      ED.RequestAdmitted(c, id, limit, valid, made);
      hide RequestArrived;
      ReplayEarlyPhase(ED.Admitted(c, id, made), id);
    } else {
      assert RequestArrived(c, id, limit, valid, made).c == c;
    }
  }

  lemma ByIndexPhase(c: Conn, id: StreamId, e: Event)
    ensures SameRole(c, ByIndex(c, id, e).c)
  {
    hide At, NoStream, HasStream;
    if id in c.index && c.index[id] in c.sessions {
      AtPhase(c, c.index[id], id, e);
    } else if (e.PeerReset? || e.PeerStop?) && id in c.sessions {
      AtPhase(c, id, id, AbortAll(e.code));
    } else {
      assert ByIndex(c, id, e).c == c;
    }
  }

  lemma ArrivalsPhase(c: Conn, session: SessionId, id: StreamId, data: Bytes, now: EE.Time)
    ensures SameRole(c, StreamArrived(c, session, id, now).c) && SameRole(c, DatagramArrived(c, session, data, now).c)
  {
    hide At, OpenAt, EE.Store, Wrap;
    if session in c.sessions {
      AtPhase(c, session, id, PeerOpened(id));
      AtPhase(c, session, id, PeerDatagram(data));
    }
  }

  /** Apart from termination only the steps about the connection itself change its phase. */
  lemma PhaseStays(c: Conn, e: ConnEvent)
    requires !AboutConnection(e) && !e.Terminated?
    ensures SameRole(c, HandleConn(c, e).c)
  {
    hide At, OpenAt, ByIndex, StreamArrived, DatagramArrived, Response, RequestArrived, MaxStreams, Goaway;
    hide CloseGracefully, Terminate, EE.Prune, CreateSession, FailSession, CloseConnection, HandshakeDone;
    hide SettingsSeen, NoSession, Wrap, PruneSessions, BindSession;
    match e {
      case OnSession(session, event) =>
        if session in c.sessions {
          AtPhase(c, session, 0, event);
        }
      case OnOneStream(id, event) => ByIndexPhase(c, id, event);
      case Bind(session, id, request, uni) =>
        if session in c.sessions {
          AtPhase(c, session, id, TransportBind(id, request, uni));
        }
      case Stream(session, id, now) => ArrivalsPhase(c, session, id, [], now);
      case Datagram(session, data, now) => ArrivalsPhase(c, session, 0, data, now);
      case ResponseSeen(id, verdict, made) => ResponsePhase(c, id, verdict, made);
      case RequestSeen(id, limit, valid, made) => RequestPhase(c, id, limit, valid, made);
      case StreamsAvailable(uni) => MaxStreamsPhase(c, uni);
      case GoawaySeen => GoawayPhase(c);
      case CloseNicely(request) => GracefulPhase(c, request);
      case SessionBound(id, request, made) => BoundPhase(c, id, request, made);
      case PruneClosed => PrunePhase(c);
      case PruneEarlyEvents(_) =>
    }
  }

  lemma BoundPhase(c: Conn, id: StreamId, request: RequestId, made: SessionVal)
    ensures SameRole(c, BindSession(c, id, request, made).c)
  {
    if request in c.requests && c.requests[request] {
      assert BindSession(c, id, request, made).c ==
             c.(pending := c.pending[id := request], requests := c.requests - {request}, sessions := c.sessions[id := made]);
    } else {
      assert BindSession(c, id, request, made).c == c.(pending := c.pending[id := request]);
    }
  }

  lemma PrunePhase(c: Conn)
    ensures SameRole(c, PruneSessions(c))
  {
  }

  lemma AboutPhase(c: Conn, e: ConnEvent)
    requires AboutConnection(e)
    ensures var d := HandleConn(c, e).c;
            && (c.phase != Ended ==> d.phase != Ended) && d.isClient == c.isClient
            && (e.MakeSession? || e.SessionDeferred? || e.SessionFailed? ==> d.phase == c.phase)
  {
    hide ToSession, ByIndex, OpenAt, NoSession, StreamArrived, DatagramArrived, Response, RequestArrived, MaxStreams;
    hide Goaway, CloseGracefully, Terminate, BindSession, PruneSessions, EE.Prune, Wrap, CreateSession, FailSession;
    hide CloseConnection;
    hide HandshakeDone, SettingsSeen;
    match e {
      case MakeSession(request, optimistic, limit, valid) => CreatePhase(c, request, optimistic, limit, valid);
      case SessionFailed(request, error) => FailPhase(c, request, error);
      case SessionDeferred(_) =>
      case CloseNow(request) => ClosePhase(c, request);
      case Handshake => OpeningPhase(c);
      case SettingsArrived => OpeningPhase(c);
    }
  }

  lemma FailPhase(c: Conn, request: RequestId, error: Option<ErrorCode>)
    ensures SameRole(c, FailSession(c, request, error).c)
  {
  }

  lemma ClosePhase(c: Conn, request: Option<RequestId>)
    ensures var d := CloseConnection(c, request).c; d.isClient == c.isClient && (d.phase == Ended <==> c.phase == Ended)
  {
    if c.phase == Ended || c.phase == Ending {
      assert CloseConnection(c, request).c == c;
    } else {
      assert CloseConnection(c, request).c == c.(phase := Ending);
    }
  }

  /** A connection that opens becomes established; one that does not stays as open as it was. */
  ghost predicate Opens(c: Conn, d: Conn) {
    && d.isClient == c.isClient
    && (d.phase == c.phase || d.phase == Established || (c.phase == Idle && d.phase == Handshaking))
  }

  lemma OpeningPhase(c: Conn)
    ensures Opens(c, HandshakeDone(c).c) && Opens(c, SettingsSeen(c).c)
  {
    if c.phase != Idle && c.phase != Handshaking {
      assert HandshakeDone(c).c == c;
    } else if !c.isClient || c.settingsSeen {
      assert HandshakeDone(c).c == c.(phase := Established, handshakeDone := true, request := None);
    } else {
      assert HandshakeDone(c).c == c.(phase := Handshaking, handshakeDone := true);
    }
    if c.phase == Handshaking && c.handshakeDone {
      assert SettingsSeen(c).c == c.(phase := Established, settingsSeen := true, request := None);
    } else {
      assert SettingsSeen(c).c == c.(settingsSeen := true);
    }
  }

  lemma CreatePhase(c: Conn, request: RequestId, optimistic: bool, limit: nat, valid: bool)
    ensures SameRole(c, CreateSession(c, request, optimistic, limit, valid).c)
  {
  }

  lemma AliveOrDeadStep(c: Conn, e: ConnEvent)
    requires AliveOrDead(c) && CI.AllowedConn(c, e)
    ensures AliveOrDead(HandleConn(c, e).c)
  {
    CI.HandleConnOk(c, e);
    hide HandleConn, Dead, CI.SessionsOk, CI.AllowedConn;
    if c.phase == Ended {
      DeadStays(c, e);
    } else if e.Terminated? {
      KilledBy(c, e.code);
    } else if AboutConnection(e) {
      AboutPhase(c, e);
    } else {
      PhaseStays(c, e);
    }
  }

  lemma KilledBy(c: Conn, code: ErrorCode)
    requires AliveOrDead(c)
    ensures Dead(HandleConn(c, Terminated(code)).c)
  {
    hide Dead, CI.SessionsOk;
    if c.phase == Ended {
      DeadStays(c, Terminated(code));
    } else {
      TerminateKills(c, code);
    }
    hide Terminate;
  }

  lemma {:induction false} AliveOrDeadRun(c: Conn, es: seq<ConnEvent>)
    requires AliveOrDead(c) && CI.AllowedConnRun(c, es)
    ensures AliveOrDead(SI.AfterConn(c, es))
    decreases |es|
  {
    hide AliveOrDead, HandleConn, CI.AllowedConn;
    if es != [] {
      AliveOrDeadStep(c, es[0]);
      AliveOrDeadRun(HandleConn(c, es[0]).c, es[1..]);
    }
  }

  lemma {:induction false} DeadRun(c: Conn, es: seq<ConnEvent>)
    requires Dead(c)
    ensures Dead(SI.AfterConn(c, es))
    decreases |es|
  {
    hide Dead, HandleConn;
    if es != [] {
      DeadStays(c, es[0]);
      DeadRun(HandleConn(c, es[0]).c, es[1..]);
    }
  }

  /** Termination is final: after any allowed run, the end of the connection, and any further events whatever, no
      request waits, every session is closed and holds no request, and a user event is answered in its own call. */
  lemma TerminationIsFinal(c: Conn, es: seq<ConnEvent>, code: ErrorCode, fs: seq<ConnEvent>, e: ConnEvent)
    requires AliveOrDead(c) && CI.AllowedConnRun(c, es) && AskedBy(e).Some?
    ensures var d := SI.AfterConn(HandleConn(SI.AfterConn(c, es), Terminated(code)).c, fs);
            Dead(d) && OneAnswer(HandleConn(d, e).out, AskedBy(e).value)
  {
    hide AliveOrDead, HandleConn, CI.AllowedConnRun, Dead, OneAnswer, SI.AfterConn;
    var b := SI.AfterConn(c, es);
    AliveOrDeadRun(c, es);
    KilledBy(b, code);
    DeadRun(HandleConn(b, Terminated(code)).c, fs);
    DeadAnswers(SI.AfterConn(HandleConn(b, Terminated(code)).c, fs), e);
  }

  /** A closed session that keeps its invariant holds no request. */
  lemma DeadHoldsNothing(c: Conn, session: SessionId, r: RequestId)
    requires Dead(c) && session in c.sessions
    ensures SV.Held(c.sessions[session], r) == 0
  {
    InertAt(c.sessions, session);
    Ledger.EmptyHeld(c.sessions[session], r);
  }

  // ----- what the end answers

  function AnswersIn(out: seq<Output>, r: RequestId): nat {
    if out == [] then 0 else (if out[0].Fx? && IsAnswer(out[0].effect, r) then 1 else 0) + AnswersIn(out[1..], r)
  }

  lemma {:induction false} AnswersInAppend(a: seq<Output>, b: seq<Output>, r: RequestId)
    ensures AnswersIn(a + b, r) == AnswersIn(a, r) + AnswersIn(b, r)
  {
    if a == [] {
      assert a + b == b;
    } else {
      assert (a + b)[1..] == a[1..] + b;
      AnswersInAppend(a[1..], b, r);
    }
  }

  lemma {:induction false} AnswersInWrap(fx: seq<Effect>, r: RequestId)
    ensures AnswersIn(Wrap(fx), r) == Answers(fx, r)
  {
    if fx != [] {
      assert Wrap(fx)[1..] == Wrap(fx[1..]);
      AnswersInWrap(fx[1..], r);
    }
  }

  lemma {:induction false} NoCreatesNoLends(fx: seq<Effect>, r: RequestId)
    requires Creates(fx, false) == 0 && Creates(fx, true) == 0
    ensures Lends(fx, r) == 0
  {
    if fx != [] {
      NoCreatesNoLends(fx[1..], r);
    }
  }

  lemma ShutdownIssues(s: SessionVal, phase: Phase)
    requires SV.StreamsOk(s) && SV.Queued(s) && SV.QuotaOk(s, false) && SV.QuotaOk(s, true)
    ensures var t := Shutdown(s, phase).s; t.bidi.issued == s.bidi.issued && t.uni.issued == s.uni.issued
  {
    hide SV.StreamsOk, SV.QuotaOk, AbortEach, Sorted, FailAll;
    var b := s.(phase := phase, capsules := [], datagrams := []);
    SV.SameCore(s, b);
    SV.AbortEachKeeps(b, Sorted(b.streams.Keys));
  }

  lemma ShutdownLends(s: SessionVal, phase: Phase, r: RequestId)
    requires SV.StreamsOk(s) && SV.Queued(s) && SV.QuotaOk(s, false) && SV.QuotaOk(s, true)
    requires phase != Connected && phase != Draining
    ensures Lends(Shutdown(s, phase).fx, r) == 0
  {
    hide Shutdown, SV.StreamsOk, SV.QuotaOk, SV.Queued, OF.Paper, OF.Candid, OF.Tame, Creates;
    ShutdownIssues(s, phase);
    OF.ShutdownShips(s, phase);
    NoCreatesNoLends(Shutdown(s, phase).fx, r);
  }

  lemma CloseFx(s: SessionVal, code: ErrorCode)
    ensures Handle(s, PeerClosed(code)).fx ==
            if IsOpen(s) then Shutdown(s, Closed).fx + [EmitSession(SessionClosed(Some(code)))] else []
  {
    hide Shutdown;
  }

  lemma CloseLends(s: SessionVal, code: ErrorCode, r: RequestId)
    requires SV.Inv(s)
    ensures Lends(Handle(s, PeerClosed(code)).fx, r) == 0
  {
    InvParts(s);
    hide Shutdown, SV.StreamsOk, SV.QuotaOk, SV.Queued, SV.Inv, Handle;
    CloseFx(s, code);
    ShutdownLends(s, Closed, r);
    var last := [EmitSession(SessionClosed(Some(code)))];
    LendsAppend(Shutdown(s, Closed).fx, last, r);
    assert last[1..] == [];
  }

  /** Closing a session answers every request it holds, once each. */
  lemma CloseAnswers(s: SessionVal, code: ErrorCode, r: RequestId)
    requires SV.Inv(s)
    ensures Answers(Handle(s, PeerClosed(code)).fx, r) == SV.Held(s, r)
  {
    CI.HarmlessAllowed(s, PeerClosed(code));
    Ledger.HandleBalance(s, PeerClosed(code), r);
    CloseLends(s, code, r);
    InertAfterClose(s, code);
    Ledger.EmptyHeld(Handle(s, PeerClosed(code)).s, r);
    hide Handle, SV.Held, SV.Inv;
  }

  ghost predicate Distinct(ids: seq<StreamId>) {
    forall i, j :: 0 <= i < j < |ids| ==> ids[i] != ids[j]
  }

  lemma DistinctRest(ids: seq<StreamId>)
    requires Distinct(ids) && ids != []
    ensures Distinct(ids[1..]) && ids[0] !in ids[1..]
  {
  }

  lemma {:induction false} SortedDistinct(ids: set<StreamId>)
    ensures Distinct(Sorted(ids))
  {
    if ids != {} {
      var rest := Sorted(ids - {Min(ids)});
      SortedDistinct(ids - {Min(ids)});
      assert Min(ids) !in rest;
    }
  }

  /** How often the listed sessions hold a request. */
  ghost function HeldBy(sessions: map<SessionId, SessionVal>, ids: seq<SessionId>, r: RequestId): nat {
    if ids == [] then 0 else (if ids[0] in sessions then SV.Held(sessions[ids[0]], r) else 0) + HeldBy(sessions, ids[1..], r)
  }

  lemma {:induction false} HeldBySame(a: map<SessionId, SessionVal>, b: map<SessionId, SessionVal>, ids: seq<SessionId>, r: RequestId)
    requires a.Keys == b.Keys && forall k :: k in ids && k in a ==> b[k] == a[k]
    ensures HeldBy(a, ids, r) == HeldBy(b, ids, r)
  {
    hide SV.Held;
    if ids != [] {
      HeldBySame(a, b, ids[1..], r);
      assert ids[0] in ids;
    }
  }

  lemma {:induction false} ClosingAnswers(c: Conn, ids: seq<SessionId>, code: ErrorCode, r: RequestId)
    requires CI.SessionsOk(c) && Distinct(ids)
    ensures AnswersIn(ToEach(c, ids, PeerClosed(code)).out, r) == HeldBy(c.sessions, ids, r)
    decreases |ids|
  {
    hide At, CI.AllOk, SV.Held, Distinct;
    if ids != [] {
      var s := ids[0];
      DistinctRest(ids);
      if s in c.sessions {
        var o := At(c, s, PeerClosed(code));
        CI.HarmlessAllowed(c.sessions[s], PeerClosed(code));
        CI.AtOk(c, s, PeerClosed(code));
        CI.AtInv(c.sessions, s);
        AtClosed(c, s, code);
        ClosingAnswers(o.c, ids[1..], code, r);
        HeldBySame(c.sessions, o.c.sessions, ids[1..], r);
        OneCloseAnswers(c, s, code, r);
        AnswersInAppend(o.out, ToEach(o.c, ids[1..], PeerClosed(code)).out, r);
      } else {
        ClosingAnswers(c, ids[1..], code, r);
        assert [] + ToEach(c, ids[1..], PeerClosed(code)).out == ToEach(c, ids[1..], PeerClosed(code)).out;
      }
    }
  }

  lemma OneCloseAnswers(c: Conn, s: SessionId, code: ErrorCode, r: RequestId)
    requires s in c.sessions && SV.Inv(c.sessions[s])
    ensures AnswersIn(At(c, s, PeerClosed(code)).out, r) == SV.Held(c.sessions[s], r)
  {
    hide Handle, Wrap, SV.Held, SV.Inv, AnswersIn;
    CloseAnswers(c.sessions[s], code, r);
    AnswersInWrap(Handle(c.sessions[s], PeerClosed(code)).fx, r);
  }

  lemma {:induction false} FailingAnswers(ids: seq<RequestId>, r: RequestId)
    requires Distinct(ids)
    ensures AnswersIn(FailEach(ids), r) == if r in ids then 1 else 0
  {
    if ids != [] {
      DistinctRest(ids);
      FailingAnswers(ids[1..], r);
      assert FailEach(ids)[1..] == FailEach(ids[1..]);
    }
  }

  function Waiting(c: Conn): set<RequestId> {
    c.requests.Keys + if c.request.Some? then {c.request.value} else {}
  }

  /** The end settles every account: each request held by a session is answered as often as it was held, and each
      request that waits for a session or for the connection is answered once. */
  lemma TerminateSettles(c: Conn, code: ErrorCode, r: RequestId)
    requires CI.SessionsOk(c) && c.phase != Ended
    ensures AnswersIn(Terminate(c, code).out, r) ==
            HeldBy(c.sessions, Sorted(c.sessions.Keys), r) + if r in Waiting(c) then 1 else 0
  {
    hide ToEach, CI.AllOk, Sorted, FailEach, HeldBy;
    var b := c.(phase := Ended, requests := map[], request := None, blocked := [], pending := map[]);
    var o := ToEach(b, Sorted(b.sessions.Keys), PeerClosed(code)).out;
    var f := FailEach(Sorted(Waiting(c)));
    assert Terminate(c, code).out == o + [ConnectionDown] + f;
    SortedDistinct(b.sessions.Keys);
    SortedDistinct(Waiting(c));
    ClosingAnswers(b, Sorted(b.sessions.Keys), code, r);
    FailingAnswers(Sorted(Waiting(c)), r);
    AnswersInAppend(o, [ConnectionDown], r);
    AnswersInAppend(o + [ConnectionDown], f, r);
    assert [ConnectionDown][1..] == [];
  }
}
