/** Every session of every connection keeps the session invariant, whatever the connection does. */
module ConnInvariant {
  import opened Types
  import opened Streams
  import opened Sessions
  import opened Traces
  import SV = SessionInvariant
  import opened Connections
  import EE = EarlyEvents
  import SI = StreamIndex
  import ED = EarlyDelivery

  ghost predicate AllOk(sessions: map<SessionId, SessionVal>) {
    forall k :: k in sessions ==> SV.Inv(sessions[k])
  }

  ghost predicate SessionsOk(c: Conn) {
    AllOk(c.sessions)
  }

  lemma UpdateOk(sessions: map<SessionId, SessionVal>, k: SessionId, s: SessionVal)
    requires AllOk(sessions) && SV.Inv(s)
    ensures AllOk(sessions[k := s])
  {
    hide SV.Inv;
  }

  lemma AtOk(c: Conn, session: SessionId, e: Event)
    requires SessionsOk(c) && session in c.sessions && SV.Allowed(c.sessions[session], e)
    ensures SessionsOk(At(c, session, e).c)
  {
    AtInv(c.sessions, session);
    hide Handle, Wrap, AllOk, SV.Inv, SV.Allowed;
    SV.HandleInv(c.sessions[session], e);
    UpdateOk(c.sessions, session, Handle(c.sessions[session], e).s);
  }

  lemma AtInv(sessions: map<SessionId, SessionVal>, k: SessionId)
    requires AllOk(sessions) && k in sessions
    ensures SV.Inv(sessions[k])
  {
    hide SV.Inv;
  }

  lemma OpenAtOk(c: Conn, session: SessionId, id: StreamId, e: Event)
    requires SessionsOk(c) && session in c.sessions && SV.Allowed(c.sessions[session], e)
    ensures SessionsOk(OpenAt(c, session, id, e).c)
  {
    hide At, AllOk, SV.Allowed;
    AtOk(c, session, e);
  }

  /** Events that are always allowed. */
  predicate Harmless(e: Event) {
    e.TransportMaxStreams? || e.DrainAll? || e.PeerClosed? || e.AbortAll? || e.PeerConfirmed? || e.PeerDatagram?
  }

  lemma HarmlessAllowed(s: SessionVal, e: Event)
    requires Harmless(e)
    ensures SV.Allowed(s, e)
  {
  }

  lemma ByIndexOk(c: Conn, id: StreamId, e: Event)
    requires SessionsOk(c)
    requires id in c.index && c.index[id] in c.sessions ==> SV.Allowed(c.sessions[c.index[id]], e)
    ensures SessionsOk(ByIndex(c, id, e).c)
  {
    hide At, AllOk, SV.Allowed, NoStream, HasStream;
    if id in c.index && c.index[id] in c.sessions {
      AtOk(c, c.index[id], e);
    } else if (e.PeerReset? || e.PeerStop?) && id in c.sessions {
      HarmlessAllowed(c.sessions[id], AbortAll(e.code));
      AtOk(c, id, AbortAll(e.code));
    }
  }

  lemma {:induction false} ToEachOk(c: Conn, sessions: seq<SessionId>, e: Event)
    requires SessionsOk(c) && Harmless(e)
    ensures SessionsOk(ToEach(c, sessions, e).c)
    decreases |sessions|
  {
    hide At, SessionsOk, SV.Allowed;
    if sessions != [] {
      if sessions[0] in c.sessions {
        HarmlessAllowed(c.sessions[sessions[0]], e);
        AtOk(c, sessions[0], e);
        ToEachOk(At(c, sessions[0], e).c, sessions[1..], e);
      } else {
        ToEachOk(c, sessions[1..], e);
      }
    }
  }

  lemma ToAllOk(c: Conn, d: Conn, e: Event)
    requires SessionsOk(c) && d.sessions == c.sessions && Harmless(e)
    ensures SessionsOk(ToAll(d, e).c)
  {
    hide ToEach, AllOk, Sorted;
    ToEachOk(d, Sorted(d.sessions.Keys), e);
  }

  lemma MaxStreamsOk(c: Conn, uni: bool)
    requires SessionsOk(c)
    ensures SessionsOk(MaxStreams(c, uni).c)
  {
    hide ToAll, SessionsOk, WrapRequests;
    ToAllOk(c, if uni then c else c.(blocked := []), TransportMaxStreams(uni));
  }

  lemma GoawayOk(c: Conn)
    requires SessionsOk(c)
    ensures SessionsOk(Goaway(c).c)
  {
    hide ToAll, SessionsOk, FailEach;
    ToAllOk(c, c.(goawayReceived := true, blocked := [], requests := c.requests - (set r | r in c.blocked)), DrainAll);
  }

  lemma GracefulOk(c: Conn, request: RequestId)
    requires SessionsOk(c)
    ensures SessionsOk(CloseGracefully(c, request).c)
  {
    hide ToAll, SessionsOk;
    ToAllOk(c, c.(goawaySent := true), DrainAll);
  }

  lemma TerminateOk(c: Conn, code: ErrorCode)
    requires SessionsOk(c)
    ensures SessionsOk(Terminate(c, code).c)
  {
    hide ToAll, SessionsOk, Sorted, FailEach;
    ToAllOk(c, c.(phase := Ended, requests := map[], request := None, blocked := [], pending := map[]), PeerClosed(code));
  }

  lemma ReplayEarlyOk(c: Conn, session: SessionId)
    requires SessionsOk(c)
    requires session in c.sessions ==> SV.AllowedRun(c.sessions[session], ED.AsEvents(EE.EventsOf(c.early, session)))
    ensures SessionsOk(ReplayEarly(c, session).c)
  {
    hide ReplayEach, AllOk, SV.AllowedRun, ED.AsEvents, SV.After, SV.Effects, Wrap, SV.Inv;
    if session in c.sessions {
      var t := EE.Take(c.early, session);
      AtInv(c.sessions, session);
      SV.RunInv(c.sessions[session], ED.AsEvents(t.events));
      ED.ReplayRuns(c.(early := t.buffer), session, t.events);
      UpdateOk(c.sessions, session, SV.After(c.sessions[session], ED.AsEvents(t.events)));
    }
  }

  lemma TurnedOk(c: Conn, id: StreamId, request: RequestId, code: ErrorCode)
    requires SessionsOk(c)
    ensures SessionsOk(Turned(c, id, request, code).c)
  {
    hide At, AllOk, SV.Allowed;
    if id in c.sessions {
      HarmlessAllowed(c.sessions[id], AbortAll(code));
      AtOk(c, id, AbortAll(code));
    } else {
      assert Turned(c, id, request, code).c == c.(requests := c.requests - {request});
    }
  }

  lemma ConfirmedOk(c: Conn, id: StreamId, request: RequestId, made: SessionVal)
    requires SessionsOk(c) && SV.Inv(made)
    ensures SessionsOk(Confirmed(c, id, request, made).c)
  {
    hide At, AllOk, SV.Allowed, SV.Inv;
    if id in c.sessions {
      HarmlessAllowed(c.sessions[id], PeerConfirmed);
      AtOk(c, id, PeerConfirmed);
    } else if request in c.requests {
      var d := c.(requests := c.requests - {request}, sessions := c.sessions[id := made]);
      UpdateOk(c.sessions, id, made);
      HarmlessAllowed(d.sessions[id], PeerConfirmed);
      AtOk(d, id, PeerConfirmed);
    } else {
      assert Confirmed(c, id, request, made).c == c;
    }
  }

  lemma JudgedOk(c: Conn, id: StreamId, verdict: Verdict, made: SessionVal)
    requires SessionsOk(c) && SV.Inv(made) && ED.Expected(c, id)
    ensures SessionsOk(ED.Judged(c, id, verdict, made).c)
  {
    hide Turned, Confirmed, AllOk, SV.Inv;
    var request := c.pending[id];
    var d := c.(pending := c.pending - {id});
    match verdict {
      case WrongProtocol => TurnedOk(d, id, request, ERR_WT_ALPN_ERROR);
      case Granted => ConfirmedOk(d, id, request, made);
      case Rejected => TurnedOk(d.(requests := d.requests - {request}), id, request, ERR_H3_REQUEST_REJECTED);
    }
  }

  /** The early events of a session are allowed once it exists. */
  ghost predicate EarlyAllowed(c: Conn, d: Conn, id: SessionId) {
    id in d.sessions ==> SV.AllowedRun(d.sessions[id], ED.AsEvents(EE.EventsOf(c.early, id)))
  }

  lemma ResponseOk(c: Conn, id: StreamId, verdict: Verdict, made: SessionVal)
    requires SessionsOk(c) && SV.Inv(made)
    requires ED.Expected(c, id) ==> EarlyAllowed(c, ED.Judged(c, id, verdict, made).c, id)
    ensures SessionsOk(Response(c, id, verdict, made).c)
  {
    hide AllOk, SV.Inv, ED.Judged, ReplayEarly, SV.AllowedRun, ED.AsEvents;
    if ED.Expected(c, id) {
      ED.ResponseJudged(c, id, verdict, made);
      ED.JudgedBuffer(c, id, verdict, made);
      JudgedOk(c, id, verdict, made);
      hide Response;
      if !verdict.WrongProtocol? {
        ReplayEarlyOk(ED.Judged(c, id, verdict, made).c, id);
      }
    } else {
      ResponseUnexpected(c, id, verdict, made);
    }
  }

  lemma ResponseUnexpected(c: Conn, id: StreamId, verdict: Verdict, made: SessionVal)
    requires !ED.Expected(c, id)
    ensures var d := Response(c, id, verdict, made).c;
            && d.sessions == c.sessions && d.requests == c.requests && d.request == c.request
            && d.phase == c.phase && d.isClient == c.isClient
  {
    if id in c.pending {
      assert Response(c, id, verdict, made).c == c.(pending := c.pending - {id});
    } else {
      assert Response(c, id, verdict, made).c == c;
    }
  }

  lemma RequestOk(c: Conn, id: StreamId, limit: nat, valid: bool, made: SessionVal)
    requires SessionsOk(c) && SV.Inv(made)
    requires ED.Admits(c, id, limit, valid) ==> EarlyAllowed(c, ED.Admitted(c, id, made), id)
    ensures SessionsOk(RequestArrived(c, id, limit, valid, made).c)
  {
    hide AllOk, SV.Inv, ReplayEarly, SV.AllowedRun, ED.AsEvents;
    if ED.Admits(c, id, limit, valid) {
      ED.RequestAdmitted(c, id, limit, valid, made);
      hide RequestArrived, ED.Admits;
      UpdateOk(c.sessions, id, made);
      ReplayEarlyOk(ED.Admitted(c, id, made), id);
    } else {
      assert RequestArrived(c, id, limit, valid, made).c == c;
    }
  }

  lemma BoundOk(c: Conn, id: StreamId, request: RequestId, made: SessionVal)
    requires SessionsOk(c) && SV.Inv(made)
    ensures SessionsOk(BindSession(c, id, request, made).c)
  {
    hide AllOk, SV.Inv;
    UpdateOk(c.sessions, id, made);
    if request in c.requests && c.requests[request] {
      assert BindSession(c, id, request, made).c.sessions == c.sessions[id := made];
    } else {
      assert BindSession(c, id, request, made).c.sessions == c.sessions;
    }
  }

  lemma PruneOk(c: Conn)
    requires SessionsOk(c)
    ensures SessionsOk(PruneSessions(c))
  {
    hide SV.Inv;
  }

  lemma StreamOk(c: Conn, session: SessionId, id: StreamId, now: EE.Time)
    requires SessionsOk(c) && (session in c.sessions ==> SV.Allowed(c.sessions[session], PeerOpened(id)))
    ensures SessionsOk(StreamArrived(c, session, id, now).c)
  {
    hide OpenAt, AllOk, SV.Allowed, EE.Store;
    if session in c.sessions {
      OpenAtOk(c, session, id, PeerOpened(id));
    }
  }

  lemma DatagramOk(c: Conn, session: SessionId, data: Bytes, now: EE.Time)
    requires SessionsOk(c)
    ensures SessionsOk(DatagramArrived(c, session, data, now).c)
  {
    hide At, AllOk, SV.Allowed, EE.Store;
    if session in c.sessions {
      HarmlessAllowed(c.sessions[session], PeerDatagram(data));
      AtOk(c, session, PeerDatagram(data));
    }
  }

  /** What the environment promises a connection: for each session it reaches, what it promises a session. */
  ghost predicate AllowedConn(c: Conn, e: ConnEvent) {
    match e
    case OnSession(session, event) => session in c.sessions ==> SV.Allowed(c.sessions[session], event)
    case OnOneStream(id, event) => id in c.index && c.index[id] in c.sessions ==> SV.Allowed(c.sessions[c.index[id]], event)
    case Bind(session, id, request, uni) =>
      session in c.sessions ==> SV.Allowed(c.sessions[session], TransportBind(id, request, uni))
    case Stream(session, id, _) => session in c.sessions ==> SV.Allowed(c.sessions[session], PeerOpened(id))
    case SessionBound(_, _, made) => SV.Inv(made)
    case ResponseSeen(id, verdict, made) =>
      SV.Inv(made) && (ED.Expected(c, id) ==> EarlyAllowed(c, ED.Judged(c, id, verdict, made).c, id))
    case RequestSeen(id, limit, valid, made) =>
      SV.Inv(made) && (ED.Admits(c, id, limit, valid) ==> EarlyAllowed(c, ED.Admitted(c, id, made), id))
    case _ => true
  }

  lemma ConnectionOk(c: Conn, e: ConnEvent)
    requires SessionsOk(c) && (AboutConnection(e) || e.PruneEarlyEvents?)
    ensures SessionsOk(HandleConn(c, e).c)
  {
    hide AllOk, ToSession, ByIndex, OpenAt, NoSession, StreamArrived, DatagramArrived, Response, RequestArrived;
    hide MaxStreams, Goaway;
    hide CloseGracefully, Terminate, BindSession, PruneSessions, EE.Prune, CreateSession, FailSession, CloseConnection;
    hide HandshakeDone;
    hide SettingsSeen, Wrap;
    if AboutConnection(e) {
      ConnectionSame(c, e);
    }
  }

  /** Every step of the connection keeps the invariant of every session. */
  lemma HandleConnOk(c: Conn, e: ConnEvent)
    requires SessionsOk(c) && AllowedConn(c, e)
    ensures SessionsOk(HandleConn(c, e).c)
  {
    hide SessionsOk, SV.Inv, SV.Allowed, EarlyAllowed, ED.Judged, ED.Admitted, ED.Expected, ED.Admits;
    hide At, OpenAt, ByIndex, StreamArrived, DatagramArrived, Response, RequestArrived, MaxStreams, Goaway;
    hide CloseGracefully, Terminate, BindSession, PruneSessions, EE.Prune, CreateSession, FailSession, CloseConnection;
    hide HandshakeDone;
    hide SettingsSeen, NoSession, Wrap;
    match e {
      case OnSession(session, event) =>
        if session in c.sessions {
          AtOk(c, session, event);
        }
      case OnOneStream(id, event) => ByIndexOk(c, id, event);
      case Bind(session, id, request, uni) =>
        if session in c.sessions {
          OpenAtOk(c, session, id, TransportBind(id, request, uni));
        }
      case Stream(session, id, now) => StreamOk(c, session, id, now);
      case Datagram(session, data, now) => DatagramOk(c, session, data, now);
      case ResponseSeen(id, verdict, made) => ResponseOk(c, id, verdict, made);
      case RequestSeen(id, limit, valid, made) => RequestOk(c, id, limit, valid, made);
      case StreamsAvailable(uni) => MaxStreamsOk(c, uni);
      case GoawaySeen => GoawayOk(c);
      case CloseNicely(request) => GracefulOk(c, request);
      case Terminated(code) => TerminateOk(c, code);
      case SessionBound(id, request, made) => BoundOk(c, id, request, made);
      case PruneClosed => PruneOk(c);
      case _ => ConnectionOk(c, e);
    }
  }

  ghost predicate AllowedConnRun(c: Conn, es: seq<ConnEvent>)
    decreases |es|
  {
    es != [] ==> AllowedConn(c, es[0]) && AllowedConnRun(HandleConn(c, es[0]).c, es[1..])
  }

  /** In every run of a connection every session keeps its invariant: no wakeup is lost in any of them, and the
      peer's streams stay within their bound. */
  lemma {:induction false} SessionsAlwaysOk(c: Conn, es: seq<ConnEvent>)
    requires SessionsOk(c) && AllowedConnRun(c, es)
    ensures SessionsOk(SI.AfterConn(c, es))
    decreases |es|
  {
    hide SessionsOk, HandleConn, AllowedConn;
    if es != [] {
      HandleConnOk(c, es[0]);
      SessionsAlwaysOk(HandleConn(c, es[0]).c, es[1..]);
    }
  }
}
