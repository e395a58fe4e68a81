/** Requests for sessions: a request that was taken up waits until one of five events settles it, and that event
    settles it once. The reset of its stream is none of them. */
module SessionRequests {
  import opened Types
  import opened Streams
  import opened Sessions
  import opened Traces
  import SV = SessionInvariant
  import opened Connections
  import EE = EarlyEvents
  import SI = StreamIndex
  import ED = EarlyDelivery
  import CI = ConnInvariant
  import TM = Termination
  import Ledger

  // ----- settling

  /** An answer to a request, or the session it asked for. */
  predicate IsSettlement(o: Output, r: RequestId) {
    (o.Fx? && TM.IsAnswer(o.effect, r)) || (o.SessionMade? && o.request == r)
  }

  function Settles(out: seq<Output>, r: RequestId): nat {
    if out == [] then 0 else (if IsSettlement(out[0], r) then 1 else 0) + Settles(out[1..], r)
  }

  lemma {:induction false} SettlesAppend(a: seq<Output>, b: seq<Output>, r: RequestId)
    ensures Settles(a + b, r) == Settles(a, r) + Settles(b, r)
  {
    hide IsSettlement;
    if a == [] {
      assert a + b == b;
    } else {
      assert (a + b)[1..] == a[1..] + b;
      SettlesAppend(a[1..], b, r);
    }
  }

  lemma {:induction false} SettlesWrap(fx: seq<Effect>, r: RequestId)
    ensures Settles(Wrap(fx), r) == Answers(fx, r)
  {
    if fx != [] {
      assert Wrap(fx)[1..] == Wrap(fx[1..]);
      SettlesWrap(fx[1..], r);
    }
  }

  lemma SettlesOne(o: Output, r: RequestId)
    ensures Settles([o], r) == if IsSettlement(o, r) then 1 else 0
  {
    assert [o][1..] == [];
  }

  ghost predicate NoneMade(out: seq<Output>) {
    forall i :: 0 <= i < |out| ==> !out[i].SessionMade?
  }

  lemma {:induction false} SettlesAnswers(out: seq<Output>, r: RequestId)
    requires NoneMade(out)
    ensures Settles(out, r) == TM.AnswersIn(out, r)
  {
    if out != [] {
      SettlesAnswers(out[1..], r);
    }
  }

  // ----- a request that waits

  /** No session holds the request. */
  ghost predicate Foreign(sessions: map<SessionId, SessionVal>, r: RequestId) {
    forall k :: k in sessions ==> SV.Held(sessions[k], r) == 0
  }

  /** The stream bound for the request is not a session yet. */
  ghost predicate Apart(c: Conn, r: RequestId) {
    forall id :: id in c.pending && c.pending[id] == r ==> id !in c.sessions
  }

  /** The request waits for a session, and the connection's books on it are in order. */
  ghost predicate Tracked(c: Conn, r: RequestId) {
    && r in c.requests && CI.SessionsOk(c) && Foreign(c.sessions, r) && Apart(c, r)
    && multiset(c.blocked)[r] <= 1
  }

  /** The request an event brings to a session, if it reaches one. */
  predicate Brings(e: ConnEvent, r: RequestId) {
    match e
    case OnSession(_, event) => Ledger.Given(event, r) > 0
    case OnOneStream(_, event) => Ledger.Given(event, r) > 0
    case Bind(_, _, request, _) => request == r
    case MakeSession(request, _, _, _) => request == r
    case CloseNicely(request) => request == r
    case CloseNow(asker) => asker == Some(r)
    case _ => false
  }

  /** What the environment promises about the request: its id is not used again, it is deferred at most once at a time,
      and bound to a new stream; a new session holds no request. */
  ghost predicate Orderly(c: Conn, e: ConnEvent, r: RequestId) {
    && !Brings(e, r)
    && match e
       case SessionDeferred(request) => request == r ==> r !in c.blocked
       case SessionBound(id, request, made) => SV.Held(made, r) == 0 && (request == r ==> id !in c.sessions)
       case ResponseSeen(_, _, made) => SV.Held(made, r) == 0
       case RequestSeen(id, _, _, made) => SV.Held(made, r) == 0 && id !in c.pending
       case _ => true
  }

  /** The events that settle a waiting request: it is bound and did not want to wait, its creation fails, the response
      comes, the peer goes away while it is blocked, or the connection ends. */
  predicate Ends(c: Conn, e: ConnEvent, r: RequestId)
    requires r in c.requests
  {
    match e
    case SessionBound(_, request, _) => request == r && c.requests[r]
    case SessionFailed(request, _) => request == r
    case ResponseSeen(id, _, _) => id in c.pending && c.pending[id] == r
    case GoawaySeen => r in c.blocked
    case Terminated(_) => c.phase != Ended
    case _ => false
  }

  /** The request goes on waiting, and nothing is said about it. */
  ghost predicate Passed(c: Conn, o: ConnStep, r: RequestId)
    requires r in c.requests
  {
    && r in o.c.requests && o.c.requests[r] == c.requests[r] && Foreign(o.c.sessions, r) && Apart(o.c, r)
    && multiset(o.c.blocked)[r] <= 1 && Settles(o.out, r) == 0
  }

  // ----- steps at sessions

  /** Only sessions, index and early events moved, and nothing is said about the request. */
  ghost predicate Aside(c: Conn, o: ConnStep, r: RequestId) {
    && o.c == c.(sessions := o.c.sessions, index := o.c.index, early := o.c.early)
    && o.c.sessions.Keys == c.sessions.Keys && Foreign(o.c.sessions, r) && Settles(o.out, r) == 0
  }

  lemma AsidePasses(c: Conn, o: ConnStep, r: RequestId)
    requires Tracked(c, r) && Aside(c, o, r)
    ensures Passed(c, o, r)
  {
    hide Foreign, CI.SessionsOk, Settles;
  }

  lemma StoreForeign(sessions: map<SessionId, SessionVal>, k: SessionId, s: SessionVal, r: RequestId)
    requires Foreign(sessions, r) && SV.Held(s, r) == 0
    ensures Foreign(sessions[k := s], r)
  {
    hide SV.Held;
  }

  lemma ForeignAt(sessions: map<SessionId, SessionVal>, k: SessionId, r: RequestId)
    requires Foreign(sessions, r) && k in sessions
    ensures SV.Held(sessions[k], r) == 0
  {
    hide SV.Held;
  }

  /** A session that neither holds the request nor is given it does not answer it. */
  lemma HandleQuiet(s: SessionVal, e: Event, r: RequestId)
    requires SV.Inv(s) && SV.Allowed(s, e) && SV.Held(s, r) == 0 && Ledger.Given(e, r) == 0
    ensures SV.Held(Handle(s, e).s, r) == 0 && Settles(Wrap(Handle(s, e).fx), r) == 0
  {
    Ledger.HandleBalance(s, e, r);
    SettlesWrap(Handle(s, e).fx, r);
    hide Handle, SV.Inv, SV.Held, SV.Allowed, Settles;
  }

  lemma AtAside(c: Conn, session: SessionId, e: Event, r: RequestId)
    requires session in c.sessions && CI.SessionsOk(c) && Foreign(c.sessions, r)
    requires SV.Allowed(c.sessions[session], e) && Ledger.Given(e, r) == 0
    ensures Aside(c, At(c, session, e), r)
  {
    hide Handle, Wrap, Foreign, CI.AllOk, Settles, SV.Held, SV.Inv, SV.Allowed, Ledger.Given;
    CI.AtInv(c.sessions, session);
    ForeignAt(c.sessions, session, r);
    HandleQuiet(c.sessions[session], e, r);
    StoreForeign(c.sessions, session, Handle(c.sessions[session], e).s, r);
  }

  lemma OpenAtAside(c: Conn, session: SessionId, id: StreamId, e: Event, r: RequestId)
    requires session in c.sessions && CI.SessionsOk(c) && Foreign(c.sessions, r)
    requires SV.Allowed(c.sessions[session], e) && Ledger.Given(e, r) == 0
    ensures Aside(c, OpenAt(c, session, id, e), r)
  {
    hide At, Foreign, CI.SessionsOk, Settles, SV.Allowed, HasStream;
    AtAside(c, session, e, r);
  }

  lemma Unreached(e: Event, r: RequestId)
    requires Ledger.Given(e, r) == 0
    ensures Settles(NoSession(e), r) == 0 && Settles(NoStream(e), r) == 0
  {
    if NoSession(e) != [] {
      SettlesOne(NoSession(e)[0], r);
      assert NoSession(e) == [NoSession(e)[0]];
    }
    if NoStream(e) != [] {
      SettlesOne(NoStream(e)[0], r);
      assert NoStream(e) == [NoStream(e)[0]];
    }
  }

  lemma Still(c: Conn, out: seq<Output>, r: RequestId)
    requires Foreign(c.sessions, r) && Settles(out, r) == 0
    ensures Aside(c, ConnStep(c, out), r)
  {
  }

  lemma ByIndexAside(c: Conn, id: StreamId, e: Event, r: RequestId)
    requires CI.SessionsOk(c) && Foreign(c.sessions, r) && Ledger.Given(e, r) == 0
    requires id in c.index && c.index[id] in c.sessions ==> SV.Allowed(c.sessions[c.index[id]], e)
    ensures Aside(c, ByIndex(c, id, e), r)
  {
    hide At, Foreign, CI.SessionsOk, Settles, SV.Allowed, HasStream, NoStream;
    if id in c.index && c.index[id] in c.sessions {
      var o := At(c, c.index[id], e);
      AtAside(c, c.index[id], e, r);
      if HasStream(o.c, c.index[id], id) {
        assert ByIndex(c, id, e) == o;
      } else {
        assert ByIndex(c, id, e) == ConnStep(o.c.(index := o.c.index - {id}), o.out);
      }
    } else if (e.PeerReset? || e.PeerStop?) && id in c.sessions {
      CI.HarmlessAllowed(c.sessions[id], AbortAll(e.code));
      AtAside(c, id, AbortAll(e.code), r);
    } else {
      Unreached(e, r);
      Still(c, NoStream(e), r);
    }
  }

  lemma AsideTwice(c: Conn, o: ConnStep, p: ConnStep, r: RequestId)
    requires Aside(c, o, r) && Aside(o.c, p, r)
    ensures Aside(c, ConnStep(p.c, o.out + p.out), r)
  {
    hide Foreign, Settles;
    SettlesAppend(o.out, p.out, r);
  }

  lemma {:induction false} ToEachAside(c: Conn, sessions: seq<SessionId>, e: Event, r: RequestId)
    requires CI.SessionsOk(c) && Foreign(c.sessions, r) && CI.Harmless(e)
    ensures Aside(c, ToEach(c, sessions, e), r)
    decreases |sessions|
  {
    hide At, Foreign, CI.SessionsOk, Settles, SV.Allowed, Aside;
    NoSettlement(r);
    if sessions == [] {
      Still(c, [], r);
    } else if sessions[0] in c.sessions {
      var o := At(c, sessions[0], e);
      CI.HarmlessAllowed(c.sessions[sessions[0]], e);
      AtAside(c, sessions[0], e, r);
      CI.AtOk(c, sessions[0], e);
      AsideForeign(c, o, r);
      ToEachAside(o.c, sessions[1..], e, r);
      AsideTwice(c, o, ToEach(o.c, sessions[1..], e), r);
    } else {
      ToEachAside(c, sessions[1..], e, r);
      assert [] + ToEach(c, sessions[1..], e).out == ToEach(c, sessions[1..], e).out;
    }
  }

  lemma NoSettlement(r: RequestId)
    ensures Settles([], r) == 0
  {
  }

  lemma AsideForeign(c: Conn, o: ConnStep, r: RequestId)
    requires Aside(c, o, r)
    ensures Foreign(o.c.sessions, r)
  {
  }

  lemma ToAllAside(c: Conn, e: Event, r: RequestId)
    requires CI.SessionsOk(c) && Foreign(c.sessions, r) && CI.Harmless(e)
    ensures Aside(c, ToAll(c, e), r)
  {
    hide ToEach, Sorted, Aside, CI.SessionsOk, Foreign;
    ToEachAside(c, Sorted(c.sessions.Keys), e, r);
  }

  // ----- early events

  lemma {:induction false} RefusalsQuiet(events: seq<EE.Stamped>, limits: EE.Limits, now: EE.Time)
    ensures Ledger.NoRequests(EE.RefuseAll(events)) && Ledger.NoRequests(EE.RefuseOld(events, limits, now))
  {
    hide EE.IsFresh;
    if events != [] {
      RefusalsQuiet(events[1..], limits, now);
    }
  }

  lemma {:induction false} PruneEachQuiet(b: EE.Buffer, limits: EE.Limits, sessions: seq<SessionId>, now: EE.Time)
    ensures Ledger.NoRequests(EE.PruneEach(b, limits, sessions, now).fx)
    decreases |sessions|
  {
    hide EE.RefuseOld, EE.Fresh;
    if sessions != [] {
      RefusalsQuiet(EE.EventsOf(b, sessions[0]), limits, now);
      PruneEachQuiet(EE.PruneOne(b, limits, sessions[0], now).buffer, limits, sessions[1..], now);
    }
  }

  lemma WrapQuiet(fx: seq<Effect>, r: RequestId)
    requires Ledger.NoRequests(fx)
    ensures Settles(Wrap(fx), r) == 0
  {
    Ledger.NoRequestsFacts(fx, r);
    SettlesWrap(fx, r);
  }

  lemma {:induction false} ReplayFrame(c: Conn, session: SessionId, events: seq<EE.Stamped>)
    ensures var d := ReplayEach(c, session, events).c;
            d == c.(sessions := d.sessions, index := d.index) && d.sessions.Keys == c.sessions.Keys
    decreases |events|
  {
    hide At, OpenAt, ReplayEach;
    if events == [] || session !in c.sessions {
      TM.ReplayNothing(c, session, events);
    } else {
      ED.ReplayStep(c, session, events);
      match events[0].event {
        case StreamIn(id) => OpenFrame(c, session, id, PeerOpened(id));
        case DatagramIn(data) => OpenFrame(c, session, 0, PeerDatagram(data));
      }
      ReplayFrame(ED.HandOver(c, session, events[0].event).c, session, events[1..]);
    }
  }

  lemma OpenFrame(c: Conn, session: SessionId, id: StreamId, e: Event)
    requires session in c.sessions
    ensures var d := At(c, session, e).c; d == c.(sessions := d.sessions) && d.sessions.Keys == c.sessions.Keys
    ensures var d := OpenAt(c, session, id, e).c;
            d == c.(sessions := d.sessions, index := d.index) && d.sessions.Keys == c.sessions.Keys
  {
    hide Handle, Wrap, HasStream;
  }

  lemma {:induction false} EarlyGivesNothing(events: seq<EE.Stamped>, r: RequestId)
    ensures Ledger.GivenBy(ED.AsEvents(events), r) == 0
  {
    if events != [] {
      EarlyGivesNothing(events[1..], r);
      assert ED.AsEvents(events)[1..] == ED.AsEvents(events[1..]);
    }
  }

  lemma ReplayQuiet(s: SessionVal, events: seq<EE.Stamped>, r: RequestId)
    requires SV.Inv(s) && SV.AllowedRun(s, ED.AsEvents(events)) && SV.Held(s, r) == 0
    ensures SV.Held(SV.After(s, ED.AsEvents(events)), r) == 0
    ensures Settles(Wrap(SV.Effects(s, ED.AsEvents(events))), r) == 0
  {
    hide SV.Inv, SV.AllowedRun, SV.Held, SV.After, SV.Effects, Settles, Wrap;
    Ledger.RunBalance(s, ED.AsEvents(events), r);
    EarlyGivesNothing(events, r);
    SettlesWrap(SV.Effects(s, ED.AsEvents(events)), r);
  }

  lemma ReplayAside(c: Conn, session: SessionId, r: RequestId)
    requires CI.SessionsOk(c) && Foreign(c.sessions, r)
    requires session in c.sessions ==> SV.AllowedRun(c.sessions[session], ED.AsEvents(EE.EventsOf(c.early, session)))
    ensures Aside(c, ReplayEarly(c, session), r)
  {
    hide ReplayEach, Foreign, CI.AllOk, Settles, SV.AllowedRun, SV.Held, SV.After, SV.Effects, Wrap, ED.AsEvents;
    hide EE.RefuseAll;
    hide SV.Inv;
    var t := EE.Take(c.early, session);
    var d := c.(early := t.buffer);
    if session in c.sessions {
      var s := c.sessions[session];
      CI.AtInv(c.sessions, session);
      ForeignAt(c.sessions, session, r);
      ReplayQuiet(s, t.events, r);
      ED.ReplayRuns(d, session, t.events);
      ReplayFrame(d, session, t.events);
      StoreForeign(c.sessions, session, SV.After(s, ED.AsEvents(t.events)), r);
    } else {
      RefusalsQuiet(t.events, c.limits, 0);
      WrapQuiet(EE.RefuseAll(t.events), r);
    }
  }

  lemma ArrivalsAside(c: Conn, session: SessionId, id: StreamId, data: Bytes, now: EE.Time, r: RequestId)
    requires CI.SessionsOk(c) && Foreign(c.sessions, r)
    ensures session in c.sessions ==> SV.Allowed(c.sessions[session], PeerOpened(id)) ==>
              Aside(c, StreamArrived(c, session, id, now), r)
    ensures session !in c.sessions ==> Aside(c, StreamArrived(c, session, id, now), r)
    ensures Aside(c, DatagramArrived(c, session, data, now), r)
  {
    hide At, OpenAt, Foreign, CI.SessionsOk, Settles, SV.Allowed, EE.Store, Wrap;
    NoSettlement(r);
    if session in c.sessions {
      if SV.Allowed(c.sessions[session], PeerOpened(id)) {
        OpenAtAside(c, session, id, PeerOpened(id), r);
      }
      CI.HarmlessAllowed(c.sessions[session], PeerDatagram(data));
      AtAside(c, session, PeerDatagram(data), r);
    } else {
      WrapQuiet(EE.Refuse(id), r);
    }
  }

  // ----- steps of the connection

  lemma CreatePasses(c: Conn, request: RequestId, optimistic: bool, limit: nat, valid: bool, r: RequestId)
    requires Tracked(c, r) && request != r
    ensures Passed(c, CreateSession(c, request, optimistic, limit, valid), r)
  {
    hide Foreign, CI.SessionsOk, Settles;
    var o := CreateSession(c, request, optimistic, limit, valid);
    assert o.out == [o.out[0]];
    SettlesOne(o.out[0], r);
  }

  lemma TwoSettle(a: Output, b: Output, r: RequestId)
    ensures Settles([a, b], r) == Settles([a], r) + Settles([b], r)
  {
    SettlesAppend([a], [b], r);
    assert [a] + [b] == [a, b];
  }

  lemma BoundPasses(c: Conn, id: StreamId, request: RequestId, made: SessionVal, r: RequestId)
    requires Tracked(c, r) && SV.Held(made, r) == 0 && (request == r ==> id !in c.sessions && !c.requests[r])
    ensures Passed(c, BindSession(c, id, request, made), r)
  {
    hide Foreign, CI.SessionsOk, Settles, SV.Held;
    NoSettlement(r);
    if request in c.requests && c.requests[request] {
      StoreForeign(c.sessions, id, made, r);
      TwoSettle(SessionPending(id), SessionMade(request, id), r);
      SettlesOne(SessionPending(id), r);
      SettlesOne(SessionMade(request, id), r);
    }
  }

  lemma DeferredPasses(c: Conn, request: RequestId, r: RequestId)
    requires Tracked(c, r) && (request == r ==> r !in c.blocked)
    ensures Passed(c, ConnStep(c.(blocked := c.blocked + [request]), []), r)
  {
    hide Foreign, CI.SessionsOk;
    assert multiset(c.blocked + [request]) == multiset(c.blocked) + multiset{request};
  }

  lemma FailedPasses(c: Conn, request: RequestId, error: Option<ErrorCode>, r: RequestId)
    requires Tracked(c, r) && request != r
    ensures Passed(c, FailSession(c, request, error), r)
  {
    hide Foreign, CI.SessionsOk, Settles;
    SettlesOne(Fail(request, error), r);
  }

  /** A step that may add one session, of a stream that is bound to no waiting request. */
  ghost predicate Gains(c: Conn, o: ConnStep, id: StreamId, r: RequestId)
    requires r in c.requests
  {
    && r in o.c.requests && o.c.requests[r] == c.requests[r] && o.c.blocked == c.blocked && o.c.pending == c.pending - {id}
    && o.c.sessions.Keys <= c.sessions.Keys + {id} && Foreign(o.c.sessions, r) && Settles(o.out, r) == 0
  }

  lemma TurnedGains(c: Conn, d: Conn, id: StreamId, request: RequestId, code: ErrorCode, r: RequestId)
    requires Tracked(c, r) && request != r && CI.SessionsOk(d)
    requires d == c.(pending := c.pending - {id}, requests := d.requests) && r in d.requests && d.requests[r] == c.requests[r]
    ensures Gains(c, Turned(d, id, request, code), id, r)
  {
    hide At, Foreign, CI.SessionsOk, Settles;
    if id in d.sessions {
      CI.HarmlessAllowed(d.sessions[id], AbortAll(code));
      AtAside(d, id, AbortAll(code), r);
    } else {
      ThreeSettle(Fail(request, Some(code)), Fx(StopQuicStream(id, code)), Fx(ResetQuicStream(id, code)), r);
    }
  }

  lemma ThreeSettle(a: Output, b: Output, e: Output, r: RequestId)
    requires !IsSettlement(b, r) && !IsSettlement(e, r)
    ensures Settles([a, b, e], r) == if IsSettlement(a, r) then 1 else 0
  {
    hide IsSettlement;
    SettlesAppend([a], [b, e], r);
    assert [a] + [b, e] == [a, b, e];
    TwoSettle(b, e, r);
    SettlesOne(a, r);
    SettlesOne(b, r);
    SettlesOne(e, r);
  }

  lemma ConfirmedGains(c: Conn, d: Conn, id: StreamId, request: RequestId, made: SessionVal, r: RequestId)
    requires Tracked(c, r) && request != r && SV.Inv(made) && SV.Held(made, r) == 0
    requires d == c.(pending := c.pending - {id})
    ensures Gains(c, Confirmed(d, id, request, made), id, r)
  {
    hide At, Foreign, Settles, SV.Inv, SV.Held, CI.AllOk;
    NoSettlement(r);
    if id in d.sessions {
      CI.HarmlessAllowed(d.sessions[id], PeerConfirmed);
      AtAside(d, id, PeerConfirmed, r);
    } else if request in d.requests {
      var b := d.(requests := d.requests - {request}, sessions := d.sessions[id := made]);
      StoreForeign(d.sessions, id, made, r);
      CI.UpdateOk(d.sessions, id, made);
      CI.HarmlessAllowed(b.sessions[id], PeerConfirmed);
      AtAside(b, id, PeerConfirmed, r);
      SettlesAppend(At(b, id, PeerConfirmed).out, [SessionMade(request, id)], r);
      SettlesOne(SessionMade(request, id), r);
    }
  }

  lemma JudgedGains(c: Conn, id: StreamId, verdict: Verdict, made: SessionVal, r: RequestId)
    requires Tracked(c, r) && ED.Expected(c, id) && c.pending[id] != r && SV.Inv(made) && SV.Held(made, r) == 0
    ensures Gains(c, ED.Judged(c, id, verdict, made), id, r)
  {
    hide Turned, Confirmed, Foreign, SV.Inv, SV.Held, CI.AllOk, Gains;
    var request := c.pending[id];
    var d := c.(pending := c.pending - {id});
    match verdict {
      case WrongProtocol => TurnedGains(c, d, id, request, ERR_WT_ALPN_ERROR, r);
      case Granted => ConfirmedGains(c, d, id, request, made, r);
      case Rejected =>
        TurnedGains(c, d.(requests := d.requests - {request}), id, request, ERR_H3_REQUEST_REJECTED, r);
    }
  }

  lemma GainsPass(c: Conn, o: ConnStep, id: StreamId, r: RequestId)
    requires Tracked(c, r) && Gains(c, o, id, r)
    ensures Passed(c, o, r)
  {
    hide Foreign, CI.SessionsOk, Settles;
  }

  lemma PassedOn(c: Conn, o: ConnStep, p: ConnStep, r: RequestId)
    requires r in c.requests && Passed(c, o, r) && Aside(o.c, p, r)
    ensures Passed(c, ConnStep(p.c, o.out + p.out), r)
  {
    hide Foreign, Settles;
    SettlesAppend(o.out, p.out, r);
  }

  lemma ResponsePasses(c: Conn, id: StreamId, verdict: Verdict, made: SessionVal, r: RequestId)
    requires Tracked(c, r) && CI.AllowedConn(c, ResponseSeen(id, verdict, made)) && SV.Held(made, r) == 0
    requires !(id in c.pending && c.pending[id] == r)
    ensures Passed(c, Response(c, id, verdict, made), r)
  {
    hide CI.AllOk, Foreign, ED.Judged, ReplayEarly, SV.AllowedRun, ED.AsEvents, SV.Inv, SV.Held, Gains, Settles;
    if ED.Expected(c, id) {
      var o := ED.Judged(c, id, verdict, made);
      ED.ResponseJudged(c, id, verdict, made);
      ED.JudgedBuffer(c, id, verdict, made);
      CI.JudgedOk(c, id, verdict, made);
      JudgedGains(c, id, verdict, made, r);
      GainsPass(c, o, id, r);
      hide Response;
      if !verdict.WrongProtocol? {
        ReplayAside(o.c, id, r);
        PassedOn(c, o, ReplayEarly(o.c, id), r);
      }
    } else {
      NoSettlement(r);
      if id in c.pending {
        SettlesOne(Fail(c.pending[id], Some(ERR_LIB_INTERNAL_ERROR)), r);
      }
    }
  }

  lemma RequestPasses(c: Conn, id: StreamId, limit: nat, valid: bool, made: SessionVal, r: RequestId)
    requires Tracked(c, r) && CI.AllowedConn(c, RequestSeen(id, limit, valid, made))
    requires SV.Held(made, r) == 0 && id !in c.pending
    ensures Passed(c, RequestArrived(c, id, limit, valid, made), r)
  {
    hide CI.AllOk, Foreign, ReplayEarly, SV.AllowedRun, ED.AsEvents, SV.Inv, SV.Held, Settles;
    NoSettlement(r);
    if ED.Admits(c, id, limit, valid) {
      var d := ED.Admitted(c, id, made);
      ED.RequestAdmitted(c, id, limit, valid, made);
      hide RequestArrived, ED.Admits;
      CI.UpdateOk(c.sessions, id, made);
      StoreForeign(c.sessions, id, made, r);
      SettlesOne(SessionRequested(id), r);
      ReplayAside(d, id, r);
      PassedOn(c, ConnStep(d, [SessionRequested(id)]), ReplayEarly(d, id), r);
    } else {
      TwoSettle(Fx(SendHeaders(true)), Fx(StopQuicStream(id, ERR_H3_REQUEST_REJECTED)), r);
      SettlesOne(Fx(SendHeaders(true)), r);
      SettlesOne(Fx(StopQuicStream(id, ERR_H3_REQUEST_REJECTED)), r);
    }
  }

  lemma {:induction false} AgainQuiet(requests: seq<RequestId>, known: map<RequestId, bool>, r: RequestId)
    ensures Settles(WrapRequests(requests, known), r) == 0
  {
    if requests != [] {
      AgainQuiet(requests[1..], known, r);
      SettlesAppend(if requests[0] in known then [OpenConnectStream(requests[0])] else [], WrapRequests(requests[1..], known), r);
    }
  }

  lemma AvailablePasses(c: Conn, uni: bool, r: RequestId)
    requires Tracked(c, r)
    ensures Passed(c, MaxStreams(c, uni), r)
  {
    hide CI.AllOk, Foreign, Settles, ToAll, WrapRequests;
    var d := if uni then c else c.(blocked := []);
    NoSettlement(r);
    AgainQuiet(c.blocked, c.requests, r);
    ToAllAside(d, TransportMaxStreams(uni), r);
    PassedOn(c, ConnStep(d, if uni then [] else WrapRequests(c.blocked, c.requests)), ToAll(d, TransportMaxStreams(uni)), r);
  }

  lemma {:induction false} FailEachSettles(requests: seq<RequestId>, r: RequestId)
    ensures Settles(FailEach(requests), r) == multiset(requests)[r]
  {
    if requests != [] {
      FailEachSettles(requests[1..], r);
      assert FailEach(requests)[1..] == FailEach(requests[1..]);
      assert requests == [requests[0]] + requests[1..];
    }
  }

  function Left(c: Conn): Conn {
    c.(goawayReceived := true, blocked := [], requests := c.requests - (set q | q in c.blocked))
  }

  lemma GoawayParts(c: Conn, r: RequestId)
    requires CI.SessionsOk(c) && Foreign(c.sessions, r)
    ensures Aside(Left(c), ToAll(Left(c), DrainAll), r)
    ensures Goaway(c) == ConnStep(ToAll(Left(c), DrainAll).c, FailEach(c.blocked) + ToAll(Left(c), DrainAll).out)
  {
    hide CI.AllOk, Foreign, Settles, ToAll, FailEach, Aside;
    ToAllAside(Left(c), DrainAll, r);
  }

  lemma GoawayPasses(c: Conn, r: RequestId)
    requires Tracked(c, r) && r !in c.blocked
    ensures Passed(c, Goaway(c), r)
  {
    hide CI.AllOk, Foreign, Settles, ToAll, FailEach, Aside, Goaway;
    GoawayParts(c, r);
    FailEachSettles(c.blocked, r);
    PassedOn(c, ConnStep(Left(c), FailEach(c.blocked)), ToAll(Left(c), DrainAll), r);
  }

  lemma GracefulPasses(c: Conn, request: RequestId, r: RequestId)
    requires Tracked(c, r) && request != r
    ensures Passed(c, CloseGracefully(c, request), r)
  {
    hide CI.AllOk, Foreign, Settles, ToAll, Aside;
    var last := Fx(Done(request, Nothing));
    SettlesOne(last, r);
    if c.phase == Established {
      var d := c.(goawaySent := true);
      var first := if c.goawaySent then [] else [SendGoaway];
      NoSettlement(r);
      SettlesOne(SendGoaway, r);
      ToAllAside(d, DrainAll, r);
      var o := ToAll(d, DrainAll);
      PassedOn(c, ConnStep(d, first), o, r);
      SettlesAppend(first + o.out, [last], r);
    }
  }

  lemma PrunePasses(c: Conn, now: EE.Time, r: RequestId)
    requires Tracked(c, r)
    ensures var p := EE.Prune(c.early, c.limits, now);
            Passed(c, ConnStep(c.(early := p.buffer), Wrap(p.fx)), r)
  {
    hide CI.AllOk, Foreign, Settles, EE.PruneEach, Wrap, Sorted;
    PruneEachQuiet(c.early, c.limits, Sorted(c.early.events.Keys), now);
    WrapQuiet(EE.Prune(c.early, c.limits, now).fx, r);
  }

  lemma ForgetPasses(c: Conn, r: RequestId)
    requires Tracked(c, r)
    ensures Passed(c, ConnStep(PruneSessions(c), []), r)
  {
    hide SV.Held, CI.SessionsOk;
  }

  lemma CloseNowPasses(c: Conn, asker: Option<RequestId>, r: RequestId)
    requires Tracked(c, r) && asker != Some(r)
    ensures Passed(c, CloseConnection(c, asker), r)
  {
    hide CI.SessionsOk, Foreign, Settles;
    NoSettlement(r);
    SettlesOne(CloseQuic, r);
    if asker.Some? {
      SettlesOne(Fx(Done(asker.value, Nothing)), r);
    }
    SettlesAppend([CloseQuic], Answer(asker), r);
    if c.phase == Ended || c.phase == Ending {
      assert CloseConnection(c, asker) == ConnStep(c, Answer(asker));
    } else {
      assert CloseConnection(c, asker) == ConnStep(c.(phase := Ending), [CloseQuic] + Answer(asker));
    }
  }

  lemma HandshakePasses(c: Conn, r: RequestId)
    requires Tracked(c, r)
    ensures Passed(c, HandshakeDone(c), r)
  {
    hide CI.SessionsOk, Foreign, Settles;
    NoSettlement(r);
    SettlesOne(OpenLocalStreams, r);
    SettlesOne(ConnectionUp(c.request), r);
    SettlesAppend([OpenLocalStreams], [ConnectionUp(c.request)], r);
    if c.phase != Idle && c.phase != Handshaking {
      assert HandshakeDone(c) == ConnStep(c, []);
    } else if !c.isClient || c.settingsSeen {
      assert HandshakeDone(c) == ConnStep(c.(phase := Established, handshakeDone := true, request := None),
                                          [OpenLocalStreams] + [ConnectionUp(c.request)]);
    } else {
      assert HandshakeDone(c) == ConnStep(c.(phase := Handshaking, handshakeDone := true), [OpenLocalStreams]);
    }
  }

  lemma SettingsPass(c: Conn, r: RequestId)
    requires Tracked(c, r)
    ensures Passed(c, SettingsSeen(c), r)
  {
    hide CI.SessionsOk, Foreign, Settles;
    NoSettlement(r);
    SettlesOne(ConnectionUp(c.request), r);
    if c.phase == Handshaking && c.handshakeDone {
      assert SettingsSeen(c) == ConnStep(c.(phase := Established, settingsSeen := true, request := None), [ConnectionUp(c.request)]);
    } else {
      assert SettingsSeen(c) == ConnStep(c.(settingsSeen := true), []);
    }
  }

  lemma NothingPasses(c: Conn, r: RequestId)
    requires Tracked(c, r)
    ensures Passed(c, ConnStep(c, []), r)
  {
    hide CI.SessionsOk, Foreign;
  }

  /** Steps that reach one session, or none. */
  lemma ReachPasses(c: Conn, e: ConnEvent, r: RequestId)
    requires Tracked(c, r) && CI.AllowedConn(c, e) && !Brings(e, r)
    requires e.OnSession? || e.OnOneStream? || e.Bind? || e.Stream? || e.Datagram?
    ensures Passed(c, HandleConn(c, e), r)
  {
    hide CI.AllOk, Foreign, Apart, Settles, Aside, Passed, At, OpenAt, ByIndex, StreamArrived, DatagramArrived;
    hide NoSession, Ledger.Given;
    hide SV.Allowed;
    match e {
      case OnSession(session, event) =>
        if session in c.sessions {
          AtAside(c, session, event, r);
        } else {
          Unreached(event, r);
          Still(c, NoSession(event), r);
        }
      case OnOneStream(id, event) => ByIndexAside(c, id, event, r);
      case Bind(session, id, request, uni) =>
        BindGives(id, request, uni, r);
        if session in c.sessions {
          OpenAtAside(c, session, id, TransportBind(id, request, uni), r);
        } else {
          Unreached(TransportBind(id, request, uni), r);
          Still(c, NoSession(TransportBind(id, request, uni)), r);
        }
      case Stream(session, id, now) => ArrivalsAside(c, session, id, [], now, r);
      case Datagram(session, data, now) => ArrivalsAside(c, session, 0, data, now, r);
    }
    AsidePasses(c, HandleConn(c, e), r);
  }

  lemma BindGives(id: StreamId, request: RequestId, uni: bool, r: RequestId)
    ensures Ledger.Given(TransportBind(id, request, uni), r) == if request == r then 1 else 0
  {
  }

  /** Any event but the five: the request goes on waiting, unanswered. */
  lemma StepWaits(c: Conn, e: ConnEvent, r: RequestId)
    requires Tracked(c, r) && CI.AllowedConn(c, e) && Orderly(c, e, r) && !Ends(c, e, r)
    ensures Tracked(HandleConn(c, e).c, r) && HandleConn(c, e).c.requests[r] == c.requests[r]
    ensures Settles(HandleConn(c, e).out, r) == 0
  {
    CI.HandleConnOk(c, e);
    StepPasses(c, e, r);
    hide HandleConn, CI.SessionsOk, CI.AllowedConn, Orderly, Foreign, Apart, Settles, Ends;
  }

  lemma StepPasses(c: Conn, e: ConnEvent, r: RequestId)
    requires Tracked(c, r) && CI.AllowedConn(c, e) && Orderly(c, e, r) && !Ends(c, e, r)
    ensures Passed(c, HandleConn(c, e), r)
  {
    if e.OnSession? || e.OnOneStream? || e.Bind? || e.Stream? || e.Datagram? {
      ReachPasses(c, e, r);
    } else {
      OtherPasses(c, e, r);
    }
    hide HandleConn, Tracked, CI.AllowedConn, Orderly, Passed, Ends;
  }

  lemma OtherPasses(c: Conn, e: ConnEvent, r: RequestId)
    requires Tracked(c, r) && CI.AllowedConn(c, e) && Orderly(c, e, r) && !Ends(c, e, r)
    requires !(e.OnSession? || e.OnOneStream? || e.Bind? || e.Stream? || e.Datagram?)
    ensures Passed(c, HandleConn(c, e), r)
  {
    hide CI.AllOk, Foreign, Apart, Settles, Passed, SV.Inv, SV.Held, CI.EarlyAllowed, ED.Judged, ED.Expected, ED.Admits;
    hide ToSession, OpenAt, ByIndex, StreamArrived, DatagramArrived, NoSession, Response, RequestArrived, MaxStreams;
    hide Goaway;
    hide CloseGracefully, Terminate, BindSession, PruneSessions, EE.Prune, CreateSession, FailSession, CloseConnection;
    hide HandshakeDone, SettingsSeen, Wrap;
    match e {
      case MakeSession(request, optimistic, limit, valid) => CreatePasses(c, request, optimistic, limit, valid, r);
      case SessionBound(id, request, made) => BoundPasses(c, id, request, made, r);
      case SessionDeferred(request) => DeferredPasses(c, request, r);
      case SessionFailed(request, error) => FailedPasses(c, request, error, r);
      case ResponseSeen(id, verdict, made) => ResponsePasses(c, id, verdict, made, r);
      case RequestSeen(id, limit, valid, made) => RequestPasses(c, id, limit, valid, made, r);
      case StreamsAvailable(uni) => AvailablePasses(c, uni, r);
      case GoawaySeen => GoawayPasses(c, r);
      case CloseNicely(request) => GracefulPasses(c, request, r);
      case PruneEarlyEvents(now) => PrunePasses(c, now, r);
      case PruneClosed => ForgetPasses(c, r);
      case CloseNow(asker) => CloseNowPasses(c, asker, r);
      case Terminated(code) =>
        EndedAlready(c, code);
        NothingPasses(c, r);
      case Handshake => HandshakePasses(c, r);
      case SettingsArrived => SettingsPass(c, r);
    }
  }

  lemma EndedAlready(c: Conn, code: ErrorCode)
    requires c.phase == Ended
    ensures Terminate(c, code) == ConnStep(c, [])
  {
    hide ToAll, Sorted, FailEach;
  }

  // ----- the events that settle it

  lemma {:induction false} HeldByNone(sessions: map<SessionId, SessionVal>, ids: seq<SessionId>, r: RequestId)
    requires Foreign(sessions, r)
    ensures TM.HeldBy(sessions, ids, r) == 0
  {
    hide SV.Held;
    if ids != [] {
      HeldByNone(sessions, ids[1..], r);
    }
  }

  lemma {:induction false} WrapMakesNone(fx: seq<Effect>)
    ensures NoneMade(Wrap(fx))
  {
    if fx != [] {
      WrapMakesNone(fx[1..]);
    }
  }

  lemma {:induction false} ToEachMakesNone(c: Conn, sessions: seq<SessionId>, e: Event)
    ensures NoneMade(ToEach(c, sessions, e).out)
    decreases |sessions|
  {
    hide Handle, Wrap;
    if sessions != [] {
      if sessions[0] in c.sessions {
        WrapMakesNone(Handle(c.sessions[sessions[0]], e).fx);
        ToEachMakesNone(At(c, sessions[0], e).c, sessions[1..], e);
      } else {
        ToEachMakesNone(c, sessions[1..], e);
      }
    }
  }

  lemma {:induction false} FailingMakesNone(requests: seq<RequestId>)
    ensures NoneMade(FailEach(requests))
  {
    if requests != [] {
      FailingMakesNone(requests[1..]);
    }
  }

  lemma TerminateMakesNone(c: Conn, code: ErrorCode)
    ensures NoneMade(Terminate(c, code).out)
  {
    hide ToEach, FailEach, Sorted;
    var b := c.(phase := Ended, requests := map[], request := None, blocked := [], pending := map[]);
    ToEachMakesNone(b, Sorted(b.sessions.Keys), PeerClosed(code));
    FailingMakesNone(Sorted(c.requests.Keys + if c.request.Some? then {c.request.value} else {}));
  }

  lemma TerminateEnds(c: Conn, code: ErrorCode, r: RequestId)
    requires Tracked(c, r) && c.phase != Ended
    ensures r !in Terminate(c, code).c.requests && Settles(Terminate(c, code).out, r) == 1
  {
    hide Terminate, CI.AllOk, Foreign, Settles, Sorted, TM.HeldBy, TM.AnswersIn;
    TM.TerminateKills(c, code);
    TM.TerminateSettles(c, code, r);
    HeldByNone(c.sessions, Sorted(c.sessions.Keys), r);
    TerminateMakesNone(c, code);
    SettlesAnswers(Terminate(c, code).out, r);
    assert Terminate(c, code).c.requests == map[] by {
      hide TM.AllInert;
    }
  }

  lemma GoawayEnds(c: Conn, r: RequestId)
    requires Tracked(c, r) && r in c.blocked
    ensures r !in Goaway(c).c.requests && Settles(Goaway(c).out, r) == 1
  {
    hide CI.AllOk, Foreign, Settles, ToAll, FailEach, Goaway;
    GoawayParts(c, r);
    FailEachSettles(c.blocked, r);
    assert r in multiset(c.blocked);
    SettlesAppend(FailEach(c.blocked), ToAll(Left(c), DrainAll).out, r);
  }

  lemma BoundEnds(c: Conn, id: StreamId, made: SessionVal, r: RequestId)
    requires r in c.requests && c.requests[r]
    ensures var o := BindSession(c, id, r, made); r !in o.c.requests && Settles(o.out, r) == 1
  {
    TwoSettle(SessionPending(id), SessionMade(r, id), r);
    SettlesOne(SessionPending(id), r);
    SettlesOne(SessionMade(r, id), r);
    hide Settles;
  }

  lemma FailedEnds(c: Conn, error: Option<ErrorCode>, r: RequestId)
    ensures var o := FailSession(c, r, error); r !in o.c.requests && Settles(o.out, r) == 1
  {
    SettlesOne(Fail(r, error), r);
    hide Settles;
  }

  lemma JudgedEnds(c: Conn, id: StreamId, verdict: Verdict, made: SessionVal, r: RequestId)
    requires Tracked(c, r) && id in c.pending && c.pending[id] == r && SV.Inv(made) && SV.Held(made, r) == 0
    ensures ED.Expected(c, id)
    ensures var o := ED.Judged(c, id, verdict, made);
            r !in o.c.requests && Settles(o.out, r) == 1 && Foreign(o.c.sessions, r)
  {
    hide At, Foreign, Settles, SV.Inv, SV.Held, CI.AllOk;
    var d := c.(pending := c.pending - {id});
    assert id !in c.sessions;
    if verdict.Granted? {
      var b := d.(requests := d.requests - {r}, sessions := d.sessions[id := made]);
      StoreForeign(d.sessions, id, made, r);
      CI.UpdateOk(d.sessions, id, made);
      CI.HarmlessAllowed(b.sessions[id], PeerConfirmed);
      AtAside(b, id, PeerConfirmed, r);
      SettlesAppend(At(b, id, PeerConfirmed).out, [SessionMade(r, id)], r);
      SettlesOne(SessionMade(r, id), r);
    } else {
      var code := if verdict.WrongProtocol? then ERR_WT_ALPN_ERROR else ERR_H3_REQUEST_REJECTED;
      ThreeSettle(Fail(r, Some(code)), Fx(StopQuicStream(id, code)), Fx(ResetQuicStream(id, code)), r);
    }
  }

  lemma ResponseEnds(c: Conn, id: StreamId, verdict: Verdict, made: SessionVal, r: RequestId)
    requires Tracked(c, r) && id in c.pending && c.pending[id] == r && SV.Held(made, r) == 0
    requires CI.AllowedConn(c, ResponseSeen(id, verdict, made))
    ensures var o := Response(c, id, verdict, made); r !in o.c.requests && Settles(o.out, r) == 1
  {
    hide CI.AllOk, Foreign, ED.Judged, ReplayEarly, SV.AllowedRun, ED.AsEvents, SV.Inv, SV.Held, Settles, ED.Expected;
    hide Apart;
    JudgedEnds(c, id, verdict, made, r);
    var o := ED.Judged(c, id, verdict, made);
    ED.ResponseJudged(c, id, verdict, made);
    ED.JudgedBuffer(c, id, verdict, made);
    CI.JudgedOk(c, id, verdict, made);
    hide Response;
    if !verdict.WrongProtocol? {
      ReplayAside(o.c, id, r);
      SettlesAppend(o.out, ReplayEarly(o.c, id).out, r);
    }
  }

  /** Each of the five settles the request, once. */
  lemma StepEnds(c: Conn, e: ConnEvent, r: RequestId)
    requires Tracked(c, r) && CI.AllowedConn(c, e) && Orderly(c, e, r) && Ends(c, e, r)
    ensures r !in HandleConn(c, e).c.requests && Settles(HandleConn(c, e).out, r) == 1
  {
    hide CI.AllOk, Foreign, Apart, Settles, SV.Inv, SV.Held, CI.EarlyAllowed, ED.Judged, ED.Expected, ED.Admits;
    hide ToSession, OpenAt, ByIndex, StreamArrived, DatagramArrived, NoSession, Response, RequestArrived, MaxStreams;
    hide Goaway;
    hide CloseGracefully, Terminate, BindSession, PruneSessions, EE.Prune, CreateSession, FailSession, CloseConnection;
    hide HandshakeDone, SettingsSeen, Wrap;
    match e {
      case SessionBound(id, _, made) => BoundEnds(c, id, made, r);
      case SessionFailed(_, error) => FailedEnds(c, error, r);
      case ResponseSeen(id, verdict, made) => ResponseEnds(c, id, verdict, made, r);
      case GoawaySeen => GoawayEnds(c, r);
      case Terminated(code) => TerminateEnds(c, code, r);
    }
  }

  /** The call that brings the request takes it up, or answers it at once. */
  lemma TakesUp(c: Conn, optimistic: bool, limit: nat, valid: bool, r: RequestId)
    requires CI.SessionsOk(c) && Foreign(c.sessions, r) && r !in c.requests && r !in c.blocked
    requires forall k :: k in c.pending ==> c.pending[k] != r
    ensures var o := HandleConn(c, MakeSession(r, optimistic, limit, valid));
            (Tracked(o.c, r) && o.out == [OpenConnectStream(r)]) || (o.c == c && TM.OneAnswer(o.out, r))
  {
    hide Foreign, CI.AllOk, ToSession, ByIndex, OpenAt, NoSession, StreamArrived, DatagramArrived, Response;
    hide RequestArrived;
    hide MaxStreams, Goaway, CloseGracefully, Terminate, BindSession, PruneSessions, EE.Prune, FailSession;
    hide CloseConnection;
    hide HandshakeDone, SettingsSeen, Wrap;
    assert r !in multiset(c.blocked);
  }

  // ----- runs

  /** The environment keeps its promises as long as the request waits. */
  ghost predicate OrderlyRun(c: Conn, es: seq<ConnEvent>, r: RequestId)
    decreases |es|
  {
    es != [] && r in c.requests ==>
      CI.AllowedConn(c, es[0]) && Orderly(c, es[0], r) && OrderlyRun(HandleConn(c, es[0]).c, es[1..], r)
  }

  /** One of the five events comes while the request waits. */
  predicate EndsIn(c: Conn, es: seq<ConnEvent>, r: RequestId)
    decreases |es|
  {
    es != [] && r in c.requests && (Ends(c, es[0], r) || EndsIn(HandleConn(c, es[0]).c, es[1..], r))
  }

  function SettledIn(c: Conn, es: seq<ConnEvent>, r: RequestId): nat
    decreases |es|
  {
    if es == [] then 0
    else
      var o := HandleConn(c, es[0]);
      Settles(o.out, r) + SettledIn(o.c, es[1..], r)
  }

  /** In every run a waiting request is settled if and only if one of the five events comes while it waits; until then
      it goes on waiting. */
  lemma {:induction false} SettledOnlyBy(c: Conn, es: seq<ConnEvent>, r: RequestId)
    requires Tracked(c, r) && OrderlyRun(c, es, r)
    ensures SettledIn(c, es, r) == 0 <==> !EndsIn(c, es, r)
    ensures !EndsIn(c, es, r) ==> Tracked(SI.AfterConn(c, es), r)
    decreases |es|
  {
    hide Tracked, HandleConn, Ends, Orderly, CI.AllowedConn, Settles;
    if es != [] {
      TrackedWaits(c, r);
      if Ends(c, es[0], r) {
        StepEnds(c, es[0], r);
      } else {
        StepWaits(c, es[0], r);
        SettledOnlyBy(HandleConn(c, es[0]).c, es[1..], r);
      }
    }
  }

  lemma TrackedWaits(c: Conn, r: RequestId)
    requires Tracked(c, r)
    ensures r in c.requests
  {
  }

  // ----- a stream that is reset before the response

  /** A client that may open a session, and a request and a stream that are new to it. */
  ghost predicate Ready(c: Conn, r: RequestId, id: StreamId) {
    && c.isClient && c.phase == Established && !c.goawayReceived && CI.SessionsOk(c) && Foreign(c.sessions, r)
    && r !in c.requests && r !in c.blocked && (forall k :: k in c.pending ==> c.pending[k] != r)
    && id !in c.sessions && id !in c.index
  }

  function Bound(c: Conn, r: RequestId, id: StreamId): Conn {
    c.(requests := c.requests[r := false], pending := c.pending[id := r])
  }

  function ResetEarly(r: RequestId, id: StreamId, made: SessionVal, code: ErrorCode): seq<ConnEvent> {
    [MakeSession(r, false, 0, true), SessionBound(id, r, made), OnOneStream(id, PeerReset(id, code))]
  }

  lemma ResetSteps(c: Conn, r: RequestId, id: StreamId, made: SessionVal, code: ErrorCode)
    requires Ready(c, r, id)
    ensures var d := c.(requests := c.requests[r := false]);
            && HandleConn(c, MakeSession(r, false, 0, true)) == ConnStep(d, [OpenConnectStream(r)])
            && HandleConn(d, SessionBound(id, r, made)) == ConnStep(Bound(c, r, id), [])
            && HandleConn(Bound(c, r, id), OnOneStream(id, PeerReset(id, code))) == ConnStep(Bound(c, r, id), [])
  {
    hide At, HasStream, Foreign, CI.SessionsOk, ToSession, OpenAt, StreamArrived, DatagramArrived, NoSession, Response;
    hide RequestArrived, MaxStreams, Goaway, CloseGracefully, Terminate, PruneSessions, EE.Prune, FailSession;
    hide CloseConnection, HandshakeDone, SettingsSeen, Wrap;
  }

  lemma BoundTracked(c: Conn, r: RequestId, id: StreamId)
    requires Ready(c, r, id)
    ensures Tracked(Bound(c, r, id), r)
  {
    hide Foreign, CI.AllOk;
    assert r !in multiset(c.blocked);
  }

  /** The peer resets the stream of a request for a session before it responds: nothing comes out, the request goes on
      waiting, and after any continuation without one of the five events it is still there, unanswered, and counts
      against the number of sessions allowed. */
  lemma ResetUnanswered(c: Conn, r: RequestId, id: StreamId, made: SessionVal, code: ErrorCode, es: seq<ConnEvent>)
    requires Ready(c, r, id)
    ensures var p := ResetEarly(r, id, made, code);
            && SI.AfterConn(c, p) == Bound(c, r, id) && SettledIn(c, p, r) == 0
            && (OrderlyRun(Bound(c, r, id), es, r) && !EndsIn(Bound(c, r, id), es, r) ==>
                  var d := SI.AfterConn(Bound(c, r, id), es);
                  && r in d.requests && SettledIn(Bound(c, r, id), es, r) == 0
                  && forall q, optimistic, valid :: Refuses(d, MakeSession(q, optimistic, 1, valid)))
  {
    hide Ready, Tracked, Settles, OrderlyRun, EndsIn, Bound, Refuses;
    var p := ResetEarly(r, id, made, code);
    ResetRun(c, r, id, made, code);
    if OrderlyRun(Bound(c, r, id), es, r) && !EndsIn(Bound(c, r, id), es, r) {
      BoundTracked(c, r, id);
      SettledOnlyBy(Bound(c, r, id), es, r);
      var d := SI.AfterConn(Bound(c, r, id), es);
      TrackedWaits(d, r);
      forall q, optimistic, valid ensures Refuses(d, MakeSession(q, optimistic, 1, valid)) {
        NoRoom(d, q, optimistic, valid, r);
      }
    }
    hide HandleConn, SettledIn, SI.AfterConn;
  }

  /** The request for a session fails at once, and nothing else happens. */
  predicate Refuses(c: Conn, e: ConnEvent)
    requires e.MakeSession?
  {
    HandleConn(c, e).c == c && TM.OneAnswer(HandleConn(c, e).out, e.request)
  }

  lemma NoRoom(c: Conn, q: RequestId, optimistic: bool, valid: bool, r: RequestId)
    requires r in c.requests
    ensures Refuses(c, MakeSession(q, optimistic, 1, valid))
  {
    hide ToSession, ByIndex, OpenAt, NoSession, StreamArrived, DatagramArrived, Response, RequestArrived, MaxStreams;
    hide Goaway;
    hide CloseGracefully, Terminate, BindSession, PruneSessions, EE.Prune, FailSession, CloseConnection, HandshakeDone;
    hide SettingsSeen, Wrap;
    assert |c.requests| >= 1 by {
      assert c.requests.Keys == {r} + (c.requests.Keys - {r});
    }
  }

  lemma ResetRun(c: Conn, r: RequestId, id: StreamId, made: SessionVal, code: ErrorCode)
    requires Ready(c, r, id)
    ensures var p := ResetEarly(r, id, made, code);
            SI.AfterConn(c, p) == Bound(c, r, id) && SettledIn(c, p, r) == 0
  {
    hide HandleConn, Ready, Bound, Settles;
    var p := ResetEarly(r, id, made, code);
    ResetSteps(c, r, id, made, code);
    NoSettlement(r);
    SettlesOne(OpenConnectStream(r), r);
    var d := HandleConn(c, p[0]).c;
    var b := Bound(c, r, id);
    assert p[1..][1..] == p[2..] && p[2..][1..] == [];
    assert SI.AfterConn(b, []) == b && SettledIn(b, [], r) == 0;
    assert SI.AfterConn(b, p[2..]) == b && SettledIn(b, p[2..], r) == 0;
    assert SI.AfterConn(d, p[1..]) == b && SettledIn(d, p[1..], r) == 0;
  }
}
