/** The connection as an object that updates its tables in place, with its loops over sessions and early events. */
module ConnectionClass {
  import opened Types
  import opened Sessions
  import opened Connections
  import EE = EarlyEvents
  import SC = SessionClass

  // ----- the buffer of early events

  /** Events that arrived before their session, with the count that bounds them. */
  class EarlyBuffer {
    var events: map<SessionId, seq<EE.Stamped>>
    var count: int
    const limits: EE.Limits

    constructor (limits: EE.Limits)
      ensures this.limits == limits && Val() == EE.Buffer(map[], 0)
    {
      this.limits, events, count := limits, map[], 0;
    }

    ghost function Val(): EE.Buffer
      reads this
    {
      EE.Buffer(events, count)
    }

    method Store(session: SessionId, event: EE.Early, now: EE.Time) returns (accepted: bool)
      modifies this
      ensures EE.Kept(Val(), accepted) == EE.Store(old(Val()), limits, session, event, now)
    {
      if count >= limits.perConnection {
        return false;
      }
      if session !in events {
        events := events[session := []];
      }
      if |events[session]| >= limits.perSession {
        assert events == old(events)[session := EE.EventsOf(old(Val()), session)];
        return false;
      }
      events := events[session := events[session] + [EE.Stamped(now, event)]];
      count := count + 1;
      return true;
    }

    method Take(session: SessionId) returns (taken: seq<EE.Stamped>)
      modifies this
      ensures EE.Taken(Val(), taken) == EE.Take(old(Val()), session)
    {
      if session !in events {
        return [];
      }
      taken := events[session];
      events := events - {session};
      count := count - |taken|;
    }

    /** Keep the events of one session that are young enough; refuse the streams among the others. */
    method PruneOne(session: SessionId, now: EE.Time) returns (fx: seq<Effect>)
      requires session in events
      modifies this
      ensures EE.Pruned(Val(), fx) == EE.PruneOne(old(Val()), limits, session, now)
    {
      hide EE.Fresh, EE.RefuseOld;
      var mine := events[session];
      var young;
      young, fx := Sift(mine, limits, now);
      count := count - (|mine| - |young|);
      events := if young == [] then events - {session} else events[session := young];
    }

    method Prune(now: EE.Time) returns (fx: seq<Effect>)
      modifies this
      ensures EE.Pruned(Val(), fx) == EE.Prune(old(Val()), limits, now)
    {
      var ids := Sorted(events.Keys);
      fx := [];
      var i := 0;
      while i < |ids|
        invariant 0 <= i <= |ids|
        invariant EE.PruneEach(old(Val()), limits, ids, now) == After(fx, EE.PruneEach(Val(), limits, ids[i..], now))
      {
        assert ids[i..][1..] == ids[i + 1..];
        ghost var before := Val();
        var more: seq<Effect> := [];
        if ids[i] in events {
          more := PruneOne(ids[i], now);
        } else {
          NothingToPrune(before, limits, ids[i], now);
        }
        AfterTwice(fx, more, EE.PruneEach(Val(), limits, ids[i + 1..], now));
        fx := fx + more;
        i := i + 1;
      }
    }
  }

  /** Part the young events from the old ones, whose streams are refused. */
  method Sift(events: seq<EE.Stamped>, limits: EE.Limits, now: EE.Time) returns (young: seq<EE.Stamped>, fx: seq<Effect>)
    ensures young == EE.Fresh(events, limits, now) && fx == EE.RefuseOld(events, limits, now)
  {
    young, fx := [], [];
    var i := 0;
    while i < |events|
      invariant 0 <= i <= |events|
      invariant EE.Fresh(events, limits, now) == young + EE.Fresh(events[i..], limits, now)
      invariant EE.RefuseOld(events, limits, now) == fx + EE.RefuseOld(events[i..], limits, now)
    {
      hide EE.Refuse, EE.Fresh, EE.RefuseOld;
      var e := events[i];
      SiftOne(events[i..], limits, now);
      assert events[i..][1..] == events[i + 1..];
      if EE.IsFresh(e, limits, now) {
        assert young + ([e] + EE.Fresh(events[i + 1..], limits, now)) == young + [e] + EE.Fresh(events[i + 1..], limits, now);
        young := young + [e];
      } else if e.event.StreamIn? {
        Reassociate(fx, EE.Refuse(e.event.stream), EE.RefuseOld(events[i + 1..], limits, now));
        fx := fx + EE.Refuse(e.event.stream);
      }
      i := i + 1;
    }
    assert events[i..] == [];
  }

  lemma Reassociate(a: seq<Effect>, b: seq<Effect>, c: seq<Effect>)
    ensures a + (b + c) == a + b + c
  {
  }

  lemma SiftOne(events: seq<EE.Stamped>, limits: EE.Limits, now: EE.Time)
    requires events != []
    ensures var e := events[0];
            && EE.Fresh(events, limits, now) ==
               (if EE.IsFresh(e, limits, now) then [e] else []) + EE.Fresh(events[1..], limits, now)
            && EE.RefuseOld(events, limits, now) ==
               (if !EE.IsFresh(e, limits, now) && e.event.StreamIn? then EE.Refuse(e.event.stream) else [])
               + EE.RefuseOld(events[1..], limits, now)
  {
  }

  ghost function After(fx: seq<Effect>, p: EE.Pruned): EE.Pruned {
    EE.Pruned(p.buffer, fx + p.fx)
  }

  lemma AfterTwice(a: seq<Effect>, b: seq<Effect>, p: EE.Pruned)
    ensures After(a, After(b, p)) == After(a + b, p)
  {
    assert a + (b + p.fx) == a + b + p.fx;
  }

  lemma NothingToPrune(b: EE.Buffer, limits: EE.Limits, session: SessionId, now: EE.Time)
    requires session !in b.events
    ensures EE.PruneOne(b, limits, session, now) == EE.Pruned(b, [])
  {
    assert b.events - {session} == b.events;
  }

  // ----- the connection

  ghost function Following(out: seq<Output>, o: ConnStep): ConnStep {
    ConnStep(o.c, out + o.out)
  }

  lemma FollowingTwice(a: seq<Output>, b: seq<Output>, o: ConnStep)
    ensures Following(a, Following(b, o)) == Following(a + b, o)
  {
    assert a + (b + o.out) == a + b + o.out;
  }

  lemma EachStep(c: Conn, ids: seq<SessionId>, e: Event)
    requires ids != []
    ensures ToEach(c, ids, e) ==
            (if ids[0] in c.sessions then Following(At(c, ids[0], e).out, ToEach(At(c, ids[0], e).c, ids[1..], e))
             else Following([], ToEach(c, ids[1..], e)))
  {
    hide At;
  }

  lemma EachDone(c: Conn, ids: seq<SessionId>, e: Event)
    requires ids == []
    ensures ToEach(c, ids, e) == ConnStep(c, [])
  {
  }

  class Connection {
    const isClient: bool
    const early: EarlyBuffer
    var phase: ConnPhase
    var handshakeDone: bool
    var settingsSeen: bool
    var goawaySent: bool
    var goawayReceived: bool
    var request: Option<RequestId>
    var sessions: map<SessionId, SessionVal>
    var index: map<StreamId, SessionId>
    var requests: map<RequestId, bool>
    var blocked: seq<RequestId>
    var pending: map<StreamId, RequestId>

    constructor (isClient: bool, limits: EE.Limits, request: Option<RequestId>)
      ensures fresh(early)
      ensures Val() == NewConn(isClient, limits, request)
    {
      this.isClient, this.request := isClient, request;
      phase, handshakeDone, settingsSeen, goawaySent, goawayReceived := Idle, false, false, false, false;
      sessions, index, requests, blocked, pending := map[], map[], map[], [], map[];
      early := new EarlyBuffer(limits);
    }

    ghost function Val(): Conn
      reads this, early
    {
      Conn(isClient, phase, handshakeDone, settingsSeen, goawaySent, goawayReceived, request, sessions, index,
           requests, blocked, pending, early.Val(), early.limits)
    }

    // ----- reaching a session

    method DeliverTo(session: SessionId, e: Event) returns (out: seq<Output>)
      requires session in sessions
      modifies this`sessions
      ensures ConnStep(Val(), out) == At(old(Val()), session, e)
    {
      hide Sessions.Handle, Wrap;
      var borrowed := new SC.Session.Borrow(sessions[session]);
      var fx := borrowed.Handle(e);
      sessions := sessions[session := borrowed.Val()];
      out := Wrap(fx);
    }

    method OpenOn(session: SessionId, id: StreamId, e: Event) returns (out: seq<Output>)
      requires session in sessions
      modifies this`sessions, this`index
      ensures ConnStep(Val(), out) == OpenAt(old(Val()), session, id, e)
    {
      hide Sessions.Handle, Wrap;
      out := DeliverTo(session, e);
      if id in sessions[session].streams {
        index := index[id := session];
      }
    }

    method Route(session: SessionId, e: Event) returns (out: seq<Output>)
      modifies this`sessions
      ensures ConnStep(Val(), out) == ToSession(old(Val()), session, e)
    {
      hide At, NoSession;
      if session in sessions {
        out := DeliverTo(session, e);
      } else {
        out := NoSession(e);
      }
    }

    static lemma ByIndexCases(c: Conn, id: StreamId, e: Event)
      ensures if id in c.index && c.index[id] in c.sessions then
                var o := At(c, c.index[id], e);
                ByIndex(c, id, e) == if HasStream(o.c, c.index[id], id) then o else ConnStep(o.c.(index := o.c.index - {id}), o.out)
              else if (e.PeerReset? || e.PeerStop?) && id in c.sessions then ByIndex(c, id, e) == At(c, id, AbortAll(e.code))
              else ByIndex(c, id, e) == ConnStep(c, NoStream(e))
    {
      hide At, NoStream;
    }

    /** Look the stream up in the index; forget it there once it is gone. */
    method RouteStream(id: StreamId, e: Event) returns (out: seq<Output>)
      modifies this`sessions, this`index
      ensures ConnStep(Val(), out) == ByIndex(old(Val()), id, e)
    {
      hide At, NoStream, ByIndex;
      ByIndexCases(Val(), id, e);
      if id in index && index[id] in sessions {
        var session := index[id];
        out := DeliverTo(session, e);
        if session !in sessions || id !in sessions[session].streams {
          index := index - {id};
        }
      } else if (e.PeerReset? || e.PeerStop?) && id in sessions {
        out := DeliverTo(id, AbortAll(e.code));
      } else {
        out := NoStream(e);
      }
    }

    /** One event for every session, in the order of their ids. */
    method DeliverToAll(e: Event) returns (out: seq<Output>)
      modifies this`sessions
      ensures ConnStep(Val(), out) == ToAll(old(Val()), e)
    {
      hide At, ToEach;
      var ids := Sorted(sessions.Keys);
      out := [];
      var i := 0;
      while i < |ids|
        invariant 0 <= i <= |ids|
        invariant ToEach(old(Val()), ids, e) == Following(out, ToEach(Val(), ids[i..], e))
      {
        EachStep(Val(), ids[i..], e);
        assert ids[i..][1..] == ids[i + 1..];
        var more: seq<Output> := [];
        if ids[i] in sessions {
          more := DeliverTo(ids[i], e);
        }
        FollowingTwice(out, more, ToEach(Val(), ids[i + 1..], e));
        out := out + more;
        i := i + 1;
      }
      EachDone(Val(), ids[i..], e);
      assert out + [] == out;
    }

    // ----- early streams and datagrams

    method StreamOpened(session: SessionId, id: StreamId, now: EE.Time) returns (out: seq<Output>)
      modifies this`sessions, this`index, early
      ensures ConnStep(Val(), out) == StreamArrived(old(Val()), session, id, now)
    {
      hide OpenAt, EE.Store, Wrap;
      if session in sessions {
        out := OpenOn(session, id, PeerOpened(id));
      } else {
        var accepted := early.Store(session, EE.StreamIn(id), now);
        out := if accepted then [] else Wrap(EE.Refuse(id));
      }
    }

    method DatagramReceived(session: SessionId, data: Bytes, now: EE.Time) returns (out: seq<Output>)
      modifies this`sessions, early
      ensures ConnStep(Val(), out) == DatagramArrived(old(Val()), session, data, now)
    {
      hide At, EE.Store;
      if session in sessions {
        out := DeliverTo(session, PeerDatagram(data));
      } else {
        var _ := early.Store(session, EE.DatagramIn(data), now);
        out := [];
      }
    }

    /** Hand the buffered events of a session over, or refuse them if it does not exist. */
    method Replay(session: SessionId) returns (out: seq<Output>)
      modifies this`sessions, this`index, early
      ensures ConnStep(Val(), out) == ReplayEarly(old(Val()), session)
    {
      hide At, OpenAt, EE.Take, EE.RefuseAll, Wrap;
      var events := early.Take(session);
      if session !in sessions {
        out := RefuseEach(events);
        return;
      }
      ghost var start := Val();
      out := [];
      var i := 0;
      while i < |events|
        invariant 0 <= i <= |events| && session in sessions
        invariant ReplayEach(start, session, events) == Following(out, ReplayEach(Val(), session, events[i..]))
      {
        assert events[i..][1..] == events[i + 1..];
        var more: seq<Output>;
        ghost var before := Val();
        match events[i].event {
          case StreamIn(id) =>
            OpenKeeps(before, session, id, PeerOpened(id));
            more := OpenOn(session, id, PeerOpened(id));
          case DatagramIn(data) =>
            OpenKeeps(before, session, 0, PeerDatagram(data));
            more := DeliverTo(session, PeerDatagram(data));
        }
        FollowingTwice(out, more, ReplayEach(Val(), session, events[i + 1..]));
        out := out + more;
        i := i + 1;
      }
    }

    // ----- requests for sessions

    method Create(request: RequestId, optimistic: bool, limit: nat, valid: bool) returns (out: seq<Output>)
      modifies this`requests
      ensures ConnStep(Val(), out) == CreateSession(old(Val()), request, optimistic, limit, valid)
    {
      if !isClient {
        return [Fail(request, None)];
      }
      if phase != Established || goawayReceived {
        return [Fail(request, Some(ERR_LIB_CONNECTION_STATE_ERROR))];
      }
      if limit > 0 && |sessions| + |requests| >= limit {
        return [Fail(request, Some(ERR_LIB_CONNECTION_STATE_ERROR))];
      }
      if !valid {
        return [Fail(request, None)];
      }
      requests := requests[request := optimistic];
      return [OpenConnectStream(request)];
    }

    method Bind(id: StreamId, request: RequestId, made: SessionVal) returns (out: seq<Output>)
      modifies this`pending, this`requests, this`sessions
      ensures ConnStep(Val(), out) == BindSession(old(Val()), id, request, made)
    {
      pending := pending[id := request];
      if request in requests && requests[request] {
        requests := requests - {request};
        sessions := sessions[id := made];
        return [SessionPending(id), SessionMade(request, id)];
      }
      return [];
    }

    method FailRequest(request: RequestId, error: Option<ErrorCode>) returns (out: seq<Output>)
      modifies this`requests
      ensures ConnStep(Val(), out) == FailSession(old(Val()), request, error)
    {
      requests := requests - {request};
      return [Fail(request, error)];
    }

    method Turn(id: StreamId, request: RequestId, code: ErrorCode) returns (out: seq<Output>)
      modifies this`requests, this`sessions
      ensures ConnStep(Val(), out) == Turned(old(Val()), id, request, code)
    {
      hide At;
      if id in sessions {
        out := DeliverTo(id, AbortAll(code));
      } else {
        requests := requests - {request};
        out := [Fail(request, Some(code)), Fx(StopQuicStream(id, code)), Fx(ResetQuicStream(id, code))];
      }
    }

    method Confirm(id: StreamId, request: RequestId, made: SessionVal) returns (out: seq<Output>)
      modifies this`requests, this`sessions
      ensures ConnStep(Val(), out) == Confirmed(old(Val()), id, request, made)
    {
      hide At;
      if id in sessions {
        out := DeliverTo(id, PeerConfirmed);
      } else if request in requests {
        requests := requests - {request};
        sessions := sessions[id := made];
        out := DeliverTo(id, PeerConfirmed);
        out := out + [SessionMade(request, id)];
      } else {
        out := [];
      }
    }

    method ReceiveResponse(id: StreamId, verdict: Verdict, made: SessionVal) returns (out: seq<Output>)
      modifies this`pending, this`requests, this`sessions, this`index, early
      ensures ConnStep(Val(), out) == Response(old(Val()), id, verdict, made)
    {
      hide Turned, Confirmed, ReplayEarly;
      if id !in pending {
        return [];
      }
      var request := pending[id];
      pending := pending - {id};
      if id !in sessions && request !in requests {
        return [Fail(request, Some(ERR_LIB_INTERNAL_ERROR))];
      }
      match verdict {
        case WrongProtocol =>
          out := Turn(id, request, ERR_WT_ALPN_ERROR);
        case Granted =>
          out := Confirm(id, request, made);
          var more := Replay(id);
          out := out + more;
        case Rejected =>
          requests := requests - {request};
          out := Turn(id, request, ERR_H3_REQUEST_REJECTED);
          var more := Replay(id);
          out := out + more;
      }
    }

    method ReceiveRequest(id: StreamId, limit: nat, valid: bool, made: SessionVal) returns (out: seq<Output>)
      modifies this`sessions, this`index, early
      ensures ConnStep(Val(), out) == RequestArrived(old(Val()), id, limit, valid, made)
    {
      hide ReplayEarly;
      if id in sessions {
        return [];
      }
      if phase != Established || goawaySent || (limit > 0 && |sessions| >= limit) || !valid {
        return Turn429(id);
      }
      sessions := sessions[id := made];
      out := Replay(id);
      out := [SessionRequested(id)] + out;
    }

    // ----- everything at once

    /** The requests that waited for the transport to allow more streams are made again, in order. */
    method RaiseStreams(uni: bool) returns (out: seq<Output>)
      modifies this`blocked, this`sessions
      ensures ConnStep(Val(), out) == MaxStreams(old(Val()), uni)
    {
      hide ToAll, WrapRequests;
      out := [];
      if !uni {
        out := AskAgain(blocked, requests);
        blocked := [];
      }
      var more := DeliverToAll(TransportMaxStreams(uni));
      out := out + more;
    }

    method ReceiveGoaway() returns (out: seq<Output>)
      modifies this`goawayReceived, this`blocked, this`requests, this`sessions
      ensures ConnStep(Val(), out) == Goaway(old(Val()))
    {
      hide ToAll, FailEach;
      goawayReceived := true;
      var waiting := blocked;
      blocked := [];
      requests := requests - set r | r in waiting;
      out := FailAllOf(waiting);
      var more := DeliverToAll(DrainAll);
      out := out + more;
    }

    method CloseInPeace(request: RequestId) returns (out: seq<Output>)
      modifies this`goawaySent, this`sessions
      ensures ConnStep(Val(), out) == CloseGracefully(old(Val()), request)
    {
      hide ToAll;
      if phase != Established {
        return [Fx(Done(request, Nothing))];
      }
      out := if goawaySent then [] else [SendGoaway];
      goawaySent := true;
      var more := DeliverToAll(DrainAll);
      out := out + more + [Fx(Done(request, Nothing))];
    }

    /** Forget the closed sessions, and what the index says of them. */
    method Prune()
      modifies this`sessions, this`index
      ensures Val() == PruneSessions(old(Val()))
    {
      var closed := set s | s in sessions && sessions[s].phase == Closed;
      sessions := sessions - closed;
      index := map id | id in index && index[id] !in closed :: index[id];
    }

    // ----- the connection itself

    method Close(asker: Option<RequestId>) returns (out: seq<Output>)
      modifies this`phase
      ensures ConnStep(Val(), out) == CloseConnection(old(Val()), asker)
    {
      if phase == Ended || phase == Ending {
        return Answer(asker);
      }
      phase := Ending;
      return [CloseQuic] + Answer(asker);
    }

    /** The end: close every session, then fail every request that waits, in the order of their ids. */
    method End(code: ErrorCode) returns (out: seq<Output>)
      modifies this`phase, this`requests, this`request, this`blocked, this`pending, this`sessions
      ensures ConnStep(Val(), out) == Terminate(old(Val()), code)
    {
      hide ToAll, FailEach, Sorted;
      if phase == Ended {
        return [];
      }
      phase := Ended;
      var waiting := Sorted(requests.Keys + if request.Some? then {request.value} else {});
      requests, request, blocked, pending := map[], None, [], map[];
      out := DeliverToAll(PeerClosed(code));
      var failures := FailAllOf(waiting);
      out := out + [ConnectionDown] + failures;
    }

    method CompleteHandshake() returns (out: seq<Output>)
      modifies this`phase, this`handshakeDone, this`request
      ensures ConnStep(Val(), out) == HandshakeDone(old(Val()))
    {
      if phase != Idle && phase != Handshaking {
        return [];
      }
      phase := Handshaking;
      handshakeDone := true;
      out := [OpenLocalStreams];
      if !isClient || settingsSeen {
        out := out + [ConnectionUp(request)];
        phase, request := Established, None;
      }
    }

    method ReceiveSettings() returns (out: seq<Output>)
      modifies this`phase, this`settingsSeen, this`request
      ensures ConnStep(Val(), out) == SettingsSeen(old(Val()))
    {
      settingsSeen := true;
      if phase == Handshaking && handshakeDone {
        out := [ConnectionUp(request)];
        phase, request := Established, None;
      } else {
        out := [];
      }
    }

    method HandleRouted(e: ConnEvent) returns (out: seq<Output>)
      requires Routed(e)
      modifies this`sessions, this`index, early
      ensures ConnStep(Val(), out) == HandleConn(old(Val()), e)
    {
      hide ToSession, ByIndex, OpenAt, StreamArrived, DatagramArrived, CreateSession, BindSession, FailSession;
      hide Response;
      hide RequestArrived, MaxStreams, Goaway, CloseGracefully, EE.Prune, PruneSessions, CloseConnection, Terminate;
      hide HandshakeDone, SettingsSeen, NoSession, Wrap;
      match e {
        case OnSession(session, event) => out := Route(session, event);
        case OnOneStream(id, event) => out := RouteStream(id, event);
        case Bind(session, id, request, uni) =>
          if session in sessions {
            out := OpenOn(session, id, TransportBind(id, request, uni));
          } else {
            out := NoSession(TransportBind(id, request, uni));
          }
        case Stream(session, id, now) => out := StreamOpened(session, id, now);
        case Datagram(session, data, now) => out := DatagramReceived(session, data, now);
        case PruneEarlyEvents(now) =>
          var fx := early.Prune(now);
          out := Wrap(fx);
        case PruneClosed =>
          Prune();
          out := [];
      }
    }

    method HandleRequest(e: ConnEvent) returns (out: seq<Output>)
      requires !Routed(e) && !OfConnection(e)
      modifies this, early
      ensures ConnStep(Val(), out) == HandleConn(old(Val()), e)
    {
      hide ToSession, ByIndex, OpenAt, StreamArrived, DatagramArrived, CreateSession, BindSession, FailSession;
      hide Response;
      hide RequestArrived, MaxStreams, Goaway, CloseGracefully, EE.Prune, PruneSessions, CloseConnection, Terminate;
      hide HandshakeDone, SettingsSeen, NoSession, Wrap;
      match e {
        case MakeSession(request, optimistic, limit, valid) => out := Create(request, optimistic, limit, valid);
        case SessionBound(id, request, made) => out := Bind(id, request, made);
        case SessionDeferred(request) =>
          blocked := blocked + [request];
          out := [];
        case SessionFailed(request, error) => out := FailRequest(request, error);
        case ResponseSeen(id, verdict, made) => out := ReceiveResponse(id, verdict, made);
        case RequestSeen(id, limit, valid, made) => out := ReceiveRequest(id, limit, valid, made);
      }
    }

    method HandleOwn(e: ConnEvent) returns (out: seq<Output>)
      requires OfConnection(e)
      modifies this
      ensures ConnStep(Val(), out) == HandleConn(old(Val()), e)
    {
      hide ToSession, ByIndex, OpenAt, StreamArrived, DatagramArrived, CreateSession, BindSession, FailSession;
      hide Response;
      hide RequestArrived, MaxStreams, Goaway, CloseGracefully, EE.Prune, PruneSessions, CloseConnection, Terminate;
      hide HandshakeDone, SettingsSeen, NoSession, Wrap;
      match e {
        case StreamsAvailable(uni) => out := RaiseStreams(uni);
        case GoawaySeen => out := ReceiveGoaway();
        case CloseNicely(request) => out := CloseInPeace(request);
        case CloseNow(asker) => out := Close(asker);
        case Terminated(code) => out := End(code);
        case Handshake => out := CompleteHandshake();
        case SettingsArrived => out := ReceiveSettings();
      }
    }

    /** One event. */
    method Handle(e: ConnEvent) returns (out: seq<Output>)
      modifies this, early
      ensures ConnStep(Val(), out) == HandleConn(old(Val()), e)
    {
      hide HandleConn;
      if Routed(e) {
        out := HandleRouted(e);
      } else if OfConnection(e) {
        out := HandleOwn(e);
      } else {
        out := HandleRequest(e);
      }
    }
  }

  predicate Routed(e: ConnEvent) {
    e.OnSession? || e.OnOneStream? || e.Bind? || e.Stream? || e.Datagram? || e.PruneEarlyEvents? || e.PruneClosed?
  }

  predicate OfConnection(e: ConnEvent) {
    e.StreamsAvailable? || e.GoawaySeen? || e.CloseNicely? || e.CloseNow? || e.Terminated? || e.Handshake? || e.SettingsArrived?
  }

  lemma OpenKeeps(c: Conn, session: SessionId, id: StreamId, e: Event)
    requires session in c.sessions
    ensures session in At(c, session, e).c.sessions && session in OpenAt(c, session, id, e).c.sessions
  {
    hide Sessions.Handle, Wrap;
  }

  /** The requests that are still wanted are made again, in order. */
  method AskAgain(waiting: seq<RequestId>, known: map<RequestId, bool>) returns (out: seq<Output>)
    ensures out == WrapRequests(waiting, known)
  {
    out := [];
    var i := 0;
    while i < |waiting|
      invariant 0 <= i <= |waiting| && WrapRequests(waiting, known) == out + WrapRequests(waiting[i..], known)
    {
      assert waiting[i..][1..] == waiting[i + 1..];
      if waiting[i] in known {
        out := out + [OpenConnectStream(waiting[i])];
      }
      i := i + 1;
    }
  }

  /** A failure for each request, in order. */
  method FailAllOf(requests: seq<RequestId>) returns (out: seq<Output>)
    ensures out == FailEach(requests)
  {
    out := [];
    var i := 0;
    while i < |requests|
      invariant 0 <= i <= |requests| && FailEach(requests) == out + FailEach(requests[i..])
    {
      assert requests[i..][1..] == requests[i + 1..];
      out := out + [Fail(requests[i], Some(ERR_LIB_CONNECTION_STATE_ERROR))];
      i := i + 1;
    }
  }

  /** Refuse the streams of a session that never came. */
  method RefuseEach(events: seq<EE.Stamped>) returns (out: seq<Output>)
    ensures out == Wrap(EE.RefuseAll(events))
  {
    var fx: seq<Effect> := [];
    var i := 0;
    while i < |events|
      invariant 0 <= i <= |events| && EE.RefuseAll(events) == fx + EE.RefuseAll(events[i..])
    {
      hide EE.Refuse;
      assert events[i..][1..] == events[i + 1..];
      ghost var head := if events[i].event.StreamIn? then EE.Refuse(events[i].event.stream) else [];
      assert EE.RefuseAll(events[i..]) == head + EE.RefuseAll(events[i + 1..]);
      Reassociate(fx, head, EE.RefuseAll(events[i + 1..]));
      if events[i].event.StreamIn? {
        fx := fx + EE.Refuse(events[i].event.stream);
      }
      i := i + 1;
    }
    assert events[i..] == [];
    assert fx == EE.RefuseAll(events);
    out := Wrap(fx);
  }
}
