/** Early events over whole runs of a connection: the buffer keeps its books at every step, every stream that was
    buffered leaves it once, and a session that comes late sees what it would have seen had it come early. */
module EarlyDelivery {
  import opened Types
  import opened Streams
  import opened Sessions
  import opened Traces
  import opened SessionInvariant
  import opened Connections
  import EE = EarlyEvents
  import SI = StreamIndex

  // ----- replaying is running the session

  function AsEvent(e: EE.Early): Event {
    match e
    case StreamIn(id) => PeerOpened(id)
    case DatagramIn(data) => PeerDatagram(data)
  }

  function AsEvents(events: seq<EE.Stamped>): seq<Event> {
    if events == [] then [] else [AsEvent(events[0].event)] + AsEvents(events[1..])
  }

  lemma {:induction false} WrapAppend(a: seq<Effect>, b: seq<Effect>)
    ensures Wrap(a + b) == Wrap(a) + Wrap(b)
  {
    if a == [] {
      assert a + b == b;
    } else {
      assert (a + b)[1..] == a[1..] + b;
      WrapAppend(a[1..], b);
    }
  }

  /** One event of the list, handed to the session. */
  function HandOver(c: Conn, session: SessionId, e: EE.Early): ConnStep
    requires session in c.sessions
  {
    match e
    case StreamIn(id) => OpenAt(c, session, id, PeerOpened(id))
    case DatagramIn(data) => At(c, session, PeerDatagram(data))
  }

  lemma HandOverOne(c: Conn, session: SessionId, e: EE.Early)
    requires session in c.sessions
    ensures var o := HandOver(c, session, e);
            && o.c.sessions == c.sessions[session := Handle(c.sessions[session], AsEvent(e)).s]
            && o.out == Wrap(Handle(c.sessions[session], AsEvent(e)).fx)
            && SameBuffer(c, o.c)
  {
    hide Handle, Wrap, HasStream;
    var o := At(c, session, AsEvent(e));
    assert o.c == c.(sessions := c.sessions[session := Handle(c.sessions[session], AsEvent(e)).s]);
    if e.StreamIn? && HasStream(o.c, session, e.stream) {
      assert HandOver(c, session, e).c == o.c.(index := o.c.index[e.stream := session]);
    } else {
      assert HandOver(c, session, e) == o;
    }
  }

  lemma ReplayStep(c: Conn, session: SessionId, events: seq<EE.Stamped>)
    requires session in c.sessions && events != []
    ensures var o := HandOver(c, session, events[0].event);
            var rest := ReplayEach(o.c, session, events[1..]);
            ReplayEach(c, session, events) == ConnStep(rest.c, o.out + rest.out)
  {
    hide At, OpenAt;
  }

  /** Replaying a list of events is running the session on them, in their order; no other session is touched. */
  lemma {:induction false} ReplayRuns(c: Conn, session: SessionId, events: seq<EE.Stamped>)
    requires session in c.sessions
    ensures var o := ReplayEach(c, session, events);
            && o.c.sessions == c.sessions[session := After(c.sessions[session], AsEvents(events))]
            && o.out == Wrap(Effects(c.sessions[session], AsEvents(events)))
            && o.c.early == c.early && o.c.limits == c.limits
    decreases |events|
  {
    hide Handle, HandOver, ReplayEach;
    var s := c.sessions[session];
    if events == [] {
      ReplayNone(c, session);
    } else {
      var e := AsEvent(events[0].event);
      var o := HandOver(c, session, events[0].event);
      HandOverOne(c, session, events[0].event);
      ReplayStep(c, session, events);
      ReplayRuns(o.c, session, events[1..]);
      assert AsEvents(events)[1..] == AsEvents(events[1..]);
      WrapAppend(Handle(s, e).fx, Effects(Handle(s, e).s, AsEvents(events[1..])));
      Overwrite(c.sessions, session, Handle(s, e).s, After(s, AsEvents(events)));
    }
  }

  lemma ReplayNone(c: Conn, session: SessionId)
    requires session in c.sessions
    ensures ReplayEach(c, session, []) == ConnStep(c, []) && c.sessions[session := c.sessions[session]] == c.sessions
  {
  }

  lemma Overwrite(sessions: map<SessionId, SessionVal>, k: SessionId, a: SessionVal, b: SessionVal)
    ensures sessions[k := a][k := b] == sessions[k := b]
  {
  }

  // ----- what a step takes out of the buffer

  /** The response on this stream is for a session that is asked for or already there. */
  predicate Expected(c: Conn, id: StreamId) {
    id in c.pending && (id in c.sessions || c.pending[id] in c.requests)
  }

  predicate Admits(c: Conn, id: StreamId, limit: nat, valid: bool) {
    id !in c.sessions && c.phase == Established && !c.goawaySent && !(limit > 0 && |c.sessions| >= limit) && valid
  }

  /** Does a step hand the buffered events of a session over to it? */
  predicate Hands(c: Conn, e: ConnEvent) {
    match e
    case ResponseSeen(id, verdict, _) => Expected(c, id) && (verdict.Granted? || (verdict.Rejected? && id in c.sessions))
    case RequestSeen(id, limit, valid, _) => Admits(c, id, limit, valid)
    case _ => false
  }

  /** The buffered events that a step hands to their session. */
  function Handed(c: Conn, e: ConnEvent): seq<EE.Stamped> {
    if Hands(c, e) then EE.EventsOf(c.early, e.stream) else []
  }

  /** The refusals that a step orders for early streams. */
  function Refused(c: Conn, e: ConnEvent): seq<Effect> {
    match e
    case Stream(session, id, now) =>
      if session !in c.sessions && !EE.Store(c.early, c.limits, session, EE.StreamIn(id), now).accepted then EE.Refuse(id) else []
    case ResponseSeen(id, verdict, _) =>
      if Expected(c, id) && verdict.Rejected? && id !in c.sessions then EE.RefuseAll(EE.EventsOf(c.early, id)) else []
    case PruneEarlyEvents(now) => EE.Prune(c.early, c.limits, now).fx
    case _ => []
  }

  /** How often a step brings a stream before its session. */
  function Came(c: Conn, e: ConnEvent, id: StreamId): nat {
    if e.Stream? && e.session !in c.sessions && e.stream == id then 1 else 0
  }

  ghost function Buffered(c: Conn, id: StreamId): nat {
    EE.Total(EE.Openings(id), c.early.events)
  }

  /** The books of one step: the streams that were buffered and those that came early are buffered still, handed
      to their session, or refused in every direction they have. */
  ghost predicate Accounted(c: Conn, d: Conn, handed: seq<EE.Stamped>, refused: seq<Effect>, came: nat, id: StreamId) {
    && Buffered(d, id) + EE.Size(EE.Openings(id), handed) + EE.Refusals(refused, id) == Buffered(c, id) + came
    && EE.Paired(refused, id)
  }

  ghost predicate BooksOk(c: Conn) {
    EE.Inv(c.early, c.limits)
  }

  lemma Untouched(c: Conn, d: Conn, id: StreamId)
    requires BooksOk(c) && d.early == c.early && d.limits == c.limits
    ensures BooksOk(d) && Accounted(c, d, [], [], 0, id)
  {
  }

  lemma ArrivalAccounted(c: Conn, session: SessionId, stream: StreamId, now: EE.Time, id: StreamId)
    requires BooksOk(c) && session !in c.sessions
    ensures var e := Stream(session, stream, now);
            var d := StreamArrived(c, session, stream, now).c;
            BooksOk(d) && Accounted(c, d, [], Refused(c, e), Came(c, e, id), id)
  {
    hide EE.Inv, EE.Store, EE.Refuse;
    EE.StoreKeeps(c.early, c.limits, session, EE.StreamIn(stream), now);
    EE.StoreBalance(c.early, c.limits, session, stream, now, id);
    EE.RefuseOnce(stream, id);
  }

  lemma DatagramAccounted(c: Conn, session: SessionId, data: Bytes, now: EE.Time, id: StreamId)
    requires BooksOk(c)
    ensures var d := DatagramArrived(c, session, data, now).c; BooksOk(d) && Accounted(c, d, [], [], 0, id)
  {
    if session in c.sessions {
      Untouched(c, DatagramArrived(c, session, data, now).c, id);
    } else {
      EE.StoreKeeps(c.early, c.limits, session, EE.DatagramIn(data), now);
      DatagramBalance(c.early, c.limits, session, data, now, id);
    }
  }

  lemma DatagramBalance(b: EE.Buffer, limits: EE.Limits, session: SessionId, data: Bytes, now: EE.Time, id: StreamId)
    ensures EE.Total(EE.Openings(id), EE.Store(b, limits, session, EE.DatagramIn(data), now).buffer.events)
            == EE.Total(EE.Openings(id), b.events)
  {
    var e := EE.Stamped(now, EE.DatagramIn(data));
    var mine := EE.EventsOf(b, session);
    EE.TotalUpdate(EE.Openings(id), b, session, mine);
    EE.TotalUpdate(EE.Openings(id), b, session, mine + [e]);
    EE.SizeAppend(EE.Openings(id), mine, [e]);
    assert [e][1..] == [];
  }

  /** What ReplayEarly does to the buffer and to the output. */
  lemma ReplayAccounted(c: Conn, session: SessionId, id: StreamId)
    requires BooksOk(c)
    ensures var o := ReplayEarly(c, session);
            var events := EE.EventsOf(c.early, session);
            && BooksOk(o.c)
            && (session in c.sessions ==>
                  && Accounted(c, o.c, events, [], 0, id)
                  && o.c.sessions == c.sessions[session := After(c.sessions[session], AsEvents(events))]
                  && o.out == Wrap(Effects(c.sessions[session], AsEvents(events))))
            && (session !in c.sessions ==> Accounted(c, o.c, [], EE.RefuseAll(events), 0, id) && o.out == Wrap(EE.RefuseAll(events)))
  {
    hide EE.Inv, EE.Total, EE.RefuseAll, After, Effects, AsEvents, ReplayEach, Wrap;
    var t := EE.Take(c.early, session);
    EE.TakeKeeps(c.early, c.limits, session, id);
    EE.RefuseAllBalance(t.events, id);
    if session in c.sessions {
      ReplayRuns(c.(early := t.buffer), session, t.events);
    }
  }

  function Admitted(c: Conn, id: StreamId, made: SessionVal): Conn {
    c.(sessions := c.sessions[id := made])
  }

  /** The session a response is for, after the verdict was applied. */
  function Judged(c: Conn, id: StreamId, verdict: Verdict, made: SessionVal): ConnStep
    requires Expected(c, id)
  {
    var request := c.pending[id];
    var d := c.(pending := c.pending - {id});
    match verdict
    case WrongProtocol => Turned(d, id, request, ERR_WT_ALPN_ERROR)
    case Granted => Confirmed(d, id, request, made)
    case Rejected => Turned(d.(requests := d.requests - {request}), id, request, ERR_H3_REQUEST_REJECTED)
  }

  lemma ResponseJudged(c: Conn, id: StreamId, verdict: Verdict, made: SessionVal)
    requires Expected(c, id)
    ensures var o := Judged(c, id, verdict, made);
            && (verdict.WrongProtocol? ==> Response(c, id, verdict, made) == o)
            && (!verdict.WrongProtocol? ==>
                  Response(c, id, verdict, made) == ConnStep(ReplayEarly(o.c, id).c, o.out + ReplayEarly(o.c, id).out))
  {
    hide Turned, Confirmed, ReplayEarly;
  }

  lemma TurnedBuffer(c: Conn, id: StreamId, request: RequestId, code: ErrorCode)
    ensures var d := Turned(c, id, request, code).c; SameBuffer(c, d) && (id in d.sessions <==> id in c.sessions)
  {
    hide At, Fail;
    if id in c.sessions {
      AtSame(c, id, AbortAll(code));
    }
  }

  lemma ConfirmedBuffer(c: Conn, id: StreamId, request: RequestId, made: SessionVal)
    requires id in c.sessions || request in c.requests
    ensures var d := Confirmed(c, id, request, made).c; SameBuffer(c, d) && id in d.sessions
  {
    hide At;
    if id in c.sessions {
      AtSame(c, id, PeerConfirmed);
    } else {
      AtSame(c.(requests := c.requests - {request}, sessions := c.sessions[id := made]), id, PeerConfirmed);
    }
  }

  lemma JudgedBuffer(c: Conn, id: StreamId, verdict: Verdict, made: SessionVal)
    requires Expected(c, id)
    ensures var d := Judged(c, id, verdict, made).c;
            SameBuffer(c, d) && (id in d.sessions <==> id in c.sessions || verdict.Granted?)
  {
    hide Turned, Confirmed;
    var request := c.pending[id];
    var d := c.(pending := c.pending - {id});
    TurnedBuffer(d, id, request, ERR_WT_ALPN_ERROR);
    TurnedBuffer(d.(requests := d.requests - {request}), id, request, ERR_H3_REQUEST_REJECTED);
    ConfirmedBuffer(d, id, request, made);
  }

  /** The output ends with the refusals of early streams. */
  ghost predicate EndsWith(out: seq<Output>, refused: seq<Effect>) {
    exists before :: out == before + Wrap(refused)
  }

  lemma EndsNow(before: seq<Output>, refused: seq<Effect>)
    ensures EndsWith(before + Wrap(refused), refused)
  {
  }

  lemma EndsNot(out: seq<Output>)
    ensures EndsWith(out, [])
  {
    assert out == out + Wrap([]);
  }

  /** The session that a step hands events to, as it is before it gets them. */
  function Receiving(c: Conn, e: ConnEvent): Conn
    requires Hands(c, e)
  {
    if e.ResponseSeen? then Judged(c, e.stream, e.verdict, e.made).c else Admitted(c, e.stream, e.made)
  }

  /** The session has run on the events handed to it, in their order, no other session has changed since, and the output
      ends with what the run puts out. */
  ghost predicate Delivered(c: Conn, e: ConnEvent, o: ConnStep)
    requires Hands(c, e)
  {
    var d := Receiving(c, e);
    var id := e.stream;
    && id in d.sessions
    && o.c.sessions == d.sessions[id := After(d.sessions[id], AsEvents(Handed(c, e)))]
    && EndsWith(o.out, Effects(d.sessions[id], AsEvents(Handed(c, e))))
  }

  ghost predicate StepAccounted(c: Conn, e: ConnEvent, o: ConnStep, id: StreamId) {
    && BooksOk(o.c)
    && Accounted(c, o.c, Handed(c, e), Refused(c, e), Came(c, e, id), id)
    && EndsWith(o.out, Refused(c, e))
    && (Hands(c, e) ==> Delivered(c, e, o))
  }

  lemma ResponseAccounted(c: Conn, r: StreamId, verdict: Verdict, made: SessionVal, id: StreamId)
    requires BooksOk(c)
    ensures StepAccounted(c, ResponseSeen(r, verdict, made), Response(c, r, verdict, made), id)
  {
    hide EE.Inv, EE.RefuseAll, ReplayEarly, Judged, Wrap, EndsWith, After, Effects, AsEvents;
    var e := ResponseSeen(r, verdict, made);
    var o := Response(c, r, verdict, made);
    EndsNot(o.out);
    if Expected(c, r) {
      ResponseJudged(c, r, verdict, made);
      JudgedBuffer(c, r, verdict, made);
      hide Response;
      var j := Judged(c, r, verdict, made);
      Untouched(c, j.c, id);
      if !verdict.WrongProtocol? {
        ReplayAccounted(j.c, r, id);
        var events := EE.EventsOf(c.early, r);
        EndsNow(j.out, EE.RefuseAll(events));
        if r in j.c.sessions {
          EndsNow(j.out, Effects(j.c.sessions[r], AsEvents(events)));
        }
      }
    } else {
      ResponseIdle(c, r, verdict, made);
      Untouched(c, o.c, id);
    }
  }

  lemma ResponseIdle(c: Conn, r: StreamId, verdict: Verdict, made: SessionVal)
    requires !Expected(c, r)
    ensures var d := Response(c, r, verdict, made).c; d.early == c.early && d.limits == c.limits
  {
  }

  lemma RequestAccounted(c: Conn, r: StreamId, limit: nat, valid: bool, made: SessionVal, id: StreamId)
    requires BooksOk(c)
    ensures StepAccounted(c, RequestSeen(r, limit, valid, made), RequestArrived(c, r, limit, valid, made), id)
  {
    hide EE.Inv, ReplayEarly, Wrap, EndsWith, After, Effects, AsEvents;
    var o := RequestArrived(c, r, limit, valid, made);
    EndsNot(o.out);
    if Admits(c, r, limit, valid) {
      var d := Admitted(c, r, made);
      RequestAdmitted(c, r, limit, valid, made);
      hide RequestArrived, Admits;
      Untouched(c, d, id);
      ReplayAccounted(d, r, id);
      EndsNow([SessionRequested(r)], Effects(d.sessions[r], AsEvents(EE.EventsOf(c.early, r))));
    } else {
      Untouched(c, o.c, id);
    }
  }

  lemma PruneAccounted(c: Conn, now: EE.Time, id: StreamId)
    requires BooksOk(c)
    ensures StepAccounted(c, PruneEarlyEvents(now), HandleConn(c, PruneEarlyEvents(now)), id)
  {
    hide EE.Inv, EE.Prune, Wrap, EndsWith;
    EE.PruneKeeps(c.early, c.limits, now, id);
    var fx := EE.Prune(c.early, c.limits, now).fx;
    EndsNow([], fx);
    assert [] + Wrap(fx) == Wrap(fx);
  }

  // ----- steps that leave the buffer alone

  lemma {:induction false} ToEachSame(c: Conn, sessions: seq<SessionId>, e: Event)
    ensures SameBuffer(c, ToEach(c, sessions, e).c)
    decreases |sessions|
  {
    hide Handle, Wrap;
    if sessions != [] {
      ToEachSame(if sessions[0] in c.sessions then At(c, sessions[0], e).c else c, sessions[1..], e);
    }
  }

  lemma AllSame(c: Conn, e: Event)
    ensures SameBuffer(c, ToAll(c, e).c)
  {
    ToEachSame(c, Sorted(c.sessions.Keys), e);
  }

  lemma MaxStreamsSame(c: Conn, uni: bool)
    ensures SameBuffer(c, MaxStreams(c, uni).c)
  {
    hide ToAll, WrapRequests;
    AllSame(if uni then c else c.(blocked := []), TransportMaxStreams(uni));
  }

  lemma GoawaySame(c: Conn)
    ensures SameBuffer(c, Goaway(c).c)
  {
    hide ToAll, FailEach;
    AllSame(c.(goawayReceived := true, blocked := [], requests := c.requests - (set r | r in c.blocked)), DrainAll);
  }

  lemma GracefulSame(c: Conn, request: RequestId)
    ensures SameBuffer(c, CloseGracefully(c, request).c)
  {
    hide ToAll;
    AllSame(c.(goawaySent := true), DrainAll);
  }

  lemma TerminateSame(c: Conn, code: ErrorCode)
    ensures SameBuffer(c, Terminate(c, code).c)
  {
    hide ToAll, FailEach, Sorted;
    AllSame(c.(phase := Ended, requests := map[], request := None, blocked := [], pending := map[]), PeerClosed(code));
  }

  predicate Early(e: ConnEvent) {
    e.Stream? || e.Datagram? || e.ResponseSeen? || e.RequestSeen? || e.PruneEarlyEvents?
  }

  predicate Everywhere(e: ConnEvent) {
    e.StreamsAvailable? || e.GoawaySeen? || e.CloseNicely? || e.Terminated?
  }

  lemma AtSame(c: Conn, session: SessionId, e: Event)
    requires session in c.sessions
    ensures SameBuffer(c, At(c, session, e).c) && At(c, session, e).c.sessions.Keys == c.sessions.Keys
  {
    hide Handle, Wrap;
  }

  lemma ByIndexSame(c: Conn, id: StreamId, e: Event)
    ensures SameBuffer(c, ByIndex(c, id, e).c)
  {
    hide At, NoStream;
    if id in c.index && c.index[id] in c.sessions {
      AtSame(c, c.index[id], e);
    } else if (e.PeerReset? || e.PeerStop?) && id in c.sessions {
      AtSame(c, id, AbortAll(e.code));
    }
  }

  lemma OpenAtSame(c: Conn, session: SessionId, id: StreamId, e: Event)
    requires session in c.sessions
    ensures SameBuffer(c, OpenAt(c, session, id, e).c)
  {
    hide At;
    AtSame(c, session, e);
  }

  predicate Routed(e: ConnEvent) {
    e.OnSession? || e.OnOneStream? || e.Bind?
  }

  lemma RoutedSame(c: Conn, e: ConnEvent)
    requires Routed(e)
    ensures SameBuffer(c, HandleConn(c, e).c)
  {
    hide At, ByIndex, OpenAt, NoSession, StreamArrived, DatagramArrived, Response, RequestArrived, MaxStreams, Goaway;
    hide CloseGracefully, Terminate, EE.Prune, Wrap, BindSession, CreateSession, FailSession, PruneSessions;
    hide CloseConnection;
    hide HandshakeDone, SettingsSeen;
    match e {
      case OnSession(session, event) =>
        if session in c.sessions {
          AtSame(c, session, event);
        }
      case OnOneStream(id, event) => ByIndexSame(c, id, event);
      case Bind(session, id, request, uni) =>
        if session in c.sessions {
          OpenAtSame(c, session, id, TransportBind(id, request, uni));
        }
    }
  }

  lemma TablesSame(c: Conn, e: ConnEvent)
    requires !Early(e) && !Everywhere(e) && !Routed(e)
    ensures SameBuffer(c, HandleConn(c, e).c)
  {
    hide ToSession, ByIndex, OpenAt, NoSession, StreamArrived, DatagramArrived, Response, RequestArrived, MaxStreams;
    hide Goaway;
    hide CloseGracefully, Terminate, EE.Prune, Wrap, BindSession, CreateSession, FailSession, PruneSessions;
    hide CloseConnection;
    hide HandshakeDone, SettingsSeen;
    match e {
      case SessionBound(id, request, made) => BoundSame(c, id, request, made);
      case PruneClosed => PrunedSame(c);
      case _ => ConnectionSame(c, e);
    }
  }

  lemma PrunedSame(c: Conn)
    ensures SameBuffer(c, PruneSessions(c))
  {
  }

  lemma QuietAccounted(c: Conn, e: ConnEvent, id: StreamId)
    requires BooksOk(c) && !Early(e)
    ensures StepAccounted(c, e, HandleConn(c, e), id)
  {
    assert !Hands(c, e) && Handed(c, e) == [] && Refused(c, e) == [] && Came(c, e, id) == 0;
    hide EE.Inv, EndsWith, Handed, Hands, Refused, Came, MaxStreams, Goaway, CloseGracefully, Terminate;
    hide ToSession, ByIndex, OpenAt, NoSession, StreamArrived, DatagramArrived, Response, RequestArrived;
    hide EE.Prune, Wrap, BindSession, CreateSession, FailSession, PruneSessions, CloseConnection, HandshakeDone;
    hide SettingsSeen;
    if Everywhere(e) {
      match e {
        case StreamsAvailable(uni) => MaxStreamsSame(c, uni);
        case GoawaySeen => GoawaySame(c);
        case CloseNicely(request) => GracefulSame(c, request);
        case Terminated(code) => TerminateSame(c, code);
      }
    } else if Routed(e) {
      RoutedSame(c, e);
    } else {
      TablesSame(c, e);
    }
    Untouched(c, HandleConn(c, e).c, id);
    EndsNot(HandleConn(c, e).out);
  }

  lemma StreamAccounted(c: Conn, session: SessionId, stream: StreamId, now: EE.Time, id: StreamId)
    requires BooksOk(c)
    ensures StepAccounted(c, Stream(session, stream, now), StreamArrived(c, session, stream, now), id)
  {
    hide EE.Inv, EE.Store, EE.Refuse, OpenAt, Wrap, EndsWith;
    var o := StreamArrived(c, session, stream, now);
    EndsNot(o.out);
    if session in c.sessions {
      OpenAtSame(c, session, stream, PeerOpened(stream));
      Untouched(c, o.c, id);
    } else {
      ArrivalAccounted(c, session, stream, now, id);
      EndsNow([], EE.Refuse(stream));
      assert [] + Wrap(EE.Refuse(stream)) == Wrap(EE.Refuse(stream));
    }
  }

  /** Every step of a connection keeps the buffer's books: its count is its contents and stays within both limits,
      and each stream in it stays, goes to its session, or is refused once. */
  lemma StepBooks(c: Conn, e: ConnEvent, id: StreamId)
    requires BooksOk(c)
    ensures StepAccounted(c, e, HandleConn(c, e), id)
  {
    hide StepAccounted, BooksOk, StreamArrived, DatagramArrived, Response, RequestArrived, EE.Prune, Wrap;
    hide ToSession, ByIndex, OpenAt, NoSession, MaxStreams, Goaway, CloseGracefully, Terminate, BindSession;
    hide CreateSession;
    hide FailSession, PruneSessions, CloseConnection, HandshakeDone, SettingsSeen;
    match e {
      case Stream(session, stream, now) => StreamAccounted(c, session, stream, now, id);
      case Datagram(session, data, now) => DatagramStep(c, session, data, now, id);
      case ResponseSeen(r, verdict, made) => ResponseAccounted(c, r, verdict, made, id);
      case RequestSeen(r, limit, valid, made) => RequestAccounted(c, r, limit, valid, made, id);
      case PruneEarlyEvents(now) => PruneAccounted(c, now, id);
      case _ => QuietAccounted(c, e, id);
    }
  }

  lemma DatagramStep(c: Conn, session: SessionId, data: Bytes, now: EE.Time, id: StreamId)
    requires BooksOk(c)
    ensures StepAccounted(c, Datagram(session, data, now), DatagramArrived(c, session, data, now), id)
  {
    hide BooksOk, DatagramArrived, EndsWith, Accounted;
    DatagramAccounted(c, session, data, now, id);
    EndsNot(DatagramArrived(c, session, data, now).out);
  }

  // ----- whole runs

  function HandedIn(c: Conn, es: seq<ConnEvent>, id: StreamId): nat
    decreases |es|
  {
    if es == [] then 0
    else EE.Size(EE.Openings(id), Handed(c, es[0])) + HandedIn(HandleConn(c, es[0]).c, es[1..], id)
  }

  function RefusedIn(c: Conn, es: seq<ConnEvent>, id: StreamId): nat
    decreases |es|
  {
    if es == [] then 0 else EE.Refusals(Refused(c, es[0]), id) + RefusedIn(HandleConn(c, es[0]).c, es[1..], id)
  }

  function CameIn(c: Conn, es: seq<ConnEvent>, id: StreamId): nat
    decreases |es|
  {
    if es == [] then 0 else Came(c, es[0], id) + CameIn(HandleConn(c, es[0]).c, es[1..], id)
  }

  /** The books of every step of a run. */
  ghost predicate RunAccounted(c: Conn, es: seq<ConnEvent>, id: StreamId)
    decreases |es|
  {
    es != [] ==> StepAccounted(c, es[0], HandleConn(c, es[0]), id) && RunAccounted(HandleConn(c, es[0]).c, es[1..], id)
  }

  /** In every run every stream that came before its session is buffered still, was handed to its session, which ran on
      it, or was refused: together exactly as often as it came. */
  lemma {:induction false} NothingLost(c: Conn, es: seq<ConnEvent>, id: StreamId)
    requires BooksOk(c)
    ensures BooksOk(SI.AfterConn(c, es)) && RunAccounted(c, es, id)
    ensures Buffered(SI.AfterConn(c, es), id) + HandedIn(c, es, id) + RefusedIn(c, es, id) == Buffered(c, id) + CameIn(c, es, id)
    decreases |es|
  {
    hide HandleConn, Handed, Refused, Came, BooksOk, Buffered, EndsWith, Hands, Delivered;
    if es != [] {
      StepBooks(c, es[0], id);
      NothingLost(HandleConn(c, es[0]).c, es[1..], id);
    }
  }

  // ----- early or late is the same

  /** All outputs of a run, in order. */
  function Outputs(c: Conn, es: seq<ConnEvent>): seq<Output>
    decreases |es|
  {
    if es == [] then [] else HandleConn(c, es[0]).out + Outputs(HandleConn(c, es[0]).c, es[1..])
  }

  function Arrival(session: SessionId, e: EE.Stamped): ConnEvent {
    match e.event
    case StreamIn(id) => Stream(session, id, e.at)
    case DatagramIn(data) => Datagram(session, data, e.at)
  }

  /** The arrival of a list of streams and datagrams, one by one. */
  function Arrivals(session: SessionId, events: seq<EE.Stamped>): seq<ConnEvent> {
    if events == [] then [] else [Arrival(session, events[0])] + Arrivals(session, events[1..])
  }

  /** The buffer has room for this many events of a session. */
  predicate Room(c: Conn, session: SessionId, n: nat) {
    c.early.count + n <= c.limits.perConnection && |EE.EventsOf(c.early, session)| + n <= c.limits.perSession
  }

  /** The connection with some events in the buffer. */
  function Holding(c: Conn, session: SessionId, events: seq<EE.Stamped>): Conn {
    if events == [] then c
    else c.(early := EE.Buffer(c.early.events[session := EE.EventsOf(c.early, session) + events], c.early.count + |events|))
  }

  lemma ArriveEarly(c: Conn, session: SessionId, e: EE.Stamped)
    requires session !in c.sessions && Room(c, session, 1)
    ensures HandleConn(c, Arrival(session, e)) == ConnStep(Holding(c, session, [e]), [])
  {
    var k := EE.Store(c.early, c.limits, session, e.event, e.at);
    assert e == EE.Stamped(e.at, e.event);
    assert k == EE.Kept(Holding(c, session, [e]).early, true);
  }

  lemma HoldingMore(c: Conn, session: SessionId, e: EE.Stamped, rest: seq<EE.Stamped>)
    ensures Holding(Holding(c, session, [e]), session, rest) == Holding(c, session, [e] + rest)
  {
    var mine := EE.EventsOf(c.early, session);
    if rest == [] {
      assert [e] + rest == [e];
    } else {
      assert mine + [e] + rest == mine + ([e] + rest);
      assert c.early.events[session := mine + [e]][session := mine + [e] + rest] == c.early.events[session := mine + ([e] + rest)];
    }
  }

  /** Arriving before the session: all is buffered, in order, and nothing is put out. */
  lemma {:induction false} AllBuffered(c: Conn, session: SessionId, events: seq<EE.Stamped>)
    requires session !in c.sessions && Room(c, session, |events|)
    ensures SI.AfterConn(c, Arrivals(session, events)) == Holding(c, session, events)
    ensures Outputs(c, Arrivals(session, events)) == []
    decreases |events|
  {
    hide HandleConn, Arrival;
    if events != [] {
      var d := Holding(c, session, [events[0]]);
      ArriveEarly(c, session, events[0]);
      assert Room(d, session, |events| - 1);
      AllBuffered(d, session, events[1..]);
      HoldingMore(c, session, events[0], events[1..]);
      assert [events[0]] + events[1..] == events;
      assert Arrivals(session, events)[1..] == Arrivals(session, events[1..]);
    }
  }

  lemma ArriveLate(c: Conn, session: SessionId, e: EE.Stamped)
    requires session in c.sessions
    ensures HandleConn(c, Arrival(session, e)) == HandOver(c, session, e.event)
  {
    hide At, OpenAt, EE.Store, EE.Refuse;
  }

  /** Arriving after the session: the same as a replay. */
  lemma {:induction false} AllDelivered(c: Conn, session: SessionId, events: seq<EE.Stamped>)
    requires session in c.sessions
    ensures ConnStep(SI.AfterConn(c, Arrivals(session, events)), Outputs(c, Arrivals(session, events)))
            == ReplayEach(c, session, events)
    decreases |events|
  {
    hide HandleConn, Arrival, HandOver, ReplayEach;
    if events == [] {
      ReplayNone(c, session);
    } else {
      var o := HandOver(c, session, events[0].event);
      ArriveLate(c, session, events[0]);
      HandOverOne(c, session, events[0].event);
      AllDelivered(o.c, session, events[1..]);
      ReplayStep(c, session, events);
      assert Arrivals(session, events)[1..] == Arrivals(session, events[1..]);
    }
  }

  lemma TakeBack(c: Conn, session: SessionId, events: seq<EE.Stamped>)
    requires session in c.sessions && session !in c.early.events
    ensures ReplayEarly(Holding(c, session, events), session) == ReplayEach(c, session, events)
  {
    hide ReplayEach;
    var d := Holding(c, session, events);
    if events == [] {
      ReplayNone(c, session);
    } else {
      assert [] + events == events;
      assert d.early.events - {session} == c.early.events;
      assert EE.Take(d.early, session) == EE.Taken(c.early, events);
      assert d.(early := c.early) == c;
    }
  }

  lemma RequestAdmitted(c: Conn, id: StreamId, limit: nat, valid: bool, made: SessionVal)
    requires Admits(c, id, limit, valid)
    ensures var o := ReplayEarly(Admitted(c, id, made), id);
            RequestArrived(c, id, limit, valid, made) == ConnStep(o.c, [SessionRequested(id)] + o.out)
  {
    hide ReplayEarly;
  }

  lemma HoldingAdmits(c: Conn, id: StreamId, limit: nat, valid: bool, events: seq<EE.Stamped>)
    requires Admits(c, id, limit, valid)
    ensures Admits(Holding(c, id, events), id, limit, valid)
  {
    var d := Holding(c, id, events);
    assert d.sessions == c.sessions && d.phase == c.phase && d.goawaySent == c.goawaySent;
  }

  lemma HoldingAdmitted(c: Conn, id: StreamId, made: SessionVal, events: seq<EE.Stamped>)
    ensures Admitted(Holding(c, id, events), id, made) == Holding(Admitted(c, id, made), id, events)
    ensures id in Admitted(c, id, made).sessions && Admitted(c, id, made).early == c.early
  {
    if events != [] {
      var b := EE.Buffer(c.early.events[id := EE.EventsOf(c.early, id) + events], c.early.count + |events|);
      assert Admitted(Holding(c, id, events), id, made) == c.(early := b, sessions := c.sessions[id := made]);
    }
  }

  /** Admitting a session commutes with buffering for it. */
  lemma AdmitHolding(c: Conn, id: StreamId, limit: nat, valid: bool, made: SessionVal, events: seq<EE.Stamped>)
    requires Admits(c, id, limit, valid) && id !in c.early.events
    ensures var d := Admitted(c, id, made);
            && id in d.sessions
            && RequestArrived(c, id, limit, valid, made) == ConnStep(d, [SessionRequested(id)])
            && RequestArrived(Holding(c, id, events), id, limit, valid, made) ==
               ConnStep(ReplayEach(d, id, events).c, [SessionRequested(id)] + ReplayEach(d, id, events).out)
  {
    hide ReplayEach, ReplayEarly, RequestArrived, Admitted, Admits;
    var d := Admitted(c, id, made);
    HoldingAdmits(c, id, limit, valid, events);
    HoldingAdmitted(c, id, made, events);
    RequestAdmitted(c, id, limit, valid, made);
    RequestAdmitted(Holding(c, id, events), id, limit, valid, made);
    TakeBack(d, id, events);
    TakeBack(d, id, []);
    ReplayNone(d, id);
    assert [SessionRequested(id)] + [] == [SessionRequested(id)];
  }

  lemma Dispatch(c: Conn, id: StreamId, limit: nat, valid: bool, made: SessionVal)
    ensures HandleConn(c, RequestSeen(id, limit, valid, made)) == RequestArrived(c, id, limit, valid, made)
    ensures HandleConn(c, ResponseSeen(id, Granted, made)) == Response(c, id, Granted, made)
  {
    hide RequestArrived, Response;
  }

  lemma AdmitsNew(c: Conn, id: StreamId, limit: nat, valid: bool)
    requires Admits(c, id, limit, valid)
    ensures id !in c.sessions
  {
  }

  /** For a server it makes no difference whether streams and datagrams arrive before the request for their session
      or after it: the connection ends in the same state and puts out the same. */
  lemma EarlyIsLate(c: Conn, id: StreamId, limit: nat, valid: bool, made: SessionVal, events: seq<EE.Stamped>)
    requires Admits(c, id, limit, valid) && id !in c.early.events && Room(c, id, |events|)
    ensures var request := RequestSeen(id, limit, valid, made);
            var early := SI.AfterConn(c, Arrivals(id, events));
            var late := HandleConn(c, request);
            && HandleConn(early, request).c == SI.AfterConn(late.c, Arrivals(id, events))
            && Outputs(c, Arrivals(id, events)) + HandleConn(early, request).out == late.out + Outputs(late.c, Arrivals(id, events))
  {
    AdmitsNew(c, id, limit, valid);
    hide RequestArrived, ReplayEach, Outputs, Arrivals, SI.AfterConn, Holding, Admitted, Admits, Room, HandleConn;
    Dispatch(c, id, limit, valid, made);
    Dispatch(Holding(c, id, events), id, limit, valid, made);
    AllBuffered(c, id, events);
    AdmitHolding(c, id, limit, valid, made, events);
    AllDelivered(Admitted(c, id, made), id, events);
  }

  /** Granting a session commutes with buffering for it. */
  lemma GrantHolding(c: Conn, id: StreamId, made: SessionVal, events: seq<EE.Stamped>)
    requires Expected(c, id) && id !in c.sessions && id !in c.early.events
    ensures var o := Judged(c, id, Granted, made);
            && Response(c, id, Granted, made) == o && id in o.c.sessions
            && Response(Holding(c, id, events), id, Granted, made) ==
               ConnStep(ReplayEach(o.c, id, events).c, o.out + ReplayEach(o.c, id, events).out)
  {
    hide ReplayEach, ReplayEarly, Response, Judged;
    var o := Judged(c, id, Granted, made);
    JudgedBuffer(c, id, Granted, made);
    JudgedHolding(c, id, made, events);
    ResponseJudged(c, id, Granted, made);
    ResponseJudged(Holding(c, id, events), id, Granted, made);
    TakeBack(o.c, id, events);
    TakeBack(o.c, id, []);
    ReplayNone(o.c, id);
    assert o.out + [] == o.out;
  }

  lemma JudgedHolding(c: Conn, id: StreamId, made: SessionVal, events: seq<EE.Stamped>)
    requires Expected(c, id) && id !in c.sessions
    ensures var o := Judged(c, id, Granted, made);
            Expected(Holding(c, id, events), id) && Judged(Holding(c, id, events), id, Granted, made) == o.(c := Holding(o.c, id, events))
  {
    hide Handle, Wrap;
  }

  /** The same for a client and the response that grants the session. */
  lemma EarlyIsLateGranted(c: Conn, id: StreamId, made: SessionVal, events: seq<EE.Stamped>)
    requires Expected(c, id) && id !in c.sessions && id !in c.early.events && Room(c, id, |events|)
    ensures var response := ResponseSeen(id, Granted, made);
            var early := SI.AfterConn(c, Arrivals(id, events));
            var late := HandleConn(c, response);
            && HandleConn(early, response).c == SI.AfterConn(late.c, Arrivals(id, events))
            && Outputs(c, Arrivals(id, events)) + HandleConn(early, response).out == late.out + Outputs(late.c, Arrivals(id, events))
  {
    hide Response, ReplayEach, Outputs, Arrivals, SI.AfterConn, Holding, Judged, HandleConn;
    Dispatch(c, id, 0, true, made);
    Dispatch(Holding(c, id, events), id, 0, true, made);
    AllBuffered(c, id, events);
    GrantHolding(c, id, made, events);
    AllDelivered(Judged(c, id, Granted, made).c, id, events);
  }
}
