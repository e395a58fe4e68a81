/** A connection: its sessions, the index from streams to sessions, the buffer of early events, and the requests
    for new sessions. */
module Connections {
  import opened Types
  import opened Streams
  import opened Sessions
  import opened Traces
  import opened SessionInvariant
  import EE = EarlyEvents

  datatype ConnPhase = Idle | Handshaking | Established | Ending | Ended

  datatype Conn = Conn(
    isClient: bool,
    phase: ConnPhase,
    handshakeDone: bool,
    settingsSeen: bool,
    goawaySent: bool,
    goawayReceived: bool,
    request: Option<RequestId>,
    sessions: map<SessionId, SessionVal>,
    index: map<StreamId, SessionId>,
    requests: map<RequestId, bool>,
    blocked: seq<RequestId>,
    pending: map<StreamId, RequestId>,
    early: EE.Buffer,
    limits: EE.Limits)

  function NewConn(isClient: bool, limits: EE.Limits, request: Option<RequestId>): Conn {
    Conn(isClient, Idle, false, false, false, false, request, map[], map[], map[], [], map[], EE.Buffer(map[], 0), limits)
  }

  datatype Output =
    | Fx(effect: Effect)
    | OpenConnectStream(request: RequestId)
    | SessionPending(session: SessionId)
    | SessionRequested(session: SessionId)
    | SessionMade(request: RequestId, session: SessionId)
    | OpenLocalStreams
    | SendGoaway
    | CloseQuic
    | ConnectionUp(opener: Option<RequestId>)
    | ConnectionDown

  datatype ConnStep = ConnStep(c: Conn, out: seq<Output>)

  function Wrap(fx: seq<Effect>): seq<Output> {
    if fx == [] then [] else [Fx(fx[0])] + Wrap(fx[1..])
  }

  // ----- reaching a session

  function At(c: Conn, session: SessionId, e: Event): ConnStep
    requires session in c.sessions
  {
    var o := Handle(c.sessions[session], e);
    ConnStep(c.(sessions := c.sessions[session := o.s]), Wrap(o.fx))
  }

  predicate HasStream(c: Conn, session: SessionId, id: StreamId) {
    session in c.sessions && id in c.sessions[session].streams
  }

  /** Events that may bring a stream to life: the index learns of it. */
  function OpenAt(c: Conn, session: SessionId, id: StreamId, e: Event): ConnStep
    requires session in c.sessions
  {
    var o := At(c, session, e);
    if HasStream(o.c, session, id) then o.(c := o.c.(index := o.c.index[id := session])) else o
  }

  /** The answer when the session named by a request does not exist. */
  function NoSession(e: Event): seq<Output> {
    match e
    case UserAccept(r, _) => [Fx(Failed(r, Some(ERR_LIB_SESSION_STATE_ERROR)))]
    case UserReject(r, _) => [Fx(Failed(r, Some(ERR_LIB_SESSION_STATE_ERROR)))]
    case UserClose(r, _, _) => [Fx(Done(r, Nothing))]
    case UserCreate(r, _) => [Fx(Failed(r, Some(ERR_LIB_SESSION_STATE_ERROR)))]
    case UserReadDatagram(r) => [Fx(Failed(r, Some(ERR_LIB_SESSION_STATE_ERROR)))]
    case UserSendDatagram(r, _, _) => [Fx(Failed(r, Some(ERR_LIB_SESSION_STATE_ERROR)))]
    case TransportBind(_, r, _) => [Fx(Failed(r, Some(ERR_LIB_SESSION_STATE_ERROR)))]
    case TransportDefer(r, _) => [Fx(Failed(r, Some(ERR_LIB_SESSION_STATE_ERROR)))]
    case _ => []
  }

  function ToSession(c: Conn, session: SessionId, e: Event): ConnStep {
    if session in c.sessions then At(c, session, e) else ConnStep(c, NoSession(e))
  }

  /** The answer when the stream named by a request is not known. */
  function NoStream(e: Event): seq<Output> {
    match e
    case UserRead(_, r, _) => [Fx(Failed(r, Some(ERR_LIB_STREAM_STATE_ERROR)))]
    case UserWrite(_, r, data, fin) =>
      [Fx(if data == [] && fin then Done(r, Nothing) else Failed(r, Some(ERR_LIB_STREAM_STATE_ERROR)))]
    case UserReset(_, r, _) => [Fx(Done(r, Nothing))]
    case UserStop(_, r, _) => [Fx(Done(r, Nothing))]
    case _ => []
  }

  /** Reach a stream through the index; an entry whose stream is gone is dropped. */
  function ByIndex(c: Conn, id: StreamId, e: Event): ConnStep {
    if id in c.index && c.index[id] in c.sessions then
      var o := At(c, c.index[id], e);
      if HasStream(o.c, c.index[id], id) then o else o.(c := o.c.(index := o.c.index - {id}))
    else if (e.PeerReset? || e.PeerStop?) && id in c.sessions then At(c, id, AbortAll(e.code))
    else ConnStep(c, NoStream(e))
  }

  /** One event for each of several sessions, in order. */
  function ToEach(c: Conn, sessions: seq<SessionId>, e: Event): ConnStep
    decreases |sessions|
  {
    if sessions == [] then ConnStep(c, [])
    else
      var head := if sessions[0] in c.sessions then At(c, sessions[0], e) else ConnStep(c, []);
      var rest := ToEach(head.c, sessions[1..], e);
      ConnStep(rest.c, head.out + rest.out)
  }

  function ToAll(c: Conn, e: Event): ConnStep {
    ToEach(c, Sorted(c.sessions.Keys), e)
  }

  // ----- streams and datagrams that may be early

  function StreamArrived(c: Conn, session: SessionId, id: StreamId, now: EE.Time): ConnStep {
    if session in c.sessions then OpenAt(c, session, id, PeerOpened(id))
    else
      var k := EE.Store(c.early, c.limits, session, EE.StreamIn(id), now);
      ConnStep(c.(early := k.buffer), if k.accepted then [] else Wrap(EE.Refuse(id)))
  }

  function DatagramArrived(c: Conn, session: SessionId, data: Bytes, now: EE.Time): ConnStep {
    if session in c.sessions then At(c, session, PeerDatagram(data))
    else ConnStep(c.(early := EE.Store(c.early, c.limits, session, EE.DatagramIn(data), now).buffer), [])
  }

  /** Hand the buffered events of a session over, in order, now that it exists. */
  function ReplayEach(c: Conn, session: SessionId, events: seq<EE.Stamped>): ConnStep
    decreases |events|
  {
    if events == [] || session !in c.sessions then ConnStep(c, [])
    else
      var head := match events[0].event
                  case StreamIn(id) => OpenAt(c, session, id, PeerOpened(id))
                  case DatagramIn(data) => At(c, session, PeerDatagram(data));
      var rest := ReplayEach(head.c, session, events[1..]);
      ConnStep(rest.c, head.out + rest.out)
  }

  function ReplayEarly(c: Conn, session: SessionId): ConnStep {
    var t := EE.Take(c.early, session);
    var d := c.(early := t.buffer);
    if session in c.sessions then ReplayEach(d, session, t.events) else ConnStep(d, Wrap(EE.RefuseAll(t.events)))
  }

  // ----- sessions

  function Fail(request: RequestId, error: Option<ErrorCode>): Output {
    Fx(Failed(request, error))
  }

  /** `limit` is the number of sessions allowed at once, zero for no limit; `valid` stands for the checks on the
      headers and protocol names of the request. */
  function CreateSession(c: Conn, request: RequestId, optimistic: bool, limit: nat, valid: bool): ConnStep {
    if !c.isClient then ConnStep(c, [Fail(request, None)])
    else if c.phase != Established || c.goawayReceived then ConnStep(c, [Fail(request, Some(ERR_LIB_CONNECTION_STATE_ERROR))])
    else if limit > 0 && |c.sessions| + |c.requests| >= limit then
      ConnStep(c, [Fail(request, Some(ERR_LIB_CONNECTION_STATE_ERROR))])
    else if !valid then ConnStep(c, [Fail(request, None)])
    else ConnStep(c.(requests := c.requests[request := optimistic]), [OpenConnectStream(request)])
  }

  function BindSession(c: Conn, id: StreamId, request: RequestId, made: SessionVal): ConnStep {
    var d := c.(pending := c.pending[id := request]);
    if request in c.requests && c.requests[request] then
      ConnStep(d.(requests := c.requests - {request}, sessions := c.sessions[id := made]),
               [SessionPending(id), SessionMade(request, id)])
    else ConnStep(d, [])
  }

  function FailSession(c: Conn, request: RequestId, error: Option<ErrorCode>): ConnStep {
    ConnStep(c.(requests := c.requests - {request}), [Fail(request, error)])
  }

  const ERR_LIB_INTERNAL_ERROR: ErrorCode := 0x1000_0001
  const ERR_WT_ALPN_ERROR: ErrorCode := 0x0817_B3DD
  const ERR_H3_REQUEST_REJECTED: ErrorCode := 0x010B

  /** What the server's response headers say: the session is granted, it is granted with a protocol that was not
      offered, or it is refused. */
  datatype Verdict = Granted | WrongProtocol | Rejected

  function Turned(c: Conn, id: StreamId, request: RequestId, code: ErrorCode): ConnStep {
    if id in c.sessions then At(c, id, AbortAll(code))
    else
      ConnStep(c.(requests := c.requests - {request}),
               [Fail(request, Some(code)), Fx(StopQuicStream(id, code)), Fx(ResetQuicStream(id, code))])
  }

  function Confirmed(c: Conn, id: StreamId, request: RequestId, made: SessionVal): ConnStep {
    if id in c.sessions then At(c, id, PeerConfirmed)
    else if request in c.requests then
      var d := c.(requests := c.requests - {request}, sessions := c.sessions[id := made]);
      var o := At(d, id, PeerConfirmed);
      o.(out := o.out + [SessionMade(request, id)])
    else ConnStep(c, [])
  }

  function Response(c: Conn, id: StreamId, verdict: Verdict, made: SessionVal): ConnStep {
    if id !in c.pending then ConnStep(c, [])
    else
      var request := c.pending[id];
      var d := c.(pending := c.pending - {id});
      if id !in c.sessions && request !in c.requests then ConnStep(d, [Fail(request, Some(ERR_LIB_INTERNAL_ERROR))])
      else
        match verdict
        case WrongProtocol => Turned(d, id, request, ERR_WT_ALPN_ERROR)
        case Granted =>
          var o := Confirmed(d, id, request, made);
          var r := ReplayEarly(o.c, id);
          ConnStep(r.c, o.out + r.out)
        case Rejected =>
          var o := Turned(d.(requests := d.requests - {request}), id, request, ERR_H3_REQUEST_REJECTED);
          var r := ReplayEarly(o.c, id);
          ConnStep(r.c, o.out + r.out)
  }

  function Turn429(id: StreamId): seq<Output> {
    [Fx(SendHeaders(true)), Fx(StopQuicStream(id, ERR_H3_REQUEST_REJECTED))]
  }

  /** `valid` stands for the checks on the request headers. */
  function RequestArrived(c: Conn, id: StreamId, limit: nat, valid: bool, made: SessionVal): ConnStep {
    if id in c.sessions then ConnStep(c, [])
    else if c.phase != Established || c.goawaySent || (limit > 0 && |c.sessions| >= limit) || !valid then ConnStep(c, Turn429(id))
    else
      var o := ReplayEarly(c.(sessions := c.sessions[id := made]), id);
      o.(out := [SessionRequested(id)] + o.out)
  }

  function WrapRequests(requests: seq<RequestId>, known: map<RequestId, bool>): seq<Output> {
    if requests == [] then []
    else (if requests[0] in known then [OpenConnectStream(requests[0])] else []) + WrapRequests(requests[1..], known)
  }

  function MaxStreams(c: Conn, uni: bool): ConnStep {
    var again := if uni then [] else WrapRequests(c.blocked, c.requests);
    var o := ToAll(if uni then c else c.(blocked := []), TransportMaxStreams(uni));
    ConnStep(o.c, again + o.out)
  }

  function FailEach(requests: seq<RequestId>): seq<Output> {
    if requests == [] then [] else [Fail(requests[0], Some(ERR_LIB_CONNECTION_STATE_ERROR))] + FailEach(requests[1..])
  }

  function Goaway(c: Conn): ConnStep {
    var gone := set r | r in c.blocked;
    var o := ToAll(c.(goawayReceived := true, blocked := [], requests := c.requests - gone), DrainAll);
    ConnStep(o.c, FailEach(c.blocked) + o.out)
  }

  function CloseGracefully(c: Conn, request: RequestId): ConnStep {
    if c.phase != Established then ConnStep(c, [Fx(Done(request, Nothing))])
    else
      var o := ToAll(c.(goawaySent := true), DrainAll);
      ConnStep(o.c, (if c.goawaySent then [] else [SendGoaway]) + o.out + [Fx(Done(request, Nothing))])
  }

  /** Forget the closed sessions, and what the index still says of them. */
  function PruneSessions(c: Conn): Conn {
    var closed := set s | s in c.sessions && c.sessions[s].phase == Closed;
    c.(sessions := c.sessions - closed, index := map id | id in c.index && c.index[id] !in closed :: c.index[id])
  }

  // ----- the connection itself

  function Answer(request: Option<RequestId>): seq<Output> {
    if request.Some? then [Fx(Done(request.value, Nothing))] else []
  }

  function CloseConnection(c: Conn, request: Option<RequestId>): ConnStep {
    if c.phase == Ended || c.phase == Ending then ConnStep(c, Answer(request))
    else ConnStep(c.(phase := Ending), [CloseQuic] + Answer(request))
  }

  /** The end: every session is closed and every request for a session fails, in order. */
  function Terminate(c: Conn, code: ErrorCode): ConnStep {
    if c.phase == Ended then ConnStep(c, [])
    else
      var waiting := Sorted(c.requests.Keys + if c.request.Some? then {c.request.value} else {});
      var o := ToAll(c.(phase := Ended, requests := map[], request := None, blocked := [], pending := map[]), PeerClosed(code));
      ConnStep(o.c, o.out + [ConnectionDown] + FailEach(waiting))
  }

  function Open(c: Conn): ConnStep {
    ConnStep(c.(phase := Established, request := None), [ConnectionUp(c.request)])
  }

  function HandshakeDone(c: Conn): ConnStep {
    if c.phase != Idle && c.phase != Handshaking then ConnStep(c, [])
    else
      var d := c.(phase := Handshaking, handshakeDone := true);
      if !c.isClient || c.settingsSeen then
        var o := Open(d);
        o.(out := [OpenLocalStreams] + o.out)
      else ConnStep(d, [OpenLocalStreams])
  }

  function SettingsSeen(c: Conn): ConnStep {
    var d := c.(settingsSeen := true);
    if c.phase == Handshaking && c.handshakeDone then Open(d) else ConnStep(d, [])
  }

  // ----- one step

  datatype ConnEvent =
    | OnSession(session: SessionId, event: Event)
    | OnOneStream(stream: StreamId, event: Event)
    | Bind(session: SessionId, stream: StreamId, request: RequestId, uni: bool)
    | Stream(session: SessionId, stream: StreamId, now: EE.Time)
    | Datagram(session: SessionId, data: Bytes, now: EE.Time)
    | MakeSession(request: RequestId, optimistic: bool, limit: nat, valid: bool)
    | SessionBound(stream: StreamId, request: RequestId, made: SessionVal)
    | SessionDeferred(request: RequestId)
    | SessionFailed(request: RequestId, error: Option<ErrorCode>)
    | ResponseSeen(stream: StreamId, verdict: Verdict, made: SessionVal)
    | RequestSeen(stream: StreamId, limit: nat, valid: bool, made: SessionVal)
    | StreamsAvailable(uni: bool)
    | GoawaySeen
    | CloseNicely(request: RequestId)
    | PruneEarlyEvents(now: EE.Time)
    | PruneClosed
    | CloseNow(asker: Option<RequestId>)
    | Terminated(code: ErrorCode)
    | Handshake
    | SettingsArrived

  function HandleConn(c: Conn, e: ConnEvent): ConnStep {
    match e
    case OnSession(session, event) => ToSession(c, session, event)
    case OnOneStream(id, event) => ByIndex(c, id, event)
    case Bind(session, id, request, uni) =>
      if session in c.sessions then OpenAt(c, session, id, TransportBind(id, request, uni))
      else ConnStep(c, NoSession(TransportBind(id, request, uni)))
    case Stream(session, id, now) => StreamArrived(c, session, id, now)
    case Datagram(session, data, now) => DatagramArrived(c, session, data, now)
    case MakeSession(request, optimistic, limit, valid) => CreateSession(c, request, optimistic, limit, valid)
    case SessionBound(id, request, made) => BindSession(c, id, request, made)
    case SessionDeferred(request) => ConnStep(c.(blocked := c.blocked + [request]), [])
    case SessionFailed(request, error) => FailSession(c, request, error)
    case ResponseSeen(id, verdict, made) => Response(c, id, verdict, made)
    case RequestSeen(id, limit, valid, made) => RequestArrived(c, id, limit, valid, made)
    case StreamsAvailable(uni) => MaxStreams(c, uni)
    case GoawaySeen => Goaway(c)
    case CloseNicely(request) => CloseGracefully(c, request)
    case PruneEarlyEvents(now) =>
      var p := EE.Prune(c.early, c.limits, now);
      ConnStep(c.(early := p.buffer), Wrap(p.fx))
    case PruneClosed => ConnStep(PruneSessions(c), [])
    case CloseNow(request) => CloseConnection(c, request)
    case Terminated(code) => Terminate(c, code)
    case Handshake => HandshakeDone(c)
    case SettingsArrived => SettingsSeen(c)
  }

  // ----- what the steps about the connection itself leave alone

  ghost predicate SameBuffer(c: Conn, d: Conn) {
    d.early == c.early && d.limits == c.limits
  }

  ghost predicate SameTables(c: Conn, d: Conn) {
    d.sessions == c.sessions && d.index == c.index && SameBuffer(c, d)
  }

  lemma CreateSame(c: Conn, request: RequestId, optimistic: bool, limit: nat, valid: bool)
    ensures SameTables(c, CreateSession(c, request, optimistic, limit, valid).c)
  {
  }

  lemma FailSame(c: Conn, request: RequestId, error: Option<ErrorCode>)
    ensures SameTables(c, FailSession(c, request, error).c)
  {
  }

  lemma CloseSame(c: Conn, request: Option<RequestId>)
    ensures SameTables(c, CloseConnection(c, request).c)
  {
    hide Answer;
    if c.phase == Ended || c.phase == Ending {
      assert CloseConnection(c, request).c == c;
    } else {
      assert CloseConnection(c, request).c == c.(phase := Ending);
    }
  }

  lemma HandshakeSame(c: Conn)
    ensures SameTables(c, HandshakeDone(c).c)
  {
    if c.phase != Idle && c.phase != Handshaking {
      assert HandshakeDone(c).c == c;
    } else if !c.isClient || c.settingsSeen {
      assert HandshakeDone(c).c == c.(phase := Established, handshakeDone := true, request := None);
    } else {
      assert HandshakeDone(c).c == c.(phase := Handshaking, handshakeDone := true);
    }
  }

  lemma SettingsSame(c: Conn)
    ensures SameTables(c, SettingsSeen(c).c)
  {
    if c.phase == Handshaking && c.handshakeDone {
      assert SettingsSeen(c).c == c.(phase := Established, settingsSeen := true, request := None);
    } else {
      assert SettingsSeen(c).c == c.(settingsSeen := true);
    }
  }

  lemma BoundSame(c: Conn, id: StreamId, request: RequestId, made: SessionVal)
    ensures SameBuffer(c, BindSession(c, id, request, made).c)
  {
    if request in c.requests && c.requests[request] {
      assert BindSession(c, id, request, made).c ==
             c.(pending := c.pending[id := request], requests := c.requests - {request}, sessions := c.sessions[id := made]);
    } else {
      assert BindSession(c, id, request, made).c == c.(pending := c.pending[id := request]);
    }
  }

  predicate AboutConnection(e: ConnEvent) {
    e.MakeSession? || e.SessionDeferred? || e.SessionFailed? || e.CloseNow? || e.Handshake? || e.SettingsArrived?
  }

  lemma ConnectionSame(c: Conn, e: ConnEvent)
    requires AboutConnection(e)
    ensures SameTables(c, HandleConn(c, e).c)
  {
    hide EE.Prune, Wrap, ToSession, ByIndex, OpenAt, NoSession, StreamArrived, DatagramArrived, BindSession, Response;
    hide RequestArrived, MaxStreams, Goaway, CloseGracefully, PruneSessions, Terminate, CreateSession, FailSession;
    hide CloseConnection, HandshakeDone, SettingsSeen;
    match e {
      case MakeSession(request, optimistic, limit, valid) => CreateSame(c, request, optimistic, limit, valid);
      case SessionFailed(request, error) => FailSame(c, request, error);
      case CloseNow(request) => CloseSame(c, request);
      case SessionDeferred(_) =>
      case Handshake => HandshakeSame(c);
      case SettingsArrived => SettingsSame(c);
    }
  }
}
