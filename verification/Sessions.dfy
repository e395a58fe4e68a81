/** A WebTransport session as a state machine: flow control of section 5 of draft-ietf-webtrans-http3,
    buffering until the session is confirmed, and teardown. */
module Sessions {
  import opened Types
  import opened Streams
  import Varint
  import Utf8

  datatype Phase = Connecting | Connected | Draining | Closing | Closed

  datatype Config = Config(
    id: SessionId,
    isClient: bool,
    flowControl: bool,
    receiveWindow: nat,
    maxPendingCapsules: nat,
    maxPendingDatagrams: nat,
    maxPendingStreams: nat,
    maxWriteBufferSize: nat)

  /** Credit for sending: bytes sent, the peer's limit, and the streams waiting for more. */
  datatype SendCredit = SendCredit(
    sent: nat,
    limit: nat,
    lastBlocked: Option<nat>,
    blocked: set<StreamId>,
    queue: seq<StreamId>)

  /** Credit granted to the peer. */
  datatype ReceiveCredit = ReceiveCredit(received: nat, consumed: nat, limit: nat)

  /** Stream-count credit of one kind, in both directions. `issued` is a machine word in the source;
      deferral subtracts from it, so it is an `int` here. */
  datatype Quota = Quota(
    issued: int,
    peerMax: nat,
    waiting: seq<RequestId>,
    lastBlocked: Option<nat>,
    initial: nat,
    localMax: nat,
    peerOpened: nat,
    peerClosed: nat)

  datatype SessionVal = SessionVal(
    cfg: Config,
    phase: Phase,
    credit: SendCredit,
    window: ReceiveCredit,
    bidi: Quota,
    uni: Quota,
    capsules: seq<Capsule>,
    datagramRequests: seq<RequestId>,
    datagrams: seq<Bytes>,
    pendingStreams: seq<StreamId>,
    streams: map<StreamId, StreamVal>)

  datatype Step = Step(s: SessionVal, fx: seq<Effect>)
  datatype CreditStep = CreditStep(c: SendCredit, fx: seq<Effect>)
  datatype WindowStep = WindowStep(w: ReceiveCredit, fx: seq<Effect>)
  datatype QuotaStep = QuotaStep(q: Quota, fx: seq<Effect>)

  function NewQuota(initial: nat, peerMax: nat): Quota {
    Quota(0, peerMax, [], None, initial, initial, 0, 0)
  }

  function NewSession(cfg: Config, initialMaxData: nat, initialBidi: nat, initialUni: nat,
                      peerMaxData: nat, peerBidi: nat, peerUni: nat): SessionVal {
    SessionVal(cfg, Connecting, SendCredit(0, peerMaxData, None, {}, []), ReceiveCredit(0, 0, initialMaxData),
               NewQuota(initialBidi, peerBidi), NewQuota(initialUni, peerUni), [], [], [], [], map[])
  }

  predicate IsOpen(s: SessionVal) {
    s.phase == Connecting || s.phase == Connected || s.phase == Draining
  }

  function QuotaOf(s: SessionVal, uni: bool): Quota {
    if uni then s.uni else s.bidi
  }

  function WithQuota(s: SessionVal, uni: bool, q: Quota): SessionVal {
    if uni then s.(uni := q) else s.(bidi := q)
  }

  /** A limit-carrying capsule, or nothing when the varint encoder refuses the limit. */
  function LimitCapsule(kind: nat, limit: nat): seq<Effect> {
    match Varint.Write(limit)
    case None => []
    case Some(bytes) => [SendCapsule(Capsule(kind, bytes), false)]
  }

  // ----- credit for sending

  function AvailableCredit(cfg: Config, c: SendCredit): nat {
    if cfg.flowControl then SatSub(c.limit, c.sent) else U64_MAX
  }

  function NoteBlocked(c: SendCredit, id: StreamId): SendCredit {
    if id in c.blocked then c else c.(blocked := c.blocked + {id}, queue := c.queue + [id])
  }

  function EmitDataBlocked(cfg: Config, c: SendCredit): CreditStep {
    if cfg.flowControl && c.sent >= c.limit && c.blocked != {} && (c.lastBlocked.None? || c.limit > c.lastBlocked.value)
    then CreditStep(c.(lastBlocked := Some(c.limit)), LimitCapsule(CAPSULE_DATA_BLOCKED, c.limit))
    else CreditStep(c, [])
  }

  /** Account for a stream operation that may have sent data. */
  function AfterSend(s: SessionVal, id: StreamId, o: Outcome): Step {
    var metered := s.credit.(sent := s.credit.sent + o.sent);
    var noted := if IsBlocked(o.st) then NoteBlocked(metered, id) else metered;
    var e := EmitDataBlocked(s.cfg, noted);
    Step(s.(streams := s.streams[id := o.st], credit := e.c), o.fx + e.fx)
  }

  function WriteStream(s: SessionVal, id: StreamId, request: RequestId, data: Bytes, fin: bool): Step {
    if id !in s.streams then
      Step(s, [if data == [] && fin then Done(request, Nothing) else Failed(request, Some(ERR_LIB_STREAM_STATE_ERROR))])
    else
      AfterSend(s, id, Write(s.streams[id], request, data, fin, AvailableCredit(s.cfg, s.credit)))
  }

  function CompleteStreamWrite(s: SessionVal, id: StreamId): Step {
    if id !in s.streams then Step(s, [])
    else AfterSend(s, id, CompleteWrite(s.streams[id], AvailableCredit(s.cfg, s.credit)))
  }

  datatype Turn = Turn(s: SessionVal, fx: seq<Effect>, stop: bool)

  /** Take the first stream from the blocked queue and flush it, unless no credit is left. */
  function FirstTurn(s: SessionVal): Turn
    requires s.credit.queue != []
  {
    var id := s.credit.queue[0];
    var popped := s.credit.(queue := s.credit.queue[1..], blocked := s.credit.blocked - {id});
    if AvailableCredit(s.cfg, popped) == 0 then
      Turn(s.(credit := popped.(queue := [id] + popped.queue, blocked := popped.blocked + {id})), [], true)
    else if id !in s.streams then Turn(s.(credit := popped), [], false)
    else
      var o := FlushWrites(s.streams[id], AvailableCredit(s.cfg, popped));
      var metered := popped.(sent := popped.sent + o.sent);
      var noted := if IsBlocked(o.st) then metered.(queue := metered.queue + [id], blocked := metered.blocked + {id})
                   else metered;
      Turn(s.(streams := s.streams[id := o.st], credit := noted), o.fx, false)
  }

  /** Serve up to n streams from the front of the blocked queue, until credit runs out. */
  function FlushQueue(s: SessionVal, n: nat): Step
    decreases n
  {
    if n == 0 || s.credit.queue == [] then Step(s, [])
    else
      var t := FirstTurn(s);
      if t.stop then Step(t.s, t.fx)
      else
        var rest := FlushQueue(t.s, n - 1);
        Step(rest.s, t.fx + rest.fx)
  }

  function FlushBlockedWrites(s: SessionVal): Step {
    if s.cfg.flowControl && s.credit.sent >= s.credit.limit then Step(s, [])
    else
      var flushed := FlushQueue(s, |s.credit.queue|);
      var e := EmitDataBlocked(flushed.s.cfg, flushed.s.credit);
      Step(flushed.s.(credit := e.c), flushed.fx + e.fx)
  }

  // ----- credit granted to the peer

  predicate MayGrant(s: SessionVal) {
    s.cfg.flowControl && (s.phase == Connected || s.phase == Draining || (s.phase == Connecting && s.cfg.isClient))
  }

  function ReplenishWindow(w: ReceiveCredit, receiveWindow: nat, force: bool): WindowStep {
    var target := SatAdd(w.consumed, receiveWindow);
    if target <= SatAdd(w.limit, if force then 0 else receiveWindow / 2) || Varint.Write(target).None? then
      WindowStep(w, [])
    else WindowStep(w.(limit := target), LimitCapsule(CAPSULE_MAX_DATA, target))
  }

  function ReplenishData(s: SessionVal, force: bool): Step {
    if !MayGrant(s) then Step(s, [])
    else
      var g := ReplenishWindow(s.window, s.cfg.receiveWindow, force);
      Step(s.(window := g.w), g.fx)
  }

  function ReplenishQuota(q: Quota, uni: bool, force: bool): QuotaStep {
    var target := SatAdd(q.peerClosed, q.initial);
    if target <= q.localMax || target < SatAdd(q.localMax, if force then 0 else q.initial / 2)
       || Varint.Write(target).None? then QuotaStep(q, [])
    else QuotaStep(q.(localMax := target), LimitCapsule(if uni then CAPSULE_MAX_STREAMS_UNI else CAPSULE_MAX_STREAMS_BIDI, target))
  }

  function ReplenishStreams(s: SessionVal, uni: bool, force: bool): Step {
    if !MayGrant(s) then Step(s, [])
    else
      var g := ReplenishQuota(QuotaOf(s, uni), uni, force);
      Step(WithQuota(s, uni, g.q), g.fx)
  }

  // ----- streams of our own

  function EmitStreamsBlocked(q: Quota, flowControl: bool, uni: bool): QuotaStep {
    if !flowControl || q.waiting == [] || q.issued < q.peerMax || (q.lastBlocked.Some? && q.peerMax <= q.lastBlocked.value)
       || Varint.Write(q.peerMax).None? then QuotaStep(q, [])
    else QuotaStep(q.(lastBlocked := Some(q.peerMax)),
                   LimitCapsule(if uni then CAPSULE_STREAMS_BLOCKED_UNI else CAPSULE_STREAMS_BLOCKED_BIDI, q.peerMax))
  }

  function CreateStream(s: SessionVal, request: RequestId, uni: bool): Step {
    if !IsOpen(s) then Step(s, [Failed(request, Some(ERR_LIB_SESSION_STATE_ERROR))])
    else
      var q := QuotaOf(s, uni);
      if s.cfg.flowControl && q.issued >= q.peerMax then
        var e := EmitStreamsBlocked(q.(waiting := q.waiting + [request]), s.cfg.flowControl, uni);
        Step(WithQuota(s, uni, e.q), e.fx)
      else Step(WithQuota(s, uni, q.(issued := q.issued + 1)), [CreateQuicStream(request, uni)])
  }

  function DeferStream(s: SessionVal, request: RequestId, uni: bool): Step {
    if !IsOpen(s) then Step(s, [Failed(request, Some(ERR_LIB_SESSION_STATE_ERROR))])
    else
      var q := QuotaOf(s, uni);
      Step(WithQuota(s, uni, q.(issued := q.issued - 1, waiting := q.waiting + [request])), [])
  }

  /** Reissue waiting stream requests while the peer's limit allows. */
  function Reissue(q: Quota, flowControl: bool, uni: bool): QuotaStep
    decreases |q.waiting|
  {
    if q.waiting == [] || (flowControl && q.issued >= q.peerMax) then QuotaStep(q, [])
    else
      var rest := Reissue(q.(issued := q.issued + 1, waiting := q.waiting[1..]), flowControl, uni);
      QuotaStep(rest.q, [CreateQuicStream(q.waiting[0], uni)] + rest.fx)
  }

  function FlushStreamRequests(s: SessionVal, uni: bool): Step {
    var r := Reissue(QuotaOf(s, uni), s.cfg.flowControl, uni);
    var e := EmitStreamsBlocked(r.q, s.cfg.flowControl, uni);
    Step(WithQuota(s, uni, e.q), r.fx + e.fx)
  }

  function BindStream(s: SessionVal, id: StreamId, request: RequestId, uni: bool): Step {
    var direction := if uni then SendOnly else Bidirectional;
    if !IsOpen(s) then
      Step(s, [ResetQuicStream(id, ERR_WT_SESSION_GONE)]
              + (if uni then [] else [StopQuicStream(id, ERR_WT_SESSION_GONE)])
              + [Failed(request, Some(ERR_LIB_SESSION_STATE_ERROR))])
    else
      Step(s.(streams := s.streams[id := NewStream(id, direction, false, s.cfg.maxWriteBufferSize)]),
           [EmitStream(id, Opened(false, direction)), Done(request, BoundStream(id))])
  }

  // ----- closing streams

  /** Hide the stream events of a stream whose opening was never shown. */
  function Suppress(s: SessionVal, id: StreamId, fx: seq<Effect>): seq<Effect> {
    if id in s.pendingStreams then WithoutStreamEvents(fx) else fx
  }

  function WithoutStreamEvents(fx: seq<Effect>): seq<Effect> {
    if fx == [] then [] else (if fx[0].EmitStream? then [] else [fx[0]]) + WithoutStreamEvents(fx[1..])
  }

  /** Count a peer stream as closed and return its credit. */
  function CountClosed(s: SessionVal, uni: bool): Step {
    var q := QuotaOf(s, uni);
    ReplenishStreams(WithQuota(s, uni, q.(peerClosed := q.peerClosed + 1)), uni, false)
  }

  function HandleClosed(s: SessionVal, id: StreamId): Step {
    if id !in s.streams || !IsClosed(s.streams[id]) then Step(s, [])
    else
      var dropped := s.(streams := s.streams - {id}, credit := s.credit.(blocked := s.credit.blocked - {id}));
      var shown := Suppress(s, id, [EmitStream(id, StreamClosed)]);
      if IsPeerInitiated(id, s.cfg.isClient) then
        var c := CountClosed(dropped, IsUnidirectional(id));
        Step(c.s, shown + c.fx)
      else Step(dropped, shown)
  }

  /** Store a stream after an operation and drop it if that closed it. */
  function AfterStreamOp(s: SessionVal, id: StreamId, o: Outcome): Step {
    var c := HandleClosed(s.(streams := s.streams[id := o.st]), id);
    Step(c.s, o.fx + c.fx)
  }

  function AcknowledgeStream(s: SessionVal, id: StreamId): Step {
    if id !in s.streams then Step(s, [])
    else AfterStreamOp(s, id, Outcome(Acknowledge(s.streams[id]), [], 0))
  }

  function ReadStream(s: SessionVal, id: StreamId, request: RequestId, maxSize: nat): Step {
    if id !in s.streams then Step(s, [Failed(request, Some(ERR_LIB_STREAM_STATE_ERROR))])
    else AfterStreamOp(s, id, Read(s.streams[id], request, maxSize))
  }

  function ResetStream(s: SessionVal, id: StreamId, request: RequestId, code: ErrorCode): Step {
    if id !in s.streams then Step(s, [Done(request, Nothing)])
    else AfterStreamOp(s, id, Reset(s.streams[id], request, code))
  }

  function StopStream(s: SessionVal, id: StreamId, request: RequestId, code: ErrorCode): Step {
    if id !in s.streams then Step(s, [Done(request, Nothing)])
    else AfterStreamOp(s, id, Stop(s.streams[id], request, code))
  }

  function RecvStreamReset(s: SessionVal, id: StreamId, http: ErrorCode): Step {
    if id !in s.streams then Step(s, [])
    else
      var o := RecvReset(s.streams[id], http);
      AfterStreamOp(s, id, o.(fx := Suppress(s, id, o.fx)))
  }

  function RecvStopSending(s: SessionVal, id: StreamId, http: ErrorCode): Step {
    if id !in s.streams then Step(s, [])
    else
      var o := RecvStop(s.streams[id], http);
      AfterStreamOp(s, id, o.(fx := Suppress(s, id, o.fx)))
  }

  // ----- teardown

  lemma LeastOf(ids: set<StreamId>) returns (m: StreamId)
    requires ids != {}
    ensures m in ids && forall k :: k in ids ==> m <= k
    decreases |ids|
  {
    var x :| x in ids;
    var others := ids - {x};
    if others == {} {
      assert ids == {x};
      return x;
    }
    var y := LeastOf(others);
    m := if x <= y then x else y;
    forall k | k in ids ensures m <= k {
      assert k == x || k in others;
    }
  }

  lemma MinExists(ids: set<StreamId>)
    requires ids != {}
    ensures exists m :: m in ids && forall k :: k in ids ==> m <= k
  {
    var m := LeastOf(ids);
  }

  function Min(ids: set<StreamId>): (m: StreamId)
    requires ids != {}
    ensures m in ids && forall k :: k in ids ==> m <= k
  {
    MinExists(ids);
    var m :| m in ids && forall k :: k in ids ==> m <= k;
    m
  }

  /** The ids in ascending order. */
  function Sorted(ids: set<StreamId>): (r: seq<StreamId>)
    ensures forall k :: k in r <==> k in ids
  {
    if ids == {} then [] else [Min(ids)] + Sorted(ids - {Min(ids)})
  }

  /** Abort the streams listed, in order. */
  function AbortEach(s: SessionVal, ids: seq<StreamId>): Step
    decreases |ids|
  {
    if ids == [] then Step(s, [])
    else
      var head := if ids[0] in s.streams then
                    var o := Abort(s.streams[ids[0]], ERR_WT_SESSION_GONE);
                    AfterStreamOp(s, ids[0], o.(fx := Suppress(s, ids[0], o.fx)))
                  else Step(s, []);
      var rest := AbortEach(head.s, ids[1..]);
      Step(rest.s, head.fx + rest.fx)
  }

  function AbortStreams(s: SessionVal): Step {
    var a := AbortEach(s, Sorted(s.streams.Keys));
    Step(a.s.(credit := a.s.credit.(blocked := {}, queue := []), pendingStreams := [],
              bidi := a.s.bidi.(waiting := []), uni := a.s.uni.(waiting := [])),
         a.fx + FailAll(a.s.bidi.waiting, None) + FailAll(a.s.uni.waiting, None))
  }

  /** Leave the open phases: drop what was buffered, abort the streams, fail what was waiting. */
  function Shutdown(s: SessionVal, phase: Phase): Step {
    var a := AbortStreams(s.(phase := phase, capsules := [], datagrams := []));
    Step(a.s.(datagramRequests := []), a.fx + FailAll(a.s.datagramRequests, None))
  }

  function AbortSession(s: SessionVal, code: ErrorCode): Step {
    if s.phase == Closed || s.phase == Closing then Step(s, [])
    else
      var d := Shutdown(s, Closed);
      Step(d.s, d.fx + [ResetQuicStream(s.cfg.id, code), EmitSession(SessionClosed(Some(code)))])
  }

  /** Close with an application code and a reason, already cut to the size limit at a character boundary. */
  function CloseSession(s: SessionVal, request: RequestId, code: ErrorCode, reason: Bytes): Step {
    if s.phase == Closed || s.phase == Closing then Step(s, [Done(request, Nothing)])
    else
      var d := Shutdown(s, Closing);
      var goodbye := if code == ERR_APP_NO_ERROR && reason == [] then SendQuicData(s.cfg.id, [], true)
                     else SendCapsule(Capsule(CAPSULE_CLOSE_SESSION,
                                              Varint.BigEndian(if code <= 0xFFFF_FFFF then code else 0xFFFF_FFFF, 4) + reason), true);
      Step(d.s, d.fx + [goodbye, EmitSession(SessionClosed(Some(code))), Done(request, Nothing)])
  }

  function RecvConnectClose(s: SessionVal, code: ErrorCode): Step {
    if s.phase == Closed then Step(s, [])
    else if s.phase == Closing then Step(s.(phase := Closed), [])
    else
      var d := Shutdown(s, Closed);
      Step(d.s, d.fx + [EmitSession(SessionClosed(Some(code)))])
  }

  /** `acceptable` stands for the checks on the response headers and status code. */
  function RejectSession(s: SessionVal, request: RequestId, acceptable: bool): Step {
    if s.cfg.isClient then Step(s, [Failed(request, None)])
    else if s.phase != Connecting then Step(s, [Failed(request, Some(ERR_LIB_SESSION_STATE_ERROR))])
    else if !acceptable then Step(s, [Failed(request, None)])
    else
      var d := Shutdown(s, Closed);
      Step(d.s, d.fx + [SendHeaders(true), EmitSession(SessionClosed(None)), Done(request, Nothing)])
  }

  function Drain(s: SessionVal): Step {
    if s.phase != Connected then Step(s, [])
    else Step(s.(phase := Draining), [SendCapsule(Capsule(CAPSULE_DRAIN_SESSION, []), false), EmitSession(SessionDraining)])
  }

  // ----- streams of the peer

  function StreamOpened(s: SessionVal, id: StreamId): Step {
    var direction := DirectionOf(id, s.cfg.isClient);
    var uni := direction == ReceiveOnly;
    if !IsOpen(s) then
      Step(s, (if direction == Bidirectional then [ResetQuicStream(id, ERR_WT_SESSION_GONE)] else [])
              + [StopQuicStream(id, ERR_WT_SESSION_GONE)])
    else if direction == SendOnly then Step(s, [])
    else
      var q := QuotaOf(s, uni);
      if s.cfg.flowControl && q.peerOpened >= q.localMax then
        var a := AbortSession(s, ERR_WT_FLOW_CONTROL_ERROR);
        Step(a.s, (if uni then [] else [ResetQuicStream(id, ERR_WT_SESSION_GONE)])
                  + [StopQuicStream(id, ERR_WT_SESSION_GONE)] + a.fx)
      else AdmitStream(WithQuota(s, uni, q.(peerOpened := q.peerOpened + 1)), id, direction, uni)
  }

  /** A peer stream within the limits: refuse it, park it until the session is confirmed, or open it. */
  function AdmitStream(s: SessionVal, id: StreamId, direction: Direction, uni: bool): Step {
    if s.phase == Connecting && |s.pendingStreams| >= s.cfg.maxPendingStreams then
      var c := CountClosed(s, uni);
      Step(c.s, (if uni then [] else [ResetQuicStream(id, ERR_WT_BUFFERED_STREAM_REJECTED)])
                + [StopQuicStream(id, ERR_WT_BUFFERED_STREAM_REJECTED)] + c.fx)
    else
      var admitted := s.(streams := s.streams[id := NewStream(id, direction, true, s.cfg.maxWriteBufferSize)]);
      if s.phase == Connecting then Step(admitted.(pendingStreams := s.pendingStreams + [id]), [])
      else Step(admitted, [EmitStream(id, Opened(true, direction))])
  }

  function RecvStreamData(s: SessionVal, id: StreamId, data: Bytes, fin: bool): Step {
    if id !in s.streams then Step(s, [])
    else
      var metered := s.(window := s.window.(received := s.window.received + |data|));
      if s.cfg.flowControl && metered.window.received > metered.window.limit then
        AbortSession(metered, ERR_WT_FLOW_CONTROL_ERROR)
      else
        var o := RecvData(s.streams[id], data, fin);
        var stored := metered.(streams := s.streams[id := o.st],
                               window := metered.window.(consumed := s.window.consumed + |data|));
        var g := ReplenishData(stored, false);
        var c := HandleClosed(g.s, id);
        Step(c.s, o.fx + g.fx + c.fx)
  }

  // ----- datagrams

  function ReadDatagram(s: SessionVal, request: RequestId): Step {
    if !IsOpen(s) then Step(s, [Failed(request, Some(ERR_LIB_SESSION_STATE_ERROR))])
    else if s.phase != Connecting && s.datagrams != [] then
      Step(s.(datagrams := s.datagrams[1..]), [Done(request, DatagramData(s.datagrams[0]))])
    else Step(s.(datagramRequests := s.datagramRequests + [request]), [])
  }

  function RecvDatagram(s: SessionVal, data: Bytes): Step {
    if !IsOpen(s) then Step(s, [])
    else if s.phase != Connecting && s.datagramRequests != [] then
      Step(s.(datagramRequests := s.datagramRequests[1..]), [Done(s.datagramRequests[0], DatagramData(data))])
    else if |s.datagrams| >= s.cfg.maxPendingDatagrams then Step(s, [])
    else Step(s.(datagrams := s.datagrams + [data]), [])
  }

  function SendDatagramTo(s: SessionVal, request: RequestId, data: Bytes, maxFrameSize: nat): Step {
    if !IsOpen(s) then Step(s, [Failed(request, Some(ERR_LIB_SESSION_STATE_ERROR))])
    else if |data| > SatSub(maxFrameSize, Varint.Size(s.cfg.id / 4)) then Step(s, [Failed(request, None)])
    else Step(s, [SendDatagram(data), Done(request, Nothing)])
  }

  // ----- capsules

  predicate IsFlowControlCapsule(kind: nat) {
    kind in {CAPSULE_DATA_BLOCKED, CAPSULE_MAX_DATA, CAPSULE_MAX_STREAMS_BIDI, CAPSULE_MAX_STREAMS_UNI,
             CAPSULE_STREAMS_BLOCKED_BIDI, CAPSULE_STREAMS_BLOCKED_UNI}
  }

  function RecvClose(s: SessionVal, value: Bytes): Step {
    if |value| < 4 || |value| - 4 > CLOSE_REASON_SIZE_LIMIT || !Utf8.IsValid(value[4..]) then
      AbortSession(s, ERR_H3_MESSAGE_ERROR)
    else
      var d := Shutdown(s, Closed);
      Step(d.s, d.fx + [SendQuicData(s.cfg.id, [], true), EmitSession(SessionClosed(Some(Varint.FromBigEndian(value[..4]))))])
  }

  function RecvDataBlocked(s: SessionVal): Step {
    var g := ReplenishData(s, true);
    Step(g.s, if g.fx != [] then g.fx else [EmitSession(SessionDataBlocked)])
  }

  function RecvMaxData(s: SessionVal, limit: nat): Step {
    if limit <= s.credit.limit then AbortSession(s, ERR_WT_FLOW_CONTROL_ERROR)
    else
      var f := FlushBlockedWrites(s.(credit := s.credit.(limit := limit)));
      Step(f.s, [EmitSession(SessionMaxDataUpdated(limit))] + f.fx)
  }

  function RecvMaxStreams(s: SessionVal, uni: bool, limit: nat): Step {
    var q := QuotaOf(s, uni);
    if limit > STREAMS_LIMIT || limit <= q.peerMax then AbortSession(s, ERR_WT_FLOW_CONTROL_ERROR)
    else
      var f := FlushStreamRequests(WithQuota(s, uni, q.(peerMax := limit)), uni);
      Step(f.s, [EmitSession(SessionMaxStreamsUpdated(uni, limit))] + f.fx)
  }

  function RecvStreamsBlocked(s: SessionVal, uni: bool, limit: nat): Step {
    if limit > STREAMS_LIMIT then AbortSession(s, ERR_WT_FLOW_CONTROL_ERROR)
    else
      var g := ReplenishStreams(s, uni, true);
      Step(g.s, if g.fx != [] then g.fx else [EmitSession(SessionStreamsBlocked(uni))])
  }

  /** A capsule in the Connected or Draining phase. */
  function ProcessCapsule(s: SessionVal, c: Capsule): Step {
    if !s.cfg.flowControl && IsFlowControlCapsule(c.kind) then Step(s, [])
    else if c.kind == CAPSULE_CLOSE_SESSION then RecvClose(s, c.value)
    else if c.kind == CAPSULE_DATA_BLOCKED then RecvDataBlocked(s)
    else if c.kind == CAPSULE_DRAIN_SESSION then
      if s.phase == Connected then Step(s.(phase := Draining), [EmitSession(SessionDraining)]) else Step(s, [])
    else if c.kind == CAPSULE_MAX_STREAM_DATA || c.kind == CAPSULE_STREAM_DATA_BLOCKED then
      AbortSession(s, ERR_H3_FRAME_UNEXPECTED)
    else if c.kind in {CAPSULE_MAX_DATA, CAPSULE_MAX_STREAMS_BIDI, CAPSULE_MAX_STREAMS_UNI,
                       CAPSULE_STREAMS_BLOCKED_BIDI, CAPSULE_STREAMS_BLOCKED_UNI} then
      match Varint.Read(c.value)
      case Incomplete => AbortSession(s, ERR_H3_GENERAL_PROTOCOL_ERROR)
      case Got(limit, _) =>
        if c.kind == CAPSULE_MAX_DATA then RecvMaxData(s, limit)
        else if c.kind == CAPSULE_MAX_STREAMS_BIDI || c.kind == CAPSULE_MAX_STREAMS_UNI then
          RecvMaxStreams(s, c.kind == CAPSULE_MAX_STREAMS_UNI, limit)
        else RecvStreamsBlocked(s, c.kind == CAPSULE_STREAMS_BLOCKED_UNI, limit)
    else Step(s, [])
  }

  function RecvCapsule(s: SessionVal, c: Capsule): Step {
    match s.phase
    case Connecting =>
      if |s.capsules| >= s.cfg.maxPendingCapsules then AbortSession(s, ERR_H3_EXCESSIVE_LOAD)
      else Step(s.(capsules := s.capsules + [c]), [])
    case Closing => Step(s, [])
    case Closed => Step(s, [ResetQuicStream(s.cfg.id, ERR_H3_MESSAGE_ERROR)])
    case _ => ProcessCapsule(s, c)
  }

  // ----- confirmation

  /** Replay the capsules buffered while connecting, stopping as soon as one of them leaves Connected. */
  function ReplayCapsules(s: SessionVal, n: nat): Step
    decreases n
  {
    if n == 0 || s.capsules == [] then ReplayDatagrams(s)
    else
      var p := ProcessCapsule(s.(capsules := s.capsules[1..]), s.capsules[0]);
      if p.s.phase != Connected then p
      else
        var rest := ReplayCapsules(p.s, n - 1);
        Step(rest.s, p.fx + rest.fx)
  }

  function ReplayDatagrams(s: SessionVal): Step
    decreases |s.datagrams|
  {
    if s.datagramRequests == [] || s.datagrams == [] then ShowPending(s)
    else
      var rest := ReplayDatagrams(s.(datagrams := s.datagrams[1..], datagramRequests := s.datagramRequests[1..]));
      Step(rest.s, [Done(s.datagramRequests[0], DatagramData(s.datagrams[0]))] + rest.fx)
  }

  /** Show the streams parked while connecting that are still alive. */
  function ShowPending(s: SessionVal): Step {
    Step(s.(pendingStreams := []), ShowEach(s, s.pendingStreams))
  }

  function ShowEach(s: SessionVal, ids: seq<StreamId>): seq<Effect> {
    if ids == [] then []
    else (if ids[0] in s.streams then [EmitStream(ids[0], Opened(true, DirectionOf(ids[0], s.cfg.isClient)))] else [])
         + ShowEach(s, ids[1..])
  }

  function ConfirmSession(s: SessionVal): Step {
    if s.phase != Connecting then Step(s, [])
    else
      var r := ReplayCapsules(s.(phase := Connected), |s.capsules|);
      Step(r.s, [EmitSession(SessionReady)] + r.fx)
  }

  /** `acceptable` stands for the checks on the response headers and the chosen protocol. */
  function AcceptSession(s: SessionVal, request: RequestId, acceptable: bool): Step {
    if s.cfg.isClient then Step(s, [Failed(request, None)])
    else if s.phase != Connecting then Step(s, [Failed(request, Some(ERR_LIB_SESSION_STATE_ERROR))])
    else if !acceptable then Step(s, [Failed(request, None)])
    else
      var r := ReplayCapsules(s.(phase := Connected), |s.capsules|);
      Step(r.s, [SendHeaders(false), EmitSession(SessionReady), Done(request, Nothing)] + r.fx)
  }

  // ----- one step of a run

  datatype Event =
    | UserAccept(request: RequestId, acceptable: bool)
    | UserReject(request: RequestId, acceptable: bool)
    | UserClose(request: RequestId, code: ErrorCode, reason: Bytes)
    | UserCreate(request: RequestId, uni: bool)
    | UserRead(stream: StreamId, request: RequestId, maxSize: nat)
    | UserWrite(stream: StreamId, request: RequestId, data: Bytes, fin: bool)
    | UserReset(stream: StreamId, request: RequestId, code: ErrorCode)
    | UserStop(stream: StreamId, request: RequestId, code: ErrorCode)
    | UserReadDatagram(request: RequestId)
    | UserSendDatagram(request: RequestId, data: Bytes, maxFrameSize: nat)
    | TransportBind(stream: StreamId, request: RequestId, uni: bool)
    | TransportDefer(request: RequestId, uni: bool)
    | TransportMaxStreams(uni: bool)
    | TransportCompleted(stream: StreamId)
    | TransportAcknowledged(stream: StreamId)
    | PeerConfirmed
    | PeerOpened(stream: StreamId)
    | PeerData(stream: StreamId, data: Bytes, fin: bool)
    | PeerReset(stream: StreamId, code: ErrorCode)
    | PeerStop(stream: StreamId, code: ErrorCode)
    | PeerCapsule(capsule: Capsule)
    | PeerDatagram(data: Bytes)
    | PeerClosed(code: ErrorCode)
    | AbortAll(code: ErrorCode)
    | DrainAll

  function Handle(s: SessionVal, e: Event): Step {
    match e
    case UserAccept(request, acceptable) => AcceptSession(s, request, acceptable)
    case UserReject(request, acceptable) => RejectSession(s, request, acceptable)
    case UserClose(request, code, reason) => CloseSession(s, request, code, reason)
    case UserCreate(request, uni) => CreateStream(s, request, uni)
    case UserRead(id, request, maxSize) => ReadStream(s, id, request, maxSize)
    case UserWrite(id, request, data, fin) => WriteStream(s, id, request, data, fin)
    case UserReset(id, request, code) => ResetStream(s, id, request, code)
    case UserStop(id, request, code) => StopStream(s, id, request, code)
    case UserReadDatagram(request) => ReadDatagram(s, request)
    case UserSendDatagram(request, data, max) => SendDatagramTo(s, request, data, max)
    case TransportBind(id, request, uni) => BindStream(s, id, request, uni)
    case TransportDefer(request, uni) => DeferStream(s, request, uni)
    case TransportMaxStreams(uni) => FlushStreamRequests(s, uni)
    case TransportCompleted(id) => CompleteStreamWrite(s, id)
    case TransportAcknowledged(id) => AcknowledgeStream(s, id)
    case PeerConfirmed => ConfirmSession(s)
    case PeerOpened(id) => StreamOpened(s, id)
    case PeerData(id, data, fin) => RecvStreamData(s, id, data, fin)
    case PeerReset(id, code) => RecvStreamReset(s, id, code)
    case PeerStop(id, code) => RecvStopSending(s, id, code)
    case PeerCapsule(c) => RecvCapsule(s, c)
    case PeerDatagram(data) => RecvDatagram(s, data)
    case PeerClosed(code) => RecvConnectClose(s, code)
    case AbortAll(code) => AbortSession(s, code)
    case DrainAll => Drain(s)
  }
}
