/** The bound on lost bytes is exact: for every window there is a run in which just that many bytes are lost with a
    stream that is reset, everything else is delivered, and another stream is left out of credit. */
module Starvation {
  import opened Types
  import opened Streams
  import opened Sessions
  import opened Traces
  import SV = SessionInvariant
  import SF = StreamFacts
  import PR = Pair
  import Varint
  import ErrorCodes

  // Window w: stream 4 sends the larger half of it and is reset, stream 8 the smaller half and one byte more, which
  // must wait.

  function Lost(w: nat): nat {
    w - w / 2
  }

  function Zeros(n: nat): (b: Bytes)
    ensures |b| == n
  {
    seq(n, _ => 0)
  }

  function Cfg(client: bool, w: nat): Config {
    Config(0, client, true, w, 8, 8, 8, w + 8)
  }

  function Allow(w: nat): PR.Allowance {
    PR.Allowance(w, 2, 0)
  }

  function Fresh(client: bool, w: nat): SessionVal {
    NewSession(Cfg(client, w), w, 2, 0, w, 2, 0)
  }

  function Up(client: bool, w: nat): SessionVal {
    Fresh(client, w).(phase := Connected)
  }

  function Issued(s: SessionVal, n: int): SessionVal {
    s.(bidi := s.bidi.(issued := n))
  }

  function Local(id: StreamId, w: nat): StreamVal {
    NewStream(id, Bidirectional, false, w + 8)
  }

  function Sending(id: StreamId, w: nat, buffer: seq<Chunk>, pending: Option<RequestId>): StreamVal {
    Local(id, w).(send := SendHalf(Some(Ready), None, buffer, if buffer == [] then 0 else 1, pending))
  }

  /** The byte that has to wait. */
  function Waiting(): Chunk {
    Chunk(Zeros(1), 4, false)
  }

  function OneStream(w: nat): SessionVal {
    Issued(Up(true, w), 1).(streams := map[4 := Local(4, w)])
  }

  function TwoStreams(w: nat): SessionVal {
    Issued(Up(true, w), 2).(streams := map[4 := Local(4, w), 8 := Local(8, w)])
  }

  function Sent(w: nat): SessionVal {
    TwoStreams(w).(streams := map[4 := Sending(4, w, [], Some(3)), 8 := Local(8, w)], credit := SendCredit(Lost(w), w, None, {}, []))
  }

  function Spent(w: nat): SessionVal {
    TwoStreams(w).(streams := map[4 := Sending(4, w, [], Some(3)), 8 := Sending(8, w, [Waiting()], Some(4))],
                   credit := SendCredit(w, w, None, {}, []))
  }

  function Taken(w: nat): SessionVal {
    Spent(w).(streams := map[4 := Sending(4, w, [], None), 8 := Sending(8, w, [Waiting()], Some(4))])
  }

  function Stuck(w: nat): SessionVal {
    Spent(w).(streams := map[4 := Sending(4, w, [], None), 8 := Sending(8, w, [Waiting()], None)],
              credit := SendCredit(w, w, Some(w), {8}, [8]))
  }

  /** The stream that was reset. */
  function Gone(w: nat): StreamVal {
    Local(4, w).(send := SendHalf(Some(ResetSent), Some(0), [], 0, None))
  }

  function Starved(w: nat): SessionVal {
    Stuck(w).(streams := map[4 := Gone(w), 8 := Sending(8, w, [Waiting()], None)])
  }

  // ----- the sender

  lemma Confirms(w: nat)
    ensures Handle(Fresh(true, w), PeerConfirmed) == Step(Up(true, w), [EmitSession(SessionReady)])
  {
    assert ShowEach(Up(true, w), []) == [];
    assert [EmitSession(SessionReady)] + [] == [EmitSession(SessionReady)];
  }

  lemma Creates(w: nat)
    ensures Handle(Up(true, w), UserCreate(1, false)) == Step(Issued(Up(true, w), 1), [CreateQuicStream(1, false)])
    ensures Handle(OneStream(w), UserCreate(2, false)) == Step(Issued(OneStream(w), 2), [CreateQuicStream(2, false)])
  {
  }

  function Shown(id: StreamId, request: RequestId): seq<Effect> {
    [EmitStream(id, Opened(false, Bidirectional)), Done(request, BoundStream(id))]
  }

  lemma Binds(w: nat)
    ensures Handle(Issued(Up(true, w), 1), TransportBind(4, 1, false)) == Step(OneStream(w), Shown(4, 1))
    ensures Handle(Issued(OneStream(w), 2), TransportBind(8, 2, false)) == Step(TwoStreams(w), Shown(8, 2))
  {
    assert map[][4 := Local(4, w)] == map[4 := Local(4, w)];
    assert map[4 := Local(4, w)][8 := Local(8, w)] == map[4 := Local(4, w), 8 := Local(8, w)];
  }

  lemma SendsFirst(w: nat)
    requires w >= 2
    ensures Write(Local(4, w), 3, Zeros(Lost(w)), false, w) ==
            Outcome(Sending(4, w, [], Some(3)), [SendQuicData(4, Zeros(Lost(w)), false)], Lost(w))
  {
    var chunk := Chunk(Zeros(Lost(w)), 3, false);
    assert [] + [chunk] == [chunk] && [chunk][1..] == [];
  }

  lemma WritesFirst(w: nat)
    requires w >= 2
    ensures Handle(TwoStreams(w), UserWrite(4, 3, Zeros(Lost(w)), false)) ==
            Step(Sent(w), [SendQuicData(4, Zeros(Lost(w)), false)])
  {
    SendsFirst(w);
    hide Write;
    assert TwoStreams(w).streams[4 := Sending(4, w, [], Some(3))] == Sent(w).streams;
    var fx := [SendQuicData(4, Zeros(Lost(w)), false)];
    assert fx + [] == fx;
  }

  lemma SendsSecond(w: nat)
    requires w >= 2
    ensures Write(Local(8, w), 4, Zeros(w / 2 + 1), false, w / 2) ==
            Outcome(Sending(8, w, [Waiting()], Some(4)), [SendQuicData(8, Zeros(w / 2), false)], w / 2)
  {
    var chunk := Chunk(Zeros(w / 2 + 1), 4, false);
    assert [] + [chunk] == [chunk] && [chunk][1..] == [];
    assert chunk.data[w / 2..] == Zeros(1) && chunk.data[..w / 2] == Zeros(w / 2);
    assert [Waiting()] + [] == [Waiting()];
  }

  lemma WritesSecond(w: nat)
    requires w >= 2
    ensures Handle(Sent(w), UserWrite(8, 4, Zeros(w / 2 + 1), false)) == Step(Spent(w), [SendQuicData(8, Zeros(w / 2), false)])
  {
    SendsSecond(w);
    hide Write;
    assert Sent(w).streams[8 := Sending(8, w, [Waiting()], Some(4))] == Spent(w).streams;
    assert AvailableCredit(Sent(w).cfg, Sent(w).credit) == w / 2;
    var fx := [SendQuicData(8, Zeros(w / 2), false)];
    assert fx + [] == fx;
  }

  function Notice(w: nat): Capsule
    requires w <= VARINT_MAX
  {
    Capsule(CAPSULE_DATA_BLOCKED, Varint.Write(w).value)
  }

  lemma Blocks(w: nat)
    requires 2 <= w <= VARINT_MAX
    ensures CompleteWrite(Sending(8, w, [Waiting()], Some(4)), 0) == Outcome(Sending(8, w, [Waiting()], None), [], 0)
  {
  }

  lemma CompletesFirst(w: nat)
    requires 2 <= w <= VARINT_MAX
    ensures Handle(Spent(w), TransportCompleted(4)) == Step(Taken(w), [Done(3, Nothing)])
  {
    var done := [Done(3, Nothing)];
    assert CompleteWrite(Sending(4, w, [], Some(3)), 0) == Outcome(Sending(4, w, [], None), done, 0) by {
      assert done + [] == done;
    }
    hide CompleteWrite;
    assert Spent(w).streams[4 := Sending(4, w, [], None)] == Taken(w).streams;
    assert done + [] == done;
  }

  lemma Completes(w: nat)
    requires 2 <= w <= VARINT_MAX
    ensures Handle(Taken(w), TransportCompleted(8)) == Step(Stuck(w), [SendCapsule(Notice(w), false)])
  {
    Blocks(w);
    hide CompleteWrite;
    assert Taken(w).streams[8 := Sending(8, w, [Waiting()], None)] == Stuck(w).streams;
    assert {} + {8} == {8} && [] + [8] == [8];
    assert [] + [SendCapsule(Notice(w), false)] == [SendCapsule(Notice(w), false)];
  }

  function ResetCode(): ErrorCode {
    ErrorCodes.Clamp(0)
  }

  function Farewell(): seq<Effect> {
    [ResetQuicStream(4, ResetCode()), Done(5, Nothing)]
  }

  lemma ResetsFirst(w: nat)
    ensures Handle(Stuck(w), UserReset(4, 5, 0)) == Step(Starved(w), Farewell())
  {
    hide ErrorCodes.Clamp;
    assert ChunkRequests([]) == [] && FailAll([], Some(0)) == [];
    assert Reset(Sending(4, w, [], None), 5, 0) == Outcome(Gone(w), Farewell(), 0) by {
      assert [ResetQuicStream(4, ResetCode())] + [] + [] + [Done(5, Nothing)] == Farewell();
    }
    hide Reset;
    assert Stuck(w).streams[4 := Gone(w)] == Starved(w).streams;
    assert HandleClosed(Starved(w), 4) == Step(Starved(w), []);
    assert Farewell() + [] == Farewell();
  }

  // ----- the receiver

  lemma Accepts(w: nat)
    ensures Handle(Fresh(false, w), UserAccept(9, true)) ==
            Step(Up(false, w), [SendHeaders(false), EmitSession(SessionReady), Done(9, Nothing)])
  {
    assert ShowEach(Up(false, w), []) == [];
    var fx := [SendHeaders(false), EmitSession(SessionReady), Done(9, Nothing)];
    assert fx + [] == fx;
  }

  /** The notice comes before any byte, so there is nothing to grant. */
  lemma Ignores(w: nat)
    requires 2 <= w <= VARINT_MAX
    ensures Handle(Up(false, w), PeerCapsule(Notice(w))) == Step(Up(false, w), [EmitSession(SessionDataBlocked)])
  {
    assert ReplenishData(Up(false, w), true) == Step(Up(false, w), []);
  }

  function Remote(id: StreamId, w: nat): StreamVal {
    NewStream(id, Bidirectional, true, w + 8)
  }

  function Admitted(w: nat, n: nat, streams: map<StreamId, StreamVal>): SessionVal {
    var s := Up(false, w);
    s.(bidi := s.bidi.(peerOpened := n), streams := streams)
  }

  function HeardFirst(w: nat): SessionVal {
    Admitted(w, 1, map[4 := Remote(4, w)])
  }

  function HeardBoth(w: nat): SessionVal {
    Admitted(w, 2, map[4 := Remote(4, w), 8 := Remote(8, w)])
  }

  lemma Admits(w: nat)
    ensures Handle(Up(false, w), PeerOpened(4)) == Step(HeardFirst(w), [EmitStream(4, Opened(true, Bidirectional))])
  {
    hide Handle, AbortSession, CountClosed;
    OpenedHere(Up(false, w), 4);
    assert map[][4 := Remote(4, w)] == map[4 := Remote(4, w)];
  }

  lemma OpenedHere(s: SessionVal, id: StreamId)
    ensures Handle(s, PeerOpened(id)) == StreamOpened(s, id)
  {
    hide StreamOpened;
  }

  lemma AdmitsBoth(w: nat)
    ensures Handle(HeardFirst(w), PeerOpened(8)) == Step(HeardBoth(w), [EmitStream(8, Opened(true, Bidirectional))])
  {
    hide Handle, AbortSession, CountClosed;
    OpenedHere(HeardFirst(w), 8);
    assert map[4 := Remote(4, w)][8 := Remote(8, w)] == map[4 := Remote(4, w), 8 := Remote(8, w)];
  }

  function Ended(w: nat): StreamVal {
    Remote(4, w).(receive := ReceiveHalf(Some(ResetRead), ErrorCodes.FromHttp(ResetCode()), []))
  }

  function Heard(w: nat): SessionVal {
    Admitted(w, 2, map[4 := Ended(w), 8 := Remote(8, w)])
  }

  function News(): seq<Effect> {
    [EmitStream(4, ResetReceived(ErrorCodes.FromHttp(ResetCode())))]
  }

  /** The receiver learns of the reset. */
  lemma Learns(w: nat)
    ensures Handle(HeardBoth(w), PeerReset(4, ResetCode())) == Step(Heard(w), News())
  {
    hide ErrorCodes.Clamp, ErrorCodes.FromHttp;
    assert ReadRequests([]) == [] && FailAll([], ErrorCodes.FromHttp(ResetCode())) == [];
    assert RecvReset(Remote(4, w), ResetCode()) == Outcome(Ended(w), News(), 0) by {
      assert News() + [] == News();
    }
    hide RecvReset;
    assert HeardBoth(w).streams[4 := Ended(w)] == Heard(w).streams;
    assert HandleClosed(Heard(w), 4) == Step(Heard(w), []);
    assert News() + [] == News();
  }

  function Counted(w: nat): SessionVal {
    Heard(w).(window := ReceiveCredit(w / 2, w / 2, w))
  }

  /** Half a window is consumed, which is not enough to announce more unasked. */
  lemma Consumes(w: nat)
    requires 2 <= w <= VARINT_MAX
    ensures Handle(Heard(w), PeerData(8, Zeros(w / 2), false)) == Step(Counted(w), [])
  {
    var st := Remote(8, w);
    assert RecvData(st, Zeros(w / 2), false) == Outcome(st, [], 0);
    hide RecvData;
    assert Heard(w).streams[8 := st] == Heard(w).streams;
    assert ReplenishData(Counted(w), false) == Step(Counted(w), []);
    hide ReplenishData;
    assert HandleClosed(Counted(w), 8) == Step(Counted(w), []);
  }

  // ----- the run

  function Sender(s: SessionVal, lent: nat): PR.End {
    PR.End(s, [], map[], [], 0, lent, 0, 0, 0, {})
  }

  function Receiver(s: SessionVal, inbox: seq<Capsule>, bytes: map<StreamId, Bytes>, opening: seq<StreamId>, lost: nat): PR.End {
    PR.End(s, inbox, bytes, opening, lost, 0, 0, 0, 0, {})
  }

  /** Effects that the network does not carry. */
  ghost predicate Mute(fx: seq<Effect>) {
    forall i :: 0 <= i < |fx| ==> !fx[i].SendCapsule? && !fx[i].SendQuicData? && !fx[i].CreateQuicStream?
  }

  lemma {:induction false} MuteCarries(fx: seq<Effect>, m: map<StreamId, Bytes>)
    requires Mute(fx)
    ensures Capsules(fx) == [] && Traces.Creates(fx, false) == 0 && Traces.Creates(fx, true) == 0 && PR.Post(m, fx) == m
  {
    if fx != [] {
      MuteCarries(fx[1..], m);
    }
  }

  lemma MuteStep(p: PR.Pair, o: Step)
    requires Mute(o.fx)
    ensures PR.Emit(p, o) == p.(a := p.a.(s := o.s))
  {
    MuteCarries(o.fx, p.b.bytes);
    hide Capsules, Traces.Creates, PR.Post;
    assert p.b.inbox + [] == p.b.inbox;
  }

  lemma CreateStep(p: PR.Pair, s: SessionVal, r: RequestId)
    ensures PR.Emit(p, Step(s, [CreateQuicStream(r, false)])) == p.(a := p.a.(s := s, lentBidi := p.a.lentBidi + 1))
  {
    var fx := [CreateQuicStream(r, false)];
    MuteCarries([], p.b.bytes);
    assert fx[1..] == [];
    assert Capsules(fx) == [] && Traces.Creates(fx, false) == 1 && Traces.Creates(fx, true) == 0 && PR.Post(p.b.bytes, fx) == p.b.bytes;
    assert p.b.inbox + [] == p.b.inbox;
  }

  lemma DataStep(p: PR.Pair, s: SessionVal, id: StreamId, data: Bytes)
    requires id !in p.b.bytes
    ensures PR.Emit(p, Step(s, [SendQuicData(id, data, false)])) == PR.Pair(p.a.(s := s), p.b.(bytes := p.b.bytes[id := data]))
  {
    var fx := [SendQuicData(id, data, false)];
    var m := p.b.bytes[id := data];
    MuteCarries([], m);
    assert fx[1..] == [] && [] + data == data;
    assert Capsules(fx) == [] && Traces.Creates(fx, false) == 0 && Traces.Creates(fx, true) == 0 && PR.Post(p.b.bytes, fx) == m;
    assert p.b.inbox + [] == p.b.inbox;
  }

  lemma CapsuleStep(p: PR.Pair, s: SessionVal, c: Capsule)
    ensures PR.Emit(p, Step(s, [SendCapsule(c, false)])) == PR.Pair(p.a.(s := s), p.b.(inbox := p.b.inbox + [c]))
  {
    var fx := [SendCapsule(c, false)];
    MuteCarries([], p.b.bytes);
    assert fx[1..] == [] && [c] + [] == [c];
    assert Capsules(fx) == [c] && Traces.Creates(fx, false) == 0 && Traces.Creates(fx, true) == 0 && PR.Post(p.b.bytes, fx) == p.b.bytes;
  }

  /** A step of the run: it may happen, and leads where we say. */
  ghost predicate Goes(p: PR.Pair, m: PR.Move, q: PR.Pair) {
    PR.MayMove(p, m) && PR.Next(p, m).0 == q
  }

  function Quiet(w: nat): PR.End {
    Receiver(Up(false, w), [], map[], [], 0)
  }

  lemma GoesConfirm(w: nat)
    ensures Goes(PR.NewPair(Cfg(true, w), Cfg(false, w), Allow(w), Allow(w)), PR.Move(true, PR.Own(PeerConfirmed)),
                 PR.Pair(Sender(Up(true, w), 0), Receiver(Fresh(false, w), [], map[], [], 0)))
  {
    var p := PR.NewPair(Cfg(true, w), Cfg(false, w), Allow(w), Allow(w));
    Confirms(w);
    MuteStep(p, Step(Up(true, w), [EmitSession(SessionReady)]));
    hide Handle, PR.Emit;
  }

  lemma GoesAccept(w: nat)
    ensures Goes(PR.Pair(Sender(Up(true, w), 0), Receiver(Fresh(false, w), [], map[], [], 0)),
                 PR.Move(false, PR.Own(UserAccept(9, true))), PR.Pair(Sender(Up(true, w), 0), Quiet(w)))
  {
    var p := PR.Swap(PR.Pair(Sender(Up(true, w), 0), Receiver(Fresh(false, w), [], map[], [], 0)));
    Accepts(w);
    MuteStep(p, Handle(Fresh(false, w), UserAccept(9, true)));
    hide Handle, PR.Emit;
  }

  lemma GoesCreate(s: SessionVal, t: SessionVal, r: RequestId, y: PR.End)
    requires PR.Roomy(s) && PR.Roomy(y.s) && Handle(s, UserCreate(r, false)) == Step(t, [CreateQuicStream(r, false)])
    ensures Goes(PR.Pair(Sender(s, 0), y), PR.Move(true, PR.Own(UserCreate(r, false))), PR.Pair(Sender(t, 1), y))
  {
    hide Handle, PR.Emit;
    CreateStep(PR.Pair(Sender(s, 0), y), t, r);
  }

  lemma GoesBind(s: SessionVal, t: SessionVal, id: StreamId, r: RequestId, y: PR.End)
    requires PR.Roomy(s) && PR.Roomy(y.s) && Handle(s, TransportBind(id, r, false)) == Step(t, Shown(id, r))
    requires SV.Allowed(s, TransportBind(id, r, false))
    ensures Goes(PR.Pair(Sender(s, 1), y), PR.Move(true, PR.Bind(id, r, false)),
                 PR.Pair(Sender(t, 0), y.(opening := y.opening + [id])))
  {
    hide Handle, PR.Emit;
    MuteStep(PR.Pair(Sender(s, 0), y.(opening := y.opening + [id])), Step(t, Shown(id, r)));
  }

  lemma GoesWrite(s: SessionVal, t: SessionVal, id: StreamId, r: RequestId, data: Bytes, sent: Bytes, y: PR.End)
    requires PR.Roomy(s) && PR.Roomy(y.s) && Handle(s, UserWrite(id, r, data, false)) == Step(t, [SendQuicData(id, sent, false)])
    requires SV.Held(s, r) == 0 && id !in y.bytes
    ensures Goes(PR.Pair(Sender(s, 0), y), PR.Move(true, PR.Own(UserWrite(id, r, data, false))),
                 PR.Pair(Sender(t, 0), y.(bytes := y.bytes[id := sent])))
  {
    hide Handle, PR.Emit, SV.Held;
    DataStep(PR.Pair(Sender(s, 0), y), t, id, sent);
  }

  /** An event of the sender that the network does not see. */
  lemma GoesOwn(s: SessionVal, t: SessionVal, e: Event, fx: seq<Effect>, y: PR.End)
    requires PR.Roomy(s) && PR.Roomy(y.s) && PR.IsOwn(e) && SV.Allowed(s, e) && Handle(s, e) == Step(t, fx) && Mute(fx)
    ensures Goes(PR.Pair(Sender(s, 0), y), PR.Move(true, PR.Own(e)), PR.Pair(Sender(t, 0), y))
  {
    hide Handle, PR.Emit, SV.Allowed, PR.IsOwn;
    assert PR.Offered(Sender(s, 0), e).deferred == {};
    MuteStep(PR.Pair(Sender(s, 0), y), Step(t, fx));
  }

  lemma GoesComplete(w: nat, y: PR.End)
    requires 2 <= w <= VARINT_MAX && PR.Roomy(y.s)
    ensures Goes(PR.Pair(Sender(Taken(w), 0), y), PR.Move(true, PR.Own(TransportCompleted(8))),
                 PR.Pair(Sender(Stuck(w), 0), y.(inbox := y.inbox + [Notice(w)])))
  {
    Completes(w);
    CapsuleStep(PR.Pair(Sender(Taken(w), 0), y), Stuck(w), Notice(w));
    hide Handle, PR.Emit;
  }

  /** The receiver at the end of the sender's part: both openings and all bytes on their way, and the notice. */
  function Incoming(w: nat): map<StreamId, Bytes> {
    map[4 := Zeros(Lost(w)), 8 := Zeros(w / 2)]
  }

  /** The pair while the receiver works. */
  function Arrived(w: nat, s: SessionVal, inbox: seq<Capsule>, bytes: map<StreamId, Bytes>, opening: seq<StreamId>, lost: nat): PR.Pair {
    PR.Pair(Sender(Starved(w), 0), Receiver(s, inbox, bytes, opening, lost))
  }

  lemma GoesNotice(w: nat, bytes: map<StreamId, Bytes>, opening: seq<StreamId>)
    requires 2 <= w <= VARINT_MAX
    ensures Goes(Arrived(w, Up(false, w), [Notice(w)], bytes, opening, 0), PR.Move(false, PR.TakeCapsule),
                 Arrived(w, Up(false, w), [], bytes, opening, 0))
  {
    Ignores(w);
    hide Handle, PR.Emit;
    assert [Notice(w)][1..] == [];
    MuteStep(PR.Swap(Arrived(w, Up(false, w), [], bytes, opening, 0)), Step(Up(false, w), [EmitSession(SessionDataBlocked)]));
  }

  lemma GoesOpen(w: nat, s: SessionVal, t: SessionVal, k: StreamId, rest: seq<StreamId>, bytes: map<StreamId, Bytes>)
    requires PR.Roomy(s) && SV.Allowed(s, PeerOpened(k))
    requires Handle(s, PeerOpened(k)) == Step(t, [EmitStream(k, Opened(true, Bidirectional))])
    ensures Goes(Arrived(w, s, [], bytes, [k] + rest, 0), PR.Move(false, PR.TakeOpening(0)), Arrived(w, t, [], bytes, rest, 0))
  {
    hide Handle, PR.Emit, SV.Allowed;
    assert PR.Without([k] + rest, 0) == rest;
    MuteStep(PR.Swap(Arrived(w, s, [], bytes, rest, 0)), Step(t, [EmitStream(k, Opened(true, Bidirectional))]));
  }

  lemma GoesReset(w: nat, bytes: map<StreamId, Bytes>)
    ensures Goes(Arrived(w, HeardBoth(w), [], bytes, [], 0), PR.Move(false, PR.Own(PeerReset(4, ResetCode()))),
                 Arrived(w, Heard(w), [], bytes, [], 0))
  {
    Learns(w);
    hide Handle, PR.Emit, ErrorCodes.Clamp, ErrorCodes.FromHttp;
    MuteStep(PR.Swap(Arrived(w, HeardBoth(w), [], bytes, [], 0)), Step(Heard(w), News()));
  }

  lemma GoesLoss(w: nat)
    ensures Goes(Arrived(w, Heard(w), [], Incoming(w), [], 0), PR.Move(false, PR.LoseBytes(4, Lost(w))),
                 Arrived(w, Heard(w), [], map[4 := [], 8 := Zeros(w / 2)], [], Lost(w)))
  {
    assert Incoming(w)[4 := []] == map[4 := [], 8 := Zeros(w / 2)];
  }

  lemma GoesBytes(w: nat)
    requires 2 <= w <= VARINT_MAX
    ensures Goes(Arrived(w, Heard(w), [], map[4 := [], 8 := Zeros(w / 2)], [], Lost(w)), PR.Move(false, PR.TakeBytes(8, w / 2, false)),
                 Arrived(w, Counted(w), [], map[4 := [], 8 := []], [], Lost(w)))
  {
    Consumes(w);
    hide Handle, PR.Emit, ErrorCodes.Clamp, ErrorCodes.FromHttp;
    var data := Zeros(w / 2);
    assert data[..w / 2] == data && data[w / 2..] == [];
    var bytes: map<StreamId, Bytes> := map[4 := [], 8 := data];
    assert bytes[8 := []] == map[4 := [], 8 := []];
    MuteStep(PR.Swap(Arrived(w, Heard(w), [], map[4 := [], 8 := []], [], Lost(w))), Step(Counted(w), []));
  }

  lemma NothingInFlight()
    ensures PR.Flight(map[4 := [], 8 := []]) == 0
  {
    var m: map<StreamId, Bytes> := map[4 := [], 8 := []];
    PR.FlightRemove(m, 4);
    assert m - {4} == map[8 := []];
    PR.FlightRemove(m - {4}, 8);
    assert (m - {4} - {8}).Keys == {};
  }

  lemma NothingHeld(w: nat)
    requires w >= 2
    ensures SV.Held(TwoStreams(w), 3) == 0 && SV.Held(Sent(w), 4) == 0
  {
    TwoHeld(Local(4, w), Local(8, w), 3);
    TwoHeld(Sending(4, w, [], Some(3)), Local(8, w), 4);
  }

  lemma TwoHeld(a: StreamVal, b: StreamVal, r: RequestId)
    requires SF.Held(a, r) == 0 && SF.Held(b, r) == 0
    ensures SV.TableHeld(map[4 := a, 8 := b], r) == 0
  {
    hide SF.Held;
    var m: map<StreamId, StreamVal> := map[4 := a, 8 := b];
    SV.TableRemove(m, 4, r);
    assert m - {4} == map[8 := b];
    SV.TableRemove(m - {4}, 8, r);
    assert (m - {4} - {8}).Keys == {};
  }

  // ----- the whole run

  function Opening(): seq<PR.Move> {
    [PR.Move(true, PR.Own(PeerConfirmed)), PR.Move(false, PR.Own(UserAccept(9, true))),
     PR.Move(true, PR.Own(UserCreate(1, false))), PR.Move(true, PR.Bind(4, 1, false)),
     PR.Move(true, PR.Own(UserCreate(2, false))), PR.Move(true, PR.Bind(8, 2, false))]
  }

  function Filling(w: nat): seq<PR.Move> {
    [PR.Move(true, PR.Own(UserWrite(4, 3, Zeros(Lost(w)), false))),
     PR.Move(true, PR.Own(UserWrite(8, 4, Zeros(w / 2 + 1), false))), PR.Move(true, PR.Own(TransportCompleted(4))),
     PR.Move(true, PR.Own(TransportCompleted(8))), PR.Move(true, PR.Own(UserReset(4, 5, 0)))]
  }

  function Arriving(w: nat): seq<PR.Move> {
    [PR.Move(false, PR.TakeCapsule), PR.Move(false, PR.TakeOpening(0)), PR.Move(false, PR.TakeOpening(0)),
     PR.Move(false, PR.Own(PeerReset(4, ResetCode()))), PR.Move(false, PR.LoseBytes(4, Lost(w))),
     PR.Move(false, PR.TakeBytes(8, w / 2, false))]
  }

  ghost predicate Leads(p: PR.Pair, moves: seq<PR.Move>, q: PR.Pair) {
    PR.MayRun(p, moves) && PR.Run(p, moves).0 == q
  }

  lemma Stays(p: PR.Pair)
    ensures Leads(p, [], p)
  {
  }

  lemma Onward(p: PR.Pair, moves: seq<PR.Move>, q: PR.Pair, r: PR.Pair)
    requires moves != [] && Goes(p, moves[0], q) && Leads(q, moves[1..], r)
    ensures Leads(p, moves, r)
  {
    hide PR.MayMove, PR.Next;
  }

  lemma {:induction false} Then(p: PR.Pair, a: seq<PR.Move>, q: PR.Pair, b: seq<PR.Move>, r: PR.Pair)
    requires Leads(p, a, q) && Leads(q, b, r)
    ensures Leads(p, a + b, r)
    decreases |a|
  {
    hide PR.MayMove, PR.Next;
    if a == [] {
      assert a + b == b;
    } else {
      assert (a + b)[1..] == a[1..] + b && (a + b)[0] == a[0];
      Then(PR.Next(p, a[0]).0, a[1..], q, b, r);
    }
  }

  function Start(w: nat): PR.Pair {
    PR.NewPair(Cfg(true, w), Cfg(false, w), Allow(w), Allow(w))
  }

  function BothOpen(w: nat): PR.Pair {
    PR.Pair(Sender(TwoStreams(w), 0), Receiver(Up(false, w), [], map[], [4, 8], 0))
  }

  function Full(w: nat): PR.Pair
    requires w <= VARINT_MAX
  {
    Arrived(w, Up(false, w), [Notice(w)], Incoming(w), [4, 8], 0)
  }

  function End(w: nat): PR.Pair {
    Arrived(w, Counted(w), [], map[4 := [], 8 := []], [], Lost(w))
  }

  /** The pair while streams are opened. */
  function WhileOpening(s: SessionVal, lent: nat, w: nat, opening: seq<StreamId>): PR.Pair {
    PR.Pair(Sender(s, lent), Receiver(Up(false, w), [], map[], opening, 0))
  }

  lemma OpensFirst(w: nat)
    ensures Goes(WhileOpening(Up(true, w), 0, w, []), Opening()[2], WhileOpening(Issued(Up(true, w), 1), 1, w, []))
    ensures Goes(WhileOpening(Issued(Up(true, w), 1), 1, w, []), Opening()[3], WhileOpening(OneStream(w), 0, w, [4]))
  {
    Creates(w);
    Binds(w);
    hide Handle, Goes;
    GoesCreate(Up(true, w), Issued(Up(true, w), 1), 1, Quiet(w));
    GoesBind(Issued(Up(true, w), 1), OneStream(w), 4, 1, Quiet(w));
    assert [] + [4] == [4];
  }

  lemma OpensSecond(w: nat)
    ensures Goes(WhileOpening(OneStream(w), 0, w, [4]), Opening()[4], WhileOpening(Issued(OneStream(w), 2), 1, w, [4]))
    ensures Goes(WhileOpening(Issued(OneStream(w), 2), 1, w, [4]), Opening()[5], BothOpen(w))
  {
    Creates(w);
    Binds(w);
    hide Handle, Goes;
    var y := Quiet(w).(opening := [4]);
    GoesCreate(OneStream(w), Issued(OneStream(w), 2), 2, y);
    GoesBind(Issued(OneStream(w), 2), TwoStreams(w), 8, 2, y);
    assert [4] + [8] == [4, 8];
  }

  lemma Opens(w: nat)
    ensures Leads(Start(w), Opening(), BothOpen(w))
  {
    GoesConfirm(w);
    GoesAccept(w);
    OpensFirst(w);
    OpensSecond(w);
    hide Goes, Leads, Issued, Up, OneStream, TwoStreams, BothOpen, Start;
    var m := Opening();
    var p1 := PR.Pair(Sender(Up(true, w), 0), Receiver(Fresh(false, w), [], map[], [], 0));
    Stays(BothOpen(w));
    assert m[6..] == [];
    Onward(WhileOpening(Issued(OneStream(w), 2), 1, w, [4]), m[5..], BothOpen(w), BothOpen(w));
    Onward(WhileOpening(OneStream(w), 0, w, [4]), m[4..], WhileOpening(Issued(OneStream(w), 2), 1, w, [4]), BothOpen(w));
    Onward(WhileOpening(Issued(Up(true, w), 1), 1, w, []), m[3..], WhileOpening(OneStream(w), 0, w, [4]), BothOpen(w));
    Onward(WhileOpening(Up(true, w), 0, w, []), m[2..], WhileOpening(Issued(Up(true, w), 1), 1, w, []), BothOpen(w));
    Onward(p1, m[1..], WhileOpening(Up(true, w), 0, w, []), BothOpen(w));
    StartIs(w);
    Onward(Start(w), m, p1, BothOpen(w));
  }

  lemma StartIs(w: nat)
    ensures Start(w) == PR.NewPair(Cfg(true, w), Cfg(false, w), Allow(w), Allow(w))
  {
  }

  lemma FillsFirst(w: nat)
    requires 2 <= w <= VARINT_MAX
    ensures Goes(BothOpen(w), Filling(w)[0], PR.Pair(Sender(Sent(w), 0), BothOpen(w).b.(bytes := map[4 := Zeros(Lost(w))])))
  {
    WritesFirst(w);
    NothingHeld(w);
    hide Handle, SV.Held, Goes;
    assert map[][4 := Zeros(Lost(w))] == map[4 := Zeros(Lost(w))];
    GoesWrite(TwoStreams(w), Sent(w), 4, 3, Zeros(Lost(w)), Zeros(Lost(w)), BothOpen(w).b);
  }

  lemma FillsSecond(w: nat)
    requires 2 <= w <= VARINT_MAX
    ensures Goes(PR.Pair(Sender(Sent(w), 0), BothOpen(w).b.(bytes := map[4 := Zeros(Lost(w))])), Filling(w)[1],
                 PR.Pair(Sender(Spent(w), 0), BothOpen(w).b.(bytes := Incoming(w))))
  {
    WritesSecond(w);
    NothingHeld(w);
    hide Handle, SV.Held, Goes;
    var y := BothOpen(w).b.(bytes := map[4 := Zeros(Lost(w))]);
    assert y.bytes[8 := Zeros(w / 2)] == Incoming(w);
    GoesWrite(Sent(w), Spent(w), 8, 4, Zeros(w / 2 + 1), Zeros(w / 2), y);
  }

  /** The pair after the writes. */
  function Filled(w: nat, s: SessionVal): PR.Pair {
    PR.Pair(Sender(s, 0), BothOpen(w).b.(bytes := Incoming(w)))
  }

  lemma FillsThird(w: nat)
    requires 2 <= w <= VARINT_MAX
    ensures Goes(Filled(w, Spent(w)), Filling(w)[2], Filled(w, Taken(w)))
  {
    CompletesFirst(w);
    hide Handle, Goes;
    GoesOwn(Spent(w), Taken(w), TransportCompleted(4), [Done(3, Nothing)], BothOpen(w).b.(bytes := Incoming(w)));
  }

  function Noticed(w: nat): PR.Pair
    requires w <= VARINT_MAX
  {
    PR.Pair(Sender(Stuck(w), 0), BothOpen(w).b.(bytes := Incoming(w), inbox := [Notice(w)]))
  }

  lemma FillsFourth(w: nat)
    requires 2 <= w <= VARINT_MAX
    ensures Goes(Filled(w, Taken(w)), Filling(w)[3], Noticed(w))
  {
    GoesComplete(w, BothOpen(w).b.(bytes := Incoming(w)));
    assert [] + [Notice(w)] == [Notice(w)];
    hide Goes;
  }

  lemma FillsLast(w: nat)
    requires 2 <= w <= VARINT_MAX
    ensures Goes(Noticed(w), Filling(w)[4], Full(w))
  {
    ResetsFirst(w);
    hide Handle, Goes, ErrorCodes.Clamp;
    GoesOwn(Stuck(w), Starved(w), UserReset(4, 5, 0), Farewell(), Noticed(w).b);
  }

  lemma Fills(w: nat)
    requires 2 <= w <= VARINT_MAX
    ensures Leads(BothOpen(w), Filling(w), Full(w))
  {
    FillsFirst(w);
    FillsSecond(w);
    FillsThird(w);
    FillsFourth(w);
    FillsLast(w);
    FiveMoves(w);
    FilledIs(w, Spent(w));
    hide Goes, Leads, Sent, Spent, Taken, BothOpen, Full, Filling, Incoming, Zeros, Noticed, Filled;
    var m := Filling(w);
    Stays(Full(w));
    var p1 := PR.Pair(Sender(Sent(w), 0), BothOpen(w).b.(bytes := map[4 := Zeros(Lost(w))]));
    Onward(Noticed(w), m[4..], Full(w), Full(w));
    Onward(Filled(w, Taken(w)), m[3..], Noticed(w), Full(w));
    Onward(Filled(w, Spent(w)), m[2..], Filled(w, Taken(w)), Full(w));
    Onward(p1, m[1..], Filled(w, Spent(w)), Full(w));
    Onward(BothOpen(w), m, p1, Full(w));
  }

  lemma FilledIs(w: nat, s: SessionVal)
    ensures Filled(w, s) == PR.Pair(Sender(s, 0), BothOpen(w).b.(bytes := Incoming(w)))
  {
  }

  lemma FiveMoves(w: nat)
    ensures |Filling(w)| == 5 && Filling(w)[5..] == [] && |Arriving(w)| == 6 && Arriving(w)[6..] == []
  {
  }

  lemma ArrivesOpenings(w: nat)
    ensures Goes(Arrived(w, Up(false, w), [], Incoming(w), [4, 8], 0), Arriving(w)[1],
                 Arrived(w, HeardFirst(w), [], Incoming(w), [8], 0))
    ensures Goes(Arrived(w, HeardFirst(w), [], Incoming(w), [8], 0), Arriving(w)[2], Arrived(w, HeardBoth(w), [], Incoming(w), [], 0))
  {
    Admits(w);
    AdmitsBoth(w);
    hide Handle, Goes;
    assert [4] + [8] == [4, 8] && [8] + [] == [8];
    GoesOpen(w, Up(false, w), HeardFirst(w), 4, [8], Incoming(w));
    GoesOpen(w, HeardFirst(w), HeardBoth(w), 8, [], Incoming(w));
  }

  lemma Arrives(w: nat)
    requires 2 <= w <= VARINT_MAX
    ensures Leads(Full(w), Arriving(w), End(w))
  {
    var m := Arriving(w);
    GoesNotice(w, Incoming(w), [4, 8]);
    ArrivesOpenings(w);
    GoesReset(w, Incoming(w));
    GoesLoss(w);
    GoesBytes(w);
    FiveMoves(w);
    hide Goes, Leads, Up, HeardFirst, HeardBoth, Heard, Counted, Arrived, Incoming, Zeros, ErrorCodes.Clamp;
    var p1 := Arrived(w, Up(false, w), [], Incoming(w), [4, 8], 0);
    var p2 := Arrived(w, HeardFirst(w), [], Incoming(w), [8], 0);
    var p3 := Arrived(w, HeardBoth(w), [], Incoming(w), [], 0);
    var p4 := Arrived(w, Heard(w), [], Incoming(w), [], 0);
    var p5 := Arrived(w, Heard(w), [], map[4 := [], 8 := Zeros(w / 2)], [], Lost(w));
    Stays(End(w));
    Onward(p5, m[5..], End(w), End(w));
    Onward(p4, m[4..], p5, End(w));
    Onward(p3, m[3..], p4, End(w));
    Onward(p2, m[2..], p3, End(w));
    Onward(p1, m[1..], p2, End(w));
    Onward(Full(w), m, p1, End(w));
  }

  function Moves(w: nat): seq<PR.Move> {
    Opening() + Filling(w) + Arriving(w)
  }

  /** No byte, opening, capsule or write is on its way from a to b. */
  ghost predicate AllDelivered(p: PR.Pair) {
    && PR.Quiescent(p) && p.b.opening == [] && p.a.lentBidi == 0 && p.a.lentUni == 0
    && forall id :: id in p.a.s.streams ==> p.a.s.streams[id].send.pending.None?
  }

  /** For every window of at least two bytes there is a run of two new sessions in which a stream that is reset loses
      exactly the larger half of the window, everything else is delivered, and another stream is left out of credit:
      the bound of Pair.NoDeadlock cannot be lowered. */
  lemma LossStarves(w: nat)
    requires 2 <= w <= VARINT_MAX
    ensures PR.MayRun(Start(w), Moves(w))
    ensures var p := PR.Run(Start(w), Moves(w)).0;
            && AllDelivered(p) && 8 in p.a.s.streams && IsBlocked(p.a.s.streams[8])
            && 4 in p.a.s.streams && p.a.s.streams[4].send.state == Some(ResetSent)
            && 4 in p.b.s.streams && p.b.s.streams[4].receive.state == Some(ResetRead)
            && p.b.s.cfg.receiveWindow == w && p.b.lost == w - w / 2
  {
    Opens(w);
    Fills(w);
    Arrives(w);
    EndIs(w);
    hide End, Moves, PR.MayRun, PR.Run, AllDelivered, IsBlocked;
    Then(Start(w), Opening(), BothOpen(w), Filling(w), Full(w));
    Then(Start(w), Opening() + Filling(w), Full(w), Arriving(w), End(w));
    MovesAre(w);
  }

  lemma EndIs(w: nat)
    ensures var p := End(w);
            && AllDelivered(p) && 8 in p.a.s.streams && IsBlocked(p.a.s.streams[8])
            && 4 in p.a.s.streams && p.a.s.streams[4].send.state == Some(ResetSent)
            && 4 in p.b.s.streams && p.b.s.streams[4].receive.state == Some(ResetRead)
            && p.b.s.cfg.receiveWindow == w && p.b.lost == w - w / 2
  {
    hide ErrorCodes.FromHttp, ErrorCodes.Clamp, PR.Flight;
    NothingInFlight();
  }

  lemma MovesAre(w: nat)
    ensures Moves(w) == Opening() + Filling(w) + Arriving(w)
  {
  }
}
