/** The bound on stream credit is exact: for every allowance there is a run in which a stream creation is left waiting
    although just so many streams are alive at the peer, nothing was lost, and everything has arrived. */
module Crowding {
  import opened Types
  import opened Streams
  import opened Sessions
  import opened Traces
  import SV = SessionInvariant
  import PR = Pair
  import ST = Starvation
  import Varint
  import ErrorCodes

  // Allowance n: the client opens n unidirectional streams and asks for one more; the server, told of it, has nothing
  // to add, and then stops n / 2 - 1 streams, too few to announce a larger limit unasked.

  function Cfg(client: bool): Config {
    Config(0, client, true, 8, 8, 8, 8, 8)
  }

  function Allow(n: nat): PR.Allowance {
    PR.Allowance(8, 0, n)
  }

  function Fresh(client: bool, n: nat): SessionVal {
    NewSession(Cfg(client), 8, 0, n, 8, 0, n)
  }

  function Up(client: bool, n: nat): SessionVal {
    Fresh(client, n).(phase := Connected)
  }

  /** The k-th unidirectional stream of a client. */
  function Id(k: nat): StreamId {
    4 * k + 2
  }

  function Side(k: nat, local: bool): StreamVal {
    NewStream(Id(k), if local then SendOnly else ReceiveOnly, !local, 8)
  }

  /** Streams m to k, as the client or the server sees them. */
  function Table(m: nat, k: nat, local: bool): map<StreamId, StreamVal> {
    if k <= m then map[] else Table(m, k - 1, local)[Id(k - 1) := Side(k - 1, local)]
  }

  function Opening(n: nat, k: nat, streams: nat): SessionVal {
    Up(true, n).(uni := Quota(k, n, [], None, n, n, 0, 0), streams := Table(0, streams, true))
  }

  function Waiting(n: nat, m: nat): SessionVal {
    Up(true, n).(uni := Quota(n, n, [n], Some(n), n, n, 0, 0), streams := Table(m, n, true))
  }

  function Serving(n: nat, k: nat, m: nat): SessionVal {
    Up(false, n).(uni := Quota(0, n, [], None, n, n, k, m), streams := Table(m, k, false))
  }

  lemma {:induction false} TableKeys(m: nat, k: nat, local: bool, i: nat)
    ensures Id(i) in Table(m, k, local) <==> m <= i < k
    ensures m <= i < k ==> Table(m, k, local)[Id(i)] == Side(i, local)
    decreases k
  {
    hide Side;
    if k > m {
      TableKeys(m, k - 1, local, i);
    }
  }

  lemma {:induction false} TableDrop(m: nat, k: nat, local: bool)
    requires m < k
    ensures Table(m, k, local) - {Id(m)} == Table(m + 1, k, local)
    decreases k
  {
    hide Side;
    if k == m + 1 {
      assert Table(m, m, local) == map[];
    } else {
      TableDrop(m, k - 1, local);
      assert Table(m, k, local) - {Id(m)} == (Table(m, k - 1, local) - {Id(m)})[Id(k - 1) := Side(k - 1, local)];
    }
  }

  lemma IdKind(k: nat)
    ensures IsUnidirectional(Id(k)) && IsPeerInitiated(Id(k), false) && !IsPeerInitiated(Id(k), true)
  {
    var half := 2 * k + 1;
    assert Id(k) == 2 * half;
    assert Id(k) / 2 == half && Id(k) % 2 == 0;
    assert half % 2 == 1;
  }

  // ----- steps of the sessions

  lemma Confirms(n: nat)
    ensures Handle(Fresh(true, n), PeerConfirmed) == Step(Up(true, n), [EmitSession(SessionReady)])
  {
    assert ShowEach(Up(true, n), []) == [];
    assert [EmitSession(SessionReady)] + [] == [EmitSession(SessionReady)];
  }

  lemma Accepts(n: nat)
    ensures Handle(Fresh(false, n), UserAccept(9, true)) ==
            Step(Up(false, n), [SendHeaders(false), EmitSession(SessionReady), Done(9, Nothing)])
  {
    assert ShowEach(Up(false, n), []) == [];
    var fx := [SendHeaders(false), EmitSession(SessionReady), Done(9, Nothing)];
    assert fx + [] == fx;
  }

  lemma CreatedHere(s: SessionVal, r: RequestId)
    ensures Handle(s, UserCreate(r, true)) == CreateStream(s, r, true)
  {
    hide CreateStream;
  }

  lemma Creates(n: nat, k: nat)
    requires k < n
    ensures Handle(Opening(n, k, k), UserCreate(k, true)) == Step(Opening(n, k + 1, k), [CreateQuicStream(k, true)])
  {
    hide Handle, Table;
    CreatedHere(Opening(n, k, k), k);
  }

  function Notice(n: nat): Capsule
    requires n <= VARINT_MAX
  {
    Capsule(CAPSULE_STREAMS_BLOCKED_UNI, Varint.Write(n).value)
  }

  /** One creation too many. */
  lemma Waits(n: nat)
    requires n <= VARINT_MAX
    ensures Handle(Opening(n, n, n), UserCreate(n, true)) == Step(Waiting(n, 0), [SendCapsule(Notice(n), false)])
  {
    hide Handle, Table;
    CreatedHere(Opening(n, n, n), n);
    assert [] + [n] == [n];
  }

  function Shown(id: StreamId, request: RequestId): seq<Effect> {
    [EmitStream(id, Opened(false, SendOnly)), Done(request, BoundStream(id))]
  }

  lemma BoundHere(s: SessionVal, id: StreamId, r: RequestId)
    ensures Handle(s, TransportBind(id, r, true)) == BindStream(s, id, r, true)
  {
    hide BindStream;
  }

  lemma Binds(n: nat, k: nat)
    ensures Handle(Opening(n, k + 1, k), TransportBind(Id(k), k, true)) == Step(Opening(n, k + 1, k + 1), Shown(Id(k), k))
  {
    hide Handle;
    BoundHere(Opening(n, k + 1, k), Id(k), k);
  }

  lemma Admits(n: nat, k: nat)
    requires k < n
    ensures Handle(Serving(n, k, 0), PeerOpened(Id(k))) ==
            Step(Serving(n, k + 1, 0), [EmitStream(Id(k), Opened(true, ReceiveOnly))])
  {
    hide Handle, AbortSession, CountClosed;
    IdKind(k);
    ST.OpenedHere(Serving(n, k, 0), Id(k));
  }

  lemma CapsuleHere(s: SessionVal, c: Capsule)
    ensures Handle(s, PeerCapsule(c)) == RecvCapsule(s, c)
  {
    hide RecvCapsule;
  }

  /** Told that the client is out of streams the server has nothing to add. */
  lemma Ignores(n: nat)
    requires n <= STREAMS_LIMIT
    ensures Handle(Serving(n, n, 0), PeerCapsule(Notice(n))) == Step(Serving(n, n, 0), [EmitSession(SessionStreamsBlocked(true))])
  {
    hide Handle, Table, AbortSession, RecvMaxData, RecvMaxStreams, RecvClose, RecvDataBlocked;
    CapsuleHere(Serving(n, n, 0), Notice(n));
    Varint.RoundTrip(n, []);
    assert Notice(n).value + [] == Notice(n).value;
    hide Varint.Read, Varint.Write;
    assert ReplenishStreams(Serving(n, n, 0), true, true) == Step(Serving(n, n, 0), []);
  }

  function Code(): ErrorCode {
    ErrorCodes.Clamp(0)
  }

  function Stopped(k: nat): seq<Effect> {
    [StopQuicStream(Id(k), Code()), Done(k, Nothing), EmitStream(Id(k), StreamClosed)]
  }

  lemma StopsStream(k: nat)
    ensures Stop(Side(k, false), k, 0) ==
            Outcome(Side(k, false).(receive := ReceiveHalf(Some(ResetRead), Some(0), [])),
                    [StopQuicStream(Id(k), Code()), Done(k, Nothing)], 0)
  {
    hide ErrorCodes.Clamp;
    assert ReadRequests([]) == [] && FailAll([], Some(0)) == [];
    assert [StopQuicStream(Id(k), Code())] + [] + [Done(k, Nothing)] == [StopQuicStream(Id(k), Code()), Done(k, Nothing)];
  }

  lemma StoppedHere(s: SessionVal, id: StreamId, r: RequestId)
    ensures Handle(s, UserStop(id, r, 0)) == StopStream(s, id, r, 0)
  {
    hide StopStream;
  }

  /** The table without an entry that was changed before. */
  lemma Forgotten(m: map<StreamId, StreamVal>, id: StreamId, st: StreamVal)
    ensures m[id := st] - {id} == m - {id}
  {
  }

  /** One stream closed, and no larger limit announced. */
  lemma Counts(n: nat, m: nat, streams: map<StreamId, StreamVal>)
    requires m + 1 < n / 2 && n <= STREAMS_LIMIT
    ensures CountClosed(Serving(n, n, m).(streams := streams), true) == Step(Serving(n, n, m + 1).(streams := streams), [])
  {
    hide Table;
  }

  lemma Stops(n: nat, m: nat)
    requires m + 1 < n / 2 && n <= STREAMS_LIMIT
    ensures Handle(Serving(n, n, m), UserStop(Id(m), m, 0)) == Step(Serving(n, n, m + 1), Stopped(m))
  {
    hide Handle, Table, Stop, CountClosed, ErrorCodes.Clamp, Side;
    var s := Serving(n, n, m);
    StoppedHere(s, Id(m), m);
    IdKind(m);
    TableKeys(m, n, false, m);
    StopsStream(m);
    var o := Stop(Side(m, false), m, 0);
    SideStopped(m);
    Forgotten(s.streams, Id(m), o.st);
    TableDrop(m, n, false);
    Counts(n, m, Table(m + 1, n, false));
    assert {} - {Id(m)} == {};
    assert o.fx + ([EmitStream(Id(m), StreamClosed)] + []) == Stopped(m);
  }

  lemma SideStopped(k: nat)
    ensures IsClosed(Side(k, false).(receive := ReceiveHalf(Some(ResetRead), Some(0), [])))
  {
  }

  function Heard(k: nat): seq<Effect> {
    [EmitStream(Id(k), StopSendingReceived(ErrorCodes.FromHttp(Code()))), ResetQuicStream(Id(k), Code()),
     EmitStream(Id(k), StreamClosed)]
  }

  lemma ResetsStream(k: nat)
    ensures RecvStop(Side(k, true), Code()) ==
            Outcome(Side(k, true).(send := SendHalf(Some(ResetSent), ErrorCodes.FromHttp(Code()), [], 0, None)),
                    Heard(k)[..2], 0)
    ensures IsClosed(RecvStop(Side(k, true), Code()).st)
  {
    hide ErrorCodes.Clamp, ErrorCodes.FromHttp;
    assert ChunkRequests([]) == [] && FailAll([], ErrorCodes.FromHttp(Code())) == [];
    assert [Heard(k)[0]] + ([Heard(k)[1]] + [] + []) == Heard(k)[..2];
  }

  lemma HeardHere(s: SessionVal, id: StreamId, code: ErrorCode)
    ensures Handle(s, PeerStop(id, code)) == RecvStopSending(s, id, code)
    ensures Handle(s, PeerReset(id, code)) == RecvStreamReset(s, id, code)
  {
    hide RecvStopSending, RecvStreamReset;
  }

  lemma Resets(n: nat, m: nat)
    requires m < n
    ensures Handle(Waiting(n, m), PeerStop(Id(m), Code())) == Step(Waiting(n, m + 1), Heard(m))
  {
    hide Handle, Table, RecvStop, CountClosed, ErrorCodes.Clamp, ErrorCodes.FromHttp, Side, IsClosed;
    var s := Waiting(n, m);
    HeardHere(s, Id(m), Code());
    IdKind(m);
    TableKeys(m, n, true, m);
    ResetsStream(m);
    var o := RecvStop(Side(m, true), Code());
    Forgotten(s.streams, Id(m), o.st);
    TableDrop(m, n, true);
    assert {} - {Id(m)} == {};
    assert Heard(m)[..2] + [EmitStream(Id(m), StreamClosed)] == Heard(m);
  }

  lemma Late(n: nat, m: nat)
    ensures Handle(Serving(n, n, m + 1), PeerReset(Id(m), Code())) == Step(Serving(n, n, m + 1), [])
  {
    hide Handle, Table, ErrorCodes.Clamp, ErrorCodes.FromHttp;
    HeardHere(Serving(n, n, m + 1), Id(m), Code());
    TableKeys(m + 1, n, false, m);
  }

  // ----- steps of the pair

  function Both(a: SessionVal, lent: nat, b: SessionVal, inbox: seq<Capsule>, opening: seq<StreamId>): PR.Pair {
    PR.Pair(PR.End(a, [], map[], [], 0, 0, lent, 0, 0, {}), PR.End(b, inbox, map[], opening, 0, 0, 0, 0, 0, {}))
  }

  /** An event of the client that the network does not see. */
  lemma ClientGoes(a: SessionVal, e: Event, t: SessionVal, fx: seq<Effect>, b: SessionVal)
    requires PR.Roomy(a) && PR.Roomy(b) && PR.IsOwn(e) && SV.Allowed(a, e) && Handle(a, e) == Step(t, fx) && ST.Mute(fx)
    ensures ST.Goes(Both(a, 0, b, [], []), PR.Move(true, PR.Own(e)), Both(t, 0, b, [], []))
  {
    hide Handle, PR.Emit, SV.Allowed, PR.IsOwn, PR.Roomy;
    var p := Both(a, 0, b, [], []);
    assert PR.Offered(p.a, e).deferred == {};
    ST.MuteStep(p, Step(t, fx));
  }

  lemma ServerGoes(a: SessionVal, b: SessionVal, e: Event, t: SessionVal, fx: seq<Effect>)
    requires PR.Roomy(a) && PR.Roomy(b) && PR.IsOwn(e) && SV.Allowed(b, e) && Handle(b, e) == Step(t, fx) && ST.Mute(fx)
    ensures ST.Goes(Both(a, 0, b, [], []), PR.Move(false, PR.Own(e)), Both(a, 0, t, [], []))
  {
    hide Handle, PR.Emit, SV.Allowed, PR.IsOwn, PR.Roomy;
    var p := PR.Swap(Both(a, 0, b, [], []));
    assert PR.Offered(p.a, e).deferred == {};
    ST.MuteStep(p, Step(t, fx));
  }

  lemma CreateGoes(a: SessionVal, r: RequestId, t: SessionVal, b: SessionVal)
    requires PR.Roomy(a) && PR.Roomy(b) && Handle(a, UserCreate(r, true)) == Step(t, [CreateQuicStream(r, true)])
    ensures ST.Goes(Both(a, 0, b, [], []), PR.Move(true, PR.Own(UserCreate(r, true))), Both(t, 1, b, [], []))
  {
    hide Handle, PR.Emit, PR.Roomy;
    CreateStep(Both(a, 0, b, [], []), t, r);
  }

  lemma CreateStep(p: PR.Pair, s: SessionVal, r: RequestId)
    ensures PR.Emit(p, Step(s, [CreateQuicStream(r, true)])) == p.(a := p.a.(s := s, lentUni := p.a.lentUni + 1))
  {
    var fx := [CreateQuicStream(r, true)];
    ST.MuteCarries([], p.b.bytes);
    assert fx[1..] == [];
    assert Capsules(fx) == [] && Traces.Creates(fx, false) == 0 && Traces.Creates(fx, true) == 1;
    assert PR.Post(p.b.bytes, fx) == p.b.bytes && p.b.inbox + [] == p.b.inbox;
  }

  lemma WaitGoes(a: SessionVal, r: RequestId, t: SessionVal, c: Capsule, b: SessionVal)
    requires PR.Roomy(a) && PR.Roomy(b) && Handle(a, UserCreate(r, true)) == Step(t, [SendCapsule(c, false)])
    ensures ST.Goes(Both(a, 0, b, [], []), PR.Move(true, PR.Own(UserCreate(r, true))), Both(t, 0, b, [c], []))
  {
    hide Handle, PR.Emit, PR.Roomy;
    ST.CapsuleStep(Both(a, 0, b, [], []), t, c);
    assert [] + [c] == [c];
  }

  lemma BindGoes(a: SessionVal, id: StreamId, r: RequestId, t: SessionVal, b: SessionVal)
    requires PR.Roomy(a) && PR.Roomy(b) && Handle(a, TransportBind(id, r, true)) == Step(t, Shown(id, r))
    requires SV.Allowed(a, TransportBind(id, r, true))
    ensures ST.Goes(Both(a, 1, b, [], []), PR.Move(true, PR.Bind(id, r, true)), Both(t, 0, b, [], [id]))
  {
    hide Handle, PR.Emit, PR.Roomy;
    assert [] + [id] == [id];
    ST.MuteStep(Both(a, 0, b, [], [id]), Step(t, Shown(id, r)));
  }

  lemma OpenGoes(a: SessionVal, b: SessionVal, id: StreamId, t: SessionVal)
    requires PR.Roomy(a) && PR.Roomy(b) && SV.Allowed(b, PeerOpened(id))
    requires Handle(b, PeerOpened(id)) == Step(t, [EmitStream(id, Opened(true, ReceiveOnly))])
    ensures ST.Goes(Both(a, 0, b, [], [id]), PR.Move(false, PR.TakeOpening(0)), Both(a, 0, t, [], []))
  {
    hide Handle, PR.Emit, PR.Roomy;
    assert PR.Without([id], 0) == [];
    ST.MuteStep(PR.Swap(Both(a, 0, b, [], [])), Step(t, [EmitStream(id, Opened(true, ReceiveOnly))]));
  }

  lemma NoticeGoes(a: SessionVal, b: SessionVal, c: Capsule)
    requires PR.Roomy(a) && PR.Roomy(b) && Handle(b, PeerCapsule(c)) == Step(b, [EmitSession(SessionStreamsBlocked(true))])
    ensures ST.Goes(Both(a, 0, b, [c], []), PR.Move(false, PR.TakeCapsule), Both(a, 0, b, [], []))
  {
    hide Handle, PR.Emit, PR.Roomy;
    assert [c][1..] == [];
    ST.MuteStep(PR.Swap(Both(a, 0, b, [], [])), Step(b, [EmitSession(SessionStreamsBlocked(true))]));
  }

  // ----- the run

  function Beginning(): seq<PR.Move> {
    [PR.Move(true, PR.Own(PeerConfirmed)), PR.Move(false, PR.Own(UserAccept(9, true)))]
  }

  /** The client opens stream k and the server learns of it. */
  function Open(k: nat): seq<PR.Move> {
    [PR.Move(true, PR.Own(UserCreate(k, true))), PR.Move(true, PR.Bind(Id(k), k, true)), PR.Move(false, PR.TakeOpening(0))]
  }

  function OpenFirst(k: nat): seq<PR.Move> {
    if k == 0 then [] else OpenFirst(k - 1) + Open(k - 1)
  }

  function OneMore(n: nat): seq<PR.Move> {
    [PR.Move(true, PR.Own(UserCreate(n, true))), PR.Move(false, PR.TakeCapsule)]
  }

  /** The server stops stream k, the client resets it, and the server learns of that. */
  function Close(k: nat): seq<PR.Move> {
    [PR.Move(false, PR.Own(UserStop(Id(k), k, 0))), PR.Move(true, PR.Own(PeerStop(Id(k), Code()))),
     PR.Move(false, PR.Own(PeerReset(Id(k), Code())))]
  }

  function CloseFirst(k: nat): seq<PR.Move> {
    if k == 0 then [] else CloseFirst(k - 1) + Close(k - 1)
  }

  function Start(n: nat): PR.Pair {
    PR.NewPair(Cfg(true), Cfg(false), Allow(n), Allow(n))
  }

  lemma Begins(n: nat)
    requires n <= STREAMS_LIMIT
    ensures ST.Leads(Start(n), Beginning(), Both(Opening(n, 0, 0), 0, Serving(n, 0, 0), [], []))
  {
    var a, b := Fresh(true, n), Fresh(false, n);
    Confirms(n);
    Accepts(n);
    ClientGoes(a, PeerConfirmed, Up(true, n), [EmitSession(SessionReady)], b);
    ServerGoes(Up(true, n), b, UserAccept(9, true), Up(false, n),
               [SendHeaders(false), EmitSession(SessionReady), Done(9, Nothing)]);
    var p, q, r := Start(n), Both(Up(true, n), 0, b, [], []), Both(Up(true, n), 0, Up(false, n), [], []);
    assert p == Both(a, 0, b, [], []);
    assert r == Both(Opening(n, 0, 0), 0, Serving(n, 0, 0), [], []);
    hide ST.Goes, ST.Leads, Handle;
    TwoMoves(p, Beginning(), q, r);
  }

  lemma TwoMoves(p: PR.Pair, m: seq<PR.Move>, q: PR.Pair, r: PR.Pair)
    requires |m| == 2 && ST.Goes(p, m[0], q) && ST.Goes(q, m[1], r)
    ensures ST.Leads(p, m, r)
  {
    hide ST.Goes, ST.Leads;
    ST.Stays(r);
    assert m[1..][1..] == [] && m[1..][0] == m[1];
    ST.Onward(q, m[1..], r, r);
    ST.Onward(p, m, q, r);
  }

  lemma ThreeMoves(p: PR.Pair, m: seq<PR.Move>, q: PR.Pair, r: PR.Pair, t: PR.Pair)
    requires |m| == 3 && ST.Goes(p, m[0], q) && ST.Goes(q, m[1], r) && ST.Goes(r, m[2], t)
    ensures ST.Leads(p, m, t)
  {
    hide ST.Goes, ST.Leads;
    TwoMoves(q, m[1..], r, t);
    ST.Onward(p, m, q, t);
  }

  lemma MayBind(n: nat, k: nat)
    ensures SV.Allowed(Opening(n, k + 1, k), TransportBind(Id(k), k, true))
    ensures SV.Allowed(Serving(n, k, 0), PeerOpened(Id(k)))
  {
    IdKind(k);
    TableKeys(0, k, true, k);
    TableKeys(0, k, false, k);
  }

  lemma Opens(n: nat, k: nat)
    requires k < n <= STREAMS_LIMIT
    ensures ST.Leads(Both(Opening(n, k, k), 0, Serving(n, k, 0), [], []), Open(k),
                     Both(Opening(n, k + 1, k + 1), 0, Serving(n, k + 1, 0), [], []))
  {
    hide Handle, ST.Goes, ST.Leads, Table, SV.Allowed;
    var b := Serving(n, k, 0);
    Creates(n, k);
    CreateGoes(Opening(n, k, k), k, Opening(n, k + 1, k), b);
    MayBind(n, k);
    Binds(n, k);
    BindGoes(Opening(n, k + 1, k), Id(k), k, Opening(n, k + 1, k + 1), b);
    Admits(n, k);
    OpenGoes(Opening(n, k + 1, k + 1), b, Id(k), Serving(n, k + 1, 0));
    ThreeMoves(Both(Opening(n, k, k), 0, b, [], []), Open(k), Both(Opening(n, k + 1, k), 1, b, [], []),
               Both(Opening(n, k + 1, k + 1), 0, b, [], [Id(k)]),
               Both(Opening(n, k + 1, k + 1), 0, Serving(n, k + 1, 0), [], []));
  }

  lemma {:induction false} OpensFirst(n: nat, k: nat)
    requires k <= n <= STREAMS_LIMIT
    ensures ST.Leads(Both(Opening(n, 0, 0), 0, Serving(n, 0, 0), [], []), OpenFirst(k),
                     Both(Opening(n, k, k), 0, Serving(n, k, 0), [], []))
    decreases k
  {
    hide ST.Leads, Both, Opening, Serving, Open;
    if k == 0 {
      ST.Stays(Both(Opening(n, 0, 0), 0, Serving(n, 0, 0), [], []));
    } else {
      OpensFirst(n, k - 1);
      Opens(n, k - 1);
      ST.Then(Both(Opening(n, 0, 0), 0, Serving(n, 0, 0), [], []), OpenFirst(k - 1),
              Both(Opening(n, k - 1, k - 1), 0, Serving(n, k - 1, 0), [], []), Open(k - 1),
              Both(Opening(n, k, k), 0, Serving(n, k, 0), [], []));
    }
  }

  lemma AsksForMore(n: nat)
    requires n <= STREAMS_LIMIT
    ensures ST.Leads(Both(Opening(n, n, n), 0, Serving(n, n, 0), [], []), OneMore(n),
                     Both(Waiting(n, 0), 0, Serving(n, n, 0), [], []))
  {
    hide Handle, ST.Goes, ST.Leads, Table, Notice;
    var b := Serving(n, n, 0);
    Waits(n);
    WaitGoes(Opening(n, n, n), n, Waiting(n, 0), Notice(n), b);
    Ignores(n);
    NoticeGoes(Waiting(n, 0), b, Notice(n));
    TwoMoves(Both(Opening(n, n, n), 0, b, [], []), OneMore(n), Both(Waiting(n, 0), 0, b, [Notice(n)], []),
             Both(Waiting(n, 0), 0, b, [], []));
  }

  lemma Closes(n: nat, m: nat)
    requires m + 1 < n / 2 && n <= STREAMS_LIMIT
    ensures ST.Leads(Both(Waiting(n, m), 0, Serving(n, n, m), [], []), Close(m),
                     Both(Waiting(n, m + 1), 0, Serving(n, n, m + 1), [], []))
  {
    hide Handle, ST.Goes, ST.Leads, Table, ErrorCodes.Clamp, ErrorCodes.FromHttp;
    Stops(n, m);
    ServerGoes(Waiting(n, m), Serving(n, n, m), UserStop(Id(m), m, 0), Serving(n, n, m + 1), Stopped(m));
    Resets(n, m);
    ClientGoes(Waiting(n, m), PeerStop(Id(m), Code()), Waiting(n, m + 1), Heard(m), Serving(n, n, m + 1));
    Late(n, m);
    ServerGoes(Waiting(n, m + 1), Serving(n, n, m + 1), PeerReset(Id(m), Code()), Serving(n, n, m + 1), []);
    ThreeMoves(Both(Waiting(n, m), 0, Serving(n, n, m), [], []), Close(m), Both(Waiting(n, m), 0, Serving(n, n, m + 1), [], []),
               Both(Waiting(n, m + 1), 0, Serving(n, n, m + 1), [], []),
               Both(Waiting(n, m + 1), 0, Serving(n, n, m + 1), [], []));
  }

  lemma {:induction false} ClosesFirst(n: nat, m: nat)
    requires m < n / 2 && n <= STREAMS_LIMIT
    ensures ST.Leads(Both(Waiting(n, 0), 0, Serving(n, n, 0), [], []), CloseFirst(m),
                     Both(Waiting(n, m), 0, Serving(n, n, m), [], []))
    decreases m
  {
    hide ST.Leads, Both, Waiting, Serving, Close;
    if m == 0 {
      ST.Stays(Both(Waiting(n, 0), 0, Serving(n, n, 0), [], []));
    } else {
      ClosesFirst(n, m - 1);
      Closes(n, m - 1);
      ST.Then(Both(Waiting(n, 0), 0, Serving(n, n, 0), [], []), CloseFirst(m - 1),
              Both(Waiting(n, m - 1), 0, Serving(n, n, m - 1), [], []), Close(m - 1),
              Both(Waiting(n, m), 0, Serving(n, n, m), [], []));
    }
  }

  function Moves(n: nat): seq<PR.Move>
    requires n >= 2
  {
    Beginning() + OpenFirst(n) + OneMore(n) + CloseFirst(n / 2 - 1)
  }

  lemma Arrives(n: nat)
    requires 2 <= n <= STREAMS_LIMIT
    ensures ST.Leads(Start(n), Moves(n), Both(Waiting(n, n / 2 - 1), 0, Serving(n, n, n / 2 - 1), [], []))
  {
    hide ST.Leads, Both, Opening, Waiting, Serving, Beginning, OpenFirst, OneMore, CloseFirst, Start;
    var p1 := Both(Opening(n, 0, 0), 0, Serving(n, 0, 0), [], []);
    var p2 := Both(Opening(n, n, n), 0, Serving(n, n, 0), [], []);
    var p3 := Both(Waiting(n, 0), 0, Serving(n, n, 0), [], []);
    Begins(n);
    OpensFirst(n, n);
    AsksForMore(n);
    ClosesFirst(n, n / 2 - 1);
    ST.Then(Start(n), Beginning(), p1, OpenFirst(n), p2);
    ST.Then(Start(n), Beginning() + OpenFirst(n), p2, OneMore(n), p3);
    ST.Then(Start(n), Beginning() + OpenFirst(n) + OneMore(n), p3, CloseFirst(n / 2 - 1),
            Both(Waiting(n, n / 2 - 1), 0, Serving(n, n, n / 2 - 1), [], []));
  }

  /** For every allowance of at least two streams there is a run of two new sessions without losses in which all has
      arrived, n - n / 2 + 1 streams are alive at the peer, and a creation waits: the bound of Pair.NoStreamDeadlock
      cannot be raised. */
  lemma WaitsThough(n: nat)
    requires 2 <= n <= STREAMS_LIMIT
    ensures PR.MayRun(Start(n), Moves(n))
    ensures var p := PR.Run(Start(n), Moves(n)).0;
            && PR.Quiescent(p) && PR.Opened(p, true) && p.b.opening == [] && p.b.lost == 0 && PR.Missed(p.b, true) == 0
            && p.a.s.uni.waiting != [] && p.b.s.uni.initial == n && |SV.Live(p.b.s, true)| == n - n / 2 + 1
  {
    hide Moves, Start, PR.MayRun, PR.Run, PR.PairOk, Waiting, Serving, Both, SV.Live;
    Arrives(n);
    StartOk(n);
    PR.RunKeeps(Start(n), Moves(n));
    EndIs(n);
  }

  lemma StartOk(n: nat)
    ensures PR.PairOk(Start(n))
  {
    hide PR.PairOk;
    PR.NewPairOk(Cfg(true), Cfg(false), Allow(n), Allow(n));
  }

  lemma EndIs(n: nat)
    requires n >= 2
    ensures var p := Both(Waiting(n, n / 2 - 1), 0, Serving(n, n, n / 2 - 1), [], []);
            && PR.Quiescent(p) && PR.Opened(p, true) && p.b.opening == [] && p.b.lost == 0 && PR.Missed(p.b, true) == 0
            && p.a.s.uni.waiting != [] && p.b.s.uni.initial == n
            && (PR.PairOk(p) ==> |SV.Live(p.b.s, true)| == n - n / 2 + 1)
  {
    hide Table, SV.Live, SV.StreamsOk, SV.Queued, SV.Spent, SV.ShutOk, PR.Full;
    assert PR.Flight(map[]) == 0;
  }
}
