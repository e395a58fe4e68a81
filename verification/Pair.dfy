/** Two sessions of this code facing each other, joined by an ordered capsule channel and by byte channels
    that are delayed independently and may be cut short. */
module Pair {
  import opened Types
  import opened Streams
  import opened Sessions
  import opened Traces
  import opened SessionInvariant
  import opened Outflow
  import Varint

  /** One end: its session; the capsules, stream bytes and stream openings on their way to it; the bytes lost
      before it counted them; the stream creations its transport has not yet answered; the openings lost on their
      way to it; and the kinds of which its transport gave a creation back and has not offered streams since. */
  datatype End = End(
    s: SessionVal,
    inbox: seq<Capsule>,
    bytes: map<StreamId, Bytes>,
    opening: seq<StreamId>,
    lost: nat,
    lentBidi: nat,
    lentUni: nat,
    missedBidi: nat,
    missedUni: nat,
    deferred: set<bool>)

  datatype Pair = Pair(a: End, b: End)

  function Swap(p: Pair): Pair {
    Pair(p.b, p.a)
  }

  function Lent(e: End, uni: bool): nat {
    if uni then e.lentUni else e.lentBidi
  }

  function WithLent(e: End, uni: bool, n: nat): End {
    if uni then e.(lentUni := n) else e.(lentBidi := n)
  }

  function Missed(e: End, uni: bool): nat {
    if uni then e.missedUni else e.missedBidi
  }

  /** The end after one of the openings on their way to it was lost. */
  function Miss(e: End, i: nat): End
    requires i < |e.opening|
  {
    var t := e.(opening := Without(e.opening, i));
    if IsUnidirectional(e.opening[i]) then t.(missedUni := t.missedUni + 1) else t.(missedBidi := t.missedBidi + 1)
  }

  function InFlight(m: map<StreamId, Bytes>, id: StreamId): Bytes {
    if id in m then m[id] else []
  }

  /** Append the stream data of some effects to the byte channels. */
  function Post(m: map<StreamId, Bytes>, fx: seq<Effect>): map<StreamId, Bytes>
    decreases |fx|
  {
    if fx == [] then m
    else if fx[0].SendQuicData? then
      Post(m[fx[0].stream := InFlight(m, fx[0].stream) + fx[0].data], fx[1..])
    else Post(m, fx[1..])
  }

  /** The a end moved to a new state with some effects, which the network carries to the b end. */
  function Emit(p: Pair, o: Step): Pair {
    Pair(p.a.(s := o.s, lentBidi := p.a.lentBidi + Creates(o.fx, false), lentUni := p.a.lentUni + Creates(o.fx, true)),
         p.b.(inbox := p.b.inbox + Capsules(o.fx), bytes := Post(p.b.bytes, o.fx)))
  }

  /** What can happen at the a end. */
  datatype Action =
    | Own(event: Event)
    | TakeCapsule
    | TakeOpening(i: nat)
    | TakeBytes(stream: StreamId, n: nat, fin: bool)
    | LoseBytes(stream: StreamId, n: nat)
    | LoseOpening(i: nat)
    | Bind(stream: StreamId, request: RequestId, uni: bool)
    | Defer(request: RequestId, uni: bool)

  /** An event that does not come from the peer or answer a stream creation, and does not itself end the
      session with the flow-control code. */
  predicate IsOwn(e: Event) {
    && !e.TransportBind? && !e.TransportDefer? && !e.PeerOpened? && !e.PeerData? && !e.PeerCapsule?
    && (e.UserClose? || e.PeerClosed? || e.AbortAll? ==> e.code != ERR_WT_FLOW_CONTROL_ERROR)
  }

  ghost predicate Enabled(p: Pair, action: Action) {
    match action
    case Own(e) => IsOwn(e) && Allowed(p.a.s, e)
    case TakeCapsule => p.a.inbox != []
    case TakeOpening(i) => i < |p.a.opening| && Allowed(p.a.s, PeerOpened(p.a.opening[i]))
    case TakeBytes(id, n, _) => n <= |InFlight(p.a.bytes, id)|
    case LoseBytes(id, n) => n <= |InFlight(p.a.bytes, id)|
    case LoseOpening(i) => i < |p.a.opening|
    case Bind(id, request, uni) => Lent(p.a, uni) > 0 && Allowed(p.a.s, TransportBind(id, request, uni))
    case Defer(_, uni) => Lent(p.a, uni) > 0
  }

  function Without(ids: seq<StreamId>, i: nat): seq<StreamId>
    requires i < |ids|
  {
    ids[..i] + ids[i + 1..]
  }

  /** The end after an event of its own: its transport may have offered streams. */
  function Offered(e: End, event: Event): End {
    if event.TransportMaxStreams? then e.(deferred := e.deferred - {event.uni}) else e
  }

  /** The end after its transport gave a creation back. */
  function GiveBack(e: End, uni: bool): End
    requires Lent(e, uni) > 0
  {
    WithLent(e, uni, Lent(e, uni) - 1).(deferred := e.deferred + {uni})
  }

  /** The action, and the effects it has at the a end. */
  ghost function Perform(p: Pair, action: Action): (Pair, seq<Effect>)
    requires Enabled(p, action)
  {
    match action
    case Own(e) =>
      var o := Handle(p.a.s, e);
      (Emit(p.(a := Offered(p.a, e)), o), o.fx)
    case TakeCapsule =>
      var o := Handle(p.a.s, PeerCapsule(p.a.inbox[0]));
      (Emit(p.(a := p.a.(inbox := p.a.inbox[1..])), o), o.fx)
    case TakeOpening(i) =>
      var o := Handle(p.a.s, PeerOpened(p.a.opening[i]));
      (Emit(p.(a := p.a.(opening := Without(p.a.opening, i))), o), o.fx)
    case TakeBytes(id, n, fin) =>
      var data := InFlight(p.a.bytes, id);
      var o := Handle(p.a.s, PeerData(id, data[..n], fin));
      (Emit(p.(a := p.a.(bytes := p.a.bytes[id := data[n..]], lost := p.a.lost + if id in p.a.s.streams then 0 else n)), o),
       o.fx)
    case LoseBytes(id, n) =>
      var data := InFlight(p.a.bytes, id);
      (p.(a := p.a.(bytes := p.a.bytes[id := data[..|data| - n]], lost := p.a.lost + n)), [])
    case LoseOpening(i) =>
      (p.(a := Miss(p.a, i)), [])
    case Bind(id, request, uni) =>
      var o := Handle(p.a.s, TransportBind(id, request, uni));
      (Emit(Pair(WithLent(p.a, uni, Lent(p.a, uni) - 1), p.b.(opening := p.b.opening + [id])), o), o.fx)
    case Defer(request, uni) =>
      var o := Handle(p.a.s, TransportDefer(request, uni));
      (Emit(p.(a := GiveBack(p.a, uni)), o), o.fx)
  }

  // ----- bytes in flight

  ghost function Flight(m: map<StreamId, Bytes>): nat
    decreases |m.Keys|
  {
    if m.Keys == {} then 0
    else
      var k := Min(m.Keys);
      assert (m - {k}).Keys == m.Keys - {k};
      |m[k]| + Flight(m - {k})
  }

  lemma {:induction false} FlightRemove(m: map<StreamId, Bytes>, k: StreamId)
    requires k in m
    ensures Flight(m) == |m[k]| + Flight(m - {k})
    decreases |m.Keys|
  {
    var low := Min(m.Keys);
    if low != k {
      assert (m - {low}).Keys == m.Keys - {low} && (m - {k}).Keys == m.Keys - {k};
      FlightRemove(m - {low}, k);
      MinStays(m.Keys, k);
      assert m - {low} - {k} == m - {k} - {low};
    }
  }

  lemma FlightUpdate(m: map<StreamId, Bytes>, k: StreamId, data: Bytes)
    ensures Flight(m[k := data]) + |InFlight(m, k)| == Flight(m) + |data|
  {
    FlightRemove(m[k := data], k);
    assert m[k := data] - {k} == m - {k};
    if k in m {
      FlightRemove(m, k);
    } else {
      assert m - {k} == m;
    }
  }

  lemma {:induction false} PostFlight(m: map<StreamId, Bytes>, fx: seq<Effect>)
    ensures Flight(Post(m, fx)) == Flight(m) + SentBytes(fx)
    decreases |fx|
  {
    if fx != [] {
      if fx[0].SendQuicData? {
        var data := InFlight(m, fx[0].stream) + fx[0].data;
        FlightUpdate(m, fx[0].stream, data);
        PostFlight(m[fx[0].stream := data], fx[1..]);
      } else {
        PostFlight(m, fx[1..]);
      }
    }
  }

  lemma {:induction false} PostAppend(m: map<StreamId, Bytes>, f: seq<Effect>, g: seq<Effect>)
    ensures Post(m, f + g) == Post(Post(m, f), g)
    decreases |f|
  {
    if f == [] {
      assert f + g == g;
    } else {
      assert (f + g)[1..] == f[1..] + g;
      if f[0].SendQuicData? {
        PostAppend(m[f[0].stream := InFlight(m, f[0].stream) + f[0].data], f[1..], g);
      } else {
        PostAppend(m, f[1..], g);
      }
    }
  }

  lemma EmitAppend(p: Pair, s: SessionVal, f: seq<Effect>, o: Step)
    ensures Emit(Emit(p, Step(s, f)), o) == Emit(p, Step(o.s, f + o.fx))
  {
    PostAppend(p.b.bytes, f, o.fx);
    CapsulesAppend(f, o.fx);
    CreatesAppend(f, o.fx, false);
    CreatesAppend(f, o.fx, true);
    assert p.b.inbox + Capsules(f) + Capsules(o.fx) == p.b.inbox + (Capsules(f) + Capsules(o.fx));
  }

  /** Openings of one kind. */
  function Kinds(ids: seq<StreamId>, uni: bool): nat {
    if ids == [] then 0 else (if IsUnidirectional(ids[0]) == uni then 1 else 0) + Kinds(ids[1..], uni)
  }

  lemma {:induction false} KindsAppend(f: seq<StreamId>, g: seq<StreamId>, uni: bool)
    ensures Kinds(f + g, uni) == Kinds(f, uni) + Kinds(g, uni)
  {
    if f == [] {
      assert f + g == g;
    } else {
      assert (f + g)[1..] == f[1..] + g;
      KindsAppend(f[1..], g, uni);
    }
  }

  lemma KindsWithout(ids: seq<StreamId>, i: nat, uni: bool)
    requires i < |ids|
    ensures Kinds(ids, uni) == Kinds(Without(ids, i), uni) + if IsUnidirectional(ids[i]) == uni then 1 else 0
  {
    KindsAppend(ids[..i], ids[i + 1..], uni);
    KindsAppend(ids[..i], ids[i..], uni);
    assert ids == ids[..i] + ids[i..] && ids[i..][1..] == ids[i + 1..];
  }

  // ----- the invariant

  /** Streams of one kind: what x has issued covers what y has admitted, what is on its way or was lost, and what
      x's transport may still open; as long as both sessions are in use, exactly. */
  ghost predicate StreamsCounted(x: End, y: End, uni: bool) {
    var n := QuotaOf(y.s, uni).peerOpened + Kinds(y.opening, uni) + Missed(y, uni) + Lent(x, uni);
    n <= QuotaOf(x.s, uni).issued && (Eager(x.s) && Eager(y.s) ==> n == QuotaOf(x.s, uni).issued)
  }

  /** Every byte x sent was counted by y, is on its way, or was lost. */
  ghost predicate Counted(x: End, y: End) {
    && x.s.credit.sent == y.s.window.received + Flight(y.bytes) + y.lost
    && y.s.window.consumed == y.s.window.received
    && StreamsCounted(x, y, false) && StreamsCounted(x, y, true)
  }

  /** A session that works through every capsule it gets. */
  predicate Eager(s: SessionVal) {
    s.phase == Connecting || s.phase == Connected || (s.phase == Draining && s.capsules == [])
  }

  ghost predicate QuotaGranted(x: Quota, y: Quota, inbox: seq<Capsule>, uni: bool) {
    && Rising(x.peerMax, Limits(inbox, MaxStreams(uni))) && Last(x.peerMax, Limits(inbox, MaxStreams(uni))) <= y.localMax
    && (forall v :: v in Limits(inbox, StreamsBlocked(uni)) ==> v <= STREAMS_LIMIT)
  }

  /** The limits y announced to x rise from the one x uses to the one y enforces. */
  ghost predicate Granted(x: SessionVal, y: SessionVal, inbox: seq<Capsule>) {
    x.cfg.flowControl ==>
      && Rising(x.credit.limit, Limits(inbox, CAPSULE_MAX_DATA))
      && Last(x.credit.limit, Limits(inbox, CAPSULE_MAX_DATA)) <= y.window.limit <= VARINT_MAX
      && (Eager(x) ==> Last(x.credit.limit, Limits(inbox, CAPSULE_MAX_DATA)) == y.window.limit)
      && QuotaGranted(x.bidi, y.bidi, inbox, false) && QuotaGranted(x.uni, y.uni, inbox, true)
      && (x.credit.lastBlocked.Some? ==> x.credit.lastBlocked.value <= x.credit.limit)
  }

  /** Not so much has been consumed that a larger limit would be announced unasked. */
  predicate Calm(y: SessionVal) {
    var target := SatAdd(y.window.consumed, y.cfg.receiveWindow);
    target <= SatAdd(y.window.limit, y.cfg.receiveWindow / 2) || target > VARINT_MAX
  }

  /** When x is blocked at the limit y enforces, then y is about to learn of it or has nothing to add. */
  ghost predicate Told(x: SessionVal, y: SessionVal, inbox: seq<Capsule>) {
    x.cfg.flowControl && Eager(y) && x.credit.lastBlocked == Some(y.window.limit) ==>
      HasBlocked(inbox) || (Active(y) && Calm(y))
  }

  ghost predicate AllPolite(cs: seq<Capsule>) {
    forall i :: 0 <= i < |cs| ==> Polite(cs[i])
  }

  ghost predicate Matched(a: Config, b: Config) {
    a.flowControl == b.flowControl && a.isClient != b.isClient
  }

  /** All of the invariant but what b told a. */
  ghost predicate Core(p: Pair, qa: seq<Capsule>, qb: seq<Capsule>) {
    && Matched(p.a.s.cfg, p.b.s.cfg)
    && Counted(p.a, p.b) && Counted(p.b, p.a)
    && Granted(p.a.s, p.b.s, qa) && Granted(p.b.s, p.a.s, qb)
    && Told(p.a.s, p.b.s, qb)
    && AllPolite(qa) && AllPolite(qb)
  }

  /** The stream limit x uses will be the one y enforces once its queue is worked through, and x has said
      that it is out of streams only at a limit it knew. */
  ghost predicate SlotGranted(x: SessionVal, y: SessionVal, inbox: seq<Capsule>, uni: bool) {
    var q := QuotaOf(x, uni);
    x.cfg.flowControl ==>
      && (Eager(x) ==> Last(q.peerMax, Limits(inbox, MaxStreams(uni))) == QuotaOf(y, uni).localMax)
      && (q.lastBlocked.Some? ==> q.lastBlocked.value <= q.peerMax)
  }

  /** When x is out of streams at the limit y enforces, then y is about to learn of it or has nothing to add. */
  ghost predicate SlotTold(x: SessionVal, y: SessionVal, inbox: seq<Capsule>, uni: bool) {
    x.cfg.flowControl && Eager(y) && QuotaOf(x, uni).lastBlocked == Some(QuotaOf(y, uni).localMax) ==>
      HasStreamsBlocked(inbox, uni) || (Active(y) && Ample(QuotaOf(y, uni)))
  }

  /** Creations that the transport does not hold up wait only for want of streams, and the peer was told. */
  ghost predicate SlotServed(e: End, uni: bool) {
    e.s.cfg.flowControl && uni !in e.deferred ==> Served(QuotaOf(e.s, uni))
  }

  ghost predicate Slot(p: Pair, qa: seq<Capsule>, qb: seq<Capsule>, uni: bool) {
    && SlotGranted(p.a.s, p.b.s, qa, uni) && SlotTold(p.a.s, p.b.s, qb, uni)
    && SlotGranted(p.b.s, p.a.s, qb, uni) && SlotTold(p.b.s, p.a.s, qa, uni)
    && SlotServed(p.a, uni) && SlotServed(p.b, uni)
  }

  ghost predicate Full(p: Pair, qa: seq<Capsule>, qb: seq<Capsule>) {
    Core(p, qa, qb) && Told(p.b.s, p.a.s, qa) && Slot(p, qa, qb, false) && Slot(p, qa, qb, true)
  }

  /** The capsules an end has yet to work through. */
  function Queue(e: End): seq<Capsule> {
    (if e.s.phase == Connecting then e.s.capsules else []) + e.inbox
  }

  ghost predicate PairOk(p: Pair) {
    SessionInvariant.Inv(p.a.s) && SessionInvariant.Inv(p.b.s) && Full(p, Queue(p.a), Queue(p.b))
  }

  /** The stream limits a session announces stay within the range of the protocol. */
  ghost predicate Roomy(s: SessionVal) {
    s.bidi.localMax <= STREAMS_LIMIT && s.uni.localMax <= STREAMS_LIMIT
  }

  // ----- shipping keeps it

  lemma {:induction false} RisingLower(low: nat, base: nat, limits: seq<nat>)
    requires Rising(base, limits) && low <= base
    ensures Rising(low, limits)
  {
  }

  lemma RisingShip(base: nat, known: seq<nat>, enforced: nat, more: seq<nat>)
    requires Rising(base, known) && Last(base, known) <= enforced && Rising(enforced, more)
    ensures Rising(base, known + more) && Last(base, known + more) <= Last(enforced, more)
    ensures Last(base, known) == enforced ==> Last(base, known + more) == Last(enforced, more)
  {
    RisingLower(Last(base, known), enforced, more);
    RisingAppend(base, known, more);
    RisingBound(enforced, more);
  }

  lemma QuotaShip(x: Quota, y: Quota, y': Quota, inbox: seq<Capsule>, cs: seq<Capsule>, uni: bool)
    requires QuotaGranted(x, y, inbox, uni) && QuotaPaper(y, y', cs, uni) && y.peerMax <= STREAMS_LIMIT
    ensures QuotaGranted(x, y', inbox + cs, uni)
  {
    LimitsAppend(inbox, cs, MaxStreams(uni));
    LimitsAppend(inbox, cs, StreamsBlocked(uni));
    RisingShip(x.peerMax, Limits(inbox, MaxStreams(uni)), y.localMax, Limits(cs, MaxStreams(uni)));
    hide Limits, Rising, Last;
  }

  /** The session x that receives does not move; y ships capsules to it. */
  lemma GrantedShip(x: SessionVal, y: SessionVal, y': SessionVal, inbox: seq<Capsule>, cs: seq<Capsule>)
    requires Granted(x, y, inbox) && Paper(y, y', cs)
    requires y.bidi.peerMax <= STREAMS_LIMIT && y.uni.peerMax <= STREAMS_LIMIT
    ensures Granted(x, y', inbox + cs)
  {
    hide Limits, Rising, Last, QuotaPaper, QuotaGranted;
    if x.cfg.flowControl {
      LimitsAppend(inbox, cs, CAPSULE_MAX_DATA);
      RisingShip(x.credit.limit, Limits(inbox, CAPSULE_MAX_DATA), y.window.limit, Limits(cs, CAPSULE_MAX_DATA));
      QuotaShip(x.bidi, y.bidi, y'.bidi, inbox, cs, false);
      QuotaShip(x.uni, y.uni, y'.uni, inbox, cs, true);
    }
  }

  lemma ShipCounted(p: Pair, o: Step)
    requires Counted(p.a, p.b) && Counted(p.b, p.a) && Numbers(p.a.s, o) && Forward(p.a.s, o.s)
    ensures Counted(Emit(p, o).a, Emit(p, o).b) && Counted(Emit(p, o).b, Emit(p, o).a)
  {
    hide Flight, Post, Kinds;
    PostFlight(p.b.bytes, o.fx);
  }

  lemma PeerMaxBound(x: SessionVal, y: SessionVal, inbox: seq<Capsule>)
    requires Granted(x, y, inbox) && x.cfg.flowControl && Roomy(y)
    ensures x.bidi.peerMax <= STREAMS_LIMIT && x.uni.peerMax <= STREAMS_LIMIT
  {
    RisingBound(x.bidi.peerMax, Limits(inbox, MaxStreams(false)));
    RisingBound(x.uni.peerMax, Limits(inbox, MaxStreams(true)));
    hide Limits, Rising, Last;
  }

  lemma CreditBound(x: SessionVal, y: SessionVal, inbox: seq<Capsule>)
    requires Granted(x, y, inbox) && x.cfg.flowControl
    ensures x.credit.limit <= y.window.limit <= VARINT_MAX
  {
    RisingBound(x.credit.limit, Limits(inbox, CAPSULE_MAX_DATA));
    hide Limits, Rising, Last;
  }

  lemma {:induction false} CapsulesPolite(fx: seq<Effect>)
    requires Tame(fx)
    ensures AllPolite(Capsules(fx))
  {
    hide Polite;
    if fx != [] {
      CapsulesPolite(fx[1..]);
    }
  }

  /** The phases only move forward. */
  ghost predicate Forward(s: SessionVal, t: SessionVal) {
    Eager(t) ==> Eager(s) && (t.phase == Connecting ==> s.phase == Connecting)
  }

  /** Limits move up only, and the sender keeps within its own. */
  ghost predicate Sober(s: SessionVal) {
    s.credit.lastBlocked.Some? ==> s.credit.lastBlocked.value <= s.credit.limit
  }

  lemma HasBlockedAppend(f: seq<Capsule>, g: seq<Capsule>)
    ensures HasBlocked(f) || HasBlocked(g) ==> HasBlocked(f + g)
  {
    if HasBlocked(g) {
      var i :| 0 <= i < |g| && g[i].kind == CAPSULE_DATA_BLOCKED;
      assert (f + g)[|f| + i] == g[i];
    } else if HasBlocked(f) {
      var i :| 0 <= i < |f| && f[i].kind == CAPSULE_DATA_BLOCKED;
      assert (f + g)[i] == f[i];
    }
  }

  lemma ShipCore(p: Pair, o: Step, qa: seq<Capsule>, qb: seq<Capsule>)
    requires Core(p, qa, qb) && Ships(p.a.s, o) && Roomy(p.b.s) && Sober(o.s) && Forward(p.a.s, o.s)
    ensures Core(Emit(p, o), qa, qb + Capsules(o.fx))
  {
    hide Counted, Post, Limits, Rising, Last, QuotaGranted, QuotaPaper, HasBlocked, Polite, Calm, Capsules, Creates;
    hide SentBytes, Grants;
    ShipCounted(p, o);
    var cs := Capsules(o.fx);
    HasBlockedAppend(qb, cs);
    CapsulesPolite(o.fx);
    if p.a.s.cfg.flowControl {
      PeerMaxBound(p.a.s, p.b.s, qa);
      CreditBound(p.a.s, p.b.s, qa);
      GrantedShip(p.b.s, p.a.s, o.s, qb, cs);
      QuotaStays(p.a.s.bidi, o.s.bidi, p.b.s.bidi, qa, false);
      QuotaStays(p.a.s.uni, o.s.uni, p.b.s.uni, qa, true);
    }
  }

  lemma QuotaStays(x: Quota, x': Quota, y: Quota, inbox: seq<Capsule>, uni: bool)
    requires QuotaGranted(x, y, inbox, uni) && x'.peerMax == x.peerMax
    ensures QuotaGranted(x', y, inbox, uni)
  {
  }

  lemma ShipTold(p: Pair, o: Step, qa: seq<Capsule>, qb: seq<Capsule>)
    requires Core(p, qa, qb) && Told(p.b.s, p.a.s, qa) && Ships(p.a.s, o) && Forward(p.a.s, o.s)
    ensures Told(p.b.s, o.s, qa)
  {
    hide Counted, Limits, Rising, Last, QuotaGranted, QuotaPaper, HasBlocked, Polite, Tame, AllPolite;
    if p.a.s.cfg.flowControl {
      CreditBound(p.b.s, p.a.s, qb);
      GrantsUp(p.a.s.window.limit, Capsules(o.fx), o.s.window.limit);
    }
  }

  lemma GrantsUp(from: nat, cs: seq<Capsule>, to: nat)
    requires Grants(from, cs, CAPSULE_MAX_DATA, to)
    ensures from <= to
  {
    RisingBound(from, Limits(cs, CAPSULE_MAX_DATA));
  }

  lemma QuotasShip(p: Pair, o: Step, qa: seq<Capsule>, qb: seq<Capsule>, uni: bool)
    requires Core(p, qa, qb) && Ships(p.a.s, o) && p.a.s.cfg.flowControl
    ensures QuotaPaper(QuotaOf(p.a.s, uni), QuotaOf(o.s, uni), Capsules(o.fx), uni)
    ensures QuotaCandid(QuotaOf(p.a.s, uni), QuotaOf(o.s, uni), Capsules(o.fx), uni)
    ensures QuotaOf(o.s, uni).peerMax == QuotaOf(p.a.s, uni).peerMax && o.s.cfg == p.a.s.cfg
    ensures QuotaGranted(QuotaOf(p.b.s, uni), QuotaOf(p.a.s, uni), qb, uni)
    ensures Active(o.s) && Ample(QuotaOf(p.a.s, uni)) ==> Ample(QuotaOf(o.s, uni))
  {
    hide Counted, QuotaPaper, QuotaCandid, QuotaGranted, Ample, Limits, Rising, Last, Told, AllPolite, Capsules, Tame,
    Grants, HasBlocked;
  }

  /** What x knows of its own limit is not moved by what it ships. */
  lemma SlotOut(x: SessionVal, x': SessionVal, y: SessionVal,
                qx: seq<Capsule>, qy: seq<Capsule>, cs: seq<Capsule>, uni: bool)
    requires SlotGranted(x, y, qx, uni) && SlotTold(x, y, qy, uni) && Forward(x, x') && x'.cfg == x.cfg
    requires x.cfg.flowControl ==> QuotaCandid(QuotaOf(x, uni), QuotaOf(x', uni), cs, uni)
    requires x.cfg.flowControl ==> QuotaOf(x', uni).peerMax == QuotaOf(x, uni).peerMax
    ensures SlotGranted(x', y, qx, uni) && SlotTold(x', y, qy + cs, uni)
  {
    hide Limits, Last, Ample, HasStreamsBlocked;
    StreamsBlockedAppend(qy, cs, uni);
  }

  /** The limits y ships reach x. */
  lemma SlotIn(x: SessionVal, y: SessionVal, y': SessionVal, qx: seq<Capsule>, cs: seq<Capsule>, uni: bool)
    requires SlotGranted(x, y, qx, uni) && x.cfg.flowControl
    requires QuotaGranted(QuotaOf(x, uni), QuotaOf(y, uni), qx, uni)
    requires QuotaPaper(QuotaOf(y, uni), QuotaOf(y', uni), cs, uni)
    ensures SlotGranted(x, y', qx + cs, uni)
    ensures QuotaOf(x, uni).lastBlocked.Some? ==>
              QuotaOf(x, uni).lastBlocked.value <= QuotaOf(y, uni).localMax <= QuotaOf(y', uni).localMax
  {
    var q := QuotaOf(x, uni);
    LimitsAppend(qx, cs, MaxStreams(uni));
    RisingShip(q.peerMax, Limits(qx, MaxStreams(uni)), QuotaOf(y, uni).localMax, Limits(cs, MaxStreams(uni)));
    RisingBound(q.peerMax, Limits(qx, MaxStreams(uni)));
    RisingBound(QuotaOf(y, uni).localMax, Limits(cs, MaxStreams(uni)));
    hide Limits, Rising, Last;
  }

  lemma SlotToldShips(x: SessionVal, y: SessionVal, y': SessionVal, qy: seq<Capsule>, uni: bool)
    requires SlotTold(x, y, qy, uni) && Forward(y, y')
    requires x.cfg.flowControl && QuotaOf(x, uni).lastBlocked.Some? ==>
               QuotaOf(x, uni).lastBlocked.value <= QuotaOf(y, uni).localMax <= QuotaOf(y', uni).localMax
    requires x.cfg.flowControl && Active(y') && Ample(QuotaOf(y, uni)) ==> Ample(QuotaOf(y', uni))
    ensures SlotTold(x, y', qy, uni)
  {
    hide Ample, HasStreamsBlocked;
  }

  /** All but what b told a. */
  lemma ShipSlotCore(p: Pair, o: Step, qa: seq<Capsule>, qb: seq<Capsule>, uni: bool)
    requires Core(p, qa, qb) && Ships(p.a.s, o) && Forward(p.a.s, o.s)
    requires SlotGranted(p.a.s, p.b.s, qa, uni) && SlotTold(p.a.s, p.b.s, qb, uni) && SlotGranted(p.b.s, p.a.s, qb, uni)
    ensures var cs := Capsules(o.fx);
            && SlotGranted(o.s, p.b.s, qa, uni) && SlotTold(o.s, p.b.s, qb + cs, uni)
            && SlotGranted(p.b.s, o.s, qb + cs, uni)
    ensures SlotTold(p.b.s, p.a.s, qa, uni) ==> SlotTold(p.b.s, o.s, qa, uni)
  {
    hide Core, Paper, Candid, Tame, Capsules, QuotaPaper, QuotaCandid, QuotaGranted, QuotaNumbers, Forward, Ample,
    HasStreamsBlocked, Limits, Last;
    CoreMatched(p, qa, qb);
    if p.a.s.cfg.flowControl {
      QuotasShip(p, o, qa, qb, uni);
      SlotIn(p.b.s, p.a.s, o.s, qb, Capsules(o.fx), uni);
    }
    SlotOut(p.a.s, o.s, p.b.s, qa, qb, Capsules(o.fx), uni);
    if SlotTold(p.b.s, p.a.s, qa, uni) {
      SlotToldShips(p.b.s, p.a.s, o.s, qa, uni);
    }
  }

  lemma ShipServed(p: Pair, o: Step, uni: bool)
    requires Ships(p.a.s, o) && SlotServed(p.a, uni) && SlotServed(p.b, uni)
    ensures SlotServed(Emit(p, o).a, uni) && SlotServed(Emit(p, o).b, uni)
  {
    hide Served, Paper, Tame, Capsules, Post, Ample, QuotaNumbers, HasStreamsBlocked;
  }

  lemma ShipSlot(p: Pair, o: Step, qa: seq<Capsule>, qb: seq<Capsule>, uni: bool)
    requires Core(p, qa, qb) && Ships(p.a.s, o) && Forward(p.a.s, o.s) && Slot(p, qa, qb, uni)
    ensures Slot(Emit(p, o), qa, qb + Capsules(o.fx), uni)
  {
    hide Core, Ships, Forward, SlotGranted, SlotTold, SlotServed, Capsules, Creates, Post;
    ShipSlotCore(p, o, qa, qb, uni);
    ShipServed(p, o, uni);
  }

  lemma ShipFull(p: Pair, o: Step, qa: seq<Capsule>, qb: seq<Capsule>)
    requires Full(p, qa, qb) && Ships(p.a.s, o) && Roomy(p.b.s) && Sober(o.s) && Forward(p.a.s, o.s)
    ensures Full(Emit(p, o), qa, qb + Capsules(o.fx))
  {
    hide Core, Ships, Told, Slot, Roomy, Sober, Forward, Capsules, Creates, Post;
    ShipCore(p, o, qa, qb);
    ShipTold(p, o, qa, qb);
    ShipSlot(p, o, qa, qb, false);
    ShipSlot(p, o, qa, qb, true);
  }

  // ----- taking capsules

  function At(p: Pair, s: SessionVal): Pair {
    p.(a := p.a.(s := s))
  }

  lemma LimitsHead(c: Capsule, rest: seq<Capsule>, kind: nat)
    ensures Limits([c] + rest, kind) == (if c.kind == kind then ReadLimit(c) else []) + Limits(rest, kind)
  {
    assert ([c] + rest)[1..] == rest;
  }

  lemma RisingHead(base: nat, head: nat, tail: seq<nat>)
    requires Rising(base, [head] + tail)
    ensures base < head && Rising(head, tail) && Last(base, [head] + tail) == Last(head, tail)
  {
    assert ([head] + tail)[1..] == tail;
  }

  lemma InTail(f: seq<nat>, g: seq<nat>)
    ensures forall v :: v in g ==> v in f + g
  {
    forall v | v in g ensures v in f + g {
      var i :| 0 <= i < |g| && g[i] == v;
      assert (f + g)[|f| + i] == v;
    }
  }

  lemma QuotaTakes(x: Quota, x': Quota, y: Quota, c: Capsule, rest: seq<Capsule>, uni: bool)
    requires QuotaGranted(x, y, [c] + rest, uni) && y.localMax <= STREAMS_LIMIT
    requires x'.peerMax == if c.kind == MaxStreams(uni) && ReadLimit(c) != [] then ReadLimit(c)[0] else x.peerMax
    ensures QuotaGranted(x', y, rest, uni)
    ensures c.kind == MaxStreams(uni) && ReadLimit(c) != [] ==> x.peerMax < ReadLimit(c)[0] <= STREAMS_LIMIT
    ensures c.kind == StreamsBlocked(uni) && ReadLimit(c) != [] ==> ReadLimit(c)[0] <= STREAMS_LIMIT
  {
    hide Limits, Last;
    LimitsHead(c, rest, MaxStreams(uni));
    LimitsHead(c, rest, StreamsBlocked(uni));
    var v := Limits(rest, MaxStreams(uni));
    var w := Limits(rest, StreamsBlocked(uni));
    RisingBound(x.peerMax, Limits([c] + rest, MaxStreams(uni)));
    if c.kind == MaxStreams(uni) && ReadLimit(c) != [] {
      assert ReadLimit(c) == [ReadLimit(c)[0]];
      RisingHead(x.peerMax, ReadLimit(c)[0], v);
      RisingBound(ReadLimit(c)[0], v);
    } else {
      assert [] + v == v;
    }
    var head := if c.kind == StreamsBlocked(uni) then ReadLimit(c) else [];
    InTail(head, w);
    assert head != [] ==> head[0] in head + w;
  }

  lemma DataTakes(x: SessionVal, y: SessionVal, c: Capsule, rest: seq<Capsule>, limit: nat)
    requires Rising(x.credit.limit, Limits([c] + rest, CAPSULE_MAX_DATA))
    requires limit == if c.kind == CAPSULE_MAX_DATA && ReadLimit(c) != [] then ReadLimit(c)[0] else x.credit.limit
    ensures Rising(limit, Limits(rest, CAPSULE_MAX_DATA))
    ensures Last(limit, Limits(rest, CAPSULE_MAX_DATA)) == Last(x.credit.limit, Limits([c] + rest, CAPSULE_MAX_DATA))
    ensures x.credit.limit <= limit && (c.kind == CAPSULE_MAX_DATA && ReadLimit(c) != [] ==> x.credit.limit < limit)
  {
    hide Limits, Last;
    LimitsHead(c, rest, CAPSULE_MAX_DATA);
    var v := Limits(rest, CAPSULE_MAX_DATA);
    if c.kind == CAPSULE_MAX_DATA && ReadLimit(c) != [] {
      assert ReadLimit(c) == [ReadLimit(c)[0]];
      RisingHead(x.credit.limit, ReadLimit(c)[0], v);
    } else {
      assert [] + v == v;
    }
  }

  /** The next capsule in line is lawful, and taking it keeps the limits in step. */
  lemma GrantedTakes(x: SessionVal, y: SessionVal, c: Capsule, rest: seq<Capsule>)
    requires Granted(x, y, [c] + rest) && Polite(c) && Roomy(y)
    ensures Lawful(x, c) && Granted(Informed(x, c), y, rest)
  {
    hide Limits, Rising, Last, QuotaGranted, Polite, Varint.Read;
    if x.cfg.flowControl {
      var t := Informed(x, c);
      DataTakes(x, y, c, rest, t.credit.limit);
      QuotaTakes(x.bidi, t.bidi, y.bidi, c, rest, false);
      QuotaTakes(x.uni, t.uni, y.uni, c, rest, true);
    }
  }

  /** What a capsule tells changes nothing but the limits. */
  lemma InformedFrame(s: SessionVal, c: Capsule)
    ensures var t := Informed(s, c);
            && t == s.(credit := t.credit, bidi := t.bidi, uni := t.uni)
            && t.credit == s.credit.(limit := t.credit.limit)
            && t.bidi == s.bidi.(peerMax := t.bidi.peerMax) && t.uni == s.uni.(peerMax := t.uni.peerMax)
  {
    hide Varint.Read;
  }

  /** A session whose own limits alone have changed is received the same way. */
  lemma GrantedOther(x: SessionVal, y: SessionVal, y': SessionVal, inbox: seq<Capsule>)
    requires Granted(x, y, inbox) && y'.window.limit == y.window.limit
    requires y'.bidi.localMax == y.bidi.localMax && y'.uni.localMax == y.uni.localMax
    ensures Granted(x, y', inbox)
  {
    hide Limits, Rising, Last;
  }

  lemma InformCore(p: Pair, c: Capsule, qa: seq<Capsule>, qb: seq<Capsule>)
    requires Core(p, [c] + qa, qb) && Roomy(p.b.s)
    ensures Lawful(p.a.s, c) && Core(At(p, Informed(p.a.s, c)), qa, qb)
  {
    hide Informed, Lawful, Granted, Told, Polite, Flight, Kinds;
    InformedFrame(p.a.s, c);
    assert ([c] + qa)[0] == c;
    assert forall i :: 0 <= i < |qa| ==> ([c] + qa)[i + 1] == qa[i];
    GrantedTakes(p.a.s, p.b.s, c, qa);
    GrantedOther(p.b.s, p.a.s, Informed(p.a.s, c), qb);
    ToldOther(p.a.s, Informed(p.a.s, c), p.b.s, qb);
  }

  lemma ToldOther(x: SessionVal, x': SessionVal, y: SessionVal, inbox: seq<Capsule>)
    requires Told(x, y, inbox) && x'.cfg == x.cfg && x'.credit.lastBlocked == x.credit.lastBlocked
    ensures Told(x', y, inbox)
  {
  }

  lemma SoberInv(s: SessionVal)
    requires Base(s)
    ensures Sober(s)
  {
  }

  lemma ProcessForward(s: SessionVal, c: Capsule)
    requires Active(s)
    ensures Forward(s, ProcessCapsule(s, c).s)
  {
    hide ProcessCapsule;
    ProcessCapsuleFrame(s, c);
  }

  lemma ToldTakes(x: SessionVal, y: SessionVal, c: Capsule, rest: seq<Capsule>)
    requires Told(x, y, [c] + rest) && c.kind != CAPSULE_DATA_BLOCKED
    ensures Told(x, Informed(y, c), rest)
  {
    hide Informed, Calm;
    InformedFrame(y, c);
    if HasBlocked([c] + rest) {
      var i :| 0 <= i < |[c] + rest| && ([c] + rest)[i].kind == CAPSULE_DATA_BLOCKED;
      assert rest[i - 1] == ([c] + rest)[i];
    }
    assert Informed(y, c).window == y.window && Informed(y, c).cfg == y.cfg;
    assert Calm(Informed(y, c)) == Calm(y) by {
      CalmOther(y, Informed(y, c));
    }
  }

  lemma CalmOther(y: SessionVal, y': SessionVal)
    requires y'.window == y.window && y'.cfg == y.cfg
    ensures Calm(y') == Calm(y)
  {
  }

  /** Being told that the peer is blocked raises the limit if it can be raised. */
  lemma BlockedTold(x: SessionVal, y: SessionVal, c: Capsule, rest: seq<Capsule>)
    requires c.kind == CAPSULE_DATA_BLOCKED && x.cfg.flowControl == y.cfg.flowControl
    requires Active(y)
    requires x.credit.lastBlocked.Some? ==> x.credit.lastBlocked.value <= y.window.limit
    ensures Told(x, ProcessCapsule(y, c).s, rest)
  {
    hide Varint.Write, HasBlocked;
    WriteRange(SatAdd(y.window.consumed, y.cfg.receiveWindow));
  }

  lemma BlockedBound(p: Pair, qa: seq<Capsule>, qb: seq<Capsule>)
    requires Core(p, qa, qb) && p.a.s.cfg.flowControl
    ensures p.b.s.credit.lastBlocked.Some? ==> p.b.s.credit.lastBlocked.value <= p.a.s.window.limit
  {
    hide Limits, Rising, Last, QuotaGranted, Counted, Told, AllPolite;
    CreditBound(p.b.s, p.a.s, qb);
  }

  /** Taking a capsule keeps the stream limits in step. */
  lemma SlotTakes(x: SessionVal, y: SessionVal, c: Capsule, rest: seq<Capsule>, uni: bool)
    requires SlotGranted(x, y, [c] + rest, uni) && Granted(x, y, [c] + rest)
    ensures SlotGranted(Informed(x, c), y, rest, uni)
  {
    hide Limits, Last, Rising, Varint.Read, QuotaGranted;
    if x.cfg.flowControl {
      SlotLimit(QuotaOf(x, uni), QuotaOf(y, uni), c, rest, uni, QuotaOf(Informed(x, c), uni).peerMax);
    }
  }

  lemma SlotLimit(x: Quota, y: Quota, c: Capsule, rest: seq<Capsule>, uni: bool, limit: nat)
    requires QuotaGranted(x, y, [c] + rest, uni)
    requires limit == if c.kind == MaxStreams(uni) && ReadLimit(c) != [] then ReadLimit(c)[0] else x.peerMax
    ensures Last(limit, Limits(rest, MaxStreams(uni))) == Last(x.peerMax, Limits([c] + rest, MaxStreams(uni)))
    ensures x.peerMax <= limit
  {
    hide Limits, Last;
    LimitsHead(c, rest, MaxStreams(uni));
    var v := Limits(rest, MaxStreams(uni));
    if c.kind == MaxStreams(uni) && ReadLimit(c) != [] {
      assert ReadLimit(c) == [ReadLimit(c)[0]];
      RisingHead(x.peerMax, ReadLimit(c)[0], v);
    } else {
      assert [] + v == v;
    }
  }

  lemma SlotToldTakes(x: SessionVal, y: SessionVal, c: Capsule, rest: seq<Capsule>, uni: bool)
    requires SlotTold(x, y, [c] + rest, uni) && c.kind != StreamsBlocked(uni)
    ensures SlotTold(x, Informed(y, c), rest, uni)
  {
    hide Informed, Ample;
    InformedFrame(y, c);
    if HasStreamsBlocked([c] + rest, uni) {
      var i :| 0 <= i < |[c] + rest| && ([c] + rest)[i].kind == StreamsBlocked(uni);
      assert rest[i - 1] == ([c] + rest)[i];
    }
    AmpleOther(QuotaOf(y, uni), QuotaOf(Informed(y, c), uni));
  }

  lemma AmpleOther(q: Quota, q': Quota)
    requires q' == q.(peerMax := q'.peerMax)
    ensures Ample(q') == Ample(q)
  {
  }

  /** Being told that the peer is out of streams raises the limit if it can be raised. */
  lemma BlockedSlot(x: SessionVal, y: SessionVal, c: Capsule, rest: seq<Capsule>, uni: bool)
    requires c.kind == StreamsBlocked(uni) && x.cfg.flowControl == y.cfg.flowControl
    requires Active(y)
    ensures SlotTold(x, ProcessCapsule(y, c).s, rest, uni)
  {
    hide ReplenishQuota, Ample, HasStreamsBlocked, AbortSession, Varint.Read;
    ReplenishQuotaPaper(QuotaOf(y, uni), uni, true);
    AbortParked(y, ERR_H3_GENERAL_PROTOCOL_ERROR);
    AbortParked(y, ERR_WT_FLOW_CONTROL_ERROR);
  }

  /** What a knows of its limits after a capsule, and what b knows of them. */
  lemma InformSlot(p: Pair, c: Capsule, qa: seq<Capsule>, qb: seq<Capsule>, uni: bool)
    requires Core(p, [c] + qa, qb) && Slot(p, [c] + qa, qb, uni)
    ensures var s := Informed(p.a.s, c);
            SlotGranted(s, p.b.s, qa, uni) && SlotTold(s, p.b.s, qb, uni) && SlotGranted(p.b.s, s, qb, uni)
  {
    hide Informed, Limits, Last, Ample, HasStreamsBlocked, Counted, Granted, Told, AllPolite;
    InformedFrame(p.a.s, c);
    SlotTakes(p.a.s, p.b.s, c, qa, uni);
  }

  lemma ProcessServed(p: Pair, c: Capsule, uni: bool)
    requires SlotServed(p.a, uni) && SlotServed(p.b, uni) && Ships(Informed(p.a.s, c), ProcessCapsule(p.a.s, c))
    requires IsOpen(p.a.s)
    ensures var t := Emit(p, ProcessCapsule(p.a.s, c)); SlotServed(t.a, uni) && SlotServed(t.b, uni)
  {
    hide Served, Ships, ProcessCapsule, Capsules, Creates, Post;
    var s := p.a.s;
    var o := ProcessCapsule(s, c);
    if Raises(s, c, uni) {
      RaiseServes(s, c, uni);
    } else {
      assert QuotaOf(Informed(s, c), uni) == QuotaOf(s, uni) && Informed(s, c).cfg == s.cfg by {
        hide Varint.Read;
      }
      var t := At(p, Informed(s, c));
      assert SlotServed(t.a, uni);
      ShipServed(t, o, uni);
      assert Emit(t, o) == Emit(p, o);
    }
  }

  /** A capsule that raises the stream limit. */
  predicate Raises(s: SessionVal, c: Capsule, uni: bool) {
    c.kind == MaxStreams(uni) && s.cfg.flowControl && Varint.Read(c.value).Got?
  }

  lemma RaiseServes(s: SessionVal, c: Capsule, uni: bool)
    requires Raises(s, c, uni) && IsOpen(s)
    ensures Served(QuotaOf(ProcessCapsule(s, c).s, uni))
  {
    hide Served, FlushStreamRequests, Varint.Read, AbortSession;
    var q := QuotaOf(s, uni);
    FlushServes(WithQuota(s, uni, q.(peerMax := Varint.Read(c.value).value)), uni);
    AbortServes(s, ERR_WT_FLOW_CONTROL_ERROR, uni);
  }

  lemma AbortServes(s: SessionVal, code: ErrorCode, uni: bool)
    requires IsOpen(s)
    ensures Served(QuotaOf(AbortSession(s, code).s, uni))
  {
    hide AbortEach, Sorted, FailAll;
  }

  /** Working through one capsule, as far as streams of one kind are concerned. */
  lemma ProcessSlot(p: Pair, c: Capsule, qa: seq<Capsule>, qb: seq<Capsule>, uni: bool)
    requires Core(p, [c] + qa, qb) && Slot(p, [c] + qa, qb, uni) && Active(p.a.s)
    requires Core(At(p, Informed(p.a.s, c)), qa, qb)
    requires Ships(Informed(p.a.s, c), ProcessCapsule(p.a.s, c)) && Forward(Informed(p.a.s, c), ProcessCapsule(p.a.s, c).s)
    ensures var o := ProcessCapsule(p.a.s, c);
            Slot(Emit(p, o), qa, qb + Capsules(o.fx), uni)
  {
    hide Core, Informed, ProcessCapsule, Ships, Forward, SlotGranted, SlotTold, SlotServed, Capsules, Creates, Post;
    var s := p.a.s;
    var o := ProcessCapsule(s, c);
    var t := At(p, Informed(s, c));
    ProcessServed(p, c, uni);
    InformSlot(p, c, qa, qb, uni);
    ShipSlotCore(t, o, qa, qb, uni);
    if c.kind == StreamsBlocked(uni) {
      CoreMatched(p, [c] + qa, qb);
      BlockedSlot(p.b.s, s, c, qa, uni);
    } else {
      SlotToldTakes(p.b.s, s, c, qa, uni);
    }
  }

  /** Working through one capsule. */
  lemma ProcessKeeps(p: Pair, c: Capsule, qa: seq<Capsule>, qb: seq<Capsule>)
    requires Full(p, [c] + qa, qb) && Base(p.a.s) && Roomy(p.b.s) && Active(p.a.s)
    ensures var o := ProcessCapsule(p.a.s, c);
            Tame(o.fx) && Base(o.s) && Full(Emit(p, o), qa, qb + Capsules(o.fx))
  {
    hide Core, Base, Informed, Lawful, Told, Slot, ProcessCapsule, Numbers, Paper, Candid, Tame, Capsules, Creates;
    hide Post, Forward, Sober;
    var s := p.a.s;
    var o := ProcessCapsule(s, c);
    BaseParts(s);
    InformCore(p, c, qa, qb);
    InformedFrame(s, c);
    ProcessShips(s, c);
    ProcessCapsuleInv(s, c);
    SoberInv(o.s);
    ProcessForward(s, c);
    var t := At(p, Informed(s, c));
    ForwardFrom(s, t.a.s, o.s);
    ShipCore(t, o, qa, qb);
    ProcessSlot(p, c, qa, qb, false);
    ProcessSlot(p, c, qa, qb, true);
    assert Emit(t, o) == Emit(p, o);
    if c.kind == CAPSULE_DATA_BLOCKED {
      if s.cfg.flowControl {
        CoreMatched(p, [c] + qa, qb);
        BlockedBound(p, [c] + qa, qb);
        BlockedTold(p.b.s, s, c, qa);
      } else {
        UntoldWithout(p, o.s, [c] + qa, qa, qb);
      }
    } else {
      ToldTakes(p.b.s, s, c, qa);
      ShipTold(t, o, qa, qb);
    }
  }

  lemma ForwardFrom(s: SessionVal, t: SessionVal, u: SessionVal)
    requires t.phase == s.phase && t.capsules == s.capsules && Forward(s, u)
    ensures Forward(t, u)
  {
  }

  lemma CoreMatched(p: Pair, qa: seq<Capsule>, qb: seq<Capsule>)
    requires Core(p, qa, qb)
    ensures Matched(p.a.s.cfg, p.b.s.cfg)
  {
  }

  lemma UntoldWithout(p: Pair, t: SessionVal, q: seq<Capsule>, qa: seq<Capsule>, qb: seq<Capsule>)
    requires Core(p, q, qb) && !p.a.s.cfg.flowControl
    ensures Told(p.b.s, t, qa)
  {
  }

  // ----- skipping capsules

  lemma {:induction false} RisingSkip(base: nat, f: seq<nat>, g: seq<nat>)
    requires Rising(base, f + g)
    ensures Rising(base, g) && Last(base, g) <= Last(base, f + g)
    decreases |f|
  {
    if f == [] {
      assert f + g == g;
    } else {
      assert (f + g)[1..] == f[1..] + g;
      RisingSkip(f[0], f[1..], g);
      RisingLower(base, f[0], g);
      RisingBound(base, f + g);
    }
  }

  lemma QuotaSkips(x: Quota, y: Quota, f: seq<Capsule>, g: seq<Capsule>, uni: bool)
    requires QuotaGranted(x, y, f + g, uni)
    ensures QuotaGranted(x, y, g, uni)
  {
    LimitsAppend(f, g, MaxStreams(uni));
    LimitsAppend(f, g, StreamsBlocked(uni));
    RisingSkip(x.peerMax, Limits(f, MaxStreams(uni)), Limits(g, MaxStreams(uni)));
    InTail(Limits(f, StreamsBlocked(uni)), Limits(g, StreamsBlocked(uni)));
    hide Limits, Rising, Last;
  }

  /** A session that is draining or closed may skip capsules it had put aside. */
  lemma SkipKeeps(p: Pair, f: seq<Capsule>, qa: seq<Capsule>, qb: seq<Capsule>)
    requires Full(p, f + qa, qb) && !Eager(p.a.s)
    ensures Full(p, qa, qb)
  {
    hide Limits, Rising, Last, QuotaGranted, Counted, Polite, HasBlocked, Calm, Slot;
    assert forall i :: 0 <= i < |qa| ==> (f + qa)[|f| + i] == qa[i];
    if p.a.s.cfg.flowControl {
      LimitsAppend(f, qa, CAPSULE_MAX_DATA);
      RisingSkip(p.a.s.credit.limit, Limits(f, CAPSULE_MAX_DATA), Limits(qa, CAPSULE_MAX_DATA));
      QuotaSkips(p.a.s.bidi, p.b.s.bidi, f, qa, false);
      QuotaSkips(p.a.s.uni, p.b.s.uni, f, qa, true);
    }
    SkipSlot(p, f, qa, qb, false);
    SkipSlot(p, f, qa, qb, true);
  }

  lemma SkipSlot(p: Pair, f: seq<Capsule>, qa: seq<Capsule>, qb: seq<Capsule>, uni: bool)
    requires Slot(p, f + qa, qb, uni) && !Eager(p.a.s)
    ensures Slot(p, qa, qb, uni)
  {
    hide Limits, Last, Ample, HasStreamsBlocked;
  }

  /** Changes to a that leave its stream limits alone. */
  lemma SlotOther(p: Pair, p': Pair, qa: seq<Capsule>, qb: seq<Capsule>, uni: bool)
    requires Slot(p, qa, qb, uni) && p'.b.s == p.b.s && p'.a.s.cfg == p.a.s.cfg && Forward(p.a.s, p'.a.s)
    requires var q := QuotaOf(p.a.s, uni);
             var q' := QuotaOf(p'.a.s, uni);
             && q' == q.(issued := q'.issued, waiting := q'.waiting, peerOpened := q'.peerOpened)
             && (uni in p'.a.deferred || (uni !in p.a.deferred && q'.issued == q.issued && q'.waiting == q.waiting))
    requires p'.b.deferred == p.b.deferred
    ensures Slot(p', qa, qb, uni)
  {
    hide Limits, Last, HasStreamsBlocked;
  }

  // ----- confirmation

  lemma {:induction false} ReplayKeeps(p: Pair, n: nat, qa: seq<Capsule>, qb: seq<Capsule>)
    requires p.a.s.phase == Connected && Base(p.a.s) && Roomy(p.b.s) && n == |p.a.s.capsules|
    requires Full(p, p.a.s.capsules + qa, qb)
    ensures var o := ReplayCapsules(p.a.s, n);
            Tame(o.fx) && Full(Emit(p, o), qa, qb + Capsules(o.fx))
    decreases n
  {
    hide Full, Base, ProcessCapsule, ReplayDatagrams, Tame, Capsules, Creates, Post, Numbers, Paper;
    var s := p.a.s;
    if n == 0 {
      ReplayDatagramsShips(s);
      assert s.capsules + qa == qa;
      ReplayDatagramsForward(s);
      SoberInv(s);
      SoberFrom(s, ReplayDatagrams(s).s);
      ShipFull(p, ReplayDatagrams(s), qa, qb);
    } else {
      var c := s.capsules[0];
      var b := s.(capsules := s.capsules[1..]);
      var p' := At(p, b);
      var o := ProcessCapsule(b, c);
      var rest := b.capsules + qa;
      assert s.capsules + qa == [c] + rest;
      QueuesInv(s, s.capsules[1..], s.datagramRequests, s.datagrams);
      SetAside(p, b, [c] + rest, qb);
      ProcessKeeps(p', c, rest, qb);
      ProcessCapsuleFrame(b, c);
      var q' := qb + Capsules(o.fx);
      assert Emit(p', o) == Emit(p, o);
      if o.s.phase == Connected {
        ReplayKeeps(Emit(p, o), n - 1, qa, q');
        var r := ReplayCapsules(o.s, n - 1);
        EmitAppend(p, o.s, o.fx, r);
        CapsulesAppend(o.fx, r.fx);
        assert q' + Capsules(r.fx) == qb + (Capsules(o.fx) + Capsules(r.fx));
        TameAppend(o.fx, r.fx);
      } else {
        if b.capsules == [] {
          assert rest == qa;
        } else {
          SkipKeeps(Emit(p, o), b.capsules, qa, q');
        }
      }
    }
  }

  lemma TameAppend(f: seq<Effect>, g: seq<Effect>)
    requires Tame(f) && Tame(g)
    ensures Tame(f + g)
  {
    hide Polite;
  }

  lemma {:induction false} ReplayDatagramsForward(s: SessionVal)
    ensures var t := ReplayDatagrams(s).s;
            t.phase == s.phase && t.credit == s.credit && t.capsules == s.capsules
    decreases |s.datagrams|
  {
    hide ShowEach;
    if s.datagramRequests != [] && s.datagrams != [] {
      ReplayDatagramsForward(s.(datagrams := s.datagrams[1..], datagramRequests := s.datagramRequests[1..]));
    }
  }

  lemma SoberFrom(s: SessionVal, t: SessionVal)
    requires Sober(s) && t.credit == s.credit
    ensures Sober(t)
  {
  }

  /** Only what the session keeps aside has changed. */
  lemma SetAside(p: Pair, t: SessionVal, qa: seq<Capsule>, qb: seq<Capsule>)
    requires Full(p, qa, qb)
    requires t == p.a.s.(phase := t.phase, capsules := t.capsules) && Forward(p.a.s, t)
    ensures Full(At(p, t), qa, qb)
  {
    hide Limits, Rising, Last, QuotaGranted, Flight, Kinds, Polite, HasBlocked, Slot;
    SlotOther(p, At(p, t), qa, qb, false);
    SlotOther(p, At(p, t), qa, qb, true);
  }

  // ----- data and openings of the peer

  /** The session has counted bytes of the peer. */
  lemma DataCore(p: Pair, id: StreamId, n: nat, qa: seq<Capsule>, qb: seq<Capsule>)
    requires Core(p, qa, qb) && n <= |InFlight(p.a.bytes, id)|
    ensures var data := InFlight(p.a.bytes, id);
            var w := p.a.s.window.(received := p.a.s.window.received + n, consumed := p.a.s.window.consumed + n);
            Core(p.(a := p.a.(s := p.a.s.(window := w), bytes := p.a.bytes[id := data[n..]])), qa, qb)
  {
    hide Limits, Rising, Last, QuotaGranted, Kinds, Polite, HasBlocked, Flight;
    FlightUpdate(p.a.bytes, id, InFlight(p.a.bytes, id)[n..]);
  }

  /** Bytes within a channel fit the limit. */
  lemma DataFits(p: Pair, id: StreamId, n: nat, qa: seq<Capsule>, qb: seq<Capsule>)
    requires Core(p, qa, qb) && n <= |InFlight(p.a.bytes, id)| && p.a.s.cfg.flowControl
    requires p.b.s.credit.sent <= p.b.s.credit.limit
    ensures p.a.s.window.received + n <= p.a.s.window.limit
  {
    hide Limits, Rising, Last, QuotaGranted, Kinds, Told, AllPolite, Flight;
    FlightUpdate(p.a.bytes, id, []);
    CreditBound(p.b.s, p.a.s, qb);
  }

  lemma LostFull(p: Pair, id: StreamId, n: nat, rest: Bytes, qa: seq<Capsule>, qb: seq<Capsule>)
    requires Full(p, qa, qb) && |rest| + n == |InFlight(p.a.bytes, id)|
    ensures Full(p.(a := p.a.(bytes := p.a.bytes[id := rest], lost := p.a.lost + n)), qa, qb)
  {
    hide Granted, Told, Slot, Kinds, AllPolite, Flight;
    FlightUpdate(p.a.bytes, id, rest);
    var t := p.(a := p.a.(bytes := p.a.bytes[id := rest], lost := p.a.lost + n));
    SlotOther(p, t, qa, qb, false);
    SlotOther(p, t, qa, qb, true);
  }

  /** After counting bytes a connected session has announced a new limit or need not. */
  lemma DataCalm(y: SessionVal, id: StreamId, data: Bytes, fin: bool)
    requires id in y.streams && y.cfg.flowControl && Active(y) && y.window.received + |data| <= y.window.limit
    ensures var t := RecvStreamData(y, id, data, fin).s;
            Calm(t) || t.window.limit > y.window.limit
    ensures RecvStreamData(y, id, data, fin).s.phase == y.phase
  {
    hide RecvData, Varint.Write, ReplenishQuota, Suppress, IsClosed;
    WriteRange(SatAdd(y.window.consumed + |data|, y.cfg.receiveWindow));
  }

  lemma DataTold(x: SessionVal, y: SessionVal, id: StreamId, data: Bytes, fin: bool, inbox: seq<Capsule>)
    requires Told(x, y, inbox) && x.cfg.flowControl == y.cfg.flowControl && id in y.streams
    requires y.cfg.flowControl ==> y.window.received + |data| <= y.window.limit
    requires x.cfg.flowControl && x.credit.lastBlocked.Some? ==> x.credit.lastBlocked.value <= y.window.limit
    requires RecvStreamData(y, id, data, fin).s.window.limit >= y.window.limit
    ensures Told(x, RecvStreamData(y, id, data, fin).s, inbox)
  {
    hide RecvStreamData, Calm, HasBlocked;
    if x.cfg.flowControl && Eager(y) {
      if Active(y) {
        DataCalm(y, id, data, fin);
      } else {
        PeerDataParked(y, id, data, fin);
      }
    } else {
      PeerDataParked(y, id, data, fin);
    }
  }

  lemma BaseFacts(s: SessionVal)
    requires Base(s)
    ensures StreamsOk(s) && Sober(s)
    ensures s.cfg.flowControl ==>
              s.credit.sent <= s.credit.limit && s.bidi.issued <= s.bidi.peerMax && s.uni.issued <= s.uni.peerMax
  {
  }

  lemma BytesKeep(p: Pair, id: StreamId, n: nat, fin: bool, qa: seq<Capsule>, qb: seq<Capsule>)
    requires Full(p, qa, qb) && Base(p.a.s) && Base(p.b.s) && Roomy(p.b.s)
    requires n <= |InFlight(p.a.bytes, id)| && id in p.a.s.streams
    ensures var data := InFlight(p.a.bytes, id);
            var o := RecvStreamData(p.a.s, id, data[..n], fin);
            Tame(o.fx) && Full(Emit(p.(a := p.a.(bytes := p.a.bytes[id := data[n..]])), o), qa, qb + Capsules(o.fx))
  {
    hide Core, Told, Slot, RecvStreamData, Numbers, Paper, Candid, Tame, Capsules, Creates, Post, Forward, Sober, Base;
    hide StreamsOk, Roomy;
    SameForward(p.a.s);
    var data := InFlight(p.a.bytes, id);
    var s := p.a.s;
    var o := RecvStreamData(s, id, data[..n], fin);
    var w := s.window.(received := s.window.received + n, consumed := s.window.consumed + n);
    var t := p.(a := p.a.(s := s.(window := w), bytes := p.a.bytes[id := data[n..]]));
    CoreMatched(p, qa, qb);
    BaseFacts(s);
    BaseFacts(p.b.s);
    if s.cfg.flowControl {
      DataFits(p, id, n, qa, qb);
      BlockedBound(p, qa, qb);
    }
    PeerDataShips(s, id, data[..n], fin);
    DataCore(p, id, n, qa, qb);
    RecvStreamDataInv(s, id, data[..n], fin);
    SoberInv(o.s);
    PeerDataParked(s, id, data[..n], fin);
    ParkedForward(s, t.a.s, o.s);
    ShipCore(t, o, qa, qb);
    assert Emit(t, o) == Emit(p.(a := p.a.(bytes := p.a.bytes[id := data[n..]])), o);
    SlotOther(p, t, qa, qb, false);
    SlotOther(p, t, qa, qb, true);
    ShipSlot(t, o, qa, qb, false);
    ShipSlot(t, o, qa, qb, true);
    ShipLimit(t.a.s, o);
    DataTold(p.b.s, s, id, data[..n], fin, qa);
  }

  lemma ShipLimit(s: SessionVal, o: Step)
    requires Ships(s, o)
    ensures o.s.window.limit >= s.window.limit
  {
    hide Numbers, Tame, QuotaPaper, Grants;
    GrantsUp(s.window.limit, Capsules(o.fx), o.s.window.limit);
  }

  lemma SameForward(s: SessionVal)
    ensures forall t: SessionVal :: t.phase == s.phase && t.capsules == s.capsules ==> Forward(s, t)
  {
  }

  lemma ParkedForward(s: SessionVal, s1: SessionVal, t: SessionVal)
    requires Parked(s, t) && s1.phase == s.phase && s1.capsules == s.capsules
    ensures Forward(s1, t)
  {
  }

  /** An opening within a channel fits the limit. */
  lemma OpeningFits(p: Pair, i: nat, qa: seq<Capsule>, qb: seq<Capsule>)
    requires Core(p, qa, qb) && i < |p.a.opening| && p.a.s.cfg.flowControl
    requires p.b.s.bidi.issued <= p.b.s.bidi.peerMax && p.b.s.uni.issued <= p.b.s.uni.peerMax
    ensures var q := QuotaOf(p.a.s, IsUnidirectional(p.a.opening[i]));
            q.peerOpened < q.localMax
  {
    hide Limits, Last, Told, AllPolite, Flight, Kinds;
    KindsWithout(p.a.opening, i, false);
    KindsWithout(p.a.opening, i, true);
    RisingBound(p.b.s.bidi.peerMax, Limits(qb, MaxStreams(false)));
    RisingBound(p.b.s.uni.peerMax, Limits(qb, MaxStreams(true)));
  }

  function Admitted(s: SessionVal, id: StreamId): SessionVal {
    var uni := IsUnidirectional(id);
    var q := QuotaOf(s, uni);
    if IsOpen(s) then WithQuota(s, uni, q.(peerOpened := q.peerOpened + 1)) else s
  }

  lemma OpeningFull(p: Pair, i: nat, qa: seq<Capsule>, qb: seq<Capsule>)
    requires Full(p, qa, qb) && i < |p.a.opening|
    ensures Full(p.(a := p.a.(s := Admitted(p.a.s, p.a.opening[i]), opening := Without(p.a.opening, i))), qa, qb)
  {
    hide Limits, Rising, Last, HasBlocked, Polite, Flight, Kinds, Slot;
    KindsWithout(p.a.opening, i, false);
    KindsWithout(p.a.opening, i, true);
    var t := Admitted(p.a.s, p.a.opening[i]);
    SlotOther(p, p.(a := p.a.(s := t, opening := Without(p.a.opening, i))), qa, qb, false);
    SlotOther(p, p.(a := p.a.(s := t, opening := Without(p.a.opening, i))), qa, qb, true);
  }

  lemma MissedFull(p: Pair, i: nat, qa: seq<Capsule>, qb: seq<Capsule>)
    requires Full(p, qa, qb) && i < |p.a.opening|
    ensures Full(p.(a := Miss(p.a, i)), qa, qb)
  {
    hide Granted, Told, Slot, Flight, Kinds, AllPolite;
    KindsWithout(p.a.opening, i, false);
    KindsWithout(p.a.opening, i, true);
    SlotOther(p, p.(a := Miss(p.a, i)), qa, qb, false);
    SlotOther(p, p.(a := Miss(p.a, i)), qa, qb, true);
  }

  lemma OpenedShips(s: SessionVal, id: StreamId)
    requires IsPeerInitiated(id, s.cfg.isClient)
    requires s.cfg.flowControl ==> QuotaOf(s, IsUnidirectional(id)).peerOpened < QuotaOf(s, IsUnidirectional(id)).localMax
    ensures Ships(Admitted(s, id), StreamOpened(s, id))
  {
    hide Ships, AdmitStream, AbortSession;
    if IsOpen(s) {
      AdmitShips(Admitted(s, id), id, DirectionOf(id, s.cfg.isClient), IsUnidirectional(id));
    } else {
      RefusedShips(s, id);
    }
  }

  lemma OpeningKeeps(p: Pair, i: nat, qa: seq<Capsule>, qb: seq<Capsule>)
    requires Full(p, qa, qb) && Base(p.a.s) && Base(p.b.s) && Roomy(p.b.s)
    requires i < |p.a.opening| && Allowed(p.a.s, PeerOpened(p.a.opening[i]))
    ensures var o := StreamOpened(p.a.s, p.a.opening[i]);
            Tame(o.fx) && Full(Emit(p.(a := p.a.(opening := Without(p.a.opening, i))), o), qa, qb + Capsules(o.fx))
  {
    hide Core, Told, StreamOpened, Tame, Numbers, Paper, Capsules, Creates, Post, Forward, Sober, Base, StreamsOk;
    hide Roomy;
    var s := p.a.s;
    var id := p.a.opening[i];
    var o := StreamOpened(s, id);
    CoreMatched(p, qa, qb);
    BaseFacts(p.b.s);
    StreamOpenedInv(s, id);
    SoberInv(o.s);
    PeerOpenedForward(s, id);
    if s.cfg.flowControl {
      OpeningFits(p, i, qa, qb);
    }
    OpenedShips(s, id);
    OpeningFull(p, i, qa, qb);
    var t := p.(a := p.a.(s := Admitted(s, id), opening := Without(p.a.opening, i)));
    ForwardFrom(s, Admitted(s, id), o.s);
    ShipFull(t, o, qa, qb);
    assert Emit(t, o) == Emit(p.(a := p.a.(opening := Without(p.a.opening, i))), o);
  }

  lemma RefusedShips(s: SessionVal, id: StreamId)
    requires !IsOpen(s)
    ensures Ships(s, StreamOpened(s, id))
  {
    hide Ships, Polite;
    MuteShips(s, StreamOpened(s, id));
  }

  lemma PeerOpenedForward(s: SessionVal, id: StreamId)
    ensures Forward(s, StreamOpened(s, id).s)
  {
    hide AbortSession, NewStream, ReplenishQuota;
    AbortParked(s, ERR_WT_FLOW_CONTROL_ERROR);
  }

  // ----- the session's own events

  predicate Confirms(e: Event) {
    e.PeerConfirmed? || e.UserAccept?
  }

  lemma OwnShips(s: SessionVal, e: Event)
    requires Base(s) && Allowed(s, e) && IsOwn(e) && !Confirms(e)
    ensures Ships(s, Handle(s, e))
  {
    hide Ships, Queued, Spent, QuotaOk, ShutOk, StreamsOk;
    hide CreateStream, FlushStreamRequests, ReadDatagram, RecvDatagram, SendDatagramTo, RecvConnectClose, AbortSession,
    CloseSession, RejectSession, Drain;
    if OnStream(e) {
      StreamOpShips(s, e);
    } else {
      match e {
        case UserReject(_, _) => EndingsShip(s, e);
        case PeerClosed(_) => EndingsShip(s, e);
        case UserClose(request, code, reason) => CloseShips(s, request, code, reason);
        case AbortAll(code) => AbortShips(s, code);
        case UserCreate(request, uni) => CreateShips(s, request, uni);
        case TransportMaxStreams(uni) => FlushRequestsShips(s, uni);
        case DrainAll => DrainShips(s);
        case _ => DatagramShips(s, e);
      }
    }
  }

  lemma OwnParked(s: SessionVal, e: Event)
    requires IsOwn(e) && !Confirms(e)
    ensures var t := Handle(s, e).s;
            Parked(s, t) || (s.phase == Connected && t == s.(phase := Draining))
  {
    hide Parked, CreateStream, FlushStreamRequests, ReadDatagram, RecvDatagram, SendDatagramTo, RecvConnectClose, AbortSession,
    CloseSession, RejectSession;
    if OnStream(e) {
      StreamOpParked(s, e);
    } else if e.UserReject? || e.UserClose? || e.PeerClosed? || e.AbortAll? {
      EndingsParked(s, e);
    } else if e.DrainAll? {
      SameParked(s);
    } else {
      OthersParked(s, e);
    }
  }

  lemma SameParked(s: SessionVal)
    ensures Parked(s, s)
  {
  }

  /** The invariant after a step whose state and effects were settled with an explicit queue. */
  lemma Conclude(p: Pair, o: Step, skipped: seq<Capsule>, qa: seq<Capsule>)
    requires Full(Emit(p, o), qa, Queue(p.b) + Capsules(o.fx))
    requires SessionInvariant.Inv(o.s) && SessionInvariant.Inv(p.b.s)
    requires qa == skipped + Queue(Emit(p, o).a) && (skipped == [] || !Eager(o.s))
    ensures PairOk(Emit(p, o))
  {
    hide Full, Post, Creates, Capsules, SessionInvariant.Inv;
    var t := Emit(p, o);
    assert Queue(t.b) == Queue(p.b) + Capsules(o.fx);
    if skipped == [] {
      assert qa == Queue(t.a);
    } else {
      SkipKeeps(t, skipped, Queue(t.a), Queue(t.b));
    }
  }

  lemma OwnKeeps(p: Pair, e: Event)
    requires PairOk(p) && Roomy(p.b.s) && IsOwn(e) && Allowed(p.a.s, e) && !Confirms(e)
    ensures var o := Handle(p.a.s, e); Tame(o.fx) && PairOk(Emit(p.(a := Offered(p.a, e)), o))
  {
    hide Full, Base, Settled, Handle, Allowed, Numbers, Paper, Candid, Tame, Capsules, Creates, Post, Sober, Roomy;
    var s := p.a.s;
    var o := Handle(s, e);
    OwnShips(s, e);
    OwnParked(s, e);
    HandleInv(s, e);
    SoberInv(o.s);
    ShipFull(p, o, Queue(p.a), Queue(p.b));
    var skipped := if s.phase == Connecting && !IsOpen(o.s) then s.capsules else [];
    assert Queue(p.a) == skipped + Queue(Emit(p, o).a);
    OfferFull(p, e, Queue(p.a), Queue(p.b) + Capsules(o.fx));
    Conclude(p.(a := Offered(p.a, e)), o, skipped, Queue(p.a));
  }

  /** Once the transport has offered streams the creations it gave back are tried again. */
  lemma OfferFull(p: Pair, e: Event, qa: seq<Capsule>, qb: seq<Capsule>)
    requires Full(Emit(p, Handle(p.a.s, e)), qa, qb)
    ensures Full(Emit(p.(a := Offered(p.a, e)), Handle(p.a.s, e)), qa, qb)
  {
    hide Granted, Told, SlotGranted, SlotTold, Served, Flight, Kinds, AllPolite, Post, Creates, Capsules;
    hide FlushStreamRequests;
    if e.TransportMaxStreams? {
      FlushServes(p.a.s, e.uni);
      assert Handle(p.a.s, e) == FlushStreamRequests(p.a.s, e.uni);
    }
  }

  lemma QuietEmit(p: Pair, s: SessionVal, fx: seq<Effect>)
    requires Plain(fx) && Mute(fx)
    ensures Emit(p, Step(s, fx)) == At(p, s)
  {
    PlainFacts(fx);
    QuietPost(p.b.bytes, fx);
  }

  lemma {:induction false} QuietPost(m: map<StreamId, Bytes>, fx: seq<Effect>)
    requires Mute(fx)
    ensures Post(m, fx) == m
  {
    if fx != [] {
      QuietPost(m, fx[1..]);
    }
  }

  lemma {:induction false} ReplayPhase(s: SessionVal, n: nat)
    requires s.phase == Connected
    ensures ReplayCapsules(s, n).s.phase != Connecting
    decreases n
  {
    hide ProcessCapsule, ReplayDatagrams;
    if n == 0 || s.capsules == [] {
      ReplayDatagramsForward(s);
    } else {
      var b := s.(capsules := s.capsules[1..]);
      ProcessCapsuleFrame(b, s.capsules[0]);
      if ProcessCapsule(b, s.capsules[0]).s.phase == Connected {
        ReplayPhase(ProcessCapsule(b, s.capsules[0]).s, n - 1);
      }
    }
  }

  lemma ConfirmedKeeps(p: Pair, head: seq<Effect>)
    requires PairOk(p) && Roomy(p.b.s) && p.a.s.phase == Connecting && Plain(head) && Mute(head) && Tame(head)
    ensures var r := ReplayCapsules(p.a.s.(phase := Connected), |p.a.s.capsules|);
            Tame(head + r.fx) && PairOk(Emit(p, Step(r.s, head + r.fx)))
  {
    hide Full, Base, ReplayCapsules, Tame, Capsules, Creates, Post, Roomy, Plain, Mute;
    var s := p.a.s;
    var b := s.(phase := Connected);
    var n := |s.capsules|;
    var r := ReplayCapsules(b, n);
    PhaseInv(s, []);
    SetAside(p, b, Queue(p.a), Queue(p.b));
    ReplayKeeps(At(p, b), n, p.a.inbox, Queue(p.b));
    QuietEmit(p, b, head);
    EmitAppend(p, b, head, r);
    TameAppend(head, r.fx);
    ReplayCapsulesInv(b, n);
    ReplayPhase(b, n);
    assert p.a.inbox == [] + Queue(Emit(At(p, b), r).a);
    Conclude(At(p, b), r, [], p.a.inbox);
  }

  lemma ConfirmKeeps(p: Pair, e: Event)
    requires PairOk(p) && Roomy(p.b.s) && Confirms(e)
    ensures var o := Handle(p.a.s, e); Tame(o.fx) && PairOk(Emit(p, o))
  {
    hide PairOk, ReplayCapsules, Polite, Capsules, Creates, Post;
    var s := p.a.s;
    if s.phase == Connecting && (e.UserAccept? ==> !s.cfg.isClient && e.acceptable) {
      ConfirmedKeeps(p, if e.PeerConfirmed? then [EmitSession(SessionReady)]
                        else [SendHeaders(false), EmitSession(SessionReady), Done(e.request, Nothing)]);
    } else {
      QuietEmit(p, s, Handle(s, e).fx);
    }
  }

  // ----- capsules at large

  lemma InboxFree(p: Pair, inbox: seq<Capsule>, qa: seq<Capsule>, qb: seq<Capsule>)
    requires Full(p, qa, qb)
    ensures Full(p.(a := p.a.(inbox := inbox)), qa, qb)
  {
    hide Granted, Told, Slot, Flight, Kinds, AllPolite;
    SlotOther(p, p.(a := p.a.(inbox := inbox)), qa, qb, false);
    SlotOther(p, p.(a := p.a.(inbox := inbox)), qa, qb, true);
  }

  lemma CapsuleParked(s: SessionVal, c: Capsule)
    requires Active(s)
    ensures ProcessCapsule(s, c).s.phase != Connecting
  {
    hide ProcessCapsule;
    ProcessCapsuleFrame(s, c);
  }

  lemma ParkCapsule(p: Pair)
    requires PairOk(p) && p.a.inbox != [] && p.a.s.phase == Connecting
    ensures var t := p.a.s.(capsules := p.a.s.capsules + [p.a.inbox[0]]);
            var p' := p.(a := p.a.(inbox := p.a.inbox[1..]));
            PairOk(Emit(p', Step(t, [])))
  {
    hide Full, Base;
    var s := p.a.s;
    var t := s.(capsules := s.capsules + [p.a.inbox[0]]);
    var p' := p.(a := p.a.(inbox := p.a.inbox[1..]));
    var q := Queue(p.a);
    QueuesInv(s, t.capsules, s.datagramRequests, s.datagrams);
    InboxFree(p, p.a.inbox[1..], q, Queue(p.b));
    SetAside(p', t, q, Queue(p.b));
    assert Emit(p', Step(t, [])) == At(p', t);
    assert t.capsules + p.a.inbox[1..] == s.capsules + p.a.inbox;
  }

  /** A capsule that a closing or overloaded session does not work through. */
  lemma RefuseCapsule(p: Pair, o: Step)
    requires PairOk(p) && Roomy(p.b.s) && p.a.inbox != [] && Ships(p.a.s, o) && !Eager(o.s) && SessionInvariant.Inv(o.s)
    ensures PairOk(Emit(p.(a := p.a.(inbox := p.a.inbox[1..])), o))
  {
    hide Full, Base, Settled, Numbers, Paper, Tame, Capsules, Creates, Post, Sober, Roomy;
    var s := p.a.s;
    var p' := p.(a := p.a.(inbox := p.a.inbox[1..]));
    var q := Queue(p.a);
    InboxFree(p, p.a.inbox[1..], q, Queue(p.b));
    SoberInv(o.s);
    ShipFull(p', o, q, Queue(p.b));
    var f := (if s.phase == Connecting then s.capsules else []) + [p.a.inbox[0]];
    assert q == f + Queue(Emit(p', o).a);
    Conclude(p', o, f, q);
  }

  lemma CapsuleKeeps(p: Pair)
    requires PairOk(p) && Roomy(p.b.s) && p.a.inbox != []
    ensures var o := RecvCapsule(p.a.s, p.a.inbox[0]);
            Tame(o.fx) && PairOk(Emit(p.(a := p.a.(inbox := p.a.inbox[1..])), o))
  {
    hide Full, Base, Settled, ProcessCapsule, AbortSession, Numbers, Paper, Tame, Capsules, Creates, Post, Roomy;
    var s := p.a.s;
    var c := p.a.inbox[0];
    var p' := p.(a := p.a.(inbox := p.a.inbox[1..]));
    var o := RecvCapsule(s, c);
    HandleInv(s, PeerCapsule(c));
    match s.phase {
      case Connecting =>
        if |s.capsules| >= s.cfg.maxPendingCapsules {
          BaseParts(s);
          AbortShips(s, ERR_H3_EXCESSIVE_LOAD);
          AbortParked(s, ERR_H3_EXCESSIVE_LOAD);
          RefuseCapsule(p, o);
        } else {
          ParkCapsule(p);
          NoLimits();
        }
      case Closing =>
        NothingShips(s);
        RefuseCapsule(p, o);
      case Closed =>
        ClosedShips(s);
        RefuseCapsule(p, o);
      case _ =>
        assert Queue(p.a) == [c] + p.a.inbox[1..];
        InboxFree(p, p.a.inbox[1..], Queue(p.a), Queue(p.b));
        ProcessKeeps(p', c, p.a.inbox[1..], Queue(p.b));
        CapsuleParked(s, c);
        assert p.a.inbox[1..] == [] + Queue(Emit(p', o).a);
        Conclude(p', o, [], p.a.inbox[1..]);
    }
  }

  lemma ClosedShips(s: SessionVal)
    ensures Ships(s, Step(s, [ResetQuicStream(s.cfg.id, ERR_H3_MESSAGE_ERROR)]))
  {
    hide Polite, Ships;
    MuteShips(s, Step(s, [ResetQuicStream(s.cfg.id, ERR_H3_MESSAGE_ERROR)]));
  }

  // ----- streams opened by the transport

  lemma BindFull(p: Pair, id: StreamId, uni: bool, qa: seq<Capsule>, qb: seq<Capsule>)
    requires Full(p, qa, qb) && Lent(p.a, uni) > 0 && IsUnidirectional(id) == uni
    ensures Full(Pair(WithLent(p.a, uni, Lent(p.a, uni) - 1), p.b.(opening := p.b.opening + [id])), qa, qb)
  {
    hide Granted, Told, Slot, Flight, AllPolite;
    var t := Pair(WithLent(p.a, uni, Lent(p.a, uni) - 1), p.b.(opening := p.b.opening + [id]));
    SlotOther(p, t, qa, qb, false);
    SlotOther(p, t, qa, qb, true);
    KindsAppend(p.b.opening, [id], false);
    KindsAppend(p.b.opening, [id], true);
    assert [id][1..] == [];
    hide Kinds;
  }

  lemma BindKeeps(p: Pair, id: StreamId, request: RequestId, uni: bool)
    requires PairOk(p) && Roomy(p.b.s) && Lent(p.a, uni) > 0 && Allowed(p.a.s, TransportBind(id, request, uni))
    ensures var o := BindStream(p.a.s, id, request, uni);
            var p' := Pair(WithLent(p.a, uni, Lent(p.a, uni) - 1), p.b.(opening := p.b.opening + [id]));
            Tame(o.fx) && PairOk(Emit(p', o))
  {
    hide Full, Base, Settled, BindStream, Numbers, Paper, Tame, Capsules, Creates, Post, Roomy, Sober;
    var s := p.a.s;
    var o := BindStream(s, id, request, uni);
    var p' := Pair(WithLent(p.a, uni, Lent(p.a, uni) - 1), p.b.(opening := p.b.opening + [id]));
    BindFull(p, id, uni, Queue(p.a), Queue(p.b));
    BindShips(s, id, request, uni);
    HandleInv(s, TransportBind(id, request, uni));
    BindFrame(s, id, request, uni);
    SoberInv(o.s);
    ShipFull(p', o, Queue(p.a), Queue(p.b));
    assert Queue(p.a) == [] + Queue(Emit(p', o).a);
    Conclude(p', o, [], Queue(p.a));
  }

  lemma BindFrame(s: SessionVal, id: StreamId, request: RequestId, uni: bool)
    ensures var t := BindStream(s, id, request, uni).s; t.phase == s.phase && t.capsules == s.capsules
  {
  }

  /** A session after the transport gave a stream creation back. */
  function Returned(s: SessionVal, request: RequestId, uni: bool): SessionVal {
    var q := QuotaOf(s, uni);
    if IsOpen(s) then WithQuota(s, uni, q.(issued := q.issued - 1, waiting := q.waiting + [request])) else s
  }

  lemma DeferFull(p: Pair, request: RequestId, uni: bool, qa: seq<Capsule>, qb: seq<Capsule>)
    requires Full(p, qa, qb) && Lent(p.a, uni) > 0
    ensures Full(p.(a := GiveBack(p.a, uni).(s := Returned(p.a.s, request, uni))), qa, qb)
  {
    hide Limits, Rising, Last, HasBlocked, Polite, Flight, Kinds, Slot;
    var t := p.(a := GiveBack(p.a, uni).(s := Returned(p.a.s, request, uni)));
    SlotOther(p, t, qa, qb, false);
    SlotOther(p, t, qa, qb, true);
  }

  lemma DeferShips(s: SessionVal, request: RequestId, uni: bool)
    ensures Ships(Returned(s, request, uni), DeferStream(s, request, uni))
    ensures var t := DeferStream(s, request, uni).s; t.phase == s.phase && t.capsules == s.capsules
  {
    hide Ships, Polite;
    MuteShips(Returned(s, request, uni), DeferStream(s, request, uni));
  }

  lemma DeferKeeps(p: Pair, request: RequestId, uni: bool)
    requires PairOk(p) && Roomy(p.b.s) && Lent(p.a, uni) > 0
    ensures var o := DeferStream(p.a.s, request, uni);
            Tame(o.fx) && PairOk(Emit(p.(a := GiveBack(p.a, uni)), o))
  {
    hide Full, Base, Settled, DeferStream, Numbers, Paper, Tame, Capsules, Creates, Post, Roomy, Sober;
    var s := p.a.s;
    var o := DeferStream(s, request, uni);
    var p' := p.(a := GiveBack(p.a, uni));
    DeferFull(p, request, uni, Queue(p.a), Queue(p.b));
    DeferShips(s, request, uni);
    HandleInv(s, TransportDefer(request, uni));
    SoberInv(o.s);
    ShipFull(At(p', Returned(s, request, uni)), o, Queue(p.a), Queue(p.b));
    assert Emit(At(p', Returned(s, request, uni)), o) == Emit(p', o);
    assert Queue(p.a) == [] + Queue(Emit(p', o).a);
    Conclude(p', o, [], Queue(p.a));
  }

  // ----- one step, and whole runs

  lemma TakeOpeningKeeps(p: Pair, i: nat)
    requires PairOk(p) && Roomy(p.b.s) && Enabled(p, TakeOpening(i))
    ensures var (t, fx) := Perform(p, TakeOpening(i)); Tame(fx) && PairOk(t)
  {
    hide Full, Base, Settled, StreamOpened, Tame, Capsules, Creates, Post, Roomy;
    var s := p.a.s;
    var o := StreamOpened(s, p.a.opening[i]);
    OpeningKeeps(p, i, Queue(p.a), Queue(p.b));
    HandleInv(s, PeerOpened(p.a.opening[i]));
    OpenedFrame(s, p.a.opening[i]);
    var p' := p.(a := p.a.(opening := Without(p.a.opening, i)));
    var skipped := if s.phase == Connecting && !IsOpen(o.s) then s.capsules else [];
    assert Queue(p.a) == skipped + Queue(Emit(p', o).a);
    Conclude(p', o, skipped, Queue(p.a));
  }

  lemma OpenedFrame(s: SessionVal, id: StreamId)
    ensures var t := StreamOpened(s, id).s;
            (t.phase == s.phase && t.capsules == s.capsules) || !IsOpen(t)
  {
    hide AbortSession, NewStream, ReplenishQuota;
    AbortParked(s, ERR_WT_FLOW_CONTROL_ERROR);
  }

  lemma TakeBytesKeeps(p: Pair, id: StreamId, n: nat, fin: bool)
    requires PairOk(p) && Roomy(p.b.s) && Enabled(p, TakeBytes(id, n, fin))
    ensures var (t, fx) := Perform(p, TakeBytes(id, n, fin)); Tame(fx) && PairOk(t)
  {
    hide Full, SessionInvariant.Inv, RecvStreamData, Tame, Capsules, Creates, Post, Roomy, Flight;
    var s := p.a.s;
    var data := InFlight(p.a.bytes, id);
    if id in s.streams {
      BytesTaken(p, id, n, fin);
    } else {
      IgnoredBytes(s, id, data[..n], fin);
      LostFull(p, id, n, data[n..], Queue(p.a), Queue(p.b));
      QuietEmit(p.(a := p.a.(bytes := p.a.bytes[id := data[n..]], lost := p.a.lost + n)), s, []);
      NoLimits();
    }
  }

  lemma BytesTaken(p: Pair, id: StreamId, n: nat, fin: bool)
    requires PairOk(p) && Roomy(p.b.s) && n <= |InFlight(p.a.bytes, id)| && id in p.a.s.streams
    ensures var data := InFlight(p.a.bytes, id);
            var o := RecvStreamData(p.a.s, id, data[..n], fin);
            Tame(o.fx) && PairOk(Emit(p.(a := p.a.(bytes := p.a.bytes[id := data[n..]])), o))
  {
    hide Full, Base, Settled, RecvStreamData, Tame, Capsules, Creates, Post, Roomy;
    var s := p.a.s;
    var data := InFlight(p.a.bytes, id);
    var o := RecvStreamData(s, id, data[..n], fin);
    HandleInv(s, PeerData(id, data[..n], fin));
    BytesKeep(p, id, n, fin, Queue(p.a), Queue(p.b));
    PeerDataParked(s, id, data[..n], fin);
    var p' := p.(a := p.a.(bytes := p.a.bytes[id := data[n..]]));
    var skipped := if s.phase == Connecting && !IsOpen(o.s) then s.capsules else [];
    assert Queue(p.a) == skipped + Queue(Emit(p', o).a);
    Conclude(p', o, skipped, Queue(p.a));
  }

  lemma IgnoredBytes(s: SessionVal, id: StreamId, data: Bytes, fin: bool)
    requires id !in s.streams
    ensures RecvStreamData(s, id, data, fin) == Step(s, [])
  {
  }

  lemma LossKeeps(p: Pair, action: Action)
    requires PairOk(p) && Enabled(p, action) && (action.LoseBytes? || action.LoseOpening?)
    ensures var (t, fx) := Perform(p, action); Tame(fx) && PairOk(t)
  {
    hide Full, SessionInvariant.Inv, Flight;
    NoLimits();
    if action.LoseBytes? {
      var data := InFlight(p.a.bytes, action.stream);
      LostFull(p, action.stream, action.n, data[..|data| - action.n], Queue(p.a), Queue(p.b));
    } else {
      MissedFull(p, action.i, Queue(p.a), Queue(p.b));
    }
  }

  /** Every action at the a end keeps the invariant and accuses nobody. */
  lemma PerformKeeps(p: Pair, action: Action)
    requires PairOk(p) && Roomy(p.b.s) && Enabled(p, action)
    ensures var (t, fx) := Perform(p, action); Tame(fx) && PairOk(t)
  {
    hide PairOk, Roomy, Tame, Emit, Allowed;
    hide CreateStream, FlushStreamRequests, ReadDatagram, RecvDatagram, SendDatagramTo, RecvConnectClose, AbortSession,
    CloseSession, RejectSession, Drain, StreamOpened, RecvStreamData, RecvCapsule, BindStream, DeferStream;
    match action {
      case Own(e) =>
        if Confirms(e) {
          ConfirmKeeps(p, e);
        } else {
          OwnKeeps(p, e);
        }
      case TakeCapsule => CapsuleKeeps(p);
      case TakeOpening(i) => TakeOpeningKeeps(p, i);
      case TakeBytes(id, n, fin) => TakeBytesKeeps(p, id, n, fin);
      case LoseBytes(_, _) => LossKeeps(p, action);
      case LoseOpening(_) => LossKeeps(p, action);
      case Bind(id, request, uni) => BindKeeps(p, id, request, uni);
      case Defer(request, uni) => DeferKeeps(p, request, uni);
    }
  }

  lemma SwapKeeps(p: Pair)
    requires PairOk(p)
    ensures PairOk(Swap(p))
  {
    hide Granted, Counted, Told, SlotGranted, SlotTold, AllPolite, SessionInvariant.Inv;
  }

  /** An action at one of the ends. */
  datatype Move = Move(atA: bool, action: Action)

  ghost predicate MayMove(p: Pair, m: Move) {
    && Roomy(p.a.s) && Roomy(p.b.s)
    && Enabled(if m.atA then p else Swap(p), m.action)
  }

  ghost function Next(p: Pair, m: Move): (Pair, seq<Effect>)
    requires MayMove(p, m)
  {
    if m.atA then Perform(p, m.action)
    else
      var (t, fx) := Perform(Swap(p), m.action);
      (Swap(t), fx)
  }

  /** A run of the pair in which the stream limits stay within 2^60. */
  ghost predicate MayRun(p: Pair, moves: seq<Move>)
    decreases |moves|
  {
    moves != [] ==> MayMove(p, moves[0]) && MayRun(Next(p, moves[0]).0, moves[1..])
  }

  ghost function Run(p: Pair, moves: seq<Move>): (Pair, seq<Effect>)
    requires MayRun(p, moves)
    decreases |moves|
  {
    if moves == [] then (p, [])
    else
      var (t, fx) := Next(p, moves[0]);
      var (u, gx) := Run(t, moves[1..]);
      (u, fx + gx)
  }

  lemma NextKeeps(p: Pair, m: Move)
    requires PairOk(p) && MayMove(p, m)
    ensures PairOk(Next(p, m).0) && Tame(Next(p, m).1)
  {
    hide PairOk, Roomy, Tame, Enabled, Perform;
    if m.atA {
      PerformKeeps(p, m.action);
    } else {
      SwapKeeps(p);
      PerformKeeps(Swap(p), m.action);
      SwapKeeps(Perform(Swap(p), m.action).0);
    }
  }

  lemma {:induction false} RunKeeps(p: Pair, moves: seq<Move>)
    requires PairOk(p) && MayRun(p, moves)
    ensures PairOk(Run(p, moves).0) && Tame(Run(p, moves).1)
    decreases |moves|
  {
    hide PairOk, Tame, MayMove, Next;
    if moves == [] {
      NoLimits();
    } else {
      NextKeeps(p, moves[0]);
      RunKeeps(Next(p, moves[0]).0, moves[1..]);
      TameAppend(Next(p, moves[0]).1, Run(Next(p, moves[0]).0, moves[1..]).1);
    }
  }

  // ----- the promises of flow control

  /** The limits one side announces in its settings. */
  datatype Allowance = Allowance(data: nat, bidi: nat, uni: nat)

  function NewEnd(cfg: Config, own: Allowance, peer: Allowance): End {
    End(NewSession(cfg, own.data, own.bidi, own.uni, peer.data, peer.bidi, peer.uni), [], map[], [], 0, 0, 0, 0, 0, {})
  }

  /** Two new sessions, each starting from the limits the other announced. */
  function NewPair(ca: Config, cb: Config, la: Allowance, lb: Allowance): Pair {
    Pair(NewEnd(ca, la, lb), NewEnd(cb, lb, la))
  }

  lemma NewPairOk(ca: Config, cb: Config, la: Allowance, lb: Allowance)
    requires Matched(ca, cb) && la.data <= VARINT_MAX && lb.data <= VARINT_MAX
    ensures PairOk(NewPair(ca, cb, la, lb))
  {
    NewSessionInv(ca, la.data, la.bidi, la.uni, lb.data, lb.bidi, lb.uni);
    NewSessionInv(cb, lb.data, lb.bidi, lb.uni, la.data, la.bidi, la.uni);
    hide SessionInvariant.Inv;
  }

  /** Safety: however capsules, bytes and openings are delayed, cut short or lost, and whatever the two
      applications do, neither session ever ends with a flow-control error. */
  lemma NeverAccused(ca: Config, cb: Config, la: Allowance, lb: Allowance, moves: seq<Move>)
    requires Matched(ca, cb) && la.data <= VARINT_MAX && lb.data <= VARINT_MAX
    requires MayRun(NewPair(ca, cb, la, lb), moves)
    ensures EmitSession(SessionClosed(Some(ERR_WT_FLOW_CONTROL_ERROR))) !in Run(NewPair(ca, cb, la, lb), moves).1
  {
    hide PairOk, MayRun, Run, Polite;
    NewPairOk(ca, cb, la, lb);
    RunKeeps(NewPair(ca, cb, la, lb), moves);
  }

  /** No byte-credit deadlock: once both sessions are connected or draining and everything sent has arrived, a stream can
      be out of credit only if at least half a window was lost on the way. Without losses none is. */
  lemma NoDeadlock(ca: Config, cb: Config, la: Allowance, lb: Allowance, moves: seq<Move>, id: StreamId)
    requires Matched(ca, cb) && la.data <= VARINT_MAX && lb.data <= VARINT_MAX
    requires MayRun(NewPair(ca, cb, la, lb), moves)
    ensures var p := Run(NewPair(ca, cb, la, lb), moves).0;
            Quiescent(p) && id in p.a.s.streams && IsBlocked(p.a.s.streams[id]) ==>
              || p.b.lost >= p.b.s.cfg.receiveWindow - p.b.s.cfg.receiveWindow / 2
              || p.b.s.window.limit + p.b.s.cfg.receiveWindow > VARINT_MAX
  {
    hide PairOk, MayRun, Run, Quiescent, IsBlocked;
    NewPairOk(ca, cb, la, lb);
    RunKeeps(NewPair(ca, cb, la, lb), moves);
    var p := Run(NewPair(ca, cb, la, lb), moves).0;
    if Quiescent(p) && id in p.a.s.streams && IsBlocked(p.a.s.streams[id]) {
      StuckMeansLost(p, id);
    }
  }

  /** Both sessions are connected or draining, neither keeps a capsule it will not work through, and nothing is on
      its way from a to b, nor any capsule to a. */
  ghost predicate Quiescent(p: Pair) {
    && Active(p.a.s) && Active(p.b.s) && p.a.s.capsules == [] && p.b.s.capsules == []
    && p.a.inbox == [] && p.b.inbox == [] && Flight(p.b.bytes) == 0
  }

  lemma StuckMeansLost(p: Pair, id: StreamId)
    requires PairOk(p) && Quiescent(p) && id in p.a.s.streams && IsBlocked(p.a.s.streams[id])
    ensures || p.b.lost >= p.b.s.cfg.receiveWindow - p.b.s.cfg.receiveWindow / 2
            || p.b.s.window.limit + p.b.s.cfg.receiveWindow > VARINT_MAX
  {
    hide IsBlocked, Flight, StreamsOk, Queued, QuotaOk, ShutOk, QuotaGranted, StreamsCounted, AllPolite, Rising;
    NoLimits();
    assert Queue(p.a) == [] && Queue(p.b) == [];
    assert !HasBlocked([]);
  }

  /** No stream-credit deadlock: once both sessions are connected or draining and everything has arrived, a stream
      creation waits only if, of the streams the peer allows at a time, all or more than half are alive there or were lost
      on the way. */
  lemma NoStreamDeadlock(ca: Config, cb: Config, la: Allowance, lb: Allowance, moves: seq<Move>, uni: bool)
    requires Matched(ca, cb) && la.data <= VARINT_MAX && lb.data <= VARINT_MAX
    requires MayRun(NewPair(ca, cb, la, lb), moves)
    ensures var p := Run(NewPair(ca, cb, la, lb), moves).0;
            p.a.s.cfg.flowControl && Quiescent(p) && Opened(p, uni) && QuotaOf(p.a.s, uni).waiting != [] ==> Crowded(p, uni)
  {
    hide PairOk, MayRun, Run, Quiescent, Opened, Crowded;
    NewPairOk(ca, cb, la, lb);
    RunKeeps(NewPair(ca, cb, la, lb), moves);
    var p := Run(NewPair(ca, cb, la, lb), moves).0;
    if p.a.s.cfg.flowControl && Quiescent(p) && Opened(p, uni) && QuotaOf(p.a.s, uni).waiting != [] {
      WaitMeansUse(p, uni);
    }
  }

  /** No stream of this kind is held up by the transport of a, or on its way to b. */
  ghost predicate Opened(p: Pair, uni: bool) {
    Lent(p.a, uni) == 0 && uni !in p.a.deferred && Kinds(p.b.opening, uni) == 0
  }

  ghost predicate Crowded(p: Pair, uni: bool) {
    var q := QuotaOf(p.b.s, uni);
    var n := |Live(p.b.s, uni)| + Missed(p.b, uni);
    n > q.initial - q.initial / 2 || n >= q.initial || q.localMax + q.initial > VARINT_MAX
  }

  lemma WaitMeansUse(p: Pair, uni: bool)
    requires PairOk(p) && p.a.s.cfg.flowControl && Quiescent(p) && Opened(p, uni) && QuotaOf(p.a.s, uni).waiting != []
    ensures Crowded(p, uni)
  {
    hide IsBlocked, Flight, StreamsOk, Queued, ShutOk, Granted, Told, AllPolite, Rising, Live;
    NoLimits();
    assert Queue(p.a) == [] && Queue(p.b) == [];
    assert !HasStreamsBlocked([], uni);
    assert Slot(p, [], [], uni);
  }
}
