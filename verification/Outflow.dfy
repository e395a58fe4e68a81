/** What one session's operations ship to the peer: the byte meter, the stream-count meter, and the limits
    its capsules announce. Every operation that takes no input from the peer is summed up by `Ships`. */
module Outflow {
  import opened Types
  import opened Streams
  import opened Sessions
  import opened Traces
  import opened SessionInvariant
  import Varint
  import SF = StreamFacts

  // ----- limits announced by capsules

  function ReadLimit(c: Capsule): seq<nat> {
    match Varint.Read(c.value)
    case Incomplete => []
    case Got(limit, _) => [limit]
  }

  /** The limits announced by the capsules of one kind, in order. */
  function Limits(cs: seq<Capsule>, kind: nat): seq<nat> {
    if cs == [] then [] else (if cs[0].kind == kind then ReadLimit(cs[0]) else []) + Limits(cs[1..], kind)
  }

  lemma {:induction false} LimitsAppend(a: seq<Capsule>, b: seq<Capsule>, kind: nat)
    ensures Limits(a + b, kind) == Limits(a, kind) + Limits(b, kind)
  {
    if a == [] {
      assert a + b == b;
    } else {
      assert (a + b)[1..] == a[1..] + b;
      LimitsAppend(a[1..], b, kind);
    }
  }

  /** A list of limits that rises strictly from a base. */
  ghost predicate Rising(base: nat, limits: seq<nat>)
    decreases |limits|
  {
    limits == [] || (base < limits[0] && Rising(limits[0], limits[1..]))
  }

  function Last(base: nat, limits: seq<nat>): nat {
    if limits == [] then base else limits[|limits| - 1]
  }

  lemma {:induction false} RisingAppend(base: nat, a: seq<nat>, b: seq<nat>)
    requires Rising(base, a) && Rising(Last(base, a), b)
    ensures Rising(base, a + b) && Last(base, a + b) == Last(Last(base, a), b)
    decreases |a|
  {
    if a == [] {
      assert a + b == b;
    } else {
      assert (a + b)[1..] == a[1..] + b;
      RisingAppend(a[0], a[1..], b);
    }
  }

  lemma {:induction false} RisingBound(base: nat, limits: seq<nat>)
    requires Rising(base, limits)
    ensures base <= Last(base, limits) && (forall v :: v in limits ==> base < v <= Last(base, limits))
    decreases |limits|
  {
    if limits != [] {
      RisingBound(limits[0], limits[1..]);
      assert limits == [limits[0]] + limits[1..];
    }
  }

  /** Capsules that raise a limit step by step from one value to another. */
  ghost predicate Grants(from: nat, cs: seq<Capsule>, kind: nat, to: nat) {
    Rising(from, Limits(cs, kind)) && Last(from, Limits(cs, kind)) == to
  }

  lemma GrantsAppend(from: nat, a: seq<Capsule>, kind: nat, mid: nat, b: seq<Capsule>, to: nat)
    requires Grants(from, a, kind, mid) && Grants(mid, b, kind, to)
    ensures Grants(from, a + b, kind, to)
  {
    LimitsAppend(a, b, kind);
    RisingAppend(from, Limits(a, kind), Limits(b, kind));
  }

  function MaxStreams(uni: bool): nat {
    if uni then CAPSULE_MAX_STREAMS_UNI else CAPSULE_MAX_STREAMS_BIDI
  }

  function StreamsBlocked(uni: bool): nat {
    if uni then CAPSULE_STREAMS_BLOCKED_UNI else CAPSULE_STREAMS_BLOCKED_BIDI
  }

  ghost predicate HasBlocked(cs: seq<Capsule>) {
    exists i :: 0 <= i < |cs| && cs[i].kind == CAPSULE_DATA_BLOCKED
  }

  ghost predicate HasStreamsBlocked(cs: seq<Capsule>, uni: bool) {
    exists i :: 0 <= i < |cs| && cs[i].kind == StreamsBlocked(uni)
  }

  /** Not so many streams have closed that a larger limit would be announced unasked. */
  predicate Ample(q: Quota) {
    var target := SatAdd(q.peerClosed, q.initial);
    target <= q.localMax || target < SatAdd(q.localMax, q.initial / 2) || target > VARINT_MAX
  }

  /** The session takes part in flow control. */
  predicate Active(s: SessionVal) {
    s.phase == Connected || s.phase == Draining
  }

  /** Creations wait only for want of streams, and then the peer was told. */
  predicate Served(q: Quota) {
    q.waiting != [] ==>
      q.issued >= q.peerMax && ((q.lastBlocked.Some? && q.peerMax <= q.lastBlocked.value) || q.peerMax > VARINT_MAX)
  }

  // ----- the summary

  ghost predicate QuotaNumbers(q: Quota, q': Quota, fx: seq<Effect>, uni: bool) {
    && q'.issued == q.issued + Creates(fx, uni)
    && q'.peerMax == q.peerMax && q'.peerOpened == q.peerOpened && q'.initial == q.initial
  }

  /** The meters move with the effects; what the peer contributed does not move. */
  ghost predicate Numbers(s: SessionVal, o: Step) {
    && o.s.cfg == s.cfg
    && o.s.credit.sent == s.credit.sent + SentBytes(o.fx)
    && o.s.credit.limit == s.credit.limit
    && o.s.window.received == s.window.received && o.s.window.consumed == s.window.consumed
    && QuotaNumbers(s.bidi, o.s.bidi, o.fx, false) && QuotaNumbers(s.uni, o.s.uni, o.fx, true)
  }

  ghost predicate QuotaPaper(q: Quota, q': Quota, cs: seq<Capsule>, uni: bool) {
    && Grants(q.localMax, cs, MaxStreams(uni), q'.localMax)
    && (forall v :: v in Limits(cs, StreamsBlocked(uni)) ==> v == q.peerMax)
  }

  /** Every limit is raised by announcing it, and a blocked sender says so. */
  ghost predicate Paper(s: SessionVal, t: SessionVal, cs: seq<Capsule>) {
    && Grants(s.window.limit, cs, CAPSULE_MAX_DATA, t.window.limit)
    && (t.window.limit == s.window.limit || t.window.limit <= VARINT_MAX)
    && (t.credit.lastBlocked == s.credit.lastBlocked || s.credit.limit > VARINT_MAX || HasBlocked(cs))
    && QuotaPaper(s.bidi, t.bidi, cs, false) && QuotaPaper(s.uni, t.uni, cs, true)
  }

  ghost predicate QuotaCandid(q: Quota, q': Quota, cs: seq<Capsule>, uni: bool) {
    && (q'.lastBlocked == q.lastBlocked || (q'.lastBlocked == Some(q.peerMax) && HasStreamsBlocked(cs, uni)))
    && (Served(q) ==> Served(q'))
  }

  /** A session out of streams says so, and an active one that has granted what it should goes on doing so. */
  ghost predicate Candid(s: SessionVal, t: SessionVal, cs: seq<Capsule>) {
    s.cfg.flowControl ==>
      && QuotaCandid(s.bidi, t.bidi, cs, false) && QuotaCandid(s.uni, t.uni, cs, true)
      && (Active(t) ==>
            Active(s) && (Ample(s.bidi) ==> Ample(t.bidi)) && (Ample(s.uni) ==> Ample(t.uni)))
  }

  /** A CLOSE capsule that does not carry the flow-control code. */
  predicate Polite(c: Capsule) {
    c.kind == CAPSULE_CLOSE_SESSION ==> |c.value| < 4 || Varint.FromBigEndian(c.value[..4]) != ERR_WT_FLOW_CONTROL_ERROR
  }

  /** Effects that do not end the session with a flow-control error, here or at the peer. */
  ghost predicate Tame(fx: seq<Effect>) {
    forall i :: 0 <= i < |fx| ==>
      && fx[i] != EmitSession(SessionClosed(Some(ERR_WT_FLOW_CONTROL_ERROR)))
      && (fx[i].SendCapsule? ==> Polite(fx[i].capsule))
  }

  ghost predicate Ships(s: SessionVal, o: Step) {
    Numbers(s, o) && Paper(s, o.s, Capsules(o.fx)) && Candid(s, o.s, Capsules(o.fx)) && Tame(o.fx)
  }

  lemma Sequence(s: SessionVal, o: Step, p: Step)
    requires Ships(s, o) && Ships(o.s, p)
    ensures Ships(s, Step(p.s, o.fx + p.fx))
  {
    NumbersSequence(s, o, p);
    PaperSequence(s, o, p);
    CandidSequence(s, o, p);
    hide Numbers, Paper, Candid, Polite;
  }

  lemma NumbersSequence(s: SessionVal, o: Step, p: Step)
    requires Numbers(s, o) && Numbers(o.s, p)
    ensures Numbers(s, Step(p.s, o.fx + p.fx))
  {
    SentAppend(o.fx, p.fx);
    CreatesAppend(o.fx, p.fx, false);
    CreatesAppend(o.fx, p.fx, true);
  }

  lemma PaperSequence(s: SessionVal, o: Step, p: Step)
    requires Numbers(s, o) && Paper(s, o.s, Capsules(o.fx)) && Paper(o.s, p.s, Capsules(p.fx))
    ensures Paper(s, p.s, Capsules(o.fx + p.fx))
  {
    hide Grants;
    var a := Capsules(o.fx);
    var b := Capsules(p.fx);
    CapsulesAppend(o.fx, p.fx);
    GrantsAppend(s.window.limit, a, CAPSULE_MAX_DATA, o.s.window.limit, b, p.s.window.limit);
    QuotaPaperSequence(s.bidi, o.s.bidi, p.s.bidi, a, b, false);
    QuotaPaperSequence(s.uni, o.s.uni, p.s.uni, a, b, true);
    assert forall i :: 0 <= i < |b| ==> (a + b)[|a| + i] == b[i];
    assert forall i :: 0 <= i < |a| ==> (a + b)[i] == a[i];
  }

  lemma QuotaPaperSequence(q: Quota, q': Quota, q'': Quota, a: seq<Capsule>, b: seq<Capsule>, uni: bool)
    requires QuotaPaper(q, q', a, uni) && QuotaPaper(q', q'', b, uni) && q'.peerMax == q.peerMax
    ensures QuotaPaper(q, q'', a + b, uni)
  {
    hide Grants;
    GrantsAppend(q.localMax, a, MaxStreams(uni), q'.localMax, b, q''.localMax);
    LimitsAppend(a, b, StreamsBlocked(uni));
  }

  lemma CandidSequence(s: SessionVal, o: Step, p: Step)
    requires Numbers(s, o) && Candid(s, o.s, Capsules(o.fx)) && Candid(o.s, p.s, Capsules(p.fx))
    ensures Candid(s, p.s, Capsules(o.fx + p.fx))
  {
    hide Ample, QuotaCandid, Capsules, SentBytes, Creates;
    var a := Capsules(o.fx);
    var b := Capsules(p.fx);
    CapsulesAppend(o.fx, p.fx);
    if s.cfg.flowControl {
      QuotaCandidSequence(s.bidi, o.s.bidi, p.s.bidi, a, b, false);
      QuotaCandidSequence(s.uni, o.s.uni, p.s.uni, a, b, true);
    }
  }

  lemma QuotaCandidSequence(q: Quota, q': Quota, q'': Quota, a: seq<Capsule>, b: seq<Capsule>, uni: bool)
    requires QuotaCandid(q, q', a, uni) && QuotaCandid(q', q'', b, uni) && q'.peerMax == q.peerMax
    ensures QuotaCandid(q, q'', a + b, uni)
  {
    hide Served, HasStreamsBlocked;
    StreamsBlockedAppend(a, b, uni);
  }

  lemma StreamsBlockedAppend(f: seq<Capsule>, g: seq<Capsule>, uni: bool)
    ensures HasStreamsBlocked(f, uni) || HasStreamsBlocked(g, uni) ==> HasStreamsBlocked(f + g, uni)
  {
    if HasStreamsBlocked(g, uni) {
      var i :| 0 <= i < |g| && g[i].kind == StreamsBlocked(uni);
      assert (f + g)[|f| + i] == g[i];
    } else if HasStreamsBlocked(f, uni) {
      var i :| 0 <= i < |f| && f[i].kind == StreamsBlocked(uni);
      assert (f + g)[i] == f[i];
    }
  }

  // ----- building blocks

  /** A step that only moves the byte meter. */
  ghost predicate SameCounters(s: SessionVal, t: SessionVal) {
    && t.cfg == s.cfg && t.credit.limit == s.credit.limit && t.credit.lastBlocked == s.credit.lastBlocked
    && t.window == s.window
    && (t.bidi == s.bidi || t.bidi == s.bidi.(waiting := [])) && (t.uni == s.uni || t.uni == s.uni.(waiting := []))
    && (Active(t) ==> Active(s))
  }

  lemma OrdinaryShips(s: SessionVal, o: Step)
    requires SameCounters(s, o.s) && Plain(o.fx) && Tame(o.fx)
    requires o.s.credit.sent == s.credit.sent + SentBytes(o.fx)
    ensures Ships(s, o)
  {
    PlainFacts(o.fx);
  }

  lemma MuteShips(s: SessionVal, o: Step)
    requires SameCounters(s, o.s) && Plain(o.fx) && Tame(o.fx) && Mute(o.fx) && o.s.credit.sent == s.credit.sent
    ensures Ships(s, o)
  {
    MuteFacts(o.fx);
    OrdinaryShips(s, o);
  }

  /** Mute effects, before or after. */
  lemma Decorate(s: SessionVal, o: Step, before: seq<Effect>, after: seq<Effect>)
    requires Ships(s, o) && Plain(before) && Mute(before) && Tame(before) && Plain(after) && Mute(after) && Tame(after)
    ensures Ships(s, Step(o.s, before + o.fx)) && Ships(s, Step(o.s, o.fx + after))
  {
    hide Ships, Plain, Mute, Tame, SameCounters;
    Unmoved(s);
    Unmoved(o.s);
    MuteShips(s, Step(s, before));
    Sequence(s, Step(s, before), o);
    MuteShips(o.s, Step(o.s, after));
    Sequence(s, o, Step(o.s, after));
  }

  lemma Unmoved(s: SessionVal)
    ensures SameCounters(s, s)
  {
  }

  lemma NoLimits()
    ensures Capsules([]) == [] && (forall kind :: Limits([], kind) == []) && Tame([])
  {
  }

  /** One limit capsule, read back. */
  lemma LimitCapsuleLimits(kind: nat, limit: nat)
    requires kind != CAPSULE_CLOSE_SESSION
    ensures var fx := LimitCapsule(kind, limit);
            && SentBytes(fx) == 0 && Creates(fx, false) == 0 && Creates(fx, true) == 0 && Tame(fx)
            && (limit > VARINT_MAX ==> fx == [])
            && (limit <= VARINT_MAX ==> |Capsules(fx)| == 1 && Capsules(fx)[0].kind == kind)
            && (forall k :: Limits(Capsules(fx), k) == if k == kind && limit <= VARINT_MAX then [limit] else [])
  {
    var fx := LimitCapsule(kind, limit);
    if limit <= VARINT_MAX {
      Varint.RoundTrip(limit, []);
      hide Varint.Write, Varint.Read, Polite;
      var c := fx[0].capsule;
      assert fx == [SendCapsule(c, false)] && fx[1..] == [];
      assert c.value + [] == c.value;
      assert Capsules(fx) == [c] && [c][1..] == [];
      forall k ensures Limits([c], k) == if k == kind then [limit] else [] {
      }
    }
  }

  lemma EmitDataBlockedShips(s: SessionVal)
    ensures var e := EmitDataBlocked(s.cfg, s.credit);
            Ships(s, Step(s.(credit := e.c), e.fx))
  {
    hide LimitCapsule, Tame, Limits, Capsules;
    NoLimits();
    LimitCapsuleLimits(CAPSULE_DATA_BLOCKED, s.credit.limit);
    var cs := Capsules(EmitDataBlocked(s.cfg, s.credit).fx);
    assert |cs| > 0 ==> cs[0].kind == CAPSULE_DATA_BLOCKED;
  }

  lemma WriteRange(value: nat)
    ensures Varint.Write(value).Some? <==> value <= VARINT_MAX
  {
    hide Varint.BigEndian;
  }

  lemma ReplenishDataShips(s: SessionVal, force: bool)
    ensures Ships(s, ReplenishData(s, force))
  {
    hide LimitCapsule, Tame, Varint.Write, Limits, Capsules;
    NoLimits();
    var target := SatAdd(s.window.consumed, s.cfg.receiveWindow);
    WriteRange(target);
    LimitCapsuleLimits(CAPSULE_MAX_DATA, target);
    assert [target][1..] == [] && Rising(target, []);
  }

  lemma ReplenishQuotaPaper(q: Quota, uni: bool, force: bool)
    ensures var g := ReplenishQuota(q, uni, force);
            var cs := Capsules(g.fx);
            && QuotaPaper(q, g.q, cs, uni) && g.q == q.(localMax := g.q.localMax)
            && Limits(cs, MaxStreams(!uni)) == [] && Limits(cs, StreamsBlocked(!uni)) == [] && Limits(cs, CAPSULE_MAX_DATA) == []
            && SentBytes(g.fx) == 0 && Creates(g.fx, false) == 0 && Creates(g.fx, true) == 0 && Tame(g.fx) && Ample(g.q)
  {
    hide LimitCapsule, Tame, Varint.Write, Limits, Capsules;
    NoLimits();
    var target := SatAdd(q.peerClosed, q.initial);
    WriteRange(target);
    LimitCapsuleLimits(MaxStreams(uni), target);
    assert [target][1..] == [] && Rising(target, []);
  }

  lemma ReplenishStreamsShips(s: SessionVal, uni: bool, force: bool)
    ensures Ships(s, ReplenishStreams(s, uni, force))
  {
    hide ReplenishQuota, Tame, Limits, Capsules, Ample;
    ReplenishQuotaPaper(QuotaOf(s, uni), uni, force);
    if !MayGrant(s) {
      NothingShips(s);
    } else {
      Idle(QuotaOf(s, !uni), !uni, Capsules(ReplenishQuota(QuotaOf(s, uni), uni, force).fx));
    }
  }

  lemma Idle(q: Quota, uni: bool, cs: seq<Capsule>)
    requires Limits(cs, MaxStreams(uni)) == [] && Limits(cs, StreamsBlocked(uni)) == []
    ensures QuotaPaper(q, q, cs, uni)
  {
  }

  lemma EmitStreamsBlockedShips(s: SessionVal, uni: bool)
    ensures var e := EmitStreamsBlocked(QuotaOf(s, uni), s.cfg.flowControl, uni);
            Ships(s, Step(WithQuota(s, uni, e.q), e.fx))
  {
    hide LimitCapsule, Tame, Varint.Write, Limits, Capsules;
    NoLimits();
    var q := QuotaOf(s, uni);
    WriteRange(q.peerMax);
    LimitCapsuleLimits(StreamsBlocked(uni), q.peerMax);
  }

  // ----- streams

  /** Stream operations speak of stream events only. */
  ghost predicate NoSessionEvents(fx: seq<Effect>) {
    forall i :: 0 <= i < |fx| ==> !fx[i].EmitSession?
  }

  lemma CalmTame(fx: seq<Effect>)
    requires Plain(fx) && NoSessionEvents(fx)
    ensures Tame(fx)
  {
    hide Polite;
  }

  lemma AfterSendShips(s: SessionVal, id: StreamId, o: Outcome)
    requires Storable(s, id, o) && NoSessionEvents(o.fx)
    ensures Ships(s, AfterSend(s, id, o))
  {
    hide EmitDataBlocked, IsBlocked, Ships, Streams.Inv, Tame;
    var metered := s.credit.(sent := s.credit.sent + o.sent);
    var noted := if IsBlocked(o.st) then NoteBlocked(metered, id) else metered;
    var b := s.(streams := s.streams[id := o.st], credit := noted);
    CalmTame(o.fx);
    OrdinaryShips(s, Step(b, o.fx));
    var e := EmitDataBlocked(b.cfg, b.credit);
    EmitDataBlockedShips(b);
    Sequence(s, Step(b, o.fx), Step(b.(credit := e.c), e.fx));
  }

  lemma CountClosedShips(s: SessionVal, uni: bool)
    ensures Ships(s, CountClosed(s, uni))
  {
    hide ReplenishQuota, Tame, Limits, Capsules, Ample;
    var q := QuotaOf(s, uni);
    var closed := q.(peerClosed := q.peerClosed + 1);
    NoLimits();
    ReplenishQuotaPaper(closed, uni, false);
    var cs := if MayGrant(s) then Capsules(ReplenishQuota(closed, uni, false).fx) else [];
    Idle(QuotaOf(s, !uni), !uni, cs);
  }

  lemma ShownTame(s: SessionVal, id: StreamId)
    ensures var shown := Suppress(s, id, [EmitStream(id, StreamClosed)]);
            Plain(shown) && Mute(shown) && Tame(shown)
  {
    hide Polite;
    SuppressKeeps([EmitStream(id, StreamClosed)]);
    assert WithoutStreamEvents([EmitStream(id, StreamClosed)]) == WithoutStreamEvents([]) == [] by {
      assert [EmitStream(id, StreamClosed)][1..] == [];
    }
  }

  lemma HandleClosedShips(s: SessionVal, id: StreamId)
    ensures Ships(s, HandleClosed(s, id))
  {
    hide CountClosed, Ships, Suppress, Plain, Mute, Tame, IsClosed;
    if id in s.streams && IsClosed(s.streams[id]) {
      var dropped := s.(streams := s.streams - {id}, credit := s.credit.(blocked := s.credit.blocked - {id}));
      var shown := Suppress(s, id, [EmitStream(id, StreamClosed)]);
      ShownTame(s, id);
      MuteShips(s, Step(dropped, shown));
      CountClosedShips(dropped, IsUnidirectional(id));
      Sequence(s, Step(dropped, shown), CountClosed(dropped, IsUnidirectional(id)));
    } else {
      NothingShips(s);
    }
  }

  lemma NothingShips(s: SessionVal)
    ensures Ships(s, Step(s, []))
  {
    hide Polite;
    MuteShips(s, Step(s, []));
  }

  lemma AfterStreamOpShips(s: SessionVal, id: StreamId, o: Outcome)
    requires Storable(s, id, o) && NoSessionEvents(o.fx) && o.sent == 0
    ensures Ships(s, AfterStreamOp(s, id, o))
  {
    hide HandleClosed, Ships, Streams.Inv, Tame;
    var b := s.(streams := s.streams[id := o.st]);
    CalmTame(o.fx);
    OrdinaryShips(s, Step(b, o.fx));
    HandleClosedShips(b, id);
    Sequence(s, Step(b, o.fx), HandleClosed(b, id));
  }

  lemma {:induction false} FlushQueueShips(s: SessionVal, n: nat)
    requires StreamsOk(s)
    ensures Ships(s, FlushQueue(s, n))
    decreases n
  {
    hide Ships, FlushWrites, IsBlocked, StreamsOk;
    if n == 0 || s.credit.queue == [] {
      NothingShips(s);
    } else {
      var k := s.credit.queue[0];
      var popped := s.credit.(queue := s.credit.queue[1..], blocked := s.credit.blocked - {k});
      var credit := AvailableCredit(s.cfg, popped);
      if credit == 0 {
        Requeued(s, FlushQueue(s, n).s);
      } else if k !in s.streams {
        var b := s.(credit := popped);
        Requeued(s, b);
        FlushQueueShips(b, n - 1);
        Sequence(s, Step(b, []), FlushQueue(b, n - 1));
        assert [] + FlushQueue(b, n - 1).fx == FlushQueue(b, n - 1).fx;
      } else {
        var o := FlushWrites(s.streams[k], credit);
        var metered := popped.(sent := popped.sent + o.sent);
        var noted := if IsBlocked(o.st) then metered.(queue := metered.queue + [k], blocked := metered.blocked + {k})
                     else metered;
        var b := s.(streams := s.streams[k := o.st], credit := noted);
        FlushOneShips(s, k, credit, noted);
        FlushQueueShips(b, n - 1);
        Sequence(s, Step(b, o.fx), FlushQueue(b, n - 1));
      }
    }
  }

  lemma Requeued(s: SessionVal, t: SessionVal)
    requires t == s.(credit := t.credit) && t.credit == s.credit.(queue := t.credit.queue, blocked := t.credit.blocked)
    ensures Ships(s, Step(t, [])) && (StreamsOk(s) ==> StreamsOk(t))
  {
    hide Polite;
    MuteShips(s, Step(t, []));
  }

  lemma FlushOneShips(s: SessionVal, k: StreamId, credit: nat, c: SendCredit)
    requires StreamsOk(s) && k in s.streams
    requires c == s.credit.(sent := s.credit.sent + FlushWrites(s.streams[k], credit).sent, queue := c.queue, blocked := c.blocked)
    ensures var o := FlushWrites(s.streams[k], credit);
            var b := s.(streams := s.streams[k := o.st], credit := c);
            Ships(s, Step(b, o.fx)) && StreamsOk(b)
  {
    var st := s.streams[k];
    var o := FlushWrites(st, credit);
    SF.FlushKeeps(st, credit);
    assert NoSessionEvents(o.fx);
    CalmTame(o.fx);
    hide FlushWrites, Ships, Streams.Inv, Tame;
    OrdinaryShips(s, Step(s.(streams := s.streams[k := o.st], credit := c), o.fx));
  }

  lemma FlushBlockedShips(s: SessionVal)
    requires StreamsOk(s)
    ensures Ships(s, FlushBlockedWrites(s))
  {
    hide StreamsOk, FlushQueue, EmitDataBlocked, Ships;
    NothingShips(s);
    var f := FlushQueue(s, |s.credit.queue|);
    FlushQueueShips(s, |s.credit.queue|);
    EmitDataBlockedShips(f.s);
    var e := EmitDataBlocked(f.s.cfg, f.s.credit);
    Sequence(s, f, Step(f.s.(credit := e.c), e.fx));
  }

  lemma SuppressTame(s: SessionVal, id: StreamId, fx: seq<Effect>)
    requires Plain(fx) && NoSessionEvents(fx)
    ensures var f := Suppress(s, id, fx);
            Plain(f) && NoSessionEvents(f) && SentBytes(f) == SentBytes(fx)
  {
    SuppressKeeps(fx);
    WithoutEvents(fx);
  }

  lemma {:induction false} WithoutEvents(fx: seq<Effect>)
    requires NoSessionEvents(fx)
    ensures NoSessionEvents(WithoutStreamEvents(fx))
  {
    if fx != [] {
      WithoutEvents(fx[1..]);
    }
  }

  /** Operations on one stream. */
  lemma StreamOpShips(s: SessionVal, e: Event)
    requires StreamsOk(s) && Allowed(s, e) && OnStream(e)
    ensures Ships(s, Handle(s, e))
  {
    hide AfterSend, AfterStreamOp, Suppress, Ships, Held, Streams.Inv, Plain, NoSessionEvents, SF.Held;
    hide Read, Write, Reset, Stop, CompleteWrite, RecvReset, RecvStop;
    if e.stream !in s.streams {
      MissingShips(s, e);
    } else {
      var k := e.stream;
      var st := s.streams[k];
      var credit := AvailableCredit(s.cfg, s.credit);
      match e {
        case UserRead(_, request, maxSize) =>
          ReadCalm(st, request, maxSize, [], false);
          AfterStreamOpShips(s, k, Read(st, request, maxSize));
        case UserWrite(_, request, data, fin) =>
          HeldByStream(s, k, request);
          WriteCalm(st, request, data, fin, credit);
          AfterSendShips(s, k, Write(st, request, data, fin, credit));
        case UserReset(_, request, code) =>
          EndingCalm(st, request, code);
          AfterStreamOpShips(s, k, Reset(st, request, code));
        case UserStop(_, request, code) =>
          EndingCalm(st, request, code);
          AfterStreamOpShips(s, k, Stop(st, request, code));
        case TransportCompleted(_) =>
          CompleteCalm(st, credit);
          AfterSendShips(s, k, CompleteWrite(st, credit));
        case TransportAcknowledged(_) =>
          SF.AcknowledgeKeeps(st);
          NoEvents();
          AfterStreamOpShips(s, k, Outcome(Acknowledge(st), [], 0));
        case PeerReset(_, code) =>
          PeerCalm(st, code);
          var o := RecvReset(st, code);
          SuppressTame(s, k, o.fx);
          AfterStreamOpShips(s, k, o.(fx := Suppress(s, k, o.fx)));
        case PeerStop(_, code) =>
          PeerCalm(st, code);
          var o := RecvStop(st, code);
          SuppressTame(s, k, o.fx);
          AfterStreamOpShips(s, k, o.(fx := Suppress(s, k, o.fx)));
      }
    }
  }

  lemma NoEvents()
    ensures NoSessionEvents([])
  {
  }

  /** Answers to requests, and datagrams. */
  ghost predicate Replies(fx: seq<Effect>) {
    forall i :: 0 <= i < |fx| ==> fx[i].Done? || fx[i].Failed? || fx[i].SendDatagram?
  }

  lemma RepliesShip(s: SessionVal, o: Step)
    requires o.s == s.(datagrams := o.s.datagrams, datagramRequests := o.s.datagramRequests) && Replies(o.fx)
    ensures Ships(s, o)
  {
    hide Polite;
    MuteShips(s, o);
  }

  lemma MissingShips(s: SessionVal, e: Event)
    requires OnStream(e) && e.stream !in s.streams
    ensures Ships(s, Handle(s, e))
  {
    hide Ships;
    RepliesShip(s, Handle(s, e));
  }

  lemma ReadCalm(st: StreamVal, request: RequestId, maxSize: nat, data: Bytes, fin: bool)
    requires Streams.Inv(st)
    ensures SF.Keeps(st, Read(st, request, maxSize)) && NoSessionEvents(Read(st, request, maxSize).fx)
    ensures SF.Keeps(st, RecvData(st, data, fin)) && NoSessionEvents(RecvData(st, data, fin).fx)
    ensures Read(st, request, maxSize).sent == 0 && RecvData(st, data, fin).sent == 0
  {
    SF.ReadKeeps(st, request, maxSize);
    SF.RecvDataKeeps(st, data, fin);
    hide SF.Keeps, Streams.Inv;
  }

  lemma WriteCalm(st: StreamVal, request: RequestId, data: Bytes, fin: bool, credit: nat)
    requires Streams.Inv(st) && SF.Held(st, request) == 0
    ensures SF.Keeps(st, Write(st, request, data, fin, credit)) && NoSessionEvents(Write(st, request, data, fin, credit).fx)
  {
    SF.WriteKeeps(st, request, data, fin, credit);
    hide SF.Keeps, Streams.Inv;
  }

  lemma CompleteCalm(st: StreamVal, credit: nat)
    requires Streams.Inv(st)
    ensures SF.Keeps(st, CompleteWrite(st, credit)) && NoSessionEvents(CompleteWrite(st, credit).fx)
  {
    SF.CompleteKeeps(st, credit);
    hide SF.Keeps, Streams.Inv;
  }

  lemma EndingCalm(st: StreamVal, request: RequestId, code: ErrorCode)
    requires Streams.Inv(st)
    ensures SF.Keeps(st, Reset(st, request, code)) && NoSessionEvents(Reset(st, request, code).fx)
    ensures SF.Keeps(st, Stop(st, request, code)) && NoSessionEvents(Stop(st, request, code).fx)
    ensures Reset(st, request, code).sent == 0 && Stop(st, request, code).sent == 0
  {
    SF.ResetKeeps(st, request, code);
    SF.StopKeeps(st, request, code);
    hide SF.Keeps, Streams.Inv;
  }

  lemma AbortCalm(st: StreamVal, code: ErrorCode)
    requires Streams.Inv(st)
    ensures SF.Keeps(st, Abort(st, code)) && NoSessionEvents(Abort(st, code).fx) && Abort(st, code).sent == 0
  {
    SF.AbortKeeps(st, code);
    hide SF.Keeps, Streams.Inv;
  }

  lemma PeerCalm(st: StreamVal, code: ErrorCode)
    requires Streams.Inv(st)
    ensures SF.Keeps(st, RecvReset(st, code)) && NoSessionEvents(RecvReset(st, code).fx)
    ensures SF.Keeps(st, RecvStop(st, code)) && NoSessionEvents(RecvStop(st, code).fx)
    ensures RecvReset(st, code).sent == 0 && RecvStop(st, code).sent == 0
  {
    SF.RecvResetKeeps(st, code);
    SF.RecvStopKeeps(st, code);
    hide SF.Keeps, Streams.Inv, ErrorCodes.FromHttp;
  }

  // ----- teardown

  lemma {:induction false} AbortEachShips(s: SessionVal, ids: seq<StreamId>)
    requires StreamsOk(s)
    ensures Ships(s, AbortEach(s, ids))
    decreases |ids|
  {
    hide AfterStreamOp, Suppress, Abort, StreamsOk, Ships;
    if ids == [] {
      NothingShips(s);
    } else {
      var k := ids[0];
      if k in s.streams {
        var o := Abort(s.streams[k], ERR_WT_SESSION_GONE);
        var head := AfterStreamOp(s, k, o.(fx := Suppress(s, k, o.fx)));
        AbortOneShips(s, k);
        AbortEachShips(head.s, ids[1..]);
        Sequence(s, head, AbortEach(head.s, ids[1..]));
      } else {
        AbortEachShips(s, ids[1..]);
        assert [] + AbortEach(s, ids[1..]).fx == AbortEach(s, ids[1..]).fx;
      }
    }
  }

  lemma AbortOneShips(s: SessionVal, k: StreamId)
    requires StreamsOk(s) && k in s.streams
    ensures var o := Abort(s.streams[k], ERR_WT_SESSION_GONE);
            var head := AfterStreamOp(s, k, o.(fx := Suppress(s, k, o.fx)));
            Ships(s, head) && StreamsOk(head.s)
  {
    hide Abort, Suppress, Ships, IsClosed, ReplenishQuota, Plain, NoSessionEvents, Streams.Inv;
    var o := Abort(s.streams[k], ERR_WT_SESSION_GONE);
    AbortCalm(s.streams[k], ERR_WT_SESSION_GONE);
    SuppressTame(s, k, o.fx);
    var quiet := o.(fx := Suppress(s, k, o.fx));
    AfterStreamOpShips(s, k, quiet);
  }

  lemma ShutdownShips(s: SessionVal, phase: Phase)
    requires StreamsOk(s) && phase != Connected && phase != Draining
    ensures Ships(s, Shutdown(s, phase))
  {
    hide AbortEach, Sorted, Ships, StreamsOk, Polite, FailAll;
    var b := s.(phase := phase, capsules := [], datagrams := []);
    var ids := Sorted(b.streams.Keys);
    Rephased(s, b);
    AbortEachShips(b, ids);
    var a := AbortEach(b, ids);
    Sequence(s, Step(b, []), a);
    assert [] + a.fx == a.fx;
    var d := Shutdown(s, phase);
    var f := FailAll(a.s.bidi.waiting, None) + FailAll(a.s.uni.waiting, None) + FailAll(a.s.datagramRequests, None);
    ClearedShips(a.s, d.s, f);
    Sequence(s, a, Step(d.s, f));
    assert d.fx == a.fx + f;
  }

  lemma ClearedShips(s: SessionVal, t: SessionVal, fx: seq<Effect>)
    requires t == s.(credit := s.credit.(blocked := {}, queue := []), pendingStreams := [], datagramRequests := [],
                     bidi := s.bidi.(waiting := []), uni := s.uni.(waiting := []))
    requires Replies(fx)
    ensures Ships(s, Step(t, fx))
  {
    hide Polite;
    MuteShips(s, Step(t, fx));
  }

  lemma Rephased(s: SessionVal, t: SessionVal)
    requires t == s.(phase := t.phase, capsules := t.capsules, datagrams := t.datagrams, datagramRequests := t.datagramRequests,
                     pendingStreams := t.pendingStreams)
    requires Active(t) ==> Active(s)
    ensures Ships(s, Step(t, [])) && (StreamsOk(s) ==> StreamsOk(t))
  {
    hide Polite;
    MuteShips(s, Step(t, []));
  }

  /** The session ends for a reason other than flow control. */
  lemma AbortShips(s: SessionVal, code: ErrorCode)
    requires StreamsOk(s) && code != ERR_WT_FLOW_CONTROL_ERROR
    ensures Ships(s, AbortSession(s, code))
  {
    hide Shutdown, StreamsOk, Ships, Polite;
    NothingShips(s);
    ShutdownShips(s, Closed);
    Decorate(s, Shutdown(s, Closed), [], [ResetQuicStream(s.cfg.id, code), EmitSession(SessionClosed(Some(code)))]);
  }

  lemma PoliteClose(code: ErrorCode, reason: Bytes)
    requires code != ERR_WT_FLOW_CONTROL_ERROR
    ensures Polite(Capsule(CAPSULE_CLOSE_SESSION,
                           Varint.BigEndian(if code <= 0xFFFF_FFFF then code else 0xFFFF_FFFF, 4) + reason))
  {
    hide Varint.BigEndian, Varint.FromBigEndian, Varint.Pow256;
    var shown := if code <= 0xFFFF_FFFF then code else 0xFFFF_FFFF;
    var value := Varint.BigEndian(shown, 4) + reason;
    Varint.Powers(4);
    Varint.BigEndianInverse(shown, 4);
    assert value[..4] == Varint.BigEndian(shown, 4);
    assert Varint.FromBigEndian(value[..4]) == shown;
  }

  lemma OneEffect(e: Effect)
    ensures SentBytes([e]) == if e.SendQuicData? then |e.data| else 0
    ensures forall uni :: Creates([e], uni) == if e.CreateQuicStream? && e.uni == uni then 1 else 0
    ensures Capsules([e]) == if e.SendCapsule? then [e.capsule] else []
  {
    assert [e][1..] == [];
  }

  /** A capsule that has nothing to do with flow control. */
  lemma FarewellShips(s: SessionVal, c: Capsule, fin: bool)
    requires !IsFlowControlCapsule(c.kind) && Polite(c)
    ensures Ships(s, Step(s, [SendCapsule(c, fin)]))
  {
    hide Polite, ReadLimit;
    OneEffect(SendCapsule(c, fin));
    assert [c][1..] == [];
    assert Limits([c], CAPSULE_MAX_DATA) == [];
    Idle(s.bidi, false, [c]);
    Idle(s.uni, true, [c]);
  }

  lemma CloseShips(s: SessionVal, request: RequestId, code: ErrorCode, reason: Bytes)
    requires StreamsOk(s) && code != ERR_WT_FLOW_CONTROL_ERROR
    ensures Ships(s, CloseSession(s, request, code, reason))
  {
    hide Shutdown, StreamsOk, Ships, Polite, Varint.BigEndian;
    if IsOpen(s) {
      var d := Shutdown(s, Closing);
      ShutdownShips(s, Closing);
      ShutdownConfig(s, Closing);
      PoliteClose(code, reason);
      var fx := CloseSession(s, request, code, reason).fx;
      var goodbye := fx[|d.fx|];
      var tail := [EmitSession(SessionClosed(Some(code))), Done(request, Nothing)];
      if goodbye.SendCapsule? {
        FarewellShips(d.s, goodbye.capsule, true);
      } else {
        LastWordShips(d.s);
      }
      Sequence(s, d, Step(d.s, [goodbye]));
      Decorate(s, Step(d.s, d.fx + [goodbye]), [], tail);
      assert fx == d.fx + [goodbye] + tail;
    } else {
      MuteShips(s, Step(s, [Done(request, Nothing)]));
    }
  }

  lemma LastWordShips(s: SessionVal)
    ensures Ships(s, Step(s, [SendQuicData(s.cfg.id, [], true)]))
  {
    hide Polite;
    assert [SendQuicData(s.cfg.id, [], true)][1..] == [];
    OrdinaryShips(s, Step(s, [SendQuicData(s.cfg.id, [], true)]));
  }

  lemma EndingsShip(s: SessionVal, e: Event)
    requires StreamsOk(s) && (e.UserReject? || (e.PeerClosed? && e.code != ERR_WT_FLOW_CONTROL_ERROR))
    ensures Ships(s, Handle(s, e))
  {
    hide Shutdown, StreamsOk, Ships, Polite;
    var o := Handle(s, e);
    ShutdownShips(s, Closed);
    if IsOpen(s) && (e.UserReject? ==> !s.cfg.isClient && s.phase == Connecting && e.acceptable) {
      var d := Shutdown(s, Closed);
      Decorate(s, d, [], o.fx[|d.fx|..]);
    } else if e.PeerClosed? {
      Rephased(s, o.s);
    } else {
      MuteShips(s, o);
    }
  }

  // ----- stream requests

  lemma IssueShips(s: SessionVal, request: RequestId, uni: bool, q: Quota)
    requires q == QuotaOf(s, uni).(issued := QuotaOf(s, uni).issued + 1, waiting := q.waiting)
    requires s.cfg.flowControl && Served(QuotaOf(s, uni)) ==> q.waiting == []
    ensures Ships(s, Step(WithQuota(s, uni, q), [CreateQuicStream(request, uni)]))
  {
    hide Polite;
    OneEffect(CreateQuicStream(request, uni));
  }

  /** A creation beyond the limit waits, and the peer is told. */
  lemma WaitShips(s: SessionVal, request: RequestId, uni: bool)
    requires s.cfg.flowControl && QuotaOf(s, uni).issued >= QuotaOf(s, uni).peerMax
    ensures var q := QuotaOf(s, uni);
            var e := EmitStreamsBlocked(q.(waiting := q.waiting + [request]), s.cfg.flowControl, uni);
            Ships(s, Step(WithQuota(s, uni, e.q), e.fx))
  {
    hide LimitCapsule, Tame, Varint.Write, Limits, Capsules;
    NoLimits();
    var q := QuotaOf(s, uni);
    WriteRange(q.peerMax);
    LimitCapsuleLimits(StreamsBlocked(uni), q.peerMax);
  }

  lemma CreateShips(s: SessionVal, request: RequestId, uni: bool)
    ensures Ships(s, CreateStream(s, request, uni))
  {
    hide Ships, EmitStreamsBlocked, Polite;
    var q := QuotaOf(s, uni);
    var o := CreateStream(s, request, uni);
    if !IsOpen(s) {
      MuteShips(s, o);
    } else if s.cfg.flowControl && q.issued >= q.peerMax {
      WaitShips(s, request, uni);
    } else {
      IssueShips(s, request, uni, q.(issued := q.issued + 1));
    }
  }

  lemma {:induction false} ReissueShips(s: SessionVal, uni: bool)
    ensures var o := Reissue(QuotaOf(s, uni), s.cfg.flowControl, uni);
            Ships(s, Step(WithQuota(s, uni, o.q), o.fx))
    decreases |QuotaOf(s, uni).waiting|
  {
    hide Ships;
    var q := QuotaOf(s, uni);
    if q.waiting == [] || (s.cfg.flowControl && q.issued >= q.peerMax) {
      NothingShips(s);
    } else {
      var q' := q.(issued := q.issued + 1, waiting := q.waiting[1..]);
      var b := WithQuota(s, uni, q');
      IssueShips(s, q.waiting[0], uni, q');
      ReissueShips(b, uni);
      var rest := Reissue(q', s.cfg.flowControl, uni);
      Sequence(s, Step(b, [CreateQuicStream(q.waiting[0], uni)]), Step(WithQuota(b, uni, rest.q), rest.fx));
    }
  }

  lemma FlushRequestsShips(s: SessionVal, uni: bool)
    ensures Ships(s, FlushStreamRequests(s, uni))
  {
    hide Ships, Reissue, EmitStreamsBlocked;
    var o := Reissue(QuotaOf(s, uni), s.cfg.flowControl, uni);
    var b := WithQuota(s, uni, o.q);
    ReissueShips(s, uni);
    EmitStreamsBlockedShips(b, uni);
    var e := EmitStreamsBlocked(o.q, s.cfg.flowControl, uni);
    Sequence(s, Step(b, o.fx), Step(WithQuota(b, uni, e.q), e.fx));
  }

  lemma {:induction false} ReissueServes(q: Quota, flowControl: bool, uni: bool)
    ensures var r := Reissue(q, flowControl, uni).q;
            r.waiting != [] ==> flowControl && r.issued >= r.peerMax
    decreases |q.waiting|
  {
    if q.waiting != [] && !(flowControl && q.issued >= q.peerMax) {
      ReissueServes(q.(issued := q.issued + 1, waiting := q.waiting[1..]), flowControl, uni);
    }
  }

  /** After a pass over the waiting creations those left over wait for want of streams, and the peer was told. */
  lemma FlushServes(s: SessionVal, uni: bool)
    ensures Served(QuotaOf(FlushStreamRequests(s, uni).s, uni))
  {
    hide Reissue, LimitCapsule, Varint.Write;
    var r := Reissue(QuotaOf(s, uni), s.cfg.flowControl, uni).q;
    ReissueServes(QuotaOf(s, uni), s.cfg.flowControl, uni);
    WriteRange(r.peerMax);
  }

  // ----- other steps without input from the peer

  lemma BindShips(s: SessionVal, id: StreamId, request: RequestId, uni: bool)
    ensures Ships(s, BindStream(s, id, request, uni))
  {
    hide Ships, Polite, NewStream;
    MuteShips(s, BindStream(s, id, request, uni));
  }

  lemma AdmitShips(s: SessionVal, id: StreamId, direction: Direction, uni: bool)
    ensures Ships(s, AdmitStream(s, id, direction, uni))
  {
    hide Ships, Polite, NewStream, CountClosed;
    var o := AdmitStream(s, id, direction, uni);
    if s.phase == Connecting && |s.pendingStreams| >= s.cfg.maxPendingStreams {
      CountClosedShips(s, uni);
      var head := (if uni then [] else [ResetQuicStream(id, ERR_WT_BUFFERED_STREAM_REJECTED)])
                  + [StopQuicStream(id, ERR_WT_BUFFERED_STREAM_REJECTED)];
      Decorate(s, CountClosed(s, uni), head, []);
    } else {
      MuteShips(s, o);
    }
  }

  lemma DatagramShips(s: SessionVal, e: Event)
    requires e.UserReadDatagram? || e.PeerDatagram? || e.UserSendDatagram?
    ensures Ships(s, Handle(s, e))
  {
    hide Ships, Varint.Size;
    RepliesShip(s, Handle(s, e));
  }

  lemma DrainShips(s: SessionVal)
    ensures Ships(s, Drain(s))
  {
    hide Ships, Polite;
    if s.phase == Connected {
      var c := Capsule(CAPSULE_DRAIN_SESSION, []);
      DrainPolite();
      FarewellShips(s, c, false);
      DrainingShips(s);
      Sequence(s, Step(s, [SendCapsule(c, false)]), Step(s.(phase := Draining), [EmitSession(SessionDraining)]));
      assert Drain(s).fx == [SendCapsule(c, false)] + [EmitSession(SessionDraining)];
    } else {
      NothingShips(s);
    }
  }

  lemma DrainPolite()
    ensures Polite(Capsule(CAPSULE_DRAIN_SESSION, []))
  {
  }

  lemma {:induction false} ShowEachTame(s: SessionVal, ids: seq<StreamId>)
    ensures var fx := ShowEach(s, ids); Plain(fx) && Mute(fx) && Tame(fx)
  {
    hide Polite;
    if ids != [] {
      ShowEachTame(s, ids[1..]);
    }
  }

  lemma {:induction false} ReplayDatagramsShips(s: SessionVal)
    ensures Ships(s, ReplayDatagrams(s))
    decreases |s.datagrams|
  {
    hide Ships, ShowEach, Polite;
    if s.datagramRequests == [] || s.datagrams == [] {
      ShowEachTame(s, s.pendingStreams);
      MuteShips(s, ShowPending(s));
    } else {
      var b := s.(datagrams := s.datagrams[1..], datagramRequests := s.datagramRequests[1..]);
      var head := [Done(s.datagramRequests[0], DatagramData(s.datagrams[0]))];
      MuteShips(s, Step(b, head));
      ReplayDatagramsShips(b);
      Sequence(s, Step(b, head), ReplayDatagrams(b));
    }
  }

  // ----- capsules of the peer

  /** The limit a capsule raises at its receiver. */
  function Informed(s: SessionVal, c: Capsule): SessionVal {
    match Varint.Read(c.value)
    case Incomplete => s
    case Got(limit, _) =>
      if !s.cfg.flowControl then s
      else if c.kind == CAPSULE_MAX_DATA then s.(credit := s.credit.(limit := limit))
      else if c.kind == MaxStreams(false) then s.(bidi := s.bidi.(peerMax := limit))
      else if c.kind == MaxStreams(true) then s.(uni := s.uni.(peerMax := limit))
      else s
  }

  /** A capsule that breaks no rule of flow control. */
  ghost predicate Lawful(s: SessionVal, c: Capsule) {
    && Polite(c)
    && (s.cfg.flowControl ==>
          match Varint.Read(c.value)
          case Incomplete => true
          case Got(limit, _) =>
            && (c.kind == CAPSULE_MAX_DATA ==> s.credit.limit < limit)
            && (c.kind == MaxStreams(false) ==> s.bidi.peerMax < limit <= STREAMS_LIMIT)
            && (c.kind == MaxStreams(true) ==> s.uni.peerMax < limit <= STREAMS_LIMIT)
            && (c.kind == StreamsBlocked(false) || c.kind == StreamsBlocked(true) ==> limit <= STREAMS_LIMIT))
  }

  lemma RecvCloseShips(s: SessionVal, value: Bytes)
    requires StreamsOk(s) && Polite(Capsule(CAPSULE_CLOSE_SESSION, value))
    ensures Ships(s, RecvClose(s, value))
  {
    hide Ships, StreamsOk, AbortSession, Shutdown, Utf8.IsValid, Varint.FromBigEndian;
    AbortShips(s, ERR_H3_MESSAGE_ERROR);
    var o := RecvClose(s, value);
    if o != AbortSession(s, ERR_H3_MESSAGE_ERROR) {
      var d := Shutdown(s, Closed);
      ShutdownShips(s, Closed);
      LastWordShips(d.s);
      var last := [SendQuicData(s.cfg.id, [], true)];
      ShutdownConfig(s, Closed);
      Sequence(s, d, Step(d.s, last));
      var tail := [EmitSession(SessionClosed(Some(Varint.FromBigEndian(value[..4]))))];
      Decorate(s, Step(d.s, d.fx + last), [], tail);
      assert o.fx == d.fx + last + tail;
    }
  }

  lemma ShutdownConfig(s: SessionVal, phase: Phase)
    requires StreamsOk(s) && phase != Connected && phase != Draining
    ensures Shutdown(s, phase).s.cfg == s.cfg
  {
    hide Shutdown, StreamsOk, Paper, Candid, Tame;
    ShutdownShips(s, phase);
  }

  lemma BlockedShips(s: SessionVal, uni: bool, limit: nat)
    requires limit <= STREAMS_LIMIT
    ensures Ships(s, RecvDataBlocked(s)) && Ships(s, RecvStreamsBlocked(s, uni, limit))
  {
    hide Ships, ReplenishData, ReplenishStreams, Polite;
    ReplenishDataShips(s, true);
    var g := ReplenishData(s, true);
    Decorate(s, g, [], [EmitSession(SessionDataBlocked)]);
    ReplenishStreamsShips(s, uni, true);
    var h := ReplenishStreams(s, uni, true);
    Decorate(s, h, [], [EmitSession(SessionStreamsBlocked(uni))]);
    assert [] + [EmitSession(SessionDataBlocked)] == [EmitSession(SessionDataBlocked)];
    assert [] + [EmitSession(SessionStreamsBlocked(uni))] == [EmitSession(SessionStreamsBlocked(uni))];
  }

  lemma MaxDataShips(s: SessionVal, limit: nat)
    requires StreamsOk(s) && s.credit.limit < limit
    ensures Ships(s.(credit := s.credit.(limit := limit)), RecvMaxData(s, limit))
  {
    hide Ships, StreamsOk, FlushBlockedWrites, Polite;
    var b := s.(credit := s.credit.(limit := limit));
    Reinformed(s, b);
    FlushBlockedShips(b);
    Decorate(b, FlushBlockedWrites(b), [EmitSession(SessionMaxDataUpdated(limit))], []);
  }

  lemma Reinformed(s: SessionVal, t: SessionVal)
    requires StreamsOk(s) && t.streams == s.streams && t.cfg == s.cfg
    ensures StreamsOk(t)
  {
  }

  lemma MaxStreamsShips(s: SessionVal, uni: bool, limit: nat)
    requires QuotaOf(s, uni).peerMax < limit <= STREAMS_LIMIT
    ensures Ships(WithQuota(s, uni, QuotaOf(s, uni).(peerMax := limit)), RecvMaxStreams(s, uni, limit))
  {
    hide Ships, FlushStreamRequests, Polite;
    var b := WithQuota(s, uni, QuotaOf(s, uni).(peerMax := limit));
    FlushRequestsShips(b, uni);
    Decorate(b, FlushStreamRequests(b, uni), [EmitSession(SessionMaxStreamsUpdated(uni, limit))], []);
  }

  /** A lawful capsule never ends the session with a flow-control error. */
  lemma ProcessShips(s: SessionVal, c: Capsule)
    requires Active(s) && StreamsOk(s) && Lawful(s, c)
    ensures Ships(Informed(s, c), ProcessCapsule(s, c))
  {
    hide Ships, StreamsOk, Polite, AbortSession, RecvMaxData, RecvMaxStreams, RecvClose, RecvDataBlocked, RecvStreamsBlocked,
    Varint.Read;
    NothingShips(s);
    if c.kind == CAPSULE_CLOSE_SESSION {
      assert c == Capsule(CAPSULE_CLOSE_SESSION, c.value);
      RecvCloseShips(s, c.value);
    } else if c.kind == CAPSULE_DATA_BLOCKED {
      BlockedShips(s, false, 0);
    } else if c.kind == CAPSULE_DRAIN_SESSION {
      DrainingShips(s);
    } else if c.kind == CAPSULE_MAX_STREAM_DATA || c.kind == CAPSULE_STREAM_DATA_BLOCKED {
      AbortShips(s, ERR_H3_FRAME_UNEXPECTED);
    } else {
      match Varint.Read(c.value) {
        case Incomplete => AbortShips(s, ERR_H3_GENERAL_PROTOCOL_ERROR);
        case Got(limit, _) =>
          if s.cfg.flowControl {
            LimitShips(s, c, limit);
          }
      }
    }
  }

  lemma DrainingShips(s: SessionVal)
    requires Active(s)
    ensures Ships(s, Step(s.(phase := Draining), [EmitSession(SessionDraining)]))
  {
    hide Polite;
    MuteShips(s, Step(s.(phase := Draining), [EmitSession(SessionDraining)]));
  }

  lemma LimitShips(s: SessionVal, c: Capsule, limit: nat)
    requires StreamsOk(s) && Lawful(s, c) && s.cfg.flowControl && Varint.Read(c.value).Got? && Varint.Read(c.value).value == limit
    requires c.kind !in {CAPSULE_CLOSE_SESSION, CAPSULE_DATA_BLOCKED, CAPSULE_DRAIN_SESSION, CAPSULE_MAX_STREAM_DATA,
                         CAPSULE_STREAM_DATA_BLOCKED}
    ensures Ships(Informed(s, c), ProcessCapsule(s, c))
  {
    hide Ships, StreamsOk, Polite, AbortSession, RecvMaxData, RecvMaxStreams, RecvDataBlocked, RecvStreamsBlocked;
    hide Varint.Read;
    NothingShips(s);
    if c.kind == CAPSULE_MAX_DATA {
      MaxDataShips(s, limit);
    } else if c.kind == CAPSULE_MAX_STREAMS_BIDI {
      MaxStreamsShips(s, false, limit);
    } else if c.kind == CAPSULE_MAX_STREAMS_UNI {
      MaxStreamsShips(s, true, limit);
    } else if c.kind == CAPSULE_STREAMS_BLOCKED_BIDI {
      BlockedShips(s, false, limit);
    } else if c.kind == CAPSULE_STREAMS_BLOCKED_UNI {
      BlockedShips(s, true, limit);
    }
  }

  // ----- data of the peer

  /** Bytes within the limit: counted, delivered, and perhaps answered with a new limit. */
  lemma PeerDataShips(s: SessionVal, id: StreamId, data: Bytes, fin: bool)
    requires StreamsOk(s) && id in s.streams && (s.cfg.flowControl ==> s.window.received + |data| <= s.window.limit)
    ensures var w := s.window.(received := s.window.received + |data|, consumed := s.window.consumed + |data|);
            Ships(s.(window := w), RecvStreamData(s, id, data, fin))
  {
    hide Ships, RecvData, ReplenishData, HandleClosed, Streams.Inv, Plain, NoSessionEvents;
    var w := s.window.(received := s.window.received + |data|, consumed := s.window.consumed + |data|);
    var o := RecvData(s.streams[id], data, fin);
    ReadCalm(s.streams[id], 0, 0, data, fin);
    var b := s.(window := w);
    var stored := b.(streams := s.streams[id := o.st]);
    DeliveredShips(b, stored, s.streams[id], o);
    var g := ReplenishData(stored, false);
    ReplenishDataShips(stored, false);
    HandleClosedShips(g.s, id);
    Sequence(b, Step(stored, o.fx), g);
    Sequence(b, Step(g.s, o.fx + g.fx), HandleClosed(g.s, id));
  }

  lemma DeliveredShips(s: SessionVal, t: SessionVal, st: StreamVal, o: Outcome)
    requires t == s.(streams := t.streams) && SF.Keeps(st, o) && NoSessionEvents(o.fx) && o.sent == 0
    ensures Ships(s, Step(t, o.fx))
  {
    hide Ships, Streams.Inv;
    CalmTame(o.fx);
    OrdinaryShips(s, Step(t, o.fx));
  }
}
