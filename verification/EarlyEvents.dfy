/** Streams and datagrams that arrive before their session is known: buffered within two limits, replayed into
    the session, or refused when they grow too old. */
module EarlyEvents {
  import opened Types
  import opened Sessions

  /** Points in time; the source uses floating-point seconds. */
  type Time = int

  datatype Early = StreamIn(stream: StreamId) | DatagramIn(data: Bytes)
  datatype Stamped = Stamped(at: Time, event: Early)

  datatype Limits = Limits(perConnection: nat, perSession: nat, ttl: Time)

  /** `count` is a machine word in the source, decremented without a check; it is an `int` here, and the
      invariant shows that it never underflows. */
  datatype Buffer = Buffer(events: map<SessionId, seq<Stamped>>, count: int)

  datatype Kept = Kept(buffer: Buffer, accepted: bool)

  function EventsOf(b: Buffer, session: SessionId): seq<Stamped> {
    if session in b.events then b.events[session] else []
  }

  function Store(b: Buffer, limits: Limits, session: SessionId, event: Early, now: Time): Kept {
    if b.count >= limits.perConnection then Kept(b, false)
    else
      var mine := EventsOf(b, session);
      if |mine| >= limits.perSession then Kept(b.(events := b.events[session := mine]), false)
      else Kept(Buffer(b.events[session := mine + [Stamped(now, event)]], b.count + 1), true)
  }

  /** What a stream that is not wanted gets: both directions are ended, or the only one it has. */
  function Refuse(id: StreamId): seq<Effect> {
    (if IsUnidirectional(id) then [] else [ResetQuicStream(id, ERR_WT_BUFFERED_STREAM_REJECTED)])
    + [StopQuicStream(id, ERR_WT_BUFFERED_STREAM_REJECTED)]
  }

  // ----- pruning

  predicate IsFresh(e: Stamped, limits: Limits, now: Time) {
    now - e.at < limits.ttl
  }

  function Fresh(events: seq<Stamped>, limits: Limits, now: Time): seq<Stamped> {
    if events == [] then []
    else (if IsFresh(events[0], limits, now) then [events[0]] else []) + Fresh(events[1..], limits, now)
  }

  function RefuseOld(events: seq<Stamped>, limits: Limits, now: Time): seq<Effect> {
    if events == [] then []
    else (if !IsFresh(events[0], limits, now) && events[0].event.StreamIn? then Refuse(events[0].event.stream) else [])
         + RefuseOld(events[1..], limits, now)
  }

  datatype Pruned = Pruned(buffer: Buffer, fx: seq<Effect>)

  function PruneOne(b: Buffer, limits: Limits, session: SessionId, now: Time): Pruned {
    var mine := EventsOf(b, session);
    var young := Fresh(mine, limits, now);
    Pruned(Buffer(if young == [] then b.events - {session} else b.events[session := young], b.count - (|mine| - |young|)),
           RefuseOld(mine, limits, now))
  }

  function PruneEach(b: Buffer, limits: Limits, sessions: seq<SessionId>, now: Time): Pruned
    decreases |sessions|
  {
    if sessions == [] then Pruned(b, [])
    else
      var head := PruneOne(b, limits, sessions[0], now);
      var rest := PruneEach(head.buffer, limits, sessions[1..], now);
      Pruned(rest.buffer, head.fx + rest.fx)
  }

  function Prune(b: Buffer, limits: Limits, now: Time): Pruned {
    PruneEach(b, limits, Sorted(b.events.Keys), now)
  }

  // ----- taking

  datatype Taken = Taken(buffer: Buffer, events: seq<Stamped>)

  /** Remove what was buffered for a session, to replay or refuse it. */
  function Take(b: Buffer, session: SessionId): Taken {
    if session !in b.events then Taken(b, [])
    else Taken(Buffer(b.events - {session}, b.count - |b.events[session]|), b.events[session])
  }

  /** A session that never came: its streams are refused, its datagrams dropped. */
  function RefuseAll(events: seq<Stamped>): seq<Effect> {
    if events == [] then []
    else (if events[0].event.StreamIn? then Refuse(events[0].event.stream) else []) + RefuseAll(events[1..])
  }

  // ----- conservation

  /** A measure of lists of events, summed over the buffer: their number, or how often a stream opens in them. */
  datatype Measure = Number | Openings(stream: StreamId)

  function Size(m: Measure, events: seq<Stamped>): nat {
    if events == [] then 0
    else (if m.Number? || events[0].event == StreamIn(m.stream) then 1 else 0) + Size(m, events[1..])
  }

  ghost function Total(m: Measure, events: map<SessionId, seq<Stamped>>): nat
    decreases |events.Keys|
  {
    if events.Keys == {} then 0
    else
      var k := Min(events.Keys);
      assert (events - {k}).Keys == events.Keys - {k};
      Size(m, events[k]) + Total(m, events - {k})
  }

  lemma {:induction false} TotalRemove(m: Measure, events: map<SessionId, seq<Stamped>>, k: SessionId)
    requires k in events
    ensures Total(m, events) == Size(m, events[k]) + Total(m, events - {k})
    decreases |events.Keys|
  {
    var low := Min(events.Keys);
    if low != k {
      assert (events - {low}).Keys == events.Keys - {low} && (events - {k}).Keys == events.Keys - {k};
      TotalRemove(m, events - {low}, k);
      assert Min(events.Keys) in events.Keys - {k};
      assert events - {low} - {k} == events - {k} - {low};
    }
  }

  lemma TotalUpdate(m: Measure, b: Buffer, k: SessionId, mine: seq<Stamped>)
    ensures Total(m, b.events[k := mine]) + Size(m, EventsOf(b, k)) == Total(m, b.events) + Size(m, mine)
    ensures Total(m, b.events - {k}) + Size(m, EventsOf(b, k)) == Total(m, b.events)
  {
    TotalRemove(m, b.events[k := mine], k);
    assert b.events[k := mine] - {k} == b.events - {k};
    if k in b.events {
      TotalRemove(m, b.events, k);
    } else {
      assert b.events - {k} == b.events;
    }
  }

  lemma {:induction false} SizeAppend(m: Measure, a: seq<Stamped>, b: seq<Stamped>)
    ensures Size(m, a + b) == Size(m, a) + Size(m, b)
  {
    if a == [] {
      assert a + b == b;
    } else {
      assert (a + b)[1..] == a[1..] + b;
      SizeAppend(m, a[1..], b);
    }
  }

  lemma {:induction false} SizeNumber(events: seq<Stamped>)
    ensures Size(Number, events) == |events|
  {
    if events != [] {
      SizeNumber(events[1..]);
    }
  }

  /** How often a list of effects ends a stream that was refused: its receiving side, and its sending side if it
      has one. */
  function Refusals(fx: seq<Effect>, id: StreamId): nat {
    if fx == [] then 0
    else (if fx[0] == StopQuicStream(id, ERR_WT_BUFFERED_STREAM_REJECTED) then 1 else 0) + Refusals(fx[1..], id)
  }

  function Resets(fx: seq<Effect>, id: StreamId): nat {
    if fx == [] then 0
    else (if fx[0] == ResetQuicStream(id, ERR_WT_BUFFERED_STREAM_REJECTED) then 1 else 0) + Resets(fx[1..], id)
  }

  lemma {:induction false} RefusalsAppend(a: seq<Effect>, b: seq<Effect>, id: StreamId)
    ensures Refusals(a + b, id) == Refusals(a, id) + Refusals(b, id)
    ensures Resets(a + b, id) == Resets(a, id) + Resets(b, id)
  {
    if a == [] {
      assert a + b == b;
    } else {
      assert (a + b)[1..] == a[1..] + b;
      RefusalsAppend(a[1..], b, id);
    }
  }

  /** Refusing ends a stream in every direction it has, once. */
  lemma RefuseOnce(k: StreamId, id: StreamId)
    ensures Refusals(Refuse(k), id) == if k == id then 1 else 0
    ensures Resets(Refuse(k), id) == if k == id && !IsUnidirectional(id) then 1 else 0
  {
    var stop := [StopQuicStream(k, ERR_WT_BUFFERED_STREAM_REJECTED)];
    assert stop[1..] == [];
    assert Refusals(stop, id) == (if k == id then 1 else 0) && Resets(stop, id) == 0;
    if !IsUnidirectional(k) {
      assert Refuse(k)[1..] == stop;
    } else {
      assert Refuse(k) == stop;
    }
  }

  /** Counts and limits agree with the contents. */
  ghost predicate Inv(b: Buffer, limits: Limits) {
    && b.count == Total(Number, b.events)
    && b.count <= limits.perConnection
    && (forall k :: k in b.events ==> |b.events[k]| <= limits.perSession)
  }

  /** A refused stream is reset exactly when it is bidirectional. */
  ghost predicate Paired(fx: seq<Effect>, id: StreamId) {
    Resets(fx, id) == if IsUnidirectional(id) then 0 else Refusals(fx, id)
  }

  lemma StoreKeeps(b: Buffer, limits: Limits, session: SessionId, event: Early, now: Time)
    requires Inv(b, limits)
    ensures Inv(Store(b, limits, session, event, now).buffer, limits)
  {
    var mine := EventsOf(b, session);
    TotalUpdate(Number, b, session, mine);
    TotalUpdate(Number, b, session, mine + [Stamped(now, event)]);
    SizeAppend(Number, mine, [Stamped(now, event)]);
    assert [Stamped(now, event)][1..] == [];
  }

  /** A stream that arrives early is in the buffer once more, or was turned away. */
  lemma StoreBalance(b: Buffer, limits: Limits, session: SessionId, stream: StreamId, now: Time, id: StreamId)
    ensures var r := Store(b, limits, session, StreamIn(stream), now);
            Total(Openings(id), r.buffer.events) ==
            Total(Openings(id), b.events) + if r.accepted && stream == id then 1 else 0
  {
    var e := Stamped(now, StreamIn(stream));
    var mine := EventsOf(b, session);
    TotalUpdate(Openings(id), b, session, mine);
    TotalUpdate(Openings(id), b, session, mine + [e]);
    SizeAppend(Openings(id), mine, [e]);
    assert [e][1..] == [];
  }

  lemma {:induction false} FreshBalance(events: seq<Stamped>, limits: Limits, now: Time, id: StreamId)
    ensures |Fresh(events, limits, now)| <= |events|
    ensures Size(Openings(id), Fresh(events, limits, now)) + Refusals(RefuseOld(events, limits, now), id)
            == Size(Openings(id), events)
    ensures Paired(RefuseOld(events, limits, now), id)
  {
    if events != [] {
      FreshBalance(events[1..], limits, now, id);
      var e := events[0];
      var rest := Fresh(events[1..], limits, now);
      if IsFresh(e, limits, now) {
        assert Fresh(events, limits, now)[1..] == rest;
        assert [] + RefuseOld(events[1..], limits, now) == RefuseOld(events[1..], limits, now);
      } else {
        assert [] + rest == rest;
        var head := if e.event.StreamIn? then Refuse(e.event.stream) else [];
        RefusalsAppend(head, RefuseOld(events[1..], limits, now), id);
        if e.event.StreamIn? {
          RefuseOnce(e.event.stream, id);
        }
      }
    }
  }

  lemma PruneOneKeeps(b: Buffer, limits: Limits, session: SessionId, now: Time, id: StreamId)
    requires Inv(b, limits)
    ensures var r := PruneOne(b, limits, session, now);
            && Inv(r.buffer, limits)
            && Total(Openings(id), r.buffer.events) + Refusals(r.fx, id) == Total(Openings(id), b.events)
            && Paired(r.fx, id)
  {
    var mine := EventsOf(b, session);
    var young := Fresh(mine, limits, now);
    FreshBalance(mine, limits, now, id);
    SizeNumber(mine);
    SizeNumber(young);
    TotalUpdate(Number, b, session, young);
    TotalUpdate(Openings(id), b, session, young);
    hide Fresh, RefuseOld, Refusals, Resets;
  }

  lemma {:induction false} PruneEachKeeps(b: Buffer, limits: Limits, sessions: seq<SessionId>, now: Time, id: StreamId)
    requires Inv(b, limits)
    ensures var r := PruneEach(b, limits, sessions, now);
            && Inv(r.buffer, limits)
            && Total(Openings(id), r.buffer.events) + Refusals(r.fx, id) == Total(Openings(id), b.events)
            && Paired(r.fx, id)
    decreases |sessions|
  {
    hide PruneOne, Inv;
    if sessions != [] {
      var head := PruneOne(b, limits, sessions[0], now);
      PruneOneKeeps(b, limits, sessions[0], now, id);
      PruneEachKeeps(head.buffer, limits, sessions[1..], now, id);
      RefusalsAppend(head.fx, PruneEach(head.buffer, limits, sessions[1..], now).fx, id);
    }
  }

  /** Pruning refuses every stream it drops, exactly once, and keeps the books. */
  lemma PruneKeeps(b: Buffer, limits: Limits, now: Time, id: StreamId)
    requires Inv(b, limits)
    ensures var r := Prune(b, limits, now);
            && Inv(r.buffer, limits)
            && Total(Openings(id), r.buffer.events) + Refusals(r.fx, id) == Total(Openings(id), b.events)
            && Paired(r.fx, id)
  {
    PruneEachKeeps(b, limits, Sorted(b.events.Keys), now, id);
  }

  /** Taking a session's events out of the buffer loses none of them. */
  lemma TakeKeeps(b: Buffer, limits: Limits, session: SessionId, id: StreamId)
    requires Inv(b, limits)
    ensures var r := Take(b, session);
            && Inv(r.buffer, limits)
            && Total(Openings(id), r.buffer.events) + Size(Openings(id), r.events) == Total(Openings(id), b.events)
  {
    var mine := EventsOf(b, session);
    SizeNumber(mine);
    TotalUpdate(Number, b, session, mine);
    TotalUpdate(Openings(id), b, session, mine);
  }

  lemma {:induction false} RefuseAllBalance(events: seq<Stamped>, id: StreamId)
    ensures Refusals(RefuseAll(events), id) == Size(Openings(id), events) && Paired(RefuseAll(events), id)
  {
    if events != [] {
      RefuseAllBalance(events[1..], id);
      var e := events[0].event;
      var head := if e.StreamIn? then Refuse(e.stream) else [];
      RefusalsAppend(head, RefuseAll(events[1..]), id);
      if e.StreamIn? {
        RefuseOnce(e.stream, id);
      }
    }
  }
}
