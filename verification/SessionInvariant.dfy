/** What every session step keeps: no lost wakeup and work conservation for blocked writes, the
    accounting of peer streams, and the emptiness of a session that left its open phases. */
module SessionInvariant {
  import opened Types
  import opened Streams
  import opened Sessions
  import opened Traces
  import SF = StreamFacts

  // ----- requests held by a session

  /** How often the streams of a table hold a request. */
  ghost function TableHeld(m: map<StreamId, StreamVal>, r: RequestId): nat
    decreases |m.Keys|
  {
    if m.Keys == {} then 0
    else
      var k := Min(m.Keys);
      assert (m - {k}).Keys == m.Keys - {k};
      SF.Held(m[k], r) + TableHeld(m - {k}, r)
  }

  /** How often a session holds a request. */
  ghost function Held(s: SessionVal, r: RequestId): nat {
    TableHeld(s.streams, r) + Count(s.bidi.waiting, r) + Count(s.uni.waiting, r) + Count(s.datagramRequests, r)
  }

  lemma {:induction false} TableRemove(m: map<StreamId, StreamVal>, k: StreamId, r: RequestId)
    requires k in m
    ensures TableHeld(m, r) == SF.Held(m[k], r) + TableHeld(m - {k}, r)
    decreases |m.Keys|
  {
    var low := Min(m.Keys);
    if low != k {
      assert (m - {low}).Keys == m.Keys - {low} && (m - {k}).Keys == m.Keys - {k};
      TableRemove(m - {low}, k, r);
      MinStays(m.Keys, k);
      assert m - {low} - {k} == m - {k} - {low};
    }
  }

  lemma MinStays(ids: set<StreamId>, k: StreamId)
    requires k in ids && k != Min(ids)
    ensures ids - {k} != {} && Min(ids - {k}) == Min(ids)
  {
    assert Min(ids) in ids - {k};
  }

  lemma TableUpdate(m: map<StreamId, StreamVal>, k: StreamId, st: StreamVal, r: RequestId)
    ensures TableHeld(m[k := st], r) == SF.Held(st, r) + TableHeld(m - {k}, r)
    ensures k in m ==> TableHeld(m, r) == SF.Held(m[k], r) + TableHeld(m - {k}, r)
    ensures k !in m ==> m - {k} == m
  {
    TableRemove(m[k := st], k, r);
    assert m[k := st] - {k} == m - {k};
    if k in m {
      TableRemove(m, k, r);
    }
  }

  lemma HeldByStream(s: SessionVal, id: StreamId, r: RequestId)
    requires id in s.streams
    ensures SF.Held(s.streams[id], r) <= Held(s, r)
  {
    TableRemove(s.streams, id, r);
  }

  // ----- the invariant

  /** Live peer-initiated streams of one kind. */
  ghost function Live(s: SessionVal, uni: bool): set<StreamId> {
    set id | id in s.streams && IsPeerInitiated(id, s.cfg.isClient) && IsUnidirectional(id) == uni
  }

  ghost predicate StreamsOk(s: SessionVal) {
    forall id :: id in s.streams ==>
      s.streams[id].id == id && Streams.Inv(s.streams[id]) && s.streams[id].direction == DirectionOf(id, s.cfg.isClient)
  }

  /** Blocked streams are queued, and the meter stays within the limit. */
  ghost predicate Queued(s: SessionVal) {
    && (s.cfg.flowControl ==> s.credit.sent <= s.credit.limit)
    && (forall id :: id in s.credit.blocked ==> id in s.credit.queue)
    && (forall id :: id in s.streams && IsBlocked(s.streams[id]) ==> id in s.credit.blocked)
    && (s.credit.lastBlocked.Some? ==> s.credit.lastBlocked.value <= s.credit.limit)
  }

  /** Every credit is spent, and the peer was told, whenever a stream is blocked. */
  ghost predicate Spent(s: SessionVal) {
    forall id :: id in s.streams && IsBlocked(s.streams[id]) ==>
      s.cfg.flowControl && s.credit.sent == s.credit.limit && s.credit.lastBlocked == Some(s.credit.limit)
  }

  /** Peer streams opened minus closed are the live ones; the advertised limit runs at most the initial
      allowance ahead of the closed ones, so with flow control that many can be live at once. */
  ghost predicate QuotaOk(s: SessionVal, uni: bool) {
    var q := QuotaOf(s, uni);
    && q.peerOpened == q.peerClosed + |Live(s, uni)|
    && q.localMax <= q.peerClosed + q.initial
    && (s.cfg.flowControl ==> q.peerOpened <= q.localMax && q.issued <= q.peerMax)
  }

  ghost predicate ShutOk(s: SessionVal) {
    !IsOpen(s) ==>
      && s.streams == map[] && s.capsules == [] && s.datagrams == [] && s.datagramRequests == []
      && s.pendingStreams == [] && s.bidi.waiting == [] && s.uni.waiting == []
      && s.credit.blocked == {} && s.credit.queue == []
  }

  ghost predicate Base(s: SessionVal) {
    StreamsOk(s) && Queued(s) && Spent(s) && QuotaOk(s, false) && QuotaOk(s, true) && ShutOk(s)
  }

  /** Nothing stays parked once the session is connected. */
  ghost predicate Settled(s: SessionVal) {
    s.phase == Connected ==> s.capsules == [] && s.pendingStreams == []
  }

  ghost predicate Inv(s: SessionVal) {
    Base(s) && Settled(s)
  }

  /** What the environment promises: request ids are fresh, stream ids are fresh and of the right kind,
      and a FIN is acknowledged only after its send was completed. */
  ghost predicate Allowed(s: SessionVal, e: Event) {
    match e
    case UserWrite(_, request, _, _) => Held(s, request) == 0
    case TransportBind(id, _, uni) =>
      id !in s.streams && id !in s.pendingStreams && !IsPeerInitiated(id, s.cfg.isClient) && IsUnidirectional(id) == uni
    case PeerOpened(id) => id !in s.streams && id !in s.pendingStreams && IsPeerInitiated(id, s.cfg.isClient)
    case TransportAcknowledged(id) => id in s.streams ==> SF.MayAcknowledge(s.streams[id])
    case _ => true
  }

  lemma NewSessionInv(cfg: Config, initialMaxData: nat, initialBidi: nat, initialUni: nat,
                      peerMaxData: nat, peerBidi: nat, peerUni: nat)
    ensures Inv(NewSession(cfg, initialMaxData, initialBidi, initialUni, peerMaxData, peerBidi, peerUni))
  {
  }

  // ----- sending

  /** An outcome of a stream operation that can be stored in the session's table. */
  ghost predicate Storable(s: SessionVal, id: StreamId, o: Outcome) {
    id in s.streams && SF.Keeps(s.streams[id], o)
  }

  lemma StoreStreams(s: SessionVal, id: StreamId, o: Outcome)
    requires StreamsOk(s) && Storable(s, id, o)
    ensures StreamsOk(s.(streams := s.streams[id := o.st]))
  {
  }

  lemma StoreLive(s: SessionVal, id: StreamId, o: Outcome, uni: bool)
    requires Storable(s, id, o)
    ensures Live(s.(streams := s.streams[id := o.st]), uni) == Live(s, uni)
  {
  }

  /** Metering a stream operation, before the peer is told. */
  lemma MeteredKeeps(s: SessionVal, id: StreamId, o: Outcome)
    requires Queued(s) && Spent(s) && id in s.streams
    requires o.sent <= AvailableCredit(s.cfg, s.credit)
    requires IsBlocked(o.st) ==> AvailableCredit(s.cfg, s.credit) == 0 || o.st.send == s.streams[id].send
    ensures var metered := s.credit.(sent := s.credit.sent + o.sent);
            var noted := if IsBlocked(o.st) then NoteBlocked(metered, id) else metered;
            var t := s.(streams := s.streams[id := o.st], credit := noted);
            && Queued(t)
            && (AvailableCredit(t.cfg, t.credit) == 0 || forall k :: k in t.streams ==> !IsBlocked(t.streams[k]))
  {
  }

  lemma AfterSendKeeps(s: SessionVal, id: StreamId, o: Outcome)
    requires Queued(s) && Spent(s) && id in s.streams
    requires o.sent <= AvailableCredit(s.cfg, s.credit)
    requires IsBlocked(o.st) ==> AvailableCredit(s.cfg, s.credit) == 0 || o.st.send == s.streams[id].send
    ensures Queued(AfterSend(s, id, o).s) && Spent(AfterSend(s, id, o).s)
  {
    MeteredKeeps(s, id, o);
    var metered := s.credit.(sent := s.credit.sent + o.sent);
    var noted := if IsBlocked(o.st) then NoteBlocked(metered, id) else metered;
    AnnounceKeeps(s.(streams := s.streams[id := o.st], credit := noted));
    hide Queued, Spent, NoteBlocked, EmitDataBlocked, IsBlocked;
  }

  lemma AfterSendInv(s: SessionVal, id: StreamId, o: Outcome)
    requires Base(s) && Storable(s, id, o)
    requires o.sent <= AvailableCredit(s.cfg, s.credit)
    requires IsBlocked(o.st) ==> AvailableCredit(s.cfg, s.credit) == 0 || o.st.send == s.streams[id].send
    ensures Base(AfterSend(s, id, o).s)
  {
    var r := AfterSend(s, id, o).s;
    AfterSendKeeps(s, id, o);
    StoreStreams(s, id, o);
    assert StreamsOk(r);
    StoreLive(s, id, o, false);
    StoreLive(s, id, o, true);
    assert Live(r, false) == Live(s, false) && Live(r, true) == Live(s, true);
  }

  lemma WriteStreamInv(s: SessionVal, id: StreamId, request: RequestId, data: Bytes, fin: bool)
    requires Base(s) && Held(s, request) == 0
    ensures Base(WriteStream(s, id, request, data, fin).s)
  {
    if id in s.streams {
      var st := s.streams[id];
      var credit := AvailableCredit(s.cfg, s.credit);
      HeldByStream(s, id, request);
      SF.WriteKeeps(st, request, data, fin, credit);
      SF.WriteInv(st.send, st.maxWriteBufferSize, st.id, Chunk(data, request, fin), credit);
      AfterSendInv(s, id, Write(st, request, data, fin, credit));
    }
  }

  lemma CompleteStreamWriteInv(s: SessionVal, id: StreamId)
    requires Base(s)
    ensures Base(CompleteStreamWrite(s, id).s)
  {
    if id in s.streams {
      var st := s.streams[id];
      var credit := AvailableCredit(s.cfg, s.credit);
      SF.CompleteKeeps(st, credit);
      SF.CompleteInv(st.send, st.maxWriteBufferSize, st.id, credit);
      AfterSendInv(s, id, CompleteWrite(st, credit));
    }
  }

  lemma {:induction false} FlushQueueFrame(s: SessionVal, n: nat)
    ensures var r := FlushQueue(s, n).s;
            && r == s.(streams := r.streams, credit := r.credit)
            && r.credit.limit == s.credit.limit && r.credit.lastBlocked == s.credit.lastBlocked
            && r.streams.Keys == s.streams.Keys
    decreases n
  {
    hide FlushWrites, IsBlocked;
    if n > 0 && s.credit.queue != [] {
      var id := s.credit.queue[0];
      var popped := s.credit.(queue := s.credit.queue[1..], blocked := s.credit.blocked - {id});
      var credit := AvailableCredit(s.cfg, popped);
      if credit > 0 {
        if id !in s.streams {
          FlushQueueFrame(s.(credit := popped), n - 1);
        } else {
          var o := FlushWrites(s.streams[id], credit);
          var metered := popped.(sent := popped.sent + o.sent);
          var noted := if IsBlocked(o.st) then metered.(queue := metered.queue + [id], blocked := metered.blocked + {id})
                       else metered;
          FlushQueueFrame(s.(streams := s.streams[id := o.st], credit := noted), n - 1);
        }
      }
    }
  }

  /** The blocked queue without its front. */
  ghost function Popped(s: SessionVal): SendCredit
    requires s.credit.queue != []
  {
    s.credit.(queue := s.credit.queue[1..], blocked := s.credit.blocked - {s.credit.queue[0]})
  }

  lemma SkipQueued(s: SessionVal)
    requires StreamsOk(s) && Queued(s) && s.credit.queue != []
    requires s.credit.queue[0] !in s.streams
    ensures StreamsOk(s.(credit := Popped(s))) && Queued(s.(credit := Popped(s)))
  {
    assert s.credit.queue == [s.credit.queue[0]] + s.credit.queue[1..];
  }

  lemma StopQueued(s: SessionVal)
    requires StreamsOk(s) && Queued(s) && s.credit.queue != []
    ensures var id := s.credit.queue[0];
            var back := Popped(s).(queue := [id] + Popped(s).queue, blocked := Popped(s).blocked + {id});
            StreamsOk(s.(credit := back)) && Queued(s.(credit := back))
  {
    assert s.credit.queue == [s.credit.queue[0]] + s.credit.queue[1..];
  }

  /** Serving one queued stream with credit at hand never leaves it blocked, so a pass over the queue
      either empties it or spends every credit. */
  lemma {:induction false} FlushQueueKeeps(s: SessionVal, n: nat)
    requires StreamsOk(s) && Queued(s) && n == |s.credit.queue|
    ensures var r := FlushQueue(s, n).s;
            && StreamsOk(r) && Queued(r)
            && (r.credit.queue == [] || AvailableCredit(r.cfg, r.credit) == 0)
    decreases n
  {
    hide StreamsOk, Queued, Storable, FlushWrites, IsBlocked;
    if n > 0 {
      var id := s.credit.queue[0];
      var credit := AvailableCredit(s.cfg, Popped(s));
      if credit == 0 {
        StopQueued(s);
      } else if id !in s.streams {
        SkipQueued(s);
        FlushQueueKeeps(s.(credit := Popped(s)), n - 1);
      } else {
        var o := FlushWrites(s.streams[id], credit);
        FlushOne(s, id, credit);
        ServedQueued(s, id, o);
        FlushQueueKeeps(s.(streams := s.streams[id := o.st], credit := Popped(s).(sent := Popped(s).sent + o.sent)), n - 1);
      }
    }
  }

  lemma FlushOne(s: SessionVal, id: StreamId, credit: nat)
    requires StreamsOk(s) && id in s.streams && credit > 0
    ensures var o := FlushWrites(s.streams[id], credit);
            Storable(s, id, o) && !IsBlocked(o.st) && o.sent <= credit
  {
    var st := s.streams[id];
    SF.FlushKeeps(st, credit);
    SF.FlushInv(st.send, st.maxWriteBufferSize, st.id, credit);
  }

  lemma ServedQueued(s: SessionVal, id: StreamId, o: Outcome)
    requires StreamsOk(s) && Queued(s) && s.credit.queue != [] && id == s.credit.queue[0]
    requires Storable(s, id, o) && !IsBlocked(o.st) && o.sent <= AvailableCredit(s.cfg, Popped(s))
    ensures var served := s.(streams := s.streams[id := o.st], credit := Popped(s).(sent := Popped(s).sent + o.sent));
            StreamsOk(served) && Queued(served)
  {
    assert s.credit.queue == [id] + Popped(s).queue;
  }

  /** Telling the peer settles a session whose credits are spent or that has no blocked stream. */
  lemma AnnounceKeeps(s: SessionVal)
    requires Queued(s)
    requires AvailableCredit(s.cfg, s.credit) == 0 || forall k :: k in s.streams ==> !IsBlocked(s.streams[k])
    ensures var r := s.(credit := EmitDataBlocked(s.cfg, s.credit).c);
            Queued(r) && Spent(r)
  {
  }

  lemma FlushBlockedWritesInv(s: SessionVal)
    requires StreamsOk(s) && Queued(s) && (s.cfg.flowControl ==> s.credit.sent < s.credit.limit)
    ensures var r := FlushBlockedWrites(s).s;
            && StreamsOk(r) && Queued(r) && Spent(r)
            && r == s.(streams := r.streams, credit := r.credit) && r.credit.limit == s.credit.limit
            && r.streams.Keys == s.streams.Keys
  {
    FlushQueueKeeps(s, |s.credit.queue|);
    FlushQueueFrame(s, |s.credit.queue|);
    var f := FlushQueue(s, |s.credit.queue|).s;
    AnnounceKeeps(f);
    assert StreamsOk(f.(credit := EmitDataBlocked(f.cfg, f.credit).c));
    hide StreamsOk, Queued, Spent, FlushQueue;
  }

  // ----- closing

  lemma LiveRemove(s: SessionVal, id: StreamId, uni: bool)
    requires id in s.streams
    ensures var d := s.(streams := s.streams - {id});
            |Live(d, uni)| == |Live(s, uni)| - if IsPeerInitiated(id, s.cfg.isClient) && IsUnidirectional(id) == uni then 1 else 0
  {
    var d := s.(streams := s.streams - {id});
    assert Live(d, uni) == Live(s, uni) - {id};
  }

  /** What closing a stream leaves alone. */
  ghost predicate SameApartFromQuotas(s: SessionVal, t: SessionVal) {
    && t == s.(bidi := t.bidi, uni := t.uni)
    && t.bidi == s.bidi.(peerClosed := t.bidi.peerClosed, localMax := t.bidi.localMax)
    && t.uni == s.uni.(peerClosed := t.uni.peerClosed, localMax := t.uni.localMax)
  }

  lemma CountClosedKeeps(s: SessionVal, uni: bool)
    requires QuotaOf(s, uni).localMax <= QuotaOf(s, uni).peerClosed + QuotaOf(s, uni).initial
    ensures var t := CountClosed(s, uni).s;
            && SameApartFromQuotas(s, t)
            && QuotaOf(t, !uni) == QuotaOf(s, !uni)
            && QuotaOf(t, uni).peerClosed == QuotaOf(s, uni).peerClosed + 1
            && QuotaOf(s, uni).localMax <= QuotaOf(t, uni).localMax <= QuotaOf(t, uni).peerClosed + QuotaOf(s, uni).initial
  {
  }

  lemma HandleClosedKeeps(s: SessionVal, id: StreamId)
    requires StreamsOk(s) && Queued(s) && QuotaOk(s, false) && QuotaOk(s, true)
    ensures var t := HandleClosed(s, id).s;
            && StreamsOk(t) && Queued(t) && QuotaOk(t, false) && QuotaOk(t, true)
            && (Spent(s) ==> Spent(t))
            && t.streams == (if id in s.streams && IsClosed(s.streams[id]) then s.streams - {id} else s.streams)
            && SameApartFromQuotas(s.(streams := t.streams, credit := t.credit), t)
            && t.credit == s.credit.(blocked := t.credit.blocked) && t.credit.blocked <= s.credit.blocked
  {
    if id in s.streams && IsClosed(s.streams[id]) {
      var d := s.(streams := s.streams - {id}, credit := s.credit.(blocked := s.credit.blocked - {id}));
      LiveRemove(s, id, false);
      LiveRemove(s, id, true);
      assert Live(d, false) == Live(s.(streams := s.streams - {id}), false);
      assert Live(d, true) == Live(s.(streams := s.streams - {id}), true);
      if IsPeerInitiated(id, s.cfg.isClient) {
        CountClosedKeeps(d, IsUnidirectional(id));
        var t := CountClosed(d, IsUnidirectional(id)).s;
        assert Live(t, false) == Live(d, false) && Live(t, true) == Live(d, true);
      }
    }
  }

  lemma StoreKeeps(s: SessionVal, id: StreamId, o: Outcome)
    requires StreamsOk(s) && Queued(s) && QuotaOk(s, false) && QuotaOk(s, true) && Storable(s, id, o)
    requires IsBlocked(o.st) ==> IsBlocked(s.streams[id])
    ensures var stored := s.(streams := s.streams[id := o.st]);
            && StreamsOk(stored) && Queued(stored) && QuotaOk(stored, false) && QuotaOk(stored, true)
            && (Spent(s) ==> Spent(stored))
  {
    StoreStreams(s, id, o);
    StoreLive(s, id, o, false);
    StoreLive(s, id, o, true);
  }

  /** A stream operation that leaves the sending half alone or unblocks it. */
  lemma AfterStreamOpKeeps(s: SessionVal, id: StreamId, o: Outcome)
    requires StreamsOk(s) && Queued(s) && QuotaOk(s, false) && QuotaOk(s, true) && Storable(s, id, o)
    requires IsBlocked(o.st) ==> IsBlocked(s.streams[id])
    ensures var t := AfterStreamOp(s, id, o).s;
            && StreamsOk(t) && Queued(t) && QuotaOk(t, false) && QuotaOk(t, true)
            && (Spent(s) ==> Spent(t))
            && t.streams == (if IsClosed(o.st) then s.streams - {id} else s.streams[id := o.st])
            && SameApartFromQuotas(s.(streams := t.streams, credit := t.credit), t)
            && t.credit == s.credit.(blocked := t.credit.blocked) && t.credit.blocked <= s.credit.blocked
  {
    hide StreamsOk, Queued, QuotaOk, Spent;
    StoreKeeps(s, id, o);
    HandleClosedKeeps(s.(streams := s.streams[id := o.st]), id);
    assert s.streams[id := o.st] - {id} == s.streams - {id};
  }

  lemma AfterStreamOpInv(s: SessionVal, id: StreamId, o: Outcome)
    requires Base(s) && Storable(s, id, o)
    requires IsBlocked(o.st) ==> IsBlocked(s.streams[id])
    ensures Base(AfterStreamOp(s, id, o).s)
  {
    AfterStreamOpKeeps(s, id, o);
  }

  /** Filtering stream events keeps the other projections. */
  lemma {:induction false} SuppressKeeps(fx: seq<Effect>)
    ensures var f := WithoutStreamEvents(fx);
            && SentBytes(f) == SentBytes(fx) && (Plain(fx) ==> Plain(f)) && Silent(f)
    ensures forall r :: Answers(WithoutStreamEvents(fx), r) == Answers(fx, r)
  {
    if fx != [] {
      SuppressKeeps(fx[1..]);
      var rest := WithoutStreamEvents(fx[1..]);
      var f := WithoutStreamEvents(fx);
      if fx[0].EmitStream? {
        assert f == rest;
      } else {
        assert f[1..] == rest;
      }
    }
  }

  lemma AcknowledgeStreamInv(s: SessionVal, id: StreamId)
    requires Base(s) && Allowed(s, TransportAcknowledged(id))
    ensures Base(AcknowledgeStream(s, id).s)
  {
    if id in s.streams {
      SF.AcknowledgeKeeps(s.streams[id]);
      AfterStreamOpInv(s, id, Outcome(Acknowledge(s.streams[id]), [], 0));
    }
  }

  lemma ReadStreamInv(s: SessionVal, id: StreamId, request: RequestId, maxSize: nat)
    requires Base(s)
    ensures Base(ReadStream(s, id, request, maxSize).s)
  {
    if id in s.streams {
      SF.ReadKeeps(s.streams[id], request, maxSize);
      AfterStreamOpInv(s, id, Read(s.streams[id], request, maxSize));
    }
  }

  lemma ResetStreamInv(s: SessionVal, id: StreamId, request: RequestId, code: ErrorCode)
    requires Base(s)
    ensures Base(ResetStream(s, id, request, code).s)
  {
    if id in s.streams {
      SF.ResetKeeps(s.streams[id], request, code);
      AfterStreamOpInv(s, id, Reset(s.streams[id], request, code));
    }
  }

  lemma StopStreamInv(s: SessionVal, id: StreamId, request: RequestId, code: ErrorCode)
    requires Base(s)
    ensures Base(StopStream(s, id, request, code).s)
  {
    if id in s.streams {
      SF.StopKeeps(s.streams[id], request, code);
      AfterStreamOpInv(s, id, Stop(s.streams[id], request, code));
    }
  }

  lemma RecvStreamResetInv(s: SessionVal, id: StreamId, code: ErrorCode)
    requires Base(s)
    ensures Base(RecvStreamReset(s, id, code).s)
  {
    if id in s.streams {
      var o := RecvReset(s.streams[id], code);
      SF.RecvResetKeeps(s.streams[id], code);
      SuppressKeeps(o.fx);
      AfterStreamOpInv(s, id, o.(fx := Suppress(s, id, o.fx)));
    }
  }

  lemma RecvStopSendingInv(s: SessionVal, id: StreamId, code: ErrorCode)
    requires Base(s)
    ensures Base(RecvStopSending(s, id, code).s)
  {
    if id in s.streams {
      var o := RecvStop(s.streams[id], code);
      SF.RecvStopKeeps(s.streams[id], code);
      SuppressKeeps(o.fx);
      AfterStreamOpInv(s, id, o.(fx := Suppress(s, id, o.fx)));
    }
  }

  // ----- teardown

  lemma {:induction false} AbortEachKeeps(s: SessionVal, ids: seq<StreamId>)
    requires StreamsOk(s) && Queued(s) && QuotaOk(s, false) && QuotaOk(s, true)
    ensures var t := AbortEach(s, ids).s;
            && StreamsOk(t) && Queued(t) && QuotaOk(t, false) && QuotaOk(t, true)
            && (forall id :: id in t.streams <==> id in s.streams && id !in ids)
            && SameApartFromQuotas(s.(streams := t.streams, credit := t.credit), t)
            && t.credit == s.credit.(blocked := t.credit.blocked)
    decreases |ids|
  {
    if ids != [] {
      var id := ids[0];
      if id in s.streams {
        var o := Abort(s.streams[id], ERR_WT_SESSION_GONE);
        SF.AbortKeeps(s.streams[id], ERR_WT_SESSION_GONE);
        SuppressKeeps(o.fx);
        var quiet := o.(fx := Suppress(s, id, o.fx));
        AfterStreamOpKeeps(s, id, quiet);
        var head := AfterStreamOp(s, id, quiet).s;
        AbortEachKeeps(head, ids[1..]);
      } else {
        AbortEachKeeps(s, ids[1..]);
      }
      assert ids == [id] + ids[1..];
    }
  }

  lemma EmptiedInv(s: SessionVal)
    requires s.streams == map[] && QuotaOk(s, false) && QuotaOk(s, true) && !IsOpen(s)
    requires s.capsules == [] && s.datagrams == []
    requires s.cfg.flowControl ==> s.credit.sent <= s.credit.limit
    requires s.credit.lastBlocked.Some? ==> s.credit.lastBlocked.value <= s.credit.limit
    ensures Base(s.(credit := s.credit.(blocked := {}, queue := []), pendingStreams := [],
                   bidi := s.bidi.(waiting := []), uni := s.uni.(waiting := []), datagramRequests := []))
  {
    assert Live(s, false) == {} && Live(s, true) == {};
  }

  /** Streams, credit and quotas decide all but the last part of the invariant. */
  lemma SameCore(s: SessionVal, t: SessionVal)
    requires t.cfg == s.cfg && t.streams == s.streams && t.credit == s.credit && t.bidi == s.bidi && t.uni == s.uni
    ensures StreamsOk(t) == StreamsOk(s) && Queued(t) == Queued(s) && Spent(t) == Spent(s)
    ensures QuotaOk(t, false) == QuotaOk(s, false) && QuotaOk(t, true) == QuotaOk(s, true)
  {
    SameLive(s, t);
  }

  /** On leaving the open phases every stream and queue is emptied. */
  lemma ShutdownInv(s: SessionVal, phase: Phase)
    requires StreamsOk(s) && Queued(s) && QuotaOk(s, false) && QuotaOk(s, true)
    requires phase == Closed || phase == Closing
    ensures var t := Shutdown(s, phase).s;
            Base(t) && t.phase == phase && t.cfg == s.cfg && t.window == s.window
            && t.credit == s.credit.(blocked := {}, queue := [])
  {
    hide StreamsOk, QuotaOk, Base, AbortEach, Sorted;
    var b := s.(phase := phase, capsules := [], datagrams := []);
    SameCore(s, b);
    var ids := Sorted(b.streams.Keys);
    AbortEachKeeps(b, ids);
    var a := AbortEach(b, ids).s;
    assert a.streams == map[];
    EmptiedInv(a);
  }

  lemma AbortSessionInv(s: SessionVal, code: ErrorCode)
    requires StreamsOk(s) && Queued(s) && QuotaOk(s, false) && QuotaOk(s, true) && (!IsOpen(s) ==> Base(s))
    ensures var t := AbortSession(s, code).s;
            Base(t) && !IsOpen(t) && t.cfg == s.cfg
  {
    if IsOpen(s) {
      ShutdownInv(s, Closed);
      hide Base, Shutdown;
    }
  }

  lemma EndingsInv(s: SessionVal, request: RequestId, code: ErrorCode, reason: Bytes, acceptable: bool)
    requires Base(s)
    ensures Base(CloseSession(s, request, code, reason).s)
    ensures Base(RecvConnectClose(s, code).s)
    ensures Base(RejectSession(s, request, acceptable).s)
  {
    if IsOpen(s) {
      ShutdownInv(s, Closed);
      ShutdownInv(s, Closing);
      hide Base, Shutdown;
    }
  }

  // ----- stream-count credit

  /** The rest of the invariant does not look at the quotas. */
  lemma QuotasInv(s: SessionVal, t: SessionVal)
    requires Base(s) && t == s.(bidi := t.bidi, uni := t.uni)
    requires IsOpen(s) || (t.bidi.waiting == [] && t.uni.waiting == [])
    requires QuotaOk(t, false) && QuotaOk(t, true)
    ensures Base(t)
  {
    hide QuotaOk;
  }

  lemma SameLive(s: SessionVal, t: SessionVal)
    requires t.cfg == s.cfg && t.streams.Keys == s.streams.Keys
    ensures Live(t, false) == Live(s, false) && Live(t, true) == Live(s, true)
  {
  }

  /** Replacing a quota by one that agrees on the peer's streams. */
  lemma WithQuotaInv(s: SessionVal, uni: bool, q: Quota)
    requires Base(s) && (IsOpen(s) || q.waiting == [])
    requires var p := QuotaOf(s, uni);
             q.peerOpened == p.peerOpened && q.peerClosed == p.peerClosed && q.localMax == p.localMax && q.initial == p.initial
    requires s.cfg.flowControl ==> q.issued <= q.peerMax
    ensures Base(WithQuota(s, uni, q))
  {
    hide StreamsOk, Queued, Spent;
    var t := WithQuota(s, uni, q);
    SameLive(s, t);
    QuotasInv(s, t);
  }

  lemma {:induction false} ReissueKeeps(q: Quota, flowControl: bool, uni: bool)
    requires flowControl ==> q.issued <= q.peerMax
    ensures var r := Reissue(q, flowControl, uni).q;
            r == q.(issued := r.issued, waiting := r.waiting) && (flowControl ==> r.issued <= r.peerMax)
            && (q.waiting == [] ==> r.waiting == [])
    ensures var r := Reissue(q, flowControl, uni).q; r.waiting != [] ==> flowControl && r.issued == r.peerMax
    decreases |q.waiting|
  {
    if q.waiting != [] && !(flowControl && q.issued >= q.peerMax) {
      ReissueKeeps(q.(issued := q.issued + 1, waiting := q.waiting[1..]), flowControl, uni);
    }
  }

  lemma CreateStreamInv(s: SessionVal, request: RequestId, uni: bool)
    requires Base(s)
    ensures Base(CreateStream(s, request, uni).s)
  {
    hide StreamsOk, Queued, Spent, ShutOk;
    var q := QuotaOf(s, uni);
    assert QuotaOk(s, uni);
    if IsOpen(s) {
      if s.cfg.flowControl && q.issued >= q.peerMax {
        WithQuotaInv(s, uni, EmitStreamsBlocked(q.(waiting := q.waiting + [request]), s.cfg.flowControl, uni).q);
      } else {
        WithQuotaInv(s, uni, q.(issued := q.issued + 1));
      }
    }
    hide Base, WithQuota, EmitStreamsBlocked;
  }

  lemma DeferStreamInv(s: SessionVal, request: RequestId, uni: bool)
    requires Base(s)
    ensures Base(DeferStream(s, request, uni).s)
  {
    hide StreamsOk, Queued, Spent, ShutOk;
    var q := QuotaOf(s, uni);
    assert QuotaOk(s, uni);
    if IsOpen(s) {
      WithQuotaInv(s, uni, q.(issued := q.issued - 1, waiting := q.waiting + [request]));
    }
    hide Base, WithQuota;
  }

  lemma FlushStreamRequestsInv(s: SessionVal, uni: bool)
    requires Base(s)
    ensures Base(FlushStreamRequests(s, uni).s)
  {
    var q := QuotaOf(s, uni);
    assert QuotaOk(s, uni) && ShutOk(s);
    ReissueKeeps(q, s.cfg.flowControl, uni);
    WithQuotaInv(s, uni, EmitStreamsBlocked(Reissue(q, s.cfg.flowControl, uni).q, s.cfg.flowControl, uni).q);
    hide Base, WithQuota, EmitStreamsBlocked, Reissue;
  }

  // ----- new streams

  lemma NewStreamInv(id: StreamId, direction: Direction, peerInitiated: bool, limit: nat)
    ensures Streams.Inv(NewStream(id, direction, peerInitiated, limit)) && !IsBlocked(NewStream(id, direction, peerInitiated, limit))
  {
  }

  lemma InsertKeeps(s: SessionVal, id: StreamId, direction: Direction, peer: bool)
    requires StreamsOk(s) && Queued(s) && Spent(s) && id !in s.streams && direction == DirectionOf(id, s.cfg.isClient)
    ensures var t := s.(streams := s.streams[id := NewStream(id, direction, peer, s.cfg.maxWriteBufferSize)]);
            StreamsOk(t) && Queued(t) && Spent(t)
  {
    NewStreamInv(id, direction, peer, s.cfg.maxWriteBufferSize);
  }

  lemma InsertLive(s: SessionVal, id: StreamId, st: StreamVal, uni: bool)
    requires id !in s.streams
    ensures var t := s.(streams := s.streams[id := st]);
            |Live(t, uni)| == |Live(s, uni)| + if IsPeerInitiated(id, s.cfg.isClient) && IsUnidirectional(id) == uni then 1 else 0
  {
    var t := s.(streams := s.streams[id := st]);
    if IsPeerInitiated(id, s.cfg.isClient) && IsUnidirectional(id) == uni {
      assert Live(t, uni) == Live(s, uni) + {id};
    } else {
      assert Live(t, uni) == Live(s, uni);
    }
  }

  lemma BindStreamInv(s: SessionVal, id: StreamId, request: RequestId, uni: bool)
    requires Base(s) && Allowed(s, TransportBind(id, request, uni))
    ensures Base(BindStream(s, id, request, uni).s)
  {
    if IsOpen(s) {
      var direction := if uni then SendOnly else Bidirectional;
      InsertKeeps(s, id, direction, false);
      InsertLive(s, id, NewStream(id, direction, false, s.cfg.maxWriteBufferSize), false);
      InsertLive(s, id, NewStream(id, direction, false, s.cfg.maxWriteBufferSize), true);
      hide StreamsOk, Queued, Spent;
    }
  }

  /** Counting a peer stream in and refusing it at once leaves the live streams unchanged. */
  lemma RefuseInv(s: SessionVal, uni: bool)
    requires Base(s) && IsOpen(s) && (s.cfg.flowControl ==> QuotaOf(s, uni).peerOpened < QuotaOf(s, uni).localMax)
    ensures var q := QuotaOf(s, uni);
            Base(CountClosed(WithQuota(s, uni, q.(peerOpened := q.peerOpened + 1)), uni).s)
  {
    hide StreamsOk, Queued, Spent, CountClosed;
    var q := QuotaOf(s, uni);
    var b := WithQuota(s, uni, q.(peerOpened := q.peerOpened + 1));
    CountClosedKeeps(b, uni);
    var t := CountClosed(b, uni).s;
    SameLive(s, t);
    QuotasInv(s, t);
  }

  /** The quotas after a peer stream was counted and stored. */
  lemma AdmitQuotas(s: SessionVal, id: StreamId, uni: bool, st: StreamVal, t: SessionVal)
    requires QuotaOk(s, false) && QuotaOk(s, true) && id !in s.streams
    requires IsPeerInitiated(id, s.cfg.isClient) && IsUnidirectional(id) == uni
    requires s.cfg.flowControl ==> QuotaOf(s, uni).peerOpened < QuotaOf(s, uni).localMax
    requires t.cfg == s.cfg && t.streams == s.streams[id := st] && QuotaOf(t, !uni) == QuotaOf(s, !uni)
    requires QuotaOf(t, uni) == QuotaOf(s, uni).(peerOpened := QuotaOf(s, uni).peerOpened + 1)
    ensures QuotaOk(t, false) && QuotaOk(t, true)
  {
    var l := s.(streams := s.streams[id := st]);
    InsertLive(s, id, st, false);
    InsertLive(s, id, st, true);
    SameLive(l, t);
  }

  lemma AdmitInv(s: SessionVal, id: StreamId, uni: bool)
    requires Base(s) && IsOpen(s) && Allowed(s, PeerOpened(id)) && IsUnidirectional(id) == uni
    requires s.cfg.flowControl ==> QuotaOf(s, uni).peerOpened < QuotaOf(s, uni).localMax
    ensures var q := QuotaOf(s, uni);
            Base(AdmitStream(WithQuota(s, uni, q.(peerOpened := q.peerOpened + 1)), id, DirectionOf(id, s.cfg.isClient), uni).s)
  {
    hide NewStream, StreamsOk, Queued, Spent, QuotaOk, CountClosed;
    var q := QuotaOf(s, uni);
    var direction := DirectionOf(id, s.cfg.isClient);
    var b := WithQuota(s, uni, q.(peerOpened := q.peerOpened + 1));
    if b.phase == Connecting && |b.pendingStreams| >= b.cfg.maxPendingStreams {
      RefuseInv(s, uni);
    } else {
      var st := NewStream(id, direction, true, s.cfg.maxWriteBufferSize);
      var t := AdmitStream(b, id, direction, uni).s;
      AdmitQuotas(s, id, uni, st, t);
      InsertKeeps(s, id, direction, true);
      SameStreams(s.(streams := s.streams[id := st]), t);
    }
  }

  /** Streams and credit alone decide the first three parts of the invariant. */
  lemma SameStreams(s: SessionVal, t: SessionVal)
    requires StreamsOk(s) && Queued(s) && Spent(s)
    requires t.cfg == s.cfg && t.streams == s.streams && t.credit == s.credit
    ensures StreamsOk(t) && Queued(t) && Spent(t)
  {
  }

  lemma StreamOpenedInv(s: SessionVal, id: StreamId)
    requires Base(s) && Allowed(s, PeerOpened(id))
    ensures Base(StreamOpened(s, id).s)
  {
    hide StreamsOk, Queued, QuotaOk, Spent, ShutOk, AbortSession, AdmitStream;
    var uni := DirectionOf(id, s.cfg.isClient) == ReceiveOnly;
    if IsOpen(s) {
      if s.cfg.flowControl && QuotaOf(s, uni).peerOpened >= QuotaOf(s, uni).localMax {
        AbortSessionInv(s, ERR_WT_FLOW_CONTROL_ERROR);
      } else {
        AdmitInv(s, id, uni);
      }
    }
  }

  // ----- data from the peer

  lemma WindowInv(s: SessionVal, w: ReceiveCredit)
    requires StreamsOk(s) && Queued(s) && QuotaOk(s, false) && QuotaOk(s, true)
    ensures var t := s.(window := w);
            StreamsOk(t) && Queued(t) && QuotaOk(t, false) && QuotaOk(t, true)
            && (Spent(s) ==> Spent(t)) && (ShutOk(s) ==> ShutOk(t))
  {
    var t := s.(window := w);
    assert Live(t, false) == Live(s, false) && Live(t, true) == Live(s, true);
  }

  lemma ReplenishDataInv(s: SessionVal, force: bool)
    requires Base(s)
    ensures Base(ReplenishData(s, force).s)
    ensures var t := ReplenishData(s, force).s; t == s.(window := t.window)
  {
    WindowInv(s, ReplenishData(s, force).s.window);
    hide StreamsOk, Queued, QuotaOk, Spent, ShutOk;
  }

  lemma StreamsMeanOpen(s: SessionVal, id: StreamId)
    requires Base(s) && id in s.streams
    ensures IsOpen(s) && Streams.Inv(s.streams[id]) && StreamsOk(s) && Queued(s) && QuotaOk(s, false) && QuotaOk(s, true)
  {
  }

  lemma WindowKeepsInv(s: SessionVal, w: ReceiveCredit)
    requires Base(s)
    ensures Base(s.(window := w))
  {
    hide StreamsOk, Queued, QuotaOk, Spent, ShutOk;
    WindowInv(s, w);
  }

  lemma RecvStreamDataInv(s: SessionVal, id: StreamId, data: Bytes, fin: bool)
    requires Base(s)
    ensures Base(RecvStreamData(s, id, data, fin).s)
  {
    hide Base, StreamsOk, Queued, QuotaOk, ReplenishData, HandleClosed, AbortSession, RecvData;
    if id in s.streams {
      StreamsMeanOpen(s, id);
      var w := s.window.(received := s.window.received + |data|);
      if s.cfg.flowControl && w.received > w.limit {
        WindowInv(s, w);
        AbortSessionInv(s.(window := w), ERR_WT_FLOW_CONTROL_ERROR);
      } else {
        var st := RecvData(s.streams[id], data, fin).st;
        DataStored(s, id, data, fin);
        var w' := w.(consumed := s.window.consumed + |data|);
        WindowKeepsInv(s.(streams := s.streams[id := st]), w');
        var stored := s.(streams := s.streams[id := st], window := w');
        ReplenishDataInv(stored, false);
        CloseInv(ReplenishData(stored, false).s, id);
      }
    }
  }

  lemma DataStored(s: SessionVal, id: StreamId, data: Bytes, fin: bool)
    requires Base(s) && id in s.streams
    ensures Base(s.(streams := s.streams[id := RecvData(s.streams[id], data, fin).st]))
  {
    SF.RecvDataKeeps(s.streams[id], data, fin);
    StoreKeeps(s, id, RecvData(s.streams[id], data, fin));
    assert !IsOpen(s) ==> id !in s.streams;
    hide StreamsOk, Queued, QuotaOk, Spent, RecvData;
  }

  lemma CloseInv(s: SessionVal, id: StreamId)
    requires Base(s)
    ensures Base(HandleClosed(s, id).s)
  {
    HandleClosedKeeps(s, id);
  }

  // ----- capsules

  lemma RaisedLimit(s: SessionVal, limit: nat)
    requires Base(s) && limit > s.credit.limit
    ensures var b := s.(credit := s.credit.(limit := limit));
            && StreamsOk(b) && Queued(b) && QuotaOk(b, false) && QuotaOk(b, true) && ShutOk(b)
            && (b.cfg.flowControl ==> b.credit.sent < b.credit.limit)
  {
    SameLive(s, s.(credit := s.credit.(limit := limit)));
  }

  lemma FlushedQuotas(b: SessionVal, t: SessionVal)
    requires QuotaOk(b, false) && QuotaOk(b, true) && ShutOk(b) && IsOpen(b)
    requires t == b.(streams := t.streams, credit := t.credit) && t.streams.Keys == b.streams.Keys
    ensures QuotaOk(t, false) && QuotaOk(t, true) && ShutOk(t)
  {
    SameLive(b, t);
  }

  lemma RecvMaxDataInv(s: SessionVal, limit: nat)
    requires Base(s) && IsOpen(s)
    ensures Base(RecvMaxData(s, limit).s)
  {
    hide StreamsOk, Queued, Spent, QuotaOk, ShutOk, FlushBlockedWrites, AbortSession;
    if limit <= s.credit.limit {
      AbortSessionInv(s, ERR_WT_FLOW_CONTROL_ERROR);
    } else {
      var b := s.(credit := s.credit.(limit := limit));
      RaisedLimit(s, limit);
      FlushBlockedWritesInv(b);
      FlushedQuotas(b, FlushBlockedWrites(b).s);
    }
  }

  lemma RecvMaxStreamsInv(s: SessionVal, uni: bool, limit: nat)
    requires Base(s) && IsOpen(s)
    ensures Base(RecvMaxStreams(s, uni, limit).s)
  {
    var q := QuotaOf(s, uni);
    if limit > STREAMS_LIMIT || limit <= q.peerMax {
      AbortSessionInv(s, ERR_WT_FLOW_CONTROL_ERROR);
    } else {
      WithQuotaInv(s, uni, q.(peerMax := limit));
      FlushStreamRequestsInv(WithQuota(s, uni, q.(peerMax := limit)), uni);
    }
    hide Base, FlushStreamRequests, AbortSession;
  }

  lemma ReplenishStreamsInv(s: SessionVal, uni: bool, force: bool)
    requires Base(s)
    ensures Base(ReplenishStreams(s, uni, force).s)
  {
    var t := ReplenishStreams(s, uni, force).s;
    assert Live(t, false) == Live(s, false) && Live(t, true) == Live(s, true);
  }

  lemma RecvCloseInv(s: SessionVal, value: Bytes)
    requires Base(s) && IsOpen(s)
    ensures Base(RecvClose(s, value).s)
  {
    AbortSessionInv(s, ERR_H3_MESSAGE_ERROR);
    ShutdownInv(s, Closed);
    hide Base, Shutdown, AbortSession;
  }

  lemma ProcessCapsuleInv(s: SessionVal, c: Capsule)
    requires Base(s) && IsOpen(s)
    ensures Base(ProcessCapsule(s, c).s)
  {
    hide StreamsOk, Queued, QuotaOk, Spent, ShutOk;
    hide AbortSession, ReplenishData, ReplenishStreams, RecvClose, RecvMaxData, RecvMaxStreams, Varint.Read;
    AbortSessionInv(s, ERR_H3_FRAME_UNEXPECTED);
    AbortSessionInv(s, ERR_H3_GENERAL_PROTOCOL_ERROR);
    AbortSessionInv(s, ERR_WT_FLOW_CONTROL_ERROR);
    ReplenishDataInv(s, true);
    RecvCloseInv(s, c.value);
    DrainInv(s);
    match Varint.Read(c.value) {
      case Incomplete =>
      case Got(limit, _) =>
        RecvMaxDataInv(s, limit);
        RecvMaxStreamsInv(s, false, limit);
        RecvMaxStreamsInv(s, true, limit);
        ReplenishStreamsInv(s, false, true);
        ReplenishStreamsInv(s, true, true);
    }
  }

  lemma DrainInv(s: SessionVal)
    requires Base(s)
    ensures s.phase == Connected ==> Base(s.(phase := Draining))
  {
    var t := s.(phase := Draining);
    assert Live(t, false) == Live(s, false) && Live(t, true) == Live(s, true);
  }

  /** The queues of a session say nothing about its streams or credits. */
  lemma QueuesInv(s: SessionVal, capsules: seq<Capsule>, requests: seq<RequestId>, datagrams: seq<Bytes>)
    requires Base(s) && IsOpen(s)
    ensures Base(s.(capsules := capsules, datagramRequests := requests, datagrams := datagrams))
  {
    var t := s.(capsules := capsules, datagramRequests := requests, datagrams := datagrams);
    assert Live(t, false) == Live(s, false) && Live(t, true) == Live(s, true);
  }

  lemma RecvCapsuleInv(s: SessionVal, c: Capsule)
    requires Base(s)
    ensures Base(RecvCapsule(s, c).s)
  {
    match s.phase {
      case Connecting =>
        AbortSessionInv(s, ERR_H3_EXCESSIVE_LOAD);
        QueuesInv(s, s.capsules + [c], s.datagramRequests, s.datagrams);
        assert s.(capsules := s.capsules + [c]) ==
               s.(capsules := s.capsules + [c], datagramRequests := s.datagramRequests, datagrams := s.datagrams);
      case Closing =>
      case Closed =>
      case _ => ProcessCapsuleInv(s, c);
    }
    hide Base, AbortSession, ProcessCapsule;
  }

  lemma DatagramsInv(s: SessionVal, request: RequestId, data: Bytes)
    requires Base(s)
    ensures Base(ReadDatagram(s, request).s) && Base(RecvDatagram(s, data).s)
  {
    hide StreamsOk, Queued, QuotaOk, Spent, ShutOk;
    if IsOpen(s) {
      QueuesInv(s, s.capsules, s.datagramRequests + [request], s.datagrams);
      QueuesInv(s, s.capsules, s.datagramRequests, s.datagrams + [data]);
      if s.datagrams != [] {
        QueuesInv(s, s.capsules, s.datagramRequests, s.datagrams[1..]);
      }
      if s.datagramRequests != [] {
        QueuesInv(s, s.capsules, s.datagramRequests[1..], s.datagrams);
      }
    }
  }

  // ----- confirmation

  lemma PhaseInv(s: SessionVal, pending: seq<StreamId>)
    requires Base(s) && IsOpen(s)
    ensures Base(s.(phase := Connected)) && Base(s.(pendingStreams := pending))
  {
    hide StreamsOk, Queued, QuotaOk, Spent;
    SameCore(s, s.(phase := Connected));
    SameCore(s, s.(pendingStreams := pending));
  }

  lemma {:induction false} ReplayDatagramsInv(s: SessionVal)
    requires Base(s) && s.phase == Connected
    ensures var t := ReplayDatagrams(s).s;
            Base(t) && t.phase == Connected && t.pendingStreams == [] && t.capsules == s.capsules
    decreases |s.datagrams|
  {
    hide Base;
    if s.datagramRequests == [] || s.datagrams == [] {
      PhaseInv(s, []);
    } else {
      QueuesInv(s, s.capsules, s.datagramRequests[1..], s.datagrams[1..]);
      ReplayDatagramsInv(s.(datagrams := s.datagrams[1..], datagramRequests := s.datagramRequests[1..]));
    }
  }

  lemma {:induction false} ReplayCapsulesInv(s: SessionVal, n: nat)
    requires Base(s) && s.phase == Connected && n == |s.capsules|
    ensures Base(ReplayCapsules(s, n).s) && Settled(ReplayCapsules(s, n).s)
    decreases n
  {
    hide Base, ProcessCapsule, ReplayDatagrams;
    if s.capsules == [] {
      ReplayDatagramsInv(s);
    } else {
      var b := s.(capsules := s.capsules[1..]);
      QueuesInv(s, s.capsules[1..], s.datagramRequests, s.datagrams);
      ProcessCapsuleInv(b, s.capsules[0]);
      ProcessCapsuleFrame(b, s.capsules[0]);
      var p := ProcessCapsule(b, s.capsules[0]);
      if p.s.phase == Connected {
        ReplayCapsulesInv(p.s, n - 1);
      }
    }
  }

  // ----- what stays parked

  /** A step that leaves the session in its phase, or in a closed one, without touching what is parked. */
  ghost predicate Parked(s: SessionVal, t: SessionVal) {
    (t.phase == s.phase && t.capsules == s.capsules && t.pendingStreams == s.pendingStreams) || !IsOpen(t)
  }

  lemma HandleClosedParked(s: SessionVal, id: StreamId)
    ensures Parked(s, HandleClosed(s, id).s) && HandleClosed(s, id).s.phase == s.phase
  {
  }

  lemma {:induction false} AbortEachPhase(s: SessionVal, ids: seq<StreamId>)
    ensures AbortEach(s, ids).s.phase == s.phase
    decreases |ids|
  {
    if ids != [] {
      if ids[0] in s.streams {
        var o := Abort(s.streams[ids[0]], ERR_WT_SESSION_GONE);
        var quiet := o.(fx := Suppress(s, ids[0], o.fx));
        HandleClosedParked(s.(streams := s.streams[ids[0] := o.st]), ids[0]);
        hide HandleClosed, Abort, Suppress;
        AbortEachPhase(AfterStreamOp(s, ids[0], quiet).s, ids[1..]);
      } else {
        AbortEachPhase(s, ids[1..]);
      }
    }
  }

  lemma ShutdownPhase(s: SessionVal, phase: Phase)
    ensures Shutdown(s, phase).s.phase == phase
  {
    hide AbortEach, Sorted;
    var b := s.(phase := phase, capsules := [], datagrams := []);
    AbortEachPhase(b, Sorted(b.streams.Keys));
  }

  lemma AbortParked(s: SessionVal, code: ErrorCode)
    ensures Parked(s, AbortSession(s, code).s) && !IsOpen(AbortSession(s, code).s)
  {
    hide Shutdown;
    ShutdownPhase(s, Closed);
  }

  lemma FlushParked(s: SessionVal)
    ensures Parked(s, FlushBlockedWrites(s).s) && FlushBlockedWrites(s).s.phase == s.phase
  {
    hide FlushQueue;
    FlushQueueFrame(s, |s.credit.queue|);
  }

  lemma ProcessCapsuleFrame(s: SessionVal, c: Capsule)
    ensures Parked(s, ProcessCapsule(s, c).s) ||
            (s.phase == Connected && ProcessCapsule(s, c).s == s.(phase := Draining))
  {
    hide AbortSession, FlushBlockedWrites, FlushStreamRequests, Shutdown, Varint.Read;
    AbortParked(s, ERR_H3_FRAME_UNEXPECTED);
    AbortParked(s, ERR_H3_GENERAL_PROTOCOL_ERROR);
    AbortParked(s, ERR_WT_FLOW_CONTROL_ERROR);
    AbortParked(s, ERR_H3_MESSAGE_ERROR);
    ShutdownPhase(s, Closed);
    match Varint.Read(c.value) {
      case Incomplete =>
      case Got(limit, _) =>
        FlushParked(s.(credit := s.credit.(limit := limit)));
        RequestsParked(WithQuota(s, false, s.bidi.(peerMax := limit)), false);
        RequestsParked(WithQuota(s, true, s.uni.(peerMax := limit)), true);
    }
  }

  lemma RequestsParked(s: SessionVal, uni: bool)
    ensures Parked(s, FlushStreamRequests(s, uni).s)
  {
    hide Reissue, EmitStreamsBlocked;
  }

  // ----- one step, and whole runs

  lemma AfterSendParked(s: SessionVal, id: StreamId, o: Outcome)
    ensures Parked(s, AfterSend(s, id, o).s)
  {
    hide EmitDataBlocked, NoteBlocked;
  }

  lemma AfterStreamOpParked(s: SessionVal, id: StreamId, o: Outcome)
    ensures Parked(s, AfterStreamOp(s, id, o).s)
  {
    hide HandleClosed;
    HandleClosedParked(s.(streams := s.streams[id := o.st]), id);
  }

  /** The operations on one stream. */
  predicate OnStream(e: Event) {
    || e.UserRead? || e.UserWrite? || e.UserReset? || e.UserStop? || e.TransportCompleted? || e.TransportAcknowledged?
    || e.PeerReset? || e.PeerStop?
  }

  lemma StreamOpParked(s: SessionVal, e: Event)
    requires OnStream(e)
    ensures Parked(s, Handle(s, e).s)
  {
    hide AfterSend, AfterStreamOp, Suppress;
    if e.stream in s.streams {
      var st := s.streams[e.stream];
      var credit := AvailableCredit(s.cfg, s.credit);
      match e {
        case UserRead(id, request, maxSize) => AfterStreamOpParked(s, id, Read(st, request, maxSize));
        case UserWrite(id, request, data, fin) => AfterSendParked(s, id, Write(st, request, data, fin, credit));
        case UserReset(id, request, code) => AfterStreamOpParked(s, id, Reset(st, request, code));
        case UserStop(id, request, code) => AfterStreamOpParked(s, id, Stop(st, request, code));
        case TransportCompleted(id) => AfterSendParked(s, id, CompleteWrite(st, credit));
        case TransportAcknowledged(id) => AfterStreamOpParked(s, id, Outcome(Acknowledge(st), [], 0));
        case PeerReset(id, code) =>
          var o := RecvReset(st, code);
          AfterStreamOpParked(s, id, o.(fx := Suppress(s, id, o.fx)));
        case PeerStop(id, code) =>
          var o := RecvStop(st, code);
          AfterStreamOpParked(s, id, o.(fx := Suppress(s, id, o.fx)));
      }
    }
  }

  lemma PeerDataParked(s: SessionVal, id: StreamId, data: Bytes, fin: bool)
    ensures Parked(s, RecvStreamData(s, id, data, fin).s)
  {
    hide HandleClosed, AbortSession, ReplenishWindow, RecvData;
    if id in s.streams {
      var w := s.window.(received := s.window.received + |data|);
      AbortParked(s.(window := w), ERR_WT_FLOW_CONTROL_ERROR);
      var o := RecvData(s.streams[id], data, fin);
      var stored := s.(streams := s.streams[id := o.st], window := w.(consumed := s.window.consumed + |data|));
      HandleClosedParked(ReplenishData(stored, false).s, id);
    }
  }

  lemma PeerOpenedParked(s: SessionVal, id: StreamId)
    ensures s.phase != Connecting ==> Parked(s, StreamOpened(s, id).s)
    ensures s.phase == Connecting ==> StreamOpened(s, id).s.phase != Connected
  {
    hide AbortSession, ReplenishQuota, NewStream;
    AbortParked(s, ERR_WT_FLOW_CONTROL_ERROR);
  }

  lemma OthersParked(s: SessionVal, e: Event)
    requires e.UserCreate? || e.UserReadDatagram? || e.UserSendDatagram? || e.TransportBind? || e.TransportDefer?
             || e.TransportMaxStreams? || e.PeerDatagram?
    ensures Parked(s, Handle(s, e).s)
  {
    hide Reissue, EmitStreamsBlocked, NewStream;
  }

  lemma EndingsParked(s: SessionVal, e: Event)
    requires e.UserReject? || e.UserClose? || e.PeerClosed? || e.AbortAll?
    ensures Parked(s, Handle(s, e).s)
  {
    hide Shutdown;
    ShutdownPhase(s, Closed);
    ShutdownPhase(s, Closing);
  }

  lemma StreamOpBase(s: SessionVal, e: Event)
    requires Base(s) && Allowed(s, e) && OnStream(e)
    ensures Base(Handle(s, e).s)
  {
    hide Base, ReadStream, WriteStream, ResetStream, StopStream, CompleteStreamWrite, AcknowledgeStream, RecvStreamReset,
    RecvStopSending;
    match e {
      case UserRead(id, request, maxSize) => ReadStreamInv(s, id, request, maxSize);
      case UserWrite(id, request, data, fin) => WriteStreamInv(s, id, request, data, fin);
      case UserReset(id, request, code) => ResetStreamInv(s, id, request, code);
      case UserStop(id, request, code) => StopStreamInv(s, id, request, code);
      case TransportCompleted(id) => CompleteStreamWriteInv(s, id);
      case TransportAcknowledged(id) => AcknowledgeStreamInv(s, id);
      case PeerReset(id, code) => RecvStreamResetInv(s, id, code);
      case PeerStop(id, code) => RecvStopSendingInv(s, id, code);
    }
  }

  lemma ConfirmInv(s: SessionVal, request: RequestId, acceptable: bool)
    requires Inv(s)
    ensures Inv(ConfirmSession(s).s) && Inv(AcceptSession(s, request, acceptable).s)
  {
    hide Base, ReplayCapsules;
    if s.phase == Connecting {
      PhaseInv(s, []);
      ReplayCapsulesInv(s.(phase := Connected), |s.capsules|);
    }
  }

  /** Every step of a session keeps the invariant. */
  lemma HandleInv(s: SessionVal, e: Event)
    requires Inv(s) && Allowed(s, e)
    ensures Inv(Handle(s, e).s)
  {
    hide Base, Allowed;
    hide StreamOpened, RecvStreamData, BindStream, CreateStream, DeferStream, FlushStreamRequests, RecvCapsule, ReadDatagram,
    RecvDatagram, RecvConnectClose, AbortSession, CloseSession, RejectSession, ConfirmSession, AcceptSession;
    if OnStream(e) {
      StreamOpBase(s, e);
      StreamOpParked(s, e);
    } else {
      match e {
        case UserAccept(request, acceptable) => ConfirmInv(s, request, acceptable);
        case PeerConfirmed => ConfirmInv(s, 0, true);
        case UserReject(request, acceptable) => EndingsInv(s, request, 0, [], acceptable); EndingsParked(s, e);
        case UserClose(request, code, reason) => EndingsInv(s, request, code, reason, true); EndingsParked(s, e);
        case PeerClosed(code) => EndingsInv(s, 0, code, [], true); EndingsParked(s, e);
        case AbortAll(code) => BaseParts(s); AbortSessionInv(s, code); EndingsParked(s, e);
        case UserCreate(request, uni) => CreateStreamInv(s, request, uni); OthersParked(s, e);
        case TransportDefer(request, uni) => DeferStreamInv(s, request, uni); OthersParked(s, e);
        case TransportMaxStreams(uni) => FlushStreamRequestsInv(s, uni); OthersParked(s, e);
        case TransportBind(id, request, uni) => BindStreamInv(s, id, request, uni); OthersParked(s, e);
        case UserReadDatagram(request) => DatagramsInv(s, request, []); OthersParked(s, e);
        case PeerDatagram(data) => DatagramsInv(s, 0, data); OthersParked(s, e);
        case UserSendDatagram(_, _, _) => OthersParked(s, e);
        case PeerOpened(id) => StreamOpenedInv(s, id); PeerOpenedParked(s, id);
        case PeerData(id, data, fin) => RecvStreamDataInv(s, id, data, fin); PeerDataParked(s, id, data, fin);
        case PeerCapsule(c) => RecvCapsuleInv(s, c); PeerCapsuleSettled(s, c);
        case DrainAll => DrainInv(s);
      }
    }
  }

  lemma BaseParts(s: SessionVal)
    requires Base(s)
    ensures StreamsOk(s) && Queued(s) && Spent(s) && QuotaOk(s, false) && QuotaOk(s, true) && ShutOk(s)
  {
  }

  lemma PeerCapsuleSettled(s: SessionVal, c: Capsule)
    requires Settled(s)
    ensures Settled(RecvCapsule(s, c).s)
  {
    hide ProcessCapsule, AbortSession;
    AbortParked(s, ERR_H3_EXCESSIVE_LOAD);
    ProcessCapsuleFrame(s, c);
  }

  /** The session after a list of events. */
  function After(s: SessionVal, es: seq<Event>): SessionVal
    decreases |es|
  {
    if es == [] then s else After(Handle(s, es[0]).s, es[1..])
  }

  /** All effects of a run, in order. */
  function Effects(s: SessionVal, es: seq<Event>): seq<Effect>
    decreases |es|
  {
    if es == [] then [] else Handle(s, es[0]).fx + Effects(Handle(s, es[0]).s, es[1..])
  }

  ghost predicate AllowedRun(s: SessionVal, es: seq<Event>)
    decreases |es|
  {
    es != [] ==> Allowed(s, es[0]) && AllowedRun(Handle(s, es[0]).s, es[1..])
  }

  lemma {:induction false} RunInv(s: SessionVal, es: seq<Event>)
    requires Inv(s) && AllowedRun(s, es)
    ensures Inv(After(s, es))
    decreases |es|
  {
    hide Inv, Handle, Allowed;
    if es != [] {
      HandleInv(s, es[0]);
      RunInv(Handle(s, es[0]).s, es[1..]);
    }
  }

  /** In every run: a stream with buffered data and no send in flight is in the blocked queue; that happens
      only under flow control with every credit spent; and the session never sends beyond the peer's limit. */
  lemma NoLostWakeup(s: SessionVal, es: seq<Event>, id: StreamId)
    requires Inv(s) && AllowedRun(s, es)
    ensures var t := After(s, es);
            && (t.cfg.flowControl ==> t.credit.sent <= t.credit.limit)
            && (id in t.streams && IsBlocked(t.streams[id]) ==>
                  id in t.credit.queue && t.cfg.flowControl && t.credit.sent == t.credit.limit)
  {
    hide Handle, Allowed, After;
    RunInv(s, es);
  }

  /** In every run: peer streams opened minus closed are the live ones, and under flow control no more are
      live than the initial limit, however far the advertised limit has risen. */
  lemma PeerStreamBound(s: SessionVal, es: seq<Event>, uni: bool)
    requires Inv(s) && AllowedRun(s, es)
    ensures var t := After(s, es);
            && |Live(t, uni)| == QuotaOf(t, uni).peerOpened - QuotaOf(t, uni).peerClosed
            && (t.cfg.flowControl ==> |Live(t, uni)| <= QuotaOf(t, uni).initial)
  {
    hide Handle, Allowed, After, Live, StreamsOk, Queued, Spent, ShutOk;
    RunInv(s, es);
  }
}
