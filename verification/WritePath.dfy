/** The way of written bytes from the user to QUIC: the stream's write buffer, metered by session credit, then
    the transport's send buffer, then a QUIC stream that takes any prefix of what it is offered. */
module WritePath {
  import opened Types
  import opened Streams
  import opened Traces
  import SF = StreamFacts

  /** What the transport still has to hand to QUIC on one stream. */
  datatype Outgoing = Outgoing(rest: Bytes, finished: bool)

  /** One stream from end to end. `completions` are InternalCompleteQuicData events waiting in the event queue;
      `submitted` is the stream header and every accepted write so far, `ends` where each write ends in it and
      `sizes` how long it is. */
  datatype Path = Path(
    id: StreamId,
    limit: nat,
    h: SendHalf,
    bound: bool,
    outgoing: Option<Outgoing>,
    accepted: Bytes,
    finishes: nat,
    completions: nat,
    dead: bool,
    submitted: Bytes,
    ends: map<RequestId, nat>,
    sizes: map<RequestId, nat>,
    finAsked: bool)

  function NewPath(id: StreamId, limit: nat): Path {
    Path(id, limit, SendHalf(Some(Ready), None, [], 0, None), false, None, [], 0, 0, false, [], map[], map[], false)
  }

  function Rest(p: Path): Bytes {
    if p.outgoing.Some? then p.outgoing.value.rest else []
  }

  /** The transport offers its buffer to QUIC, which has room for some bytes; a buffer that is empty at the end
      is dropped, finished if it carried a FIN, and reported. A stream QUIC has given up takes nothing, and a
      buffer with bytes for it is dropped without a report. */
  function FlushStream(p: Path, room: nat): Path {
    if p.outgoing.None? then p
    else if p.dead then
      p.(outgoing := None, completions := p.completions + if p.outgoing.value.rest == [] then 1 else 0)
    else
      var o := p.outgoing.value;
      if room < |o.rest| then
        p.(accepted := p.accepted + o.rest[..room], outgoing := Some(o.(rest := o.rest[room..])))
      else
        p.(accepted := p.accepted + o.rest, outgoing := None, completions := p.completions + 1,
           finishes := p.finishes + if o.finished then 1 else 0)
  }

  /** The SendQuicData effect. */
  function SendData(p: Path, data: Bytes, fin: bool, room: nat): Path {
    var o := if p.outgoing.Some? then p.outgoing.value else Outgoing([], false);
    FlushStream(p.(outgoing := Some(Outgoing(o.rest + data, o.finished || fin))), room)
  }

  /** The effects of a stream operation, of which only SendQuicData concerns the send buffer. */
  function Process(p: Path, fx: seq<Effect>, room: nat): Path
    decreases |fx|
  {
    if fx == [] then p
    else if fx[0].SendQuicData? then Process(SendData(p, fx[0].data, fx[0].fin, room), fx[1..], room)
    else Process(p, fx[1..], room)
  }

  datatype WriteEvent =
    | Open(header: Bytes, room: nat)
    | BindTo
    | WriteTo(chunk: Chunk, credit: nat, room: nat)
    | Credited(credit: nat, room: nat)
    | Writable(room: nat)
    | Completed(credit: nat, room: nat)
    | Acked
    | Refused
    | Broken(code: Option<ErrorCode>, http: ErrorCode)

  predicate Accepts(p: Path, chunk: Chunk) {
    TakesWrites(p.h) && p.h.size + |chunk.data| <= p.limit
  }

  /** One step, and what it tells the user. */
  function Advance(p: Path, e: WriteEvent): (Path, seq<Effect>) {
    match e
    case Open(header, room) =>
      (SendData(p.(submitted := header), header, false, room), [])
    case BindTo => (p.(bound := true), [])
    case WriteTo(chunk, credit, room) =>
      var o := SendWrite(p.h, p.id, p.limit, chunk, credit);
      var q := if Accepts(p, chunk) then
                 p.(submitted := p.submitted + chunk.data, finAsked := p.finAsked || chunk.fin,
                    ends := p.ends[chunk.request := |p.submitted| + |chunk.data|],
                    sizes := p.sizes[chunk.request := |chunk.data|])
               else p;
      (Process(q.(h := o.h), o.fx, room), o.fx)
    case Credited(credit, room) =>
      var o := Flush(p.h, p.id, credit);
      (Process(p.(h := o.h), o.fx, room), o.fx)
    case Writable(room) => (FlushStream(p, room), [])
    case Completed(credit, room) =>
      var q := p.(completions := SatSub(p.completions, 1));
      if !p.bound then (q, [])
      else
        var o := SendComplete(p.h, p.id, credit);
        (Process(q.(h := o.h), o.fx, room), o.fx)
    case Acked => (p.(h := SendAcknowledge(p.h)), [])
    case Refused => (p.(outgoing := None, dead := true), [])
    case Broken(code, http) =>
      var o := SendReset(p.h, p.id, code, http);
      (p.(h := o.h, outgoing := None, dead := true), o.fx)
  }

  /** What the transport and the user keep to: a stream is opened once and written to only when bound; request
      ids are fresh; the event queue is drained before the next write, and a completion is only reported when
      one is due; QUIC acknowledges a FIN only after taking it. */
  ghost predicate Enabled(p: Path, e: WriteEvent) {
    match e
    case Open(_, _) => !p.bound && p.submitted == [] && p.outgoing.None? && p.completions == 0 && !p.dead
    case BindTo => !p.bound && p.completions == 0
    case WriteTo(chunk, _, _) => p.bound && chunk.request !in p.ends && (p.completions == 0 || p.h.pending.Some?)
    case Credited(_, _) => p.bound && (p.completions == 0 || p.h.pending.Some?)
    case Writable(_) => true
    case Completed(_, _) => p.completions > 0
    case Acked => p.finishes > 0 && p.completions == 0 && !p.dead
    case Refused => p.outgoing.Some?
    case Broken(_, _) => p.bound && !SendTerminated(p.h)
  }

  // ----- the invariant

  function Flat(buffer: seq<Chunk>): (bytes: Bytes)
    ensures |bytes| == Total(buffer)
  {
    if buffer == [] then [] else buffer[0].data + Flat(buffer[1..])
  }

  /** Bytes taken by QUIC, then the send buffer, then the write buffer: exactly what was submitted, in order. */
  ghost predicate Ordered(p: Path) {
    p.accepted + Rest(p) + Flat(p.h.buffer) == p.submitted
  }

  /** One send at a time: a write in flight is in the send buffer, or its completion is due. */
  ghost predicate Paced(p: Path) {
    && (p.completions > 0 ==> p.outgoing.None? && p.completions == 1)
    && (p.h.pending.Some? ==> p.bound && (p.outgoing.Some? || p.completions == 1))
    && (!p.bound ==> p.h.buffer == [] && p.h.state == Some(Ready))
  }

  ghost predicate SendsFin(p: Path) {
    p.h.state == Some(DataSent) || p.h.state == Some(DataAcked)
  }

  /** The FIN goes out at most once, after everything else. */
  ghost predicate Finishing(p: Path) {
    && (p.h.state == Some(Ready) || SendsFin(p))
    && p.finishes <= 1
    && (p.outgoing.Some? && p.outgoing.value.finished ==> SendsFin(p) && p.h.pending.Some? && p.finishes == 0)
    && (p.finishes == 1 ==> SendsFin(p) && p.outgoing.None?)
    && (SendsFin(p) ==> p.finishes == 1 || (p.outgoing.Some? && p.outgoing.value.finished))
    && (p.finAsked <==> SendsFin(p) || (p.h.buffer != [] && p.h.buffer[|p.h.buffer| - 1].fin))
  }

  /** Where the writes that are not yet reported end. */
  ghost predicate Marked(p: Path) {
    && (forall i :: 0 <= i < |p.h.buffer| ==>
          p.h.buffer[i].request in p.ends && p.ends[p.h.buffer[i].request] == |p.submitted| - Total(p.h.buffer[i + 1..]))
    && (p.h.pending.Some? ==> p.h.pending.value in p.ends)
    && (p.h.pending.Some? && InFlightIsLast(p.h) ==> p.ends[p.h.pending.value] == |p.submitted| - Total(p.h.buffer))
  }

  /** Only a write without bytes has a chunk without bytes in the buffer. */
  ghost predicate Sized(p: Path) {
    forall i :: 0 <= i < |p.h.buffer| && p.h.buffer[i].data == [] ==>
      p.h.buffer[i].request in p.sizes && p.sizes[p.h.buffer[i].request] == 0
  }

  /** A stream QUIC has given up but the session has not reset: some byte was dropped for good, and the only sends
      that still complete are those of writes without bytes. */
  ghost predicate Gone(p: Path) {
    && p.finishes == 0 && |p.accepted| < |p.submitted| - Total(p.h.buffer)
    && p.completions <= 1
    && (p.completions == 1 ==> p.h.pending.Some? && p.h.pending.value in p.sizes && p.sizes[p.h.pending.value] == 0)
  }

  ghost predicate Finished(p: Path) {
    p.finishes == 1 ==> p.finAsked && p.accepted == p.submitted
  }

  /** What holds also while the transport works on its buffer. */
  ghost predicate Working(p: Path) {
    && SendInv(p.h, p.limit)
    && p.accepted <= p.submitted
    && p.finishes <= 1 && Marked(p) && Sized(p) && p.sizes.Keys == p.ends.Keys
    && (!p.dead ==> Ordered(p) && Paced(p) && Finishing(p))
    && (p.dead ==> p.outgoing.None? && if SendTerminated(p.h) then Finished(p) else Gone(p))
  }

  /** In between a buffer that is kept holds something. */
  ghost predicate PathInv(p: Path) {
    Working(p) && (p.outgoing.Some? ==> p.outgoing.value.rest != [])
  }

  lemma NewPathInv(id: StreamId, limit: nat)
    ensures PathInv(NewPath(id, limit))
  {
    hide Flat, Total;
    FlatNone();
  }

  lemma FlatNone()
    ensures Flat([]) == [] && Total([]) == 0
  {
  }

  // ----- one flush

  /** A flush that sends something moves the front of the write buffer to the transport. */
  lemma FlushShape(h: SendHalf, limit: nat, id: StreamId, credit: nat)
    requires Flushable(h, limit)
    ensures var o := Flush(h, id, credit);
            || (o.fx == [] && o.h == h)
            || (|o.fx| == 1 && o.fx[0].SendQuicData? && h.pending.None? && h.state == Some(Ready)
                && o.fx[0].data + Flat(o.h.buffer) == Flat(h.buffer) && Sent(h, o.h, o.fx[0].fin))
  {
    var o := Flush(h, id, credit);
    if o.fx != [] {
      var front := h.buffer[0];
      if |front.data| <= credit {
        assert front.fin ==> h.buffer[1..] == [];
      } else {
        assert o.h.buffer[1..] == h.buffer[1..];
        assert front.data == front.data[..credit] + front.data[credit..];
      }
    }
  }

  /** The two ways to send: the front chunk whole, or a first part of it. */
  ghost predicate Sent(h: SendHalf, h': SendHalf, fin: bool) {
    && h.buffer != [] && h'.pending == Some(h.buffer[0].request)
    && if fin then h'.state == Some(DataSent) && h'.buffer == [] && |h.buffer| == 1 && h.buffer[0].fin
       else
         && h'.state == Some(Ready)
         && ((h'.buffer == h.buffer[1..] && !h.buffer[0].fin)
             || (|h'.buffer| == |h.buffer| && h'.buffer[1..] == h.buffer[1..] && h'.buffer[0].data != []
                 && h'.buffer[0].request == h.buffer[0].request && h'.buffer[0].fin == h.buffer[0].fin))
  }

  /** The state of a path apart from its stream half just before a send. */
  ghost predicate Idle(p: Path) {
    && p.bound && !p.dead && p.completions == 0 && p.finishes == 0 && (p.outgoing.Some? ==> !p.outgoing.value.finished)
    && p.accepted <= p.submitted
  }

  lemma SendKeeps(p: Path, h': SendHalf, data: Bytes, fin: bool, room: nat)
    requires Idle(p) && SendInv(h', p.limit) && Sent(p.h, h', fin)
    requires Ordered(p) && data + Flat(h'.buffer) == Flat(p.h.buffer)
    requires p.finAsked <==> p.h.buffer[|p.h.buffer| - 1].fin
    requires Marked(p.(h := p.h.(pending := None))) && Sized(p) && p.sizes.Keys == p.ends.Keys
    ensures PathInv(SendData(p.(h := h'), data, fin, room))
  {
    hide Flat, Marked, Ordered, Finishing, Sized, Gone, Finished, Sent, SendInv;
    SentSized(p, h', fin);
    SentDistinct(p, h', fin);
    SentMarks(p, h', fin);
    var q := SendData(p.(h := h'), data, fin, room);
    SizedSame(p.(h := h'), q);
    MarkedSame(p.(h := h'), q);
    SendOrdered(p, h', data, fin, room);
    SendFinishing(p, h', data, fin, room);
  }

  lemma SentSized(p: Path, h': SendHalf, fin: bool)
    requires Sent(p.h, h', fin) && Sized(p)
    ensures Sized(p.(h := h'))
  {
    var f := p.h.buffer;
    var g := h'.buffer;
    forall i | 0 <= i < |g| && g[i].data == [] ensures g[i] in f {
      if g == f[1..] {
        assert g[i] == f[i + 1];
      } else {
        assert g[i] == g[1..][i - 1] == f[i];
      }
    }
  }

  lemma SizedSame(p: Path, q: Path)
    requires Sized(p) && q.h.buffer == p.h.buffer && q.sizes == p.sizes
    ensures Sized(q)
  {
  }

  lemma MarkedSame(p: Path, q: Path)
    requires Marked(p) && q.h == p.h && q.submitted == p.submitted && q.ends == p.ends
    ensures Marked(q)
  {
  }

  lemma SendOrdered(p: Path, h': SendHalf, data: Bytes, fin: bool, room: nat)
    requires Idle(p) && Ordered(p) && data + Flat(h'.buffer) == Flat(p.h.buffer)
    ensures var q := SendData(p.(h := h'), data, fin, room); Ordered(q) && q.accepted <= q.submitted
  {
    hide Flat;
    assert p.accepted + (Rest(p) + data) + Flat(h'.buffer) == p.accepted + Rest(p) + (data + Flat(h'.buffer));
    SplitTaken(p.accepted, Rest(p) + data, Flat(h'.buffer), room, p.submitted);
  }

  lemma SendFinishing(p: Path, h': SendHalf, data: Bytes, fin: bool, room: nat)
    requires Idle(p) && Sent(p.h, h', fin)
    requires p.finAsked <==> p.h.buffer[|p.h.buffer| - 1].fin
    ensures Finishing(SendData(p.(h := h'), data, fin, room))
  {
    if !fin && h'.buffer != [] {
      if p.h.buffer[1..] == h'.buffer {
        assert h'.buffer[|h'.buffer| - 1] == p.h.buffer[|p.h.buffer| - 1];
      } else {
        LastSame(p.h.buffer, h'.buffer);
      }
    }
  }

  lemma LastSame(f: seq<Chunk>, g: seq<Chunk>)
    requires f != [] && |f| == |g| && f[1..] == g[1..] && f[0].fin == g[0].fin
    ensures f[|f| - 1].fin == g[|g| - 1].fin
  {
    if |f| > 1 {
      assert f[|f| - 1] == f[1..][|f| - 2];
      assert g[|g| - 1] == g[1..][|g| - 2];
    }
  }

  lemma SplitTaken(accepted: Bytes, rest: Bytes, tail: Bytes, room: nat, whole: Bytes)
    requires accepted + rest + tail == whole
    ensures room < |rest| ==> accepted + rest[..room] + rest[room..] + tail == whole && accepted + rest[..room] <= whole
    ensures accepted + rest <= whole && accepted + rest + [] + tail == whole
  {
    if room < |rest| {
      assert rest == rest[..room] + rest[room..];
      assert accepted + rest[..room] + rest[room..] == accepted + rest;
    }
  }

  lemma SentDistinct(p: Path, h': SendHalf, fin: bool)
    requires SendInv(h', p.limit) && Sent(p.h, h', fin)
    ensures forall i :: 1 <= i < |h'.buffer| ==> h'.buffer[i].request != p.h.buffer[0].request
  {
  }

  lemma SentMarks(p: Path, h': SendHalf, fin: bool)
    requires Sent(p.h, h', fin) && Marked(p.(h := p.h.(pending := None)))
    requires forall i :: 1 <= i < |h'.buffer| ==> h'.buffer[i].request != p.h.buffer[0].request
    ensures Marked(p.(h := h'))
  {
    var f := p.h.buffer;
    var g := h'.buffer;
    if g == f[1..] {
      forall i | 0 <= i < |g| ensures g[i] == f[i + 1] && g[i + 1..] == f[i + 2..] {
      }
    } else {
      forall i | 0 <= i < |g| ensures g[i].request == f[i].request && g[i + 1..] == f[i + 1..] {
        assert g[i + 1..] == g[1..][i..] && f[i + 1..] == f[1..][i..];
        if i > 0 {
          assert g[i] == g[1..][i - 1] && f[i] == f[1..][i - 1];
        }
      }
    }
  }

  // ----- every step

  lemma {:induction false} ProcessNothing(p: Path, fx: seq<Effect>, room: nat)
    requires forall i :: 0 <= i < |fx| ==> !fx[i].SendQuicData?
    ensures Process(p, fx, room) == p
    decreases |fx|
  {
    if fx != [] {
      ProcessNothing(p, fx[1..], room);
    }
  }

  lemma ProcessSend(p: Path, before: seq<Effect>, e: Effect, room: nat)
    requires |before| <= 1 && (forall i :: 0 <= i < |before| ==> !before[i].SendQuicData?) && e.SendQuicData?
    ensures Process(p, before + [e], room) == SendData(p, e.data, e.fin, room)
  {
    var fx := before + [e];
    if before == [] {
      assert fx == [e] && fx[1..] == [];
    } else {
      assert fx[1..] == [e] && [e][1..] == [];
      assert Process(p, [e], room) == SendData(p, e.data, e.fin, room);
    }
  }

  /** A flush of a stream that is not waiting for a completion. */
  lemma FlushKeeps(p: Path, before: seq<Effect>, credit: nat, room: nat)
    requires !p.dead && p.bound && p.h.pending.None? && p.completions == 0
    requires Flushable(p.h, p.limit) && Ordered(p) && Finishing(p) && Marked(p) && p.accepted <= p.submitted
    requires Sized(p) && p.sizes.Keys == p.ends.Keys && (p.outgoing.Some? ==> p.outgoing.value.rest != [])
    requires |before| <= 1 && forall i :: 0 <= i < |before| ==> !before[i].SendQuicData?
    ensures var o := Flush(p.h, p.id, credit); PathInv(Process(p.(h := o.h), before + o.fx, room))
  {
    hide Flat, Marked, Ordered, Sized;
    var o := Flush(p.h, p.id, credit);
    FlushShape(p.h, p.limit, p.id, credit);
    SF.FlushInv(p.h, p.limit, p.id, credit);
    hide Flush, Flushable;
    if o.fx == [] {
      assert before + o.fx == before && p.(h := o.h) == p;
      ProcessNothing(p, before, room);
    } else {
      assert o.fx == [o.fx[0]];
      ProcessSend(p.(h := o.h), before, o.fx[0], room);
      MarkedSame(p, p.(h := p.h.(pending := None)));
      SendKeeps(p, o.h, o.fx[0].data, o.fx[0].fin, room);
    }
  }

  /** Reporting a completion: the write is answered when its last byte is in QUIC, or on a stream QUIC has given up
      when it has no bytes. */
  lemma CompletedKeeps(p: Path, credit: nat, room: nat)
    requires PathInv(p) && p.completions > 0
    ensures PathInv(Advance(p, Completed(credit, room)).0)
    ensures Truthful(p, Advance(p, Completed(credit, room)).1)
  {
    if p.dead {
      DeadCompleted(p, credit, room);
    } else if p.bound && p.h.pending.Some? {
      AliveCompleted(p, credit, room);
    } else {
      MarkedSame(p, p.(completions := 0));
      SizedSame(p, p.(completions := 0));
      hide Marked, Ordered, Finishing, Sized, SendInv;
    }
  }

  lemma AliveCompleted(p: Path, credit: nat, room: nat)
    requires PathInv(p) && !p.dead && p.completions > 0 && p.bound && p.h.pending.Some?
    ensures PathInv(Advance(p, Completed(credit, room)).0)
    ensures Truthful(p, Advance(p, Completed(credit, room)).1)
  {
    var q := p.(completions := 0, h := p.h.(pending := None));
    var done := if InFlightIsLast(p.h) then [Done(p.h.pending.value, Nothing)] else [];
    assert Marked(q) && Ordered(q) && Finishing(q) && Flushable(q.h, q.limit) && Sized(q);
    assert p.completions == 1;
    FlushKeeps(q, done, credit, room);
    DoneIsAccepted(p, credit);
    hide Flat, Marked, Ordered, Finishing, Flushable, Flush, Process, Sized, Gone, PathInv, Truthful;
    assert q.(h := SendComplete(p.h, p.id, credit).h) == p.(completions := 0, h := SendComplete(p.h, p.id, credit).h);
  }

  /** A write reported done has been taken to its last byte exactly if QUIC has not given the stream up; if it has,
      the write is without bytes. */
  ghost predicate Truthful(p: Path, fx: seq<Effect>) {
    forall i :: 0 <= i < |fx| && fx[i].Done? ==>
      var r := fx[i].request;
      && r in p.ends && r in p.sizes
      && (p.ends[r] <= |p.accepted| <==> !p.dead)
      && (p.dead ==> p.sizes[r] == 0)
  }

  lemma DoneIsAccepted(p: Path, credit: nat)
    requires !p.dead && p.bound && p.h.pending.Some? && p.outgoing.None? && Ordered(p) && Marked(p) && Flushable(p.h, p.limit)
    requires p.sizes.Keys == p.ends.Keys
    ensures Truthful(p, SendComplete(p.h, p.id, credit).fx)
  {
    var idle := p.h.(pending := None);
    FlushShape(idle, p.limit, p.id, credit);
    assert |p.submitted| == |p.accepted| + Total(p.h.buffer);
    hide Flat, Flush, Ordered;
  }

  lemma DoneIsEmpty(p: Path, credit: nat)
    requires p.dead && p.h.pending.Some? && p.completions == 1 && Gone(p) && Marked(p) && Flushable(p.h, p.limit)
    ensures Truthful(p, SendComplete(p.h, p.id, credit).fx)
  {
    var idle := p.h.(pending := None);
    FlushShape(idle, p.limit, p.id, credit);
    hide Flat, Flush;
  }

  lemma DeadCompleted(p: Path, credit: nat, room: nat)
    requires PathInv(p) && p.dead && p.completions > 0
    ensures PathInv(Advance(p, Completed(credit, room)).0)
    ensures Truthful(p, Advance(p, Completed(credit, room)).1)
  {
    var less := p.completions - 1;
    if p.bound && p.h.pending.Some? {
      var q := p.(completions := less, h := p.h.(pending := None));
      var done := if InFlightIsLast(p.h) then [Done(p.h.pending.value, Nothing)] else [];
      assert Marked(q) && Flushable(q.h, q.limit) && Sized(q) && !SendTerminated(q.h) && less == 0 && Gone(q);
      DeadFlush(q, done, credit, room);
      DoneIsEmpty(p, credit);
      hide Flat, Marked, Ordered, Finishing, Flushable, Flush, Process, SendInv, Sized, Gone;
      var h' := SendComplete(p.h, p.id, credit).h;
      assert q.(h := h') == p.(completions := less, h := h');
    } else {
      MarkedSame(p, p.(completions := less));
      SizedSame(p, p.(completions := less));
      hide Marked, Ordered, Finishing, Sized;
    }
  }

  lemma DeadFlush(p: Path, before: seq<Effect>, credit: nat, room: nat)
    requires p.dead && p.h.pending.None? && Flushable(p.h, p.limit) && Marked(p) && p.accepted <= p.submitted
    requires Sized(p) && p.sizes.Keys == p.ends.Keys && p.outgoing.None?
    requires !SendTerminated(p.h) && p.completions == 0 && Gone(p)
    requires |before| <= 1 && forall i :: 0 <= i < |before| ==> !before[i].SendQuicData?
    ensures var o := Flush(p.h, p.id, credit); PathInv(Process(p.(h := o.h), before + o.fx, room))
  {
    assert p.finishes == 0;
    hide Flat, Marked, Sized, Gone, Flush, Flushable, SendInv, Process, SendData;
    var o := Flush(p.h, p.id, credit);
    FlushFacts(p.h, p.limit, p.id, credit);
    if o.fx == [] {
      assert before + o.fx == before && p.(h := o.h) == p;
      ProcessNothing(p, before, room);
    } else {
      hide PathInv;
      assert o.fx == [o.fx[0]];
      ProcessSend(p.(h := o.h), before, o.fx[0], room);
      MarkedSame(p, p.(h := p.h.(pending := None)));
      SentMarks(p, o.h, o.fx[0].fin);
      SentSized(p, o.h, o.fx[0].fin);
      DeadSend(p, o.h, o.fx[0].data, o.fx[0].fin, room);
    }
  }

  lemma FlushFacts(h: SendHalf, limit: nat, id: StreamId, credit: nat)
    requires Flushable(h, limit)
    ensures var o := Flush(h, id, credit);
            && SendInv(o.h, limit)
            && (|| (o.fx == [] && o.h == h)
                || (|o.fx| == 1 && o.fx[0].SendQuicData? && o.fx[0].data + Flat(o.h.buffer) == Flat(h.buffer)
                    && Sent(h, o.h, o.fx[0].fin) && (o.fx[0].data == [] ==> h.buffer[0].data == [])
                    && forall i :: 1 <= i < |o.h.buffer| ==> o.h.buffer[i].request != h.buffer[0].request))
  {
    hide Flat;
    FlushShape(h, limit, id, credit);
    SF.FlushInv(h, limit, id, credit);
  }

  /** A stream QUIC has given up takes nothing more. */
  lemma DeadSend(p: Path, h': SendHalf, data: Bytes, fin: bool, room: nat)
    requires p.dead && p.outgoing.None? && p.completions == 0 && Gone(p) && Sized(p) && p.accepted <= p.submitted
    requires Sent(p.h, h', fin) && data + Flat(h'.buffer) == Flat(p.h.buffer) && (data == [] ==> p.h.buffer[0].data == [])
    requires SendInv(h', p.limit) && Marked(p.(h := h')) && Sized(p.(h := h')) && p.sizes.Keys == p.ends.Keys
    ensures PathInv(SendData(p.(h := h'), data, fin, room))
  {
    var q := SendData(p.(h := h'), data, fin, room);
    assert [] + data == data;
    assert q == p.(h := h', completions := if data == [] then 1 else 0);
    MarkedSame(p.(h := h'), q);
    SizedSame(p.(h := h'), q);
    assert Total(h'.buffer) + |data| == Total(p.h.buffer);
    hide Marked, Flat, SendInv;
  }

  /** The path after a write went into the write buffer. */
  function Queued(p: Path, chunk: Chunk): Path {
    p.(submitted := p.submitted + chunk.data, finAsked := p.finAsked || chunk.fin,
       ends := p.ends[chunk.request := |p.submitted| + |chunk.data|], sizes := p.sizes[chunk.request := |chunk.data|],
       h := Enqueue(p.h, chunk))
  }

  lemma WriteKeeps(p: Path, chunk: Chunk, credit: nat, room: nat)
    requires PathInv(p) && Enabled(p, WriteTo(chunk, credit, room))
    ensures PathInv(Advance(p, WriteTo(chunk, credit, room)).0)
  {
    if !Accepts(p, chunk) {
      ProcessNothing(p, SendWrite(p.h, p.id, p.limit, chunk, credit).fx, room);
    } else {
      FreshRequest(p, chunk);
      SF.EnqueueInv(p.h, p.limit, chunk);
      EnqueueMarks(p, chunk);
      EnqueueSized(p, chunk);
      if !p.dead {
        EnqueueKeeps(p, chunk);
      } else {
        EnqueueGone(p, chunk);
      }
      AcceptedKeeps(p, chunk, credit, room);
    }
  }

  lemma AcceptedKeeps(p: Path, chunk: Chunk, credit: nat, room: nat)
    requires PathInv(p) && Enabled(p, WriteTo(chunk, credit, room)) && Accepts(p, chunk)
    requires var q := Queued(p, chunk);
             && Marked(q) && Flushable(q.h, q.limit) && Sized(q)
             && (!p.dead ==> Ordered(q) && Paced(q) && Finishing(q)) && (p.dead ==> Gone(q))
    ensures PathInv(Advance(p, WriteTo(chunk, credit, room)).0)
  {
    hide Ordered, Marked, Finishing, Flushable, TakesWrites, Enqueue, Process, Advance, Gone, Sized;
    hide SendTerminated, Flush, Accepts, SendInv;
    var q := Queued(p, chunk);
    var o := Flush(q.h, q.id, credit);
    assert [] + o.fx == o.fx;
    AcceptedSteps(p, chunk, credit, room);
    if p.h.pending.None? {
      if p.dead {
        DeadFlush(q, [], credit, room);
      } else {
        FlushKeeps(q, [], credit, room);
      }
    } else {
      ProcessNothing(q, [], room);
    }
  }

  lemma AcceptedSteps(p: Path, chunk: Chunk, credit: nat, room: nat)
    requires PathInv(p) && Enabled(p, WriteTo(chunk, credit, room)) && Accepts(p, chunk)
    requires Flushable(Queued(p, chunk).h, p.limit)
    ensures var q := Queued(p, chunk);
            var o := Flush(q.h, q.id, credit);
            && q.h.pending == p.h.pending && p.bound && (p.h.pending.None? ==> p.completions == 0)
            && (p.h.pending.Some? ==> SendInv(q.h, q.limit))
            && Advance(p, WriteTo(chunk, credit, room)).0 == Process(q.(h := o.h), o.fx, room)
            && q.accepted <= q.submitted && q.finishes <= 1 && !SendTerminated(q.h)
            && (p.h.pending.Some? ==> o == SendOutcome(q.h, [], 0))
  {
    hide Ordered, Marked, Finishing, Process, Sized, Flat, Total;
  }

  lemma EnqueueSized(p: Path, chunk: Chunk)
    requires Sized(p) && Marked(p) && chunk.request !in p.ends
    ensures Sized(Queued(p, chunk))
  {
    hide Total;
    var g := p.h.buffer + [chunk];
    forall i | 0 <= i < |g| && g[i].data == []
      ensures var q := Queued(p, chunk); g[i].request in q.sizes && q.sizes[g[i].request] == 0 {
      if i < |p.h.buffer| {
        assert g[i] == p.h.buffer[i];
      }
    }
  }

  lemma EnqueueGone(p: Path, chunk: Chunk)
    requires p.dead && Gone(p) && Marked(p) && chunk.request !in p.ends
    ensures Gone(Queued(p, chunk))
  {
    TailTotal([chunk] + p.h.buffer, chunk, 0);
    assert ([chunk] + p.h.buffer)[1..] == p.h.buffer && ([chunk] + p.h.buffer + [chunk])[1..] == p.h.buffer + [chunk];
    hide Total;
  }

  lemma FreshRequest(p: Path, chunk: Chunk)
    requires Marked(p) && chunk.request !in p.ends
    ensures SF.SendHeld(p.h, chunk.request) == 0
  {
    CountZero(ChunkRequests(p.h.buffer), chunk.request);
  }

  lemma {:induction false} FlatAppend(f: seq<Chunk>, g: seq<Chunk>)
    ensures Flat(f + g) == Flat(f) + Flat(g)
  {
    if f == [] {
      assert f + g == g;
    } else {
      assert (f + g)[1..] == f[1..] + g;
      FlatAppend(f[1..], g);
    }
  }

  lemma EnqueueKeeps(p: Path, chunk: Chunk)
    requires p.bound && Accepts(p, chunk) && Ordered(p) && Paced(p) && Finishing(p)
    ensures var q := Queued(p, chunk); Ordered(q) && Paced(q) && Finishing(q)
  {
    hide Ordered;
    EnqueueOrdered(p, chunk);
  }

  lemma EnqueueOrdered(p: Path, chunk: Chunk)
    requires Ordered(p)
    ensures Ordered(Queued(p, chunk))
  {
    hide Flat;
    FlatAppend(p.h.buffer, [chunk]);
    FlatOne(chunk);
    Regroup(p.accepted + Rest(p), Flat(p.h.buffer), chunk.data);
  }

  lemma FlatOne(chunk: Chunk)
    ensures Flat([chunk]) == chunk.data
  {
    assert [chunk][1..] == [];
  }

  lemma Regroup(a: Bytes, b: Bytes, c: Bytes)
    ensures a + (b + c) == a + b + c
  {
  }

  lemma EnqueueMarks(p: Path, chunk: Chunk)
    requires Marked(p) && chunk.request !in p.ends && p.h.pending != Some(chunk.request)
    ensures Marked(Queued(p, chunk))
  {
    hide Total;
    var f := p.h.buffer;
    var g := f + [chunk];
    var q := Queued(p, chunk);
    forall i | 0 <= i < |g|
      ensures g[i].request in q.ends && q.ends[g[i].request] == |q.submitted| - Total(g[i + 1..]) {
      TailTotal(f, chunk, i);
    }
    TailTotal([chunk] + f, chunk, 0);
    assert ([chunk] + f)[1..] == f && ([chunk] + f + [chunk])[1..] == g;
  }

  lemma TailTotal(f: seq<Chunk>, chunk: Chunk, i: nat)
    requires i <= |f|
    ensures Total((f + [chunk])[i + 1..]) == if i < |f| then Total(f[i + 1..]) + |chunk.data| else 0
  {
    if i < |f| {
      assert (f + [chunk])[i + 1..] == f[i + 1..] + [chunk];
      SF.TotalAppend(f[i + 1..], [chunk]);
      assert [chunk][1..] == [];
    } else {
      assert (f + [chunk])[i + 1..] == [];
    }
  }

  lemma CreditedKeeps(p: Path, credit: nat, room: nat)
    requires PathInv(p) && Enabled(p, Credited(credit, room))
    ensures PathInv(Advance(p, Credited(credit, room)).0)
  {
    var o := Flush(p.h, p.id, credit);
    assert [] + o.fx == o.fx;
    if p.h.pending.Some? {
      assert o == SendOutcome(p.h, [], 0);
      ProcessNothing(p, [], room);
    } else {
      hide Ordered, Marked, Finishing, Flush, Process, Gone, Sized;
      if p.dead && SendTerminated(p.h) {
        TerminatedFlush(p, credit, room);
      } else if p.dead {
        DeadFlush(p, [], credit, room);
      } else {
        FlushKeeps(p, [], credit, room);
      }
    }
  }

  lemma TerminatedFlush(p: Path, credit: nat, room: nat)
    requires SendTerminated(p.h)
    ensures var o := Flush(p.h, p.id, credit); Process(p.(h := o.h), [] + o.fx, room) == p
  {
    assert Flush(p.h, p.id, credit) == SendOutcome(p.h, [], 0);
    ProcessNothing(p, [] + Flush(p.h, p.id, credit).fx, room);
  }

  lemma WritableKeeps(p: Path, room: nat)
    requires Working(p)
    ensures PathInv(FlushStream(p, room))
  {
    hide Flat;
    MarkedSame(p, FlushStream(p, room));
    SizedSame(p, FlushStream(p, room));
    hide Marked, SendInv, Sized;
    if !p.dead && p.outgoing.Some? {
      SplitTaken(p.accepted, Rest(p), Flat(p.h.buffer), room, p.submitted);
    }
  }

  lemma OpenKeeps(p: Path, header: Bytes, room: nat)
    requires PathInv(p) && Enabled(p, Open(header, room))
    ensures PathInv(Advance(p, Open(header, room)).0)
  {
    var q := p.(submitted := header, outgoing := Some(Outgoing([] + header, false)));
    assert Flat([]) == [] && Total([]) == 0;
    hide Flat, Total;
    assert p.accepted == [] && p.h.buffer == [];
    assert Working(q);
    hide Working;
    WritableKeeps(q, room);
  }

  lemma AtWork(p: Path)
    requires PathInv(p)
    ensures Working(p)
  {
  }

  lemma AckedKeeps(p: Path)
    requires PathInv(p) && Enabled(p, Acked)
    ensures PathInv(Advance(p, Acked).0)
  {
    hide Flat, Total;
  }

  lemma BreakKeeps(p: Path, e: WriteEvent)
    requires PathInv(p) && Enabled(p, e) && (e.BindTo? || e.Refused?)
    ensures PathInv(Advance(p, e).0)
  {
    var q := Advance(p, e).0;
    if e.Refused? {
      assert |p.accepted| + |Rest(p)| + |Flat(p.h.buffer)| == |p.submitted|;
      assert Gone(q);
    }
    hide Ordered, Finishing, Flat;
    MarkedSame(p, q);
    SizedSame(p, q);
    FinishingSame(p, q);
    hide Marked, Sized, SendInv;
  }

  lemma ResetKeeps(p: Path, code: Option<ErrorCode>, http: ErrorCode)
    requires PathInv(p) && Enabled(p, Broken(code, http))
    ensures PathInv(Advance(p, Broken(code, http)).0)
  {
    SF.ResetInv(p.h, p.limit, p.id, code, http);
    assert SendReset(p.h, p.id, code, http).h == SendHalf(Some(ResetSent), code, [], 0, None);
    if p.finishes == 1 {
      assert p.h.buffer == [] && p.accepted + [] + [] == p.submitted;
    }
    hide SendReset, Flat;
  }

  lemma FinishingSame(p: Path, q: Path)
    requires q.dead || (q.h == p.h && q.outgoing == p.outgoing && q.finishes == p.finishes && q.finAsked == p.finAsked
                        && q.accepted == p.accepted && q.submitted == p.submitted)
    ensures !q.dead && Finishing(p) ==> Finishing(q)
    ensures !q.dead && Ordered(p) ==> Ordered(q)
  {
  }

  /** Every step keeps the order of the bytes and the place of the FIN. */
  lemma AdvanceKeeps(p: Path, e: WriteEvent)
    requires PathInv(p) && Enabled(p, e)
    ensures PathInv(Advance(p, e).0)
  {
    hide PathInv, Process, SendWrite, SendComplete, SendReset, Flush;
    match e {
      case WriteTo(chunk, credit, room) => WriteKeeps(p, chunk, credit, room);
      case Credited(credit, room) => CreditedKeeps(p, credit, room);
      case Writable(room) =>
        AtWork(p);
        WritableKeeps(p, room);
      case Completed(credit, room) => CompletedKeeps(p, credit, room);
      case Open(header, room) => OpenKeeps(p, header, room);
      case Acked => AckedKeeps(p);
      case Broken(code, http) => ResetKeeps(p, code, http);
      case _ => BreakKeeps(p, e);
    }
  }

  // ----- whole runs

  ghost predicate EnabledRun(p: Path, es: seq<WriteEvent>)
    decreases |es|
  {
    es != [] ==> Enabled(p, es[0]) && EnabledRun(Advance(p, es[0]).0, es[1..])
  }

  function Run(p: Path, es: seq<WriteEvent>): Path
    decreases |es|
  {
    if es == [] then p else Run(Advance(p, es[0]).0, es[1..])
  }

  lemma {:induction false} RunKeeps(p: Path, es: seq<WriteEvent>)
    requires PathInv(p) && EnabledRun(p, es)
    ensures PathInv(Run(p, es))
    decreases |es|
  {
    hide PathInv, Enabled, Advance;
    if es != [] {
      AdvanceKeeps(p, es[0]);
      RunKeeps(Advance(p, es[0]).0, es[1..]);
    }
  }

  /** In every run: what QUIC took, what the send buffer holds and what the write buffer holds, in this order,
      are the header and the accepted writes; the buffer size is exact and within its maximum; QUIC never took
      anything else, not even from a stream that was reset. */
  lemma BytesInOrder(id: StreamId, limit: nat, es: seq<WriteEvent>)
    requires EnabledRun(NewPath(id, limit), es)
    ensures var p := Run(NewPath(id, limit), es);
            && (!p.dead ==> p.accepted + Rest(p) + Flat(p.h.buffer) == p.submitted)
            && p.accepted <= p.submitted
            && p.h.size == |Flat(p.h.buffer)| <= limit
  {
    hide Run, EnabledRun, Flat;
    NewPathInv(id, limit);
    RunKeeps(NewPath(id, limit), es);
    RunLimit(NewPath(id, limit), es);
  }

  lemma {:induction false} RunLimit(p: Path, es: seq<WriteEvent>)
    ensures Run(p, es).limit == p.limit
    decreases |es|
  {
    if es != [] {
      AdvanceLimit(p, es[0]);
      RunLimit(Advance(p, es[0]).0, es[1..]);
    }
  }

  lemma AdvanceLimit(p: Path, e: WriteEvent)
    ensures Advance(p, e).0.limit == p.limit
  {
    match e {
      case WriteTo(chunk, credit, room) =>
        var o := SendWrite(p.h, p.id, p.limit, chunk, credit);
        ProcessLimit(p.(h := o.h), o.fx, room);
        if Accepts(p, chunk) {
          ProcessLimit(p.(submitted := p.submitted + chunk.data, finAsked := p.finAsked || chunk.fin,
                          ends := p.ends[chunk.request := |p.submitted| + |chunk.data|],
                          sizes := p.sizes[chunk.request := |chunk.data|], h := o.h), o.fx, room);
        }
      case Credited(credit, room) =>
        var o := Flush(p.h, p.id, credit);
        ProcessLimit(p.(h := o.h), o.fx, room);
      case Completed(credit, room) =>
        var o := SendComplete(p.h, p.id, credit);
        ProcessLimit(p.(completions := SatSub(p.completions, 1), h := o.h), o.fx, room);
      case _ =>
    }
  }

  lemma {:induction false} ProcessLimit(p: Path, fx: seq<Effect>, room: nat)
    ensures Process(p, fx, room).limit == p.limit
    decreases |fx|
  {
    if fx != [] {
      ProcessLimit(if fx[0].SendQuicData? then SendData(p, fx[0].data, fx[0].fin, room) else p, fx[1..], room);
    }
  }

  /** In every run the FIN is handed to QUIC at most once, only after it was asked for, and as the last thing:
      by then QUIC has taken every byte, and no later step can add one. */
  lemma FinLast(id: StreamId, limit: nat, es: seq<WriteEvent>)
    requires EnabledRun(NewPath(id, limit), es)
    ensures var p := Run(NewPath(id, limit), es);
            && p.finishes <= 1
            && (p.finishes == 1 ==> p.finAsked && p.accepted == p.submitted && !TakesWrites(p.h))
  {
    hide Run, EnabledRun;
    NewPathInv(id, limit);
    RunKeeps(NewPath(id, limit), es);
    if Run(NewPath(id, limit), es).finishes == 1 {
      FinishedLast(Run(NewPath(id, limit), es));
    }
  }

  lemma FinishedLast(p: Path)
    requires PathInv(p) && p.finishes == 1
    ensures p.finAsked && p.accepted == p.submitted && !TakesWrites(p.h)
  {
    if !p.dead {
      assert p.accepted + [] + [] == p.submitted;
    }
  }

  /** In every run a completion reports a write done only when QUIC has taken all of its bytes, on every stream: a
      write reported done on a stream QUIC has given up had none. QUIC has then taken the stream up to the end of the
      write exactly if it has not given the stream up. */
  lemma DoneMeansTaken(id: StreamId, limit: nat, es: seq<WriteEvent>, credit: nat, room: nat, request: RequestId)
    requires EnabledRun(NewPath(id, limit), es + [Completed(credit, room)])
    requires Done(request, Nothing) in Advance(Run(NewPath(id, limit), es), Completed(credit, room)).1
    ensures var p := Run(NewPath(id, limit), es);
            && request in p.ends && request in p.sizes
            && (p.ends[request] <= |p.accepted| || p.sizes[request] == 0)
            && (p.ends[request] <= |p.accepted| <==> !p.dead)
  {
    hide Run, EnabledRun, PathInv, Advance;
    NewPathInv(id, limit);
    RunSplit(NewPath(id, limit), es, Completed(credit, room));
    RunKeeps(NewPath(id, limit), es);
    CompletedKeeps(Run(NewPath(id, limit), es), credit, room);
  }

  // ----- no write between refusal and reset

  /** The transport hands over every event of QUIC, among them the one that makes the session reset the stream, before
      it takes an event of the user: so no write falls between the refusal of a stream and its reset. */
  predicate Prompt(p: Path, e: WriteEvent) {
    e.WriteTo? ==> !p.dead || SendTerminated(p.h)
  }

  predicate PromptRun(p: Path, es: seq<WriteEvent>)
    decreases |es|
  {
    es != [] ==> Prompt(p, es[0]) && PromptRun(Advance(p, es[0]).0, es[1..])
  }

  ghost predicate NothingDue(p: Path) {
    p.dead && !SendTerminated(p.h) ==> p.completions == 0
  }

  lemma CreditedDue(p: Path, credit: nat, room: nat)
    requires PathInv(p) && p.dead && !SendTerminated(p.h) && p.completions == 0
    ensures Advance(p, Credited(credit, room)).0.completions == 0
  {
    hide Flush, Process, Ordered, Finishing, Marked, Sized, SendInv;
    var o := Flush(p.h, p.id, credit);
    FlushParts(p, credit);
    if o.fx == [] {
      ProcessNothing(p.(h := o.h), o.fx, room);
    } else {
      ProcessSend(p.(h := o.h), [], o.fx[0], room);
      assert [] + o.fx == o.fx == [o.fx[0]] && [] + o.fx[0].data == o.fx[0].data;
    }
  }

  /** A flush sends nothing, or one part with bytes. */
  lemma FlushParts(p: Path, credit: nat)
    requires PathInv(p) && p.dead && !SendTerminated(p.h) && p.completions == 0
    ensures var fx := Flush(p.h, p.id, credit).fx;
            fx == [] || (fx == [fx[0]] && fx[0].SendQuicData? && fx[0].data != [])
  {
    hide Process, Ordered, Finishing, Marked, Sized;
  }

  lemma AdvanceDue(p: Path, e: WriteEvent)
    requires PathInv(p) && Enabled(p, e) && Prompt(p, e) && NothingDue(p)
    ensures NothingDue(Advance(p, e).0)
  {
    hide SendWrite, SendComplete, Flush, Process, Ordered, Finishing, Marked, Sized, SendInv;
    match e {
      case WriteTo(chunk, credit, room) => AliveWrite(p, chunk, credit, room);
      case Credited(credit, room) =>
        if p.dead && SendTerminated(p.h) {
          TerminatedFlush(p, credit, room);
          assert [] + Flush(p.h, p.id, credit).fx == Flush(p.h, p.id, credit).fx;
        } else if p.dead {
          CreditedDue(p, credit, room);
        } else {
          ProcessAlive(p.(h := Flush(p.h, p.id, credit).h), Flush(p.h, p.id, credit).fx, room);
        }
      case Completed(credit, room) =>
        if p.dead {
          TerminatedComplete(p, credit, room);
        } else {
          var o := SendComplete(p.h, p.id, credit);
          ProcessAlive(p.(completions := SatSub(p.completions, 1), h := o.h), o.fx, room);
        }
      case _ =>
    }
  }

  lemma {:induction false} ProcessAlive(p: Path, fx: seq<Effect>, room: nat)
    ensures Process(p, fx, room).dead == p.dead && Process(p, fx, room).h == p.h
    decreases |fx|
  {
    if fx != [] {
      ProcessAlive(if fx[0].SendQuicData? then SendData(p, fx[0].data, fx[0].fin, room) else p, fx[1..], room);
    }
  }

  lemma TerminatedComplete(p: Path, credit: nat, room: nat)
    requires PathInv(p) && p.dead && SendTerminated(p.h)
    ensures Advance(p, Completed(credit, room)).0.h == p.h
  {
    assert p.h.pending.None?;
    hide SendInv, Marked, Sized;
    ProcessNothing(p.(completions := SatSub(p.completions, 1)), [], room);
  }

  lemma AliveWrite(p: Path, chunk: Chunk, credit: nat, room: nat)
    requires !p.dead || SendTerminated(p.h)
    ensures var q := Advance(p, WriteTo(chunk, credit, room)).0; q.dead == p.dead && (p.dead ==> q.h == p.h)
  {
    var o := SendWrite(p.h, p.id, p.limit, chunk, credit);
    var q := if Accepts(p, chunk) then
               p.(submitted := p.submitted + chunk.data, finAsked := p.finAsked || chunk.fin,
                  ends := p.ends[chunk.request := |p.submitted| + |chunk.data|], sizes := p.sizes[chunk.request := |chunk.data|])
             else p;
    ProcessAlive(q.(h := o.h), o.fx, room);
    hide Process;
  }

  lemma {:induction false} RunDue(p: Path, es: seq<WriteEvent>)
    requires PathInv(p) && EnabledRun(p, es) && PromptRun(p, es) && NothingDue(p)
    ensures NothingDue(Run(p, es))
    decreases |es|
  {
    hide PathInv, Enabled, Advance, Prompt, NothingDue;
    if es != [] {
      AdvanceKeeps(p, es[0]);
      AdvanceDue(p, es[0]);
      RunDue(Advance(p, es[0]).0, es[1..]);
    }
  }

  /** In every run the transport makes, a completion reports a write done only when QUIC has taken the stream up to
      its end. */
  lemma DoneAlwaysTaken(id: StreamId, limit: nat, es: seq<WriteEvent>, credit: nat, room: nat, request: RequestId)
    requires EnabledRun(NewPath(id, limit), es + [Completed(credit, room)]) && PromptRun(NewPath(id, limit), es)
    requires Done(request, Nothing) in Advance(Run(NewPath(id, limit), es), Completed(credit, room)).1
    ensures var p := Run(NewPath(id, limit), es); request in p.ends && p.ends[request] <= |p.accepted|
  {
    hide Run, EnabledRun, PromptRun, PathInv, Advance;
    NewPathInv(id, limit);
    RunSplit(NewPath(id, limit), es, Completed(credit, room));
    RunKeeps(NewPath(id, limit), es);
    RunDue(NewPath(id, limit), es);
    DoneMeansTaken(id, limit, es, credit, room, request);
    var p := Run(NewPath(id, limit), es);
    if p.dead {
      NothingDone(p, credit, room);
    }
  }

  lemma NothingDone(p: Path, credit: nat, room: nat)
    requires PathInv(p) && p.dead && SendTerminated(p.h)
    ensures Advance(p, Completed(credit, room)).1 == []
  {
    assert p.h.pending.None?;
    hide SendInv, Marked, Sized;
  }

  lemma {:induction false} RunSplit(p: Path, es: seq<WriteEvent>, e: WriteEvent)
    requires EnabledRun(p, es + [e])
    ensures EnabledRun(p, es) && Enabled(Run(p, es), e)
    decreases |es|
  {
    hide Enabled, Advance;
    if es == [] {
      assert (es + [e])[0] == e;
    } else {
      assert (es + [e])[0] == es[0] && (es + [e])[1..] == es[1..] + [e];
      RunSplit(Advance(p, es[0]).0, es[1..], e);
    }
  }
}
