/** The way of received bytes from QUIC to the user: one read request at a time is passed to the transport,
    which takes what has arrived, up to the size asked for. */
module ReadPath {
  import opened Types
  import opened Streams
  import opened Traces
  import SF = StreamFacts

  datatype Reply = Reply(request: RequestId, data: Bytes)
  datatype Delivery = Delivery(data: Bytes, fin: bool)

  /** One stream from end to end. `outstanding` is the transport's pending receive, `event` the delivery waiting
      in the event queue; `arrived` has reached QUIC but was not yet taken, `sent` is all that ever reached it.
      `asked` lists the reads of non-zero size the stream took on, `replies` their results so far. */
  datatype Path = Path(
    id: StreamId,
    h: ReceiveHalf,
    outstanding: Option<nat>,
    event: Option<Delivery>,
    arrived: Bytes,
    ended: bool,
    sent: Bytes,
    dead: bool,
    asked: seq<PendingRead>,
    replies: seq<Reply>)

  function NewPath(id: StreamId): Path {
    Path(id, ReceiveHalf(Some(Receiving), None, []), None, None, [], false, [], false, [], [])
  }

  /** The transport takes what QUIC has, up to the size asked for; it sees the end of the stream only when the
      data runs out before that size. With nothing to report the receive stays pending. */
  function Poll(p: Path): Path {
    if p.outstanding.None? then p
    else
      var size := p.outstanding.value;
      var n := if |p.arrived| < size then |p.arrived| else size;
      var fin := p.ended && |p.arrived| < size;
      if n == 0 && !fin then p
      else p.(outstanding := None, arrived := p.arrived[n..], event := Some(Delivery(p.arrived[..n], fin)))
  }

  function Process(p: Path, fx: seq<Effect>): Path
    decreases |fx|
  {
    if fx == [] then p
    else
      var q := if fx[0].ReceiveQuicData? then Poll(p.(outstanding := Some(fx[0].maxSize)))
               else if fx[0].Done? && fx[0].result.ReadData? then
                 p.(replies := p.replies + [Reply(fx[0].request, fx[0].result.data)])
               else if fx[0].StopQuicStream? then p.(outstanding := None)
               else p;
      Process(q, fx[1..])
  }

  datatype ReadEvent =
    | Ask(request: RequestId, maxSize: nat)
    | Arrive(data: Bytes, fin: bool)
    | Deliver
    | Cut(http: ErrorCode)
    | Stop(code: Option<ErrorCode>, http: ErrorCode)

  function Advance(p: Path, e: ReadEvent): (Path, seq<Effect>) {
    match e
    case Ask(request, maxSize) =>
      var o := ReceiveRead(p.h, p.id, request, maxSize);
      if maxSize == 0 || (p.h.state == None || p.h.state == Some(ResetRead)) then (p.(h := o.h), o.fx)
      else (Process(p.(h := o.h, asked := p.asked + [PendingRead(request, maxSize)]), o.fx), o.fx)
    case Arrive(data, fin) =>
      (Poll(p.(arrived := p.arrived + data, sent := p.sent + data, ended := fin)), [])
    case Deliver =>
      if p.event.None? then (p, [])
      else
        var o := ReceiveBytes(p.h, p.id, p.event.value.data, p.event.value.fin);
        (Process(p.(h := o.h, event := None), o.fx), o.fx)
    case Cut(http) =>
      var o := ReceiveReset(p.h, p.id, http);
      (p.(h := o.h, outstanding := None, dead := true), o.fx)
    case Stop(code, http) =>
      var o := SendStop(p.h, p.id, code, http);
      (Process(p.(h := o.h, dead := p.dead || !ReceiveTerminated(p.h)), o.fx), o.fx)
  }

  /** QUIC delivers nothing after the end of the stream or once the stream is cut off: by a reset of the peer, a stop
      of the user, or the end of the session. A delivery may then still be on its way. */
  predicate Enabled(p: Path, e: ReadEvent) {
    match e
    case Arrive(_, _) => !p.ended && !p.dead
    case _ => true
  }

  // ----- the invariant

  function Concat(replies: seq<Reply>): Bytes {
    if replies == [] then [] else replies[0].data + Concat(replies[1..])
  }

  function InEvent(p: Path): Bytes {
    if p.event.Some? then p.event.value.data else []
  }

  /** One receive at a time, outstanding exactly when a read is waiting, with the size of the first. */
  ghost predicate Paced(p: Path) {
    && (p.h.waiting != [] <==> p.outstanding.Some? || p.event.Some?)
    && !(p.outstanding.Some? && p.event.Some?)
    && (p.outstanding.Some? ==> p.outstanding.value == p.h.waiting[0].maxSize && p.arrived == [] && !p.ended)
    && (p.event.Some? ==> |p.event.value.data| <= p.h.waiting[0].maxSize && (p.event.value.data == [] ==> p.event.value.fin))
  }

  /** The end of the stream is known only when all its bytes were taken. */
  ghost predicate Ending(p: Path) {
    && (p.h.state == Some(Receiving) || p.h.state == Some(AllReceived) || p.h.state == Some(AllRead))
    && (p.h.state != Some(Receiving) ==> p.ended && p.arrived == [] && p.event.None?)
    && (p.event.Some? && p.event.value.fin ==> p.ended && p.arrived == [])
  }

  /** The reads were answered in the order asked, each within its own size. */
  ghost predicate InOrder(p: Path) {
    && |p.replies| + |p.h.waiting| == |p.asked| && p.asked[|p.replies|..] == p.h.waiting
    && (forall i :: 0 <= i < |p.replies| ==>
          p.replies[i].request == p.asked[i].request && |p.replies[i].data| <= p.asked[i].maxSize
          && (p.replies[i].data == [] ==> p.h.state != Some(Receiving)))
  }

  /** What holds of the replies on every stream, cut off or not. */
  ghost predicate Answered(p: Path) {
    && Concat(p.replies) <= p.sent && |p.replies| <= |p.asked|
    && (forall i :: 0 <= i < |p.replies| ==>
          p.replies[i].request == p.asked[i].request && |p.replies[i].data| <= p.asked[i].maxSize
          && (p.replies[i].data == [] ==> p.ended && Concat(p.replies) == p.sent))
  }

  /** A stream that was cut off: no read waits, and reads are only answered if all was read before. */
  ghost predicate CutOff(p: Path) {
    && p.h.waiting == [] && p.outstanding.None? && Answered(p)
    && (|| p.h.state == Some(ResetRead)
        || (p.h.state == Some(AllRead) && p.event.None? && |p.asked| == |p.replies| && p.ended && Concat(p.replies) == p.sent))
  }

  ghost predicate PathInv(p: Path) {
    && ReceiveInv(p.h)
    && (p.dead ==> CutOff(p))
    && (!p.dead ==> Paced(p) && Ending(p) && InOrder(p) && Concat(p.replies) + InEvent(p) + p.arrived == p.sent)
  }

  lemma AliveAnswered(p: Path)
    requires PathInv(p) && !p.dead
    ensures Answered(p)
    ensures p.h.state != Some(Receiving) ==> p.ended && Concat(p.replies) == p.sent && |p.asked| == |p.replies|
  {
    hide Concat;
    assert Concat(p.replies) <= p.sent;
    if p.h.state != Some(Receiving) {
      assert Concat(p.replies) + [] + [] == Concat(p.replies);
    }
  }

  lemma NewPathInv(id: StreamId)
    ensures PathInv(NewPath(id))
  {
  }

  lemma {:induction false} ConcatAppend(a: seq<Reply>, b: seq<Reply>)
    ensures Concat(a + b) == Concat(a) + Concat(b)
  {
    if a == [] {
      assert a + b == b;
    } else {
      assert (a + b)[1..] == a[1..] + b;
      ConcatAppend(a[1..], b);
    }
  }

  lemma ConcatOne(replies: seq<Reply>, reply: Reply)
    ensures Concat(replies + [reply]) == Concat(replies) + reply.data
  {
    ConcatAppend(replies, [reply]);
    assert [reply][1..] == [];
  }

  // ----- every step

  /** A receive that was just handed to the transport. */
  lemma PollKeeps(p: Path)
    requires !p.dead && p.outstanding.Some? && p.event.None? && p.h.waiting != []
    requires p.outstanding.value == p.h.waiting[0].maxSize && ReceiveInv(p.h) && Ending(p) && InOrder(p)
    requires Concat(p.replies) + p.arrived == p.sent
    ensures PathInv(Poll(p))
  {
    hide Concat, Answered, CutOff;
    var q := Poll(p);
    if q == p {
      assert Concat(p.replies) + [] + p.arrived == p.sent;
    } else {
      var n := |q.event.value.data|;
      assert p.arrived == p.arrived[..n] + p.arrived[n..];
      assert Concat(p.replies) + p.arrived[..n] + p.arrived[n..] == Concat(p.replies) + p.arrived;
    }
  }

  lemma ProcessOne(p: Path, e: Effect)
    ensures Process(p, [e]) ==
            if e.ReceiveQuicData? then Poll(p.(outstanding := Some(e.maxSize)))
            else if e.Done? && e.result.ReadData? then p.(replies := p.replies + [Reply(e.request, e.result.data)])
            else if e.StopQuicStream? then p.(outstanding := None)
            else p
  {
    assert [e][1..] == [];
  }

  lemma AskKeeps(p: Path, request: RequestId, maxSize: nat)
    requires PathInv(p)
    ensures PathInv(Advance(p, Ask(request, maxSize)).0)
  {
    var o := ReceiveRead(p.h, p.id, request, maxSize);
    SF.ReadInv(p.h, p.id, request, maxSize);
    if maxSize > 0 && p.h.state.Some? && p.h.state != Some(ResetRead) {
      var q := p.(h := o.h, asked := p.asked + [PendingRead(request, maxSize)]);
      if p.h.state == Some(Receiving) {
        WaitKeeps(p, request, maxSize);
      } else {
        ProcessOne(q, o.fx[0]);
        assert o.fx == [o.fx[0]];
        ConcatOne(p.replies, Reply(request, []));
        hide Concat;
        assert Concat(p.replies) + [] == Concat(p.replies);
        EmptyReplyKeeps(p, request, maxSize);
      }
    }
  }

  lemma WaitKeeps(p: Path, request: RequestId, maxSize: nat)
    requires PathInv(p) && p.h.state == Some(Receiving) && maxSize > 0
    ensures PathInv(Advance(p, Ask(request, maxSize)).0)
  {
    hide Concat, InOrder, Poll;
    var o := ReceiveRead(p.h, p.id, request, maxSize);
    var q := p.(h := o.h, asked := p.asked + [PendingRead(request, maxSize)]);
    SF.ReadInv(p.h, p.id, request, maxSize);
    WaitOrder(p, q, PendingRead(request, maxSize));
    if p.h.waiting == [] {
      ProcessOne(q, o.fx[0]);
      assert o.fx == [o.fx[0]];
      assert Concat(p.replies) + [] + p.arrived == Concat(p.replies) + p.arrived;
      PollKeeps(q.(outstanding := Some(maxSize)));
    } else {
      assert q.h.waiting[0] == p.h.waiting[0];
    }
  }

  lemma WaitOrder(p: Path, q: Path, read: PendingRead)
    requires InOrder(p) && q == p.(h := p.h.(waiting := p.h.waiting + [read]), asked := p.asked + [read])
    ensures InOrder(q) && InOrder(q.(outstanding := Some(read.maxSize)))
  {
    assert q.asked[|p.replies|..] == p.asked[|p.replies|..] + [read];
  }

  /** Reads after the end of the stream get the empty result at once. */
  lemma EmptyReplyKeeps(p: Path, request: RequestId, maxSize: nat)
    requires PathInv(p) && maxSize > 0 && (p.h.state == Some(AllReceived) || p.h.state == Some(AllRead))
    requires Concat(p.replies + [Reply(request, [])]) == Concat(p.replies)
    ensures var o := ReceiveRead(p.h, p.id, request, maxSize);
            PathInv(p.(h := o.h, asked := p.asked + [PendingRead(request, maxSize)], replies := p.replies + [Reply(request, [])]))
  {
    hide Concat;
    var q := p.(h := ReceiveRead(p.h, p.id, request, maxSize).h, asked := p.asked + [PendingRead(request, maxSize)],
                replies := p.replies + [Reply(request, [])]);
    if !p.dead {
      assert q.asked[|q.replies|..] == [];
    }
  }

  /** The replies in a list of effects. */
  function Replies(fx: seq<Effect>): seq<Reply> {
    if fx == [] then []
    else (if fx[0].Done? && fx[0].result.ReadData? then [Reply(fx[0].request, fx[0].result.data)] else []) + Replies(fx[1..])
  }

  lemma {:induction false} ProcessReplies(p: Path, fx: seq<Effect>)
    requires forall i :: 0 <= i < |fx| ==> fx[i].Done?
    ensures Process(p, fx) == p.(replies := p.replies + Replies(fx))
    decreases |fx|
  {
    hide Poll;
    if fx == [] {
      assert p.replies + [] == p.replies;
    } else {
      var head := if fx[0].result.ReadData? then [Reply(fx[0].request, fx[0].result.data)] else [];
      var q := p.(replies := p.replies + head);
      assert p.replies + [] == p.replies;
      ProcessReplies(q, fx[1..]);
      assert p.replies + head + Replies(fx[1..]) == p.replies + (head + Replies(fx[1..]));
    }
  }

  /** End of stream gives every read still waiting an empty reply. */
  lemma {:induction false} EndReplies(waiting: seq<PendingRead>)
    ensures var rs := Replies(EndReads(waiting));
            && |rs| == |waiting| && (forall i :: 0 <= i < |rs| ==> rs[i] == Reply(waiting[i].request, []))
            && Concat(rs) == []
    decreases |waiting|
  {
    if waiting != [] {
      EndReplies(waiting[1..]);
      assert EndReads(waiting)[1..] == EndReads(waiting[1..]);
      var rs := Replies(EndReads(waiting));
      assert rs == [Reply(waiting[0].request, [])] + Replies(EndReads(waiting[1..]));
      assert rs[1..] == Replies(EndReads(waiting[1..]));
    }
  }

  lemma DeliverKeeps(p: Path)
    requires PathInv(p)
    ensures PathInv(Advance(p, Deliver).0)
  {
    if p.dead {
      assert p.event.Some? ==> Advance(p, Deliver).0 == p.(event := None);
      hide Concat;
    } else if p.event.Some? {
      AliveDeliver(p);
    }
  }

  lemma AliveDeliver(p: Path)
    requires PathInv(p) && !p.dead && p.event.Some?
    ensures PathInv(Advance(p, Deliver).0)
  {
    hide Answered, CutOff, InOrder;
    var d := p.event.value;
    var first := p.h.waiting[0];
    var rest := p.h.waiting[1..];
    var o := ReceiveBytes(p.h, p.id, d.data, d.fin);
    var tail := if d.fin then EndReads(rest) else if rest == [] then [] else [ReceiveQuicData(p.id, rest[0].maxSize)];
    assert o.fx == [Done(first.request, ReadData(d.data))] + tail && o.fx[1..] == tail;
    var q := p.(h := o.h, event := None, replies := p.replies + [Reply(first.request, d.data)]);
    assert Process(p.(h := o.h, event := None), o.fx) == Process(q, tail);
    ConcatOne(p.replies, Reply(first.request, d.data));
    hide Concat, Poll, Replies, Process;
    if d.fin {
      ProcessReplies(q, tail);
      EndedKeeps(p, q.(replies := q.replies + Replies(EndReads(rest))));
    } else {
      ServedKeeps(p, q);
      if rest != [] {
        ProcessOne(q, tail[0]);
        assert tail == [tail[0]];
      }
    }
  }

  /** The last delivery answers every read that is waiting. */
  lemma EndedKeeps(p: Path, q: Path)
    requires PathInv(p) && !p.dead && p.event.Some? && p.event.value.fin
    requires var d := p.event.value;
             && q == p.(h := ReceiveBytes(p.h, p.id, d.data, true).h, event := None, replies := q.replies)
             && q.replies == p.replies + [Reply(p.h.waiting[0].request, d.data)] + Replies(EndReads(p.h.waiting[1..]))
             && Concat(p.replies + [Reply(p.h.waiting[0].request, d.data)]) == Concat(p.replies) + d.data
    ensures PathInv(q)
  {
    hide Answered, CutOff;
    var d := p.event.value;
    var one := p.replies + [Reply(p.h.waiting[0].request, d.data)];
    var rest := p.h.waiting[1..];
    ConcatAppend(one, Replies(EndReads(rest)));
    EndReplies(rest);
    hide Concat, Replies, EndReads;
    assert Concat(q.replies) == Concat(p.replies) + d.data;
    assert Concat(q.replies) + [] + q.arrived == p.sent;
    EndedOrder(p, q, Replies(EndReads(rest)));
    hide InOrder;
  }

  lemma EndedOrder(p: Path, q: Path, tail: seq<Reply>)
    requires InOrder(p) && p.event.Some? && p.h.waiting != [] && |p.event.value.data| <= p.h.waiting[0].maxSize
    requires |tail| == |p.h.waiting| - 1 && forall i :: 0 <= i < |tail| ==> tail[i] == Reply(p.h.waiting[i + 1].request, [])
    requires q.h.waiting == [] && q.h.state != Some(Receiving) && q.asked == p.asked
    requires q.replies == p.replies + [Reply(p.h.waiting[0].request, p.event.value.data)] + tail
    ensures InOrder(q)
  {
    assert q.asked[|q.replies|..] == [];
    forall i | 0 <= i < |q.replies|
      ensures q.replies[i].request == q.asked[i].request && |q.replies[i].data| <= q.asked[i].maxSize {
      if i >= |p.replies| {
        assert q.asked[i] == p.h.waiting[i - |p.replies|];
      }
    }
  }

  lemma ServedKeeps(p: Path, q: Path)
    requires PathInv(p) && !p.dead && p.event.Some? && !p.event.value.fin
    requires var d := p.event.value;
             && q == p.(h := p.h.(waiting := p.h.waiting[1..]), event := None, replies := q.replies)
             && q.replies == p.replies + [Reply(p.h.waiting[0].request, d.data)]
             && Concat(q.replies) == Concat(p.replies) + d.data
    ensures q.h.waiting == [] ==> PathInv(q)
    ensures q.h.waiting != [] ==> PathInv(Poll(q.(outstanding := Some(q.h.waiting[0].maxSize))))
  {
    hide Concat, Answered, CutOff;
    assert p.asked[|p.replies|] == p.h.waiting[0];
    assert q.asked[|q.replies|..] == p.asked[|p.replies|..][1..];
    assert InOrder(q);
    assert Concat(q.replies) + q.arrived == p.sent;
    if q.h.waiting == [] {
      assert Concat(q.replies) + [] + q.arrived == Concat(q.replies) + q.arrived;
    } else {
      PollKeeps(q.(outstanding := Some(q.h.waiting[0].maxSize)));
    }
  }

  lemma ArriveKeeps(p: Path, data: Bytes, fin: bool)
    requires PathInv(p) && !p.ended && !p.dead
    ensures PathInv(Advance(p, Arrive(data, fin)).0)
  {
    hide Concat, Answered, CutOff;
    var q := p.(arrived := p.arrived + data, sent := p.sent + data, ended := fin);
    assert Concat(p.replies) + InEvent(p) + (p.arrived + data) == p.sent + data;
    if p.outstanding.Some? {
      assert Concat(p.replies) + (p.arrived + data) == p.sent + data;
      PollKeeps(q);
    }
  }

  lemma CutKeeps(p: Path, http: ErrorCode)
    requires PathInv(p)
    ensures PathInv(Advance(p, Cut(http)).0)
  {
    SF.ReceiveResetInv(p.h, p.id, http);
    if !p.dead {
      AliveAnswered(p);
    }
    hide Concat, FailAll, ReadRequests;
  }

  lemma {:induction false} ProcessFailures(p: Path, fx: seq<Effect>)
    requires forall i :: 0 <= i < |fx| ==> fx[i].Failed?
    ensures Process(p, fx) == p
    decreases |fx|
  {
    if fx != [] {
      ProcessFailures(p, fx[1..]);
    }
  }

  /** What a stop does to the path: nothing if the stream has ended, else it is cut off. */
  lemma StopCuts(p: Path, code: Option<ErrorCode>, http: ErrorCode)
    ensures Advance(p, Stop(code, http)).0 ==
            if ReceiveTerminated(p.h) then p
            else p.(h := ReceiveHalf(Some(ResetRead), code, []), dead := true,
                    outstanding := if p.h.state == Some(Receiving) then None else p.outstanding)
  {
    hide FailAll, ReadRequests;
    if ReceiveTerminated(p.h) {
      ProcessFailures(p, []);
    } else {
      var failures := FailAll(ReadRequests(p.h.waiting), code);
      var q := p.(h := ReceiveHalf(Some(ResetRead), code, []), dead := true);
      FailuresOnly(ReadRequests(p.h.waiting), code);
      if p.h.state == Some(Receiving) {
        var fx := [StopQuicStream(p.id, http)] + failures;
        assert fx[1..] == failures;
        ProcessFailures(q.(outstanding := None), failures);
      } else {
        assert [] + failures == failures;
        ProcessFailures(q, failures);
      }
    }
  }

  lemma StopKeeps(p: Path, code: Option<ErrorCode>, http: ErrorCode)
    requires PathInv(p)
    ensures PathInv(Advance(p, Stop(code, http)).0)
  {
    if !p.dead {
      AliveAnswered(p);
    }
    hide Concat, Advance;
    StopCuts(p, code, http);
  }

  lemma {:induction false} FailuresOnly(requests: seq<RequestId>, code: Option<ErrorCode>)
    ensures forall i :: 0 <= i < |FailAll(requests, code)| ==> FailAll(requests, code)[i].Failed?
  {
    if requests != [] {
      FailuresOnly(requests[1..], code);
    }
  }

  lemma AdvanceKeeps(p: Path, e: ReadEvent)
    requires PathInv(p) && Enabled(p, e)
    ensures PathInv(Advance(p, e).0)
  {
    hide PathInv, Advance;
    match e {
      case Ask(request, maxSize) => AskKeeps(p, request, maxSize);
      case Arrive(data, fin) => ArriveKeeps(p, data, fin);
      case Deliver => DeliverKeeps(p);
      case Cut(http) => CutKeeps(p, http);
      case Stop(code, http) => StopKeeps(p, code, http);
    }
  }

  // ----- whole runs

  predicate EnabledRun(p: Path, es: seq<ReadEvent>)
    decreases |es|
  {
    es != [] ==> Enabled(p, es[0]) && EnabledRun(Advance(p, es[0]).0, es[1..])
  }

  function Run(p: Path, es: seq<ReadEvent>): Path
    decreases |es|
  {
    if es == [] then p else Run(Advance(p, es[0]).0, es[1..])
  }

  lemma {:induction false} RunKeeps(p: Path, es: seq<ReadEvent>)
    requires PathInv(p) && EnabledRun(p, es)
    ensures PathInv(Run(p, es))
    decreases |es|
  {
    hide PathInv, Enabled, Advance;
    if es != [] {
      AdvanceKeeps(p, es[0]);
      RunKeeps(Advance(p, es[0]).0, es[1..]);
    }
  }

  /** In every run at most one receive is outstanding, and one is exactly when a read waits: as a pending receive with
      the size of the first read, or as a delivery on its way that fits it. On a stream that was cut off no read waits
      and no receive is pending. */
  lemma OneReceive(id: StreamId, es: seq<ReadEvent>)
    requires EnabledRun(NewPath(id), es)
    ensures var p := Run(NewPath(id), es);
            && (p.h.waiting != [] <==> p.outstanding.Some? || (p.event.Some? && !p.dead))
            && !(p.outstanding.Some? && p.event.Some?)
            && (p.outstanding.Some? ==> p.outstanding.value == p.h.waiting[0].maxSize)
            && (p.event.Some? && !p.dead ==> |p.event.value.data| <= p.h.waiting[0].maxSize)
  {
    hide Run, EnabledRun, Concat, InOrder, Answered;
    NewPathInv(id);
    RunKeeps(NewPath(id), es);
  }

  /** In every run, also on a stream that is cut off: the results, in the order the reads were asked, are a prefix of
      the bytes of the stream, each within the size of its read, and an empty result means that the stream has ended
      and was read to its end. As long as the stream is not cut off nothing is missing: the rest is on its way or
      still in QUIC. */
  lemma BytesInOrder(id: StreamId, es: seq<ReadEvent>)
    requires EnabledRun(NewPath(id), es)
    ensures var p := Run(NewPath(id), es);
            && Concat(p.replies) <= p.sent && |p.replies| <= |p.asked|
            && (forall i :: 0 <= i < |p.replies| ==>
                  && p.replies[i].request == p.asked[i].request && |p.replies[i].data| <= p.asked[i].maxSize
                  && (p.replies[i].data == [] ==> p.ended && Concat(p.replies) == p.sent))
            && (!p.dead ==> Concat(p.replies) + InEvent(p) + p.arrived == p.sent)
  {
    hide Run, EnabledRun, Concat;
    NewPathInv(id);
    RunKeeps(NewPath(id), es);
    var p := Run(NewPath(id), es);
    if !p.dead {
      AliveAnswered(p);
    }
  }
}
