/** The grammar of stream events: in every run the events shown for one stream are an opening, at most one
    reset and at most one stop in either order, and a closing, with nothing before or after. */
module Grammar {
  import opened Types
  import opened Streams
  import opened Sessions
  import opened Traces
  import opened SessionInvariant
  import SF = StreamFacts

  /** Where the events of one stream stand. */
  datatype Stage = Fresh | Active(reset: bool, stopped: bool) | Over | Broken

  function Advance(g: Stage, e: StreamEvent): Stage {
    match (g, e)
    case (Fresh, Opened(_, _)) => Active(false, false)
    case (Active(reset, stopped), ResetReceived(_)) => if reset then Broken else Active(true, stopped)
    case (Active(reset, stopped), StopSendingReceived(_)) => if stopped then Broken else Active(reset, true)
    case (Active(_, _), StreamClosed) => Over
    case _ => Broken
  }

  function Stages(g: Stage, events: seq<StreamEvent>): Stage
    decreases |events|
  {
    if events == [] then g else Stages(Advance(g, events[0]), events[1..])
  }

  lemma {:induction false} StagesAppend(g: Stage, a: seq<StreamEvent>, b: seq<StreamEvent>)
    ensures Stages(g, a + b) == Stages(Stages(g, a), b)
    decreases |a|
  {
    if a == [] {
      assert a + b == b;
    } else {
      assert (a + b)[1..] == a[1..] + b;
      StagesAppend(Advance(g, a[0]), a[1..], b);
    }
  }

  // ----- the grammar in plain words

  /** No further opening; nothing after a closing; no second reset or stop. */
  ghost predicate Continues(reset: bool, stopped: bool, events: seq<StreamEvent>) {
    && (forall i :: 0 <= i < |events| ==>
          !events[i].Opened? && (events[i].StreamClosed? ==> i == |events| - 1)
          && (reset ==> !events[i].ResetReceived?) && (stopped ==> !events[i].StopSendingReceived?))
    && (forall i, j :: 0 <= i < j < |events| ==>
          !(events[i].ResetReceived? && events[j].ResetReceived?)
          && !(events[i].StopSendingReceived? && events[j].StopSendingReceived?))
  }

  ghost predicate WellFormed(events: seq<StreamEvent>) {
    events == [] || (events[0].Opened? && Continues(false, false, events[1..]))
  }

  lemma {:induction false} OverIsFinal(g: Stage, events: seq<StreamEvent>)
    requires g == Over || g == Broken
    ensures Stages(g, events) == Broken <==> g == Broken || events != []
    decreases |events|
  {
    if events != [] {
      OverIsFinal(Advance(g, events[0]), events[1..]);
    }
  }

  lemma ContinuesHead(reset: bool, stopped: bool, events: seq<StreamEvent>)
    requires events != []
    ensures Continues(reset, stopped, events) <==>
              && !events[0].Opened?
              && (events[0].StreamClosed? ==> |events| == 1)
              && !(reset && events[0].ResetReceived?) && !(stopped && events[0].StopSendingReceived?)
              && Continues(reset || events[0].ResetReceived?, stopped || events[0].StopSendingReceived?, events[1..])
  {
    var tail := events[1..];
    assert forall i :: 0 < i < |events| ==> events[i] == tail[i - 1];
    assert forall i :: 0 <= i < |tail| ==> tail[i] == events[i + 1];
  }

  lemma {:induction false} ActiveGrammar(reset: bool, stopped: bool, events: seq<StreamEvent>)
    ensures Stages(Active(reset, stopped), events) != Broken <==> Continues(reset, stopped, events)
    decreases |events|
  {
    if events != [] {
      var g := Advance(Active(reset, stopped), events[0]);
      ContinuesHead(reset, stopped, events);
      hide Continues;
      if g.Active? {
        ActiveGrammar(g.reset, g.stopped, events[1..]);
      } else {
        OverIsFinal(g, events[1..]);
        if |events| == 1 {
          assert events[1..] == [];
          ActiveGrammar(reset, stopped, []);
        }
      }
    }
  }

  /** The stages accept exactly the well-formed event lists. */
  lemma GrammarMeaning(events: seq<StreamEvent>)
    ensures Stages(Fresh, events) != Broken <==> WellFormed(events)
  {
    if events != [] {
      if events[0].Opened? {
        ActiveGrammar(false, false, events[1..]);
      } else {
        OverIsFinal(Broken, events[1..]);
      }
    }
  }

  // ----- how a session keeps to it

  /** The stage of a live stream whose opening was shown. */
  ghost predicate Lively(st: StreamVal, g: Stage) {
    && g.Active?
    && (g.reset ==> st.receive.state == Some(ResetRead))
    && (g.stopped ==> st.send.state == Some(ResetSent))
  }

  /** What has been shown for a stream agrees with what the session knows of it. */
  ghost predicate Tracks(s: SessionVal, id: StreamId, g: Stage) {
    && Count(s.pendingStreams, id) <= 1
    && (if id in s.pendingStreams then g == Fresh
        else if id in s.streams then Lively(s.streams[id], g)
        else g == Fresh || g == Over)
  }

  ghost predicate Dead(s: SessionVal, id: StreamId) {
    id !in s.streams && id !in s.pendingStreams
  }

  ghost predicate Tracked(o: Step, id: StreamId, g: Stage) {
    Tracks(o.s, id, Stages(g, Shown(o.fx, id)))
  }

  /** A step that keeps to the grammar and does not bring the stream to life. */
  ghost predicate Follows(s: SessionVal, o: Step, id: StreamId, g: Stage) {
    Tracked(o, id, g) && (Dead(s, id) ==> Dead(o.s, id) && Shown(o.fx, id) == [])
  }

  lemma Sequence(s: SessionVal, o: Step, p: Step, id: StreamId, g: Stage)
    requires Follows(s, o, id, g) && Follows(o.s, p, id, Stages(g, Shown(o.fx, id)))
    ensures Follows(s, Step(p.s, o.fx + p.fx), id, g)
  {
    hide Tracks;
    ShownAppend(o.fx, p.fx, id);
    StagesAppend(g, Shown(o.fx, id), Shown(p.fx, id));
  }

  lemma Decorate(s: SessionVal, o: Step, before: seq<Effect>, after: seq<Effect>, id: StreamId, g: Stage)
    requires Follows(s, o, id, g) && Silent(before) && Silent(after)
    ensures Follows(s, Step(o.s, before + o.fx), id, g)
    ensures Follows(s, Step(o.s, o.fx + after), id, g)
    ensures Follows(s, Step(o.s, before + o.fx + after), id, g)
  {
    hide Tracks;
    SilentFacts(before, id);
    SilentFacts(after, id);
    ShownAppend(before, o.fx, id);
    ShownAppend(o.fx, after, id);
    ShownAppend(before + o.fx, after, id);
    assert [] + Shown(o.fx, id) == Shown(o.fx, id);
    assert Shown(o.fx, id) + [] == Shown(o.fx, id);
  }

  /** Nothing the stream can see changed. */
  ghost predicate SameSight(s: SessionVal, t: SessionVal, id: StreamId) {
    && t.pendingStreams == s.pendingStreams
    && (id in t.streams <==> id in s.streams)
    && (id in s.streams ==> t.streams[id] == s.streams[id])
  }

  lemma Unseen(s: SessionVal, o: Step, id: StreamId, g: Stage)
    requires Tracks(s, id, g) && SameSight(s, o.s, id) && Silent(o.fx)
    ensures Follows(s, o, id, g)
  {
    SilentFacts(o.fx, id);
  }

  lemma Rebased(s: SessionVal, t: SessionVal, o: Step, id: StreamId, g: Stage)
    requires Follows(t, o, id, g) && SameSight(s, t, id)
    ensures Follows(s, o, id, g)
  {
  }

  // ----- stream operations

  /** A stream operation that shows nothing and undoes no reset. */
  ghost predicate Quiet(st: StreamVal, o: Outcome) {
    && Silent(o.fx)
    && (st.receive.state == Some(ResetRead) ==> o.st.receive.state == Some(ResetRead))
    && (st.send.state == Some(ResetSent) ==> o.st.send.state == Some(ResetSent))
  }

  /** A stream operation on the stream `k` of a session, seen from the stream `id`. */
  ghost predicate Heard(s: SessionVal, k: StreamId, o: Outcome, id: StreamId, g: Stage) {
    && (forall i :: 0 <= i < |o.fx| && o.fx[i].EmitStream? ==> o.fx[i].stream == k)
    && (id == k ==> if id in s.pendingStreams then Silent(o.fx) else Lively(o.st, Stages(g, Shown(o.fx, id))))
  }

  lemma QuietHeard(s: SessionVal, k: StreamId, o: Outcome, id: StreamId, g: Stage)
    requires Tracks(s, id, g) && k in s.streams && Quiet(s.streams[k], o)
    ensures Heard(s, k, o, id, g)
  {
    SilentFacts(o.fx, id);
  }

  lemma {:induction false} ShownElsewhere(fx: seq<Effect>, k: StreamId, id: StreamId)
    requires forall i :: 0 <= i < |fx| && fx[i].EmitStream? ==> fx[i].stream == k
    requires id != k
    ensures Shown(fx, id) == []
  {
    if fx != [] {
      ShownElsewhere(fx[1..], k, id);
    }
  }

  lemma StoreFollows(s: SessionVal, k: StreamId, o: Outcome, id: StreamId, g: Stage)
    requires Tracks(s, id, g) && k in s.streams && Heard(s, k, o, id, g)
    ensures Follows(s, Step(s.(streams := s.streams[k := o.st]), o.fx), id, g)
  {
    if id != k {
      ShownElsewhere(o.fx, k, id);
    } else if id in s.pendingStreams {
      SilentFacts(o.fx, id);
    }
  }

  lemma CountClosedSilent(s: SessionVal, uni: bool, id: StreamId)
    ensures SameSight(s, CountClosed(s, uni).s, id) && Silent(CountClosed(s, uni).fx)
  {
    hide Varint.Write;
  }

  lemma HandleClosedFollows(s: SessionVal, k: StreamId, id: StreamId, g: Stage)
    requires Tracks(s, id, g)
    ensures Follows(s, HandleClosed(s, k), id, g)
  {
    hide Count;
    if k in s.streams && IsClosed(s.streams[k]) {
      var dropped := s.(streams := s.streams - {k}, credit := s.credit.(blocked := s.credit.blocked - {k}));
      var shown := Suppress(s, k, [EmitStream(k, StreamClosed)]);
      DropFollows(s, k, id, g);
      if IsPeerInitiated(k, s.cfg.isClient) {
        var c := CountClosed(dropped, IsUnidirectional(k));
        CountClosedSilent(dropped, IsUnidirectional(k), id);
        hide CountClosed, Tracks, Suppress, IsClosed;
        Unseen(dropped, c, id, Stages(g, Shown(shown, id)));
        Sequence(s, Step(dropped, shown), c, id, g);
      }
    } else {
      Unseen(s, Step(s, []), id, g);
    }
  }

  lemma DropFollows(s: SessionVal, k: StreamId, id: StreamId, g: Stage)
    requires Tracks(s, id, g) && k in s.streams
    ensures var dropped := s.(streams := s.streams - {k}, credit := s.credit.(blocked := s.credit.blocked - {k}));
            Follows(s, Step(dropped, Suppress(s, k, [EmitStream(k, StreamClosed)])), id, g)
  {
    hide Count;
    var e := EmitStream(k, StreamClosed);
    assert [e][1..] == [];
    assert Shown([e], id) == if id == k then [StreamClosed] else [];
    assert WithoutStreamEvents([e]) == WithoutStreamEvents([]) == [];
    assert id == k ==> Stages(g, [StreamClosed]) == Advance(g, StreamClosed) by {
      assert [StreamClosed][1..] == [];
    }
  }

  lemma AfterStreamOpFollows(s: SessionVal, k: StreamId, o: Outcome, id: StreamId, g: Stage)
    requires Tracks(s, id, g) && k in s.streams && Heard(s, k, o, id, g)
    ensures Follows(s, AfterStreamOp(s, k, o), id, g)
  {
    hide Tracks, HandleClosed, Heard;
    var stored := s.(streams := s.streams[k := o.st]);
    StoreFollows(s, k, o, id, g);
    HandleClosedFollows(stored, k, id, Stages(g, Shown(o.fx, id)));
    Sequence(s, Step(stored, o.fx), HandleClosed(stored, k), id, g);
  }

  lemma EmitDataBlockedSilent(cfg: Config, c: SendCredit)
    ensures Silent(EmitDataBlocked(cfg, c).fx)
  {
    hide Varint.Write;
  }

  lemma AfterSendFollows(s: SessionVal, k: StreamId, o: Outcome, id: StreamId, g: Stage)
    requires Tracks(s, id, g) && k in s.streams && Heard(s, k, o, id, g)
    ensures Follows(s, AfterSend(s, k, o), id, g)
  {
    hide Tracks, EmitDataBlocked, NoteBlocked, Heard;
    var metered := s.credit.(sent := s.credit.sent + o.sent);
    var noted := if IsBlocked(o.st) then NoteBlocked(metered, k) else metered;
    var e := EmitDataBlocked(s.cfg, noted);
    var stored := s.(streams := s.streams[k := o.st]);
    StoreFollows(s, k, o, id, g);
    EmitDataBlockedSilent(s.cfg, noted);
    Unseen(stored, Step(stored.(credit := e.c), e.fx), id, Stages(g, Shown(o.fx, id)));
    Sequence(s, Step(stored, o.fx), Step(stored.(credit := e.c), e.fx), id, g);
  }

  lemma WriteQuiet(st: StreamVal, request: RequestId, data: Bytes, fin: bool, credit: nat)
    requires Streams.Inv(st) && SF.Held(st, request) == 0
    ensures Quiet(st, Write(st, request, data, fin, credit))
  {
    hide Flushable;
    SF.WriteInv(st.send, st.maxWriteBufferSize, st.id, Chunk(data, request, fin), credit);
  }

  lemma CompleteQuiet(st: StreamVal, credit: nat)
    requires Streams.Inv(st)
    ensures Quiet(st, CompleteWrite(st, credit)) && Quiet(st, FlushWrites(st, credit))
  {
    hide Flushable;
    SF.CompleteInv(st.send, st.maxWriteBufferSize, st.id, credit);
    SF.FlushInv(st.send, st.maxWriteBufferSize, st.id, credit);
  }

  lemma ReceivingQuiet(st: StreamVal, request: RequestId, maxSize: nat, data: Bytes, fin: bool)
    requires Streams.Inv(st)
    ensures Quiet(st, Read(st, request, maxSize)) && Quiet(st, RecvData(st, data, fin))
  {
    hide SendInv;
    SF.ReadInv(st.receive, st.id, request, maxSize);
    SF.BytesInv(st.receive, st.id, data, fin);
  }

  lemma ResetQuiet(st: StreamVal, request: RequestId, code: ErrorCode)
    requires Streams.Inv(st)
    ensures Quiet(st, Reset(st, request, code)) && Quiet(st, Outcome(Acknowledge(st), [], 0))
  {
    SF.ResetInv(st.send, st.maxWriteBufferSize, st.id, Some(code), ErrorCodes.Clamp(code));
    hide Streams.Inv, FailAll;
  }

  lemma StopQuiet(st: StreamVal, request: RequestId, code: ErrorCode)
    requires Streams.Inv(st)
    ensures Quiet(st, Stop(st, request, code))
  {
    SF.StopInv(st.receive, st.id, Some(code), ErrorCodes.Clamp(code));
    hide Streams.Inv, FailAll;
  }

  lemma AbortQuiet(st: StreamVal, code: ErrorCode)
    requires Streams.Inv(st)
    ensures Quiet(st, Abort(st, code)) && IsClosed(Abort(st, code).st)
  {
    SF.AbortKeeps(st, code);
    hide Streams.Inv, FailAll;
  }

  lemma ShownFirst(k: StreamId, event: StreamEvent, rest: seq<Effect>, g: Stage)
    requires Silent(rest)
    ensures Stages(g, Shown([EmitStream(k, event)] + rest, k)) == Advance(g, event)
  {
    var fx := [EmitStream(k, event)] + rest;
    SilentFacts(rest, k);
    assert fx[1..] == rest;
    assert Shown(fx, k) == [event] && [event][1..] == [];
  }

  /** A peer's reset or stop is shown once, because it ends its half of the stream. */
  lemma ResetHeard(s: SessionVal, k: StreamId, http: ErrorCode, id: StreamId, g: Stage)
    requires Tracks(s, id, g) && k in s.streams && s.streams[k].id == k
    ensures var o := RecvReset(s.streams[k], http);
            Heard(s, k, o.(fx := Suppress(s, k, o.fx)), id, g)
  {
    hide Count, WithoutStreamEvents, ErrorCodes.FromHttp;
    var st := s.streams[k];
    var o := RecvReset(st, http);
    SuppressKeeps(o.fx);
    if !ReceiveTerminated(st.receive) {
      ShownFirst(k, ResetReceived(ErrorCodes.FromHttp(http)),
                 FailAll(ReadRequests(st.receive.waiting), ErrorCodes.FromHttp(http)), g);
    }
  }

  lemma SendResetSilent(h: SendHalf, id: StreamId, code: Option<ErrorCode>, http: ErrorCode)
    ensures Silent(SendReset(h, id, code, http).fx)
    ensures !SendTerminated(h) ==> SendReset(h, id, code, http).h.state == Some(ResetSent)
  {
  }

  lemma StopHeard(s: SessionVal, k: StreamId, http: ErrorCode, id: StreamId, g: Stage)
    requires Tracks(s, id, g) && k in s.streams && s.streams[k].id == k
    ensures var o := RecvStop(s.streams[k], http);
            Heard(s, k, o.(fx := Suppress(s, k, o.fx)), id, g)
  {
    hide Count, WithoutStreamEvents, SendReset, ErrorCodes.FromHttp;
    var st := s.streams[k];
    var o := RecvStop(st, http);
    SuppressKeeps(o.fx);
    if !SendTerminated(st.send) {
      var code := ErrorCodes.FromHttp(http);
      SendResetSilent(st.send, st.id, code, http);
      ShownFirst(k, StopSendingReceived(code), SendReset(st.send, st.id, code, http).fx, g);
    }
  }

  /** Operations on a live stream. */
  lemma StreamOpFollows(s: SessionVal, e: Event, id: StreamId, g: Stage)
    requires StreamsOk(s) && Allowed(s, e) && OnStream(e) && e.stream in s.streams && Tracks(s, id, g)
    ensures Follows(s, Handle(s, e), id, g)
  {
    hide AfterSend, AfterStreamOp, Suppress, Tracks, Follows, Quiet, Heard, Held, Streams.Inv;
    var k := e.stream;
    var st := s.streams[k];
    var credit := AvailableCredit(s.cfg, s.credit);
    match e {
      case UserRead(_, request, maxSize) =>
        ReceivingQuiet(st, request, maxSize, [], false);
        QuietFollows(s, k, Read(st, request, maxSize), id, g);
      case UserWrite(_, request, data, fin) =>
        HeldByStream(s, k, request);
        WriteQuiet(st, request, data, fin, credit);
        QuietSendFollows(s, k, Write(st, request, data, fin, credit), id, g);
      case UserReset(_, request, code) =>
        ResetQuiet(st, request, code);
        QuietFollows(s, k, Reset(st, request, code), id, g);
      case UserStop(_, request, code) =>
        StopQuiet(st, request, code);
        QuietFollows(s, k, Stop(st, request, code), id, g);
      case TransportCompleted(_) =>
        CompleteQuiet(st, credit);
        QuietSendFollows(s, k, CompleteWrite(st, credit), id, g);
      case TransportAcknowledged(_) =>
        ResetQuiet(st, 0, 0);
        QuietFollows(s, k, Outcome(Acknowledge(st), [], 0), id, g);
      case PeerReset(_, code) =>
        ResetHeard(s, k, code, id, g);
        var o := RecvReset(st, code);
        AfterStreamOpFollows(s, k, o.(fx := Suppress(s, k, o.fx)), id, g);
      case PeerStop(_, code) =>
        StopHeard(s, k, code, id, g);
        var o := RecvStop(st, code);
        AfterStreamOpFollows(s, k, o.(fx := Suppress(s, k, o.fx)), id, g);
    }
  }

  lemma QuietFollows(s: SessionVal, k: StreamId, o: Outcome, id: StreamId, g: Stage)
    requires Tracks(s, id, g) && k in s.streams && Quiet(s.streams[k], o)
    ensures Follows(s, AfterStreamOp(s, k, o), id, g)
  {
    hide AfterStreamOp, Tracks, Follows, Quiet, Heard;
    QuietHeard(s, k, o, id, g);
    AfterStreamOpFollows(s, k, o, id, g);
  }

  lemma QuietSendFollows(s: SessionVal, k: StreamId, o: Outcome, id: StreamId, g: Stage)
    requires Tracks(s, id, g) && k in s.streams && Quiet(s.streams[k], o)
    ensures Follows(s, AfterSend(s, k, o), id, g)
  {
    hide AfterSend, Tracks, Follows, Quiet, Heard;
    QuietHeard(s, k, o, id, g);
    AfterSendFollows(s, k, o, id, g);
  }

  lemma MissingStreamFollows(s: SessionVal, e: Event, id: StreamId, g: Stage)
    requires OnStream(e) && e.stream !in s.streams && Tracks(s, id, g)
    ensures Follows(s, Handle(s, e), id, g)
  {
    hide Tracks, Follows;
    Unseen(s, Handle(s, e), id, g);
  }

  // ----- teardown

  lemma AbortOneFollows(s: SessionVal, k: StreamId, id: StreamId, g: Stage)
    requires StreamsOk(s) && k in s.streams && Tracks(s, id, g)
    ensures var o := Abort(s.streams[k], ERR_WT_SESSION_GONE);
            Follows(s, AfterStreamOp(s, k, o.(fx := Suppress(s, k, o.fx))), id, g)
  {
    hide Abort, WithoutStreamEvents, Follows, Tracks, IsClosed, AfterStreamOp, Streams.Inv;
    var o := Abort(s.streams[k], ERR_WT_SESSION_GONE);
    AbortQuiet(s.streams[k], ERR_WT_SESSION_GONE);
    SuppressKeeps(o.fx);
    var quiet := o.(fx := Suppress(s, k, o.fx));
    QuietFollows(s, k, quiet, id, g);
  }

  /** Aborting a stream drops it from the table. */
  lemma AbortOneTable(s: SessionVal, k: StreamId)
    requires StreamsOk(s) && k in s.streams
    ensures var o := Abort(s.streams[k], ERR_WT_SESSION_GONE);
            var t := AfterStreamOp(s, k, o.(fx := Suppress(s, k, o.fx))).s;
            && StreamsOk(t) && k !in t.streams && t.streams.Keys <= s.streams.Keys && t.pendingStreams == s.pendingStreams
  {
    hide Abort, WithoutStreamEvents, IsClosed, ReplenishQuota;
    var o := Abort(s.streams[k], ERR_WT_SESSION_GONE);
    AbortQuiet(s.streams[k], ERR_WT_SESSION_GONE);
    SF.AbortKeeps(s.streams[k], ERR_WT_SESSION_GONE);
    hide Streams.Inv;
  }

  lemma {:induction false} AbortEachFollows(s: SessionVal, ids: seq<StreamId>, id: StreamId, g: Stage)
    requires StreamsOk(s) && Tracks(s, id, g)
    ensures var a := AbortEach(s, ids);
            && Follows(s, a, id, g)
            && a.s.pendingStreams == s.pendingStreams
            && (id in a.s.streams ==> id in s.streams && id !in ids)
    decreases |ids|
  {
    hide AfterStreamOp, Suppress, Abort, StreamsOk, Tracks;
    if ids == [] {
      Unseen(s, Step(s, []), id, g);
    } else {
      var k := ids[0];
      if k in s.streams {
        var o := Abort(s.streams[k], ERR_WT_SESSION_GONE);
        var head := AfterStreamOp(s, k, o.(fx := Suppress(s, k, o.fx)));
        AbortOneFollows(s, k, id, g);
        AbortOneTable(s, k);
        AbortEachFollows(head.s, ids[1..], id, Stages(g, Shown(head.fx, id)));
        Sequence(s, head, AbortEach(head.s, ids[1..]), id, g);
      } else {
        AbortEachFollows(s, ids[1..], id, g);
        assert [] + AbortEach(s, ids[1..]).fx == AbortEach(s, ids[1..]).fx;
      }
    }
  }

  /** Leaving the open phases ends the story of every stream. */
  lemma ShutdownFollows(s: SessionVal, phase: Phase, id: StreamId, g: Stage)
    requires StreamsOk(s) && Tracks(s, id, g)
    ensures Follows(s, Shutdown(s, phase), id, g) && Dead(Shutdown(s, phase).s, id)
  {
    hide StreamsOk, AbortEach, Sorted, Tracks, Follows, Dead, FailAll;
    var b := s.(phase := phase, capsules := [], datagrams := []);
    var ids := Sorted(b.streams.Keys);
    var a := AbortEach(b, ids);
    Requeued(s, b, id, g);
    AbortEachFollows(b, ids, id, g);
    var d := Shutdown(s, phase);
    var f := FailAll(a.s.bidi.waiting, None) + FailAll(a.s.uni.waiting, None) + FailAll(a.s.datagramRequests, None);
    EmptiedFollows(b, a, d.s, id, g);
    Decorate(b, Step(d.s, a.fx), [], f, id, g);
    Rebased(s, b, Step(d.s, a.fx + f), id, g);
    assert d.fx == a.fx + f;
  }

  lemma EmptiedFollows(s: SessionVal, a: Step, t: SessionVal, id: StreamId, g: Stage)
    requires Follows(s, a, id, g) && id !in a.s.streams && t.streams == a.s.streams && t.pendingStreams == []
    ensures Follows(s, Step(t, a.fx), id, g) && Dead(t, id)
  {
  }

  lemma AbortFollows(s: SessionVal, code: ErrorCode, id: StreamId, g: Stage)
    requires StreamsOk(s) && Tracks(s, id, g)
    ensures Follows(s, AbortSession(s, code), id, g)
  {
    hide Shutdown, StreamsOk, Tracks, Follows;
    if IsOpen(s) {
      ShutdownFollows(s, Closed, id, g);
      Decorate(s, Shutdown(s, Closed), [], [ResetQuicStream(s.cfg.id, code), EmitSession(SessionClosed(Some(code)))], id, g);
    } else {
      Unseen(s, AbortSession(s, code), id, g);
    }
  }

  lemma EndingsFollow(s: SessionVal, e: Event, id: StreamId, g: Stage)
    requires e.UserReject? || e.UserClose? || e.PeerClosed?
    requires StreamsOk(s) && Tracks(s, id, g)
    ensures Follows(s, Handle(s, e), id, g)
  {
    hide Shutdown, StreamsOk, Tracks, Follows, Varint.BigEndian;
    var o := Handle(s, e);
    if IsOpen(s) && (e.UserReject? ==> !s.cfg.isClient && s.phase == Connecting && e.acceptable) {
      var phase := if e.UserClose? then Closing else Closed;
      var d := Shutdown(s, phase);
      ShutdownFollows(s, phase, id, g);
      Decorate(s, d, [], o.fx[|d.fx|..], id, g);
    } else {
      Unseen(s, o, id, g);
    }
  }

  // ----- the rest of the session

  /** Steps no stream can see. */
  lemma RestFollows(s: SessionVal, e: Event, id: StreamId, g: Stage)
    requires e.UserCreate? || e.TransportDefer? || e.UserReadDatagram? || e.PeerDatagram? || e.UserSendDatagram? || e.DrainAll?
    requires Tracks(s, id, g)
    ensures Follows(s, Handle(s, e), id, g)
  {
    hide Tracks, Follows, Varint.Write, Varint.Size;
    Unseen(s, Handle(s, e), id, g);
  }

  lemma {:induction false} ReissueSilent(q: Quota, flowControl: bool, uni: bool)
    ensures Silent(Reissue(q, flowControl, uni).fx)
    decreases |q.waiting|
  {
    if q.waiting != [] && !(flowControl && q.issued >= q.peerMax) {
      ReissueSilent(q.(issued := q.issued + 1, waiting := q.waiting[1..]), flowControl, uni);
    }
  }

  lemma FlushRequestsFollows(s: SessionVal, uni: bool, id: StreamId, g: Stage)
    requires Tracks(s, id, g)
    ensures Follows(s, FlushStreamRequests(s, uni), id, g)
  {
    hide Tracks, Follows, Reissue, Varint.Write;
    ReissueSilent(QuotaOf(s, uni), s.cfg.flowControl, uni);
    Unseen(s, FlushStreamRequests(s, uni), id, g);
  }

  lemma {:induction false} FlushQueueFollows(s: SessionVal, n: nat, id: StreamId, g: Stage)
    requires StreamsOk(s) && Tracks(s, id, g)
    ensures Follows(s, FlushQueue(s, n), id, g)
    decreases n
  {
    hide Tracks, Follows, FlushWrites, IsBlocked, StreamsOk;
    if n == 0 || s.credit.queue == [] {
      Unseen(s, FlushQueue(s, n), id, g);
    } else {
      var k := s.credit.queue[0];
      var popped := s.credit.(queue := s.credit.queue[1..], blocked := s.credit.blocked - {k});
      var credit := AvailableCredit(s.cfg, popped);
      if credit == 0 {
        Unseen(s, FlushQueue(s, n), id, g);
      } else if k !in s.streams {
        var b := s.(credit := popped);
        Credited(s, popped, id, g);
        FlushQueueFollows(b, n - 1, id, g);
        Rebased(s, b, FlushQueue(b, n - 1), id, g);
        assert [] + FlushQueue(b, n - 1).fx == FlushQueue(b, n - 1).fx;
      } else {
        var o := FlushWrites(s.streams[k], credit);
        var metered := popped.(sent := popped.sent + o.sent);
        var noted := if IsBlocked(o.st) then metered.(queue := metered.queue + [k], blocked := metered.blocked + {k})
                     else metered;
        var b := s.(streams := s.streams[k := o.st], credit := noted);
        FlushOneFollows(s, k, credit, noted, id, g);
        FlushQueueFollows(b, n - 1, id, Stages(g, Shown(o.fx, id)));
        Sequence(s, Step(b, o.fx), FlushQueue(b, n - 1), id, g);
      }
    }
  }

  lemma Credited(s: SessionVal, c: SendCredit, id: StreamId, g: Stage)
    ensures StreamsOk(s) ==> StreamsOk(s.(credit := c))
    ensures Tracks(s, id, g) ==> Tracks(s.(credit := c), id, g)
    ensures SameSight(s, s.(credit := c), id)
  {
  }

  lemma FlushOneFollows(s: SessionVal, k: StreamId, credit: nat, c: SendCredit, id: StreamId, g: Stage)
    requires StreamsOk(s) && k in s.streams && Tracks(s, id, g)
    ensures var o := FlushWrites(s.streams[k], credit);
            var b := s.(streams := s.streams[k := o.st], credit := c);
            Follows(s, Step(b, o.fx), id, g) && StreamsOk(b) && Tracks(b, id, Stages(g, Shown(o.fx, id)))
  {
    hide Tracks, FlushWrites, IsBlocked, Heard, Quiet;
    var o := FlushWrites(s.streams[k], credit);
    var b := s.(streams := s.streams[k := o.st]);
    CompleteQuiet(s.streams[k], credit);
    SF.FlushKeeps(s.streams[k], credit);
    QuietHeard(s, k, o, id, g);
    StoreFollows(s, k, o, id, g);
    StoreStreams(s, k, o);
    hide StreamsOk;
    Credited(b, c, id, Stages(g, Shown(o.fx, id)));
  }

  lemma MaxDataFollows(s: SessionVal, limit: nat, id: StreamId, g: Stage)
    requires StreamsOk(s) && Tracks(s, id, g)
    ensures Follows(s, RecvMaxData(s, limit), id, g)
  {
    hide Tracks, Follows, StreamsOk, FlushQueue, AbortSession, EmitDataBlocked;
    if limit <= s.credit.limit {
      AbortFollows(s, ERR_WT_FLOW_CONTROL_ERROR, id, g);
    } else {
      var b := s.(credit := s.credit.(limit := limit));
      Credited(s, b.credit, id, g);
      FlushBlockedFollows(b, id, g);
      var f := FlushBlockedWrites(b);
      Decorate(b, f, [EmitSession(SessionMaxDataUpdated(limit))], [], id, g);
      Rebased(s, b, Step(f.s, [EmitSession(SessionMaxDataUpdated(limit))] + f.fx), id, g);
    }
  }

  lemma FlushBlockedFollows(s: SessionVal, id: StreamId, g: Stage)
    requires StreamsOk(s) && Tracks(s, id, g)
    ensures Follows(s, FlushBlockedWrites(s), id, g)
  {
    hide Tracks, StreamsOk, FlushQueue, EmitDataBlocked;
    var n := |s.credit.queue|;
    FlushQueueFollows(s, n, id, g);
    var f := FlushQueue(s, n);
    var e := EmitDataBlocked(f.s.cfg, f.s.credit);
    EmitDataBlockedSilent(f.s.cfg, f.s.credit);
    Credited(f.s, e.c, id, Stages(g, Shown(f.fx, id)));
    Decorate(s, Step(f.s.(credit := e.c), f.fx), [], e.fx, id, g);
    Unseen(s, Step(s, []), id, g);
  }

  lemma ProcessFollows(s: SessionVal, c: Capsule, id: StreamId, g: Stage)
    requires StreamsOk(s) && Tracks(s, id, g)
    ensures Follows(s, ProcessCapsule(s, c), id, g)
  {
    hide Tracks, Follows, StreamsOk, AbortSession, RecvMaxData, RecvMaxStreams, RecvClose, RecvDataBlocked,
    RecvStreamsBlocked, Varint.Read;
    AbortFollows(s, ERR_H3_FRAME_UNEXPECTED, id, g);
    AbortFollows(s, ERR_H3_GENERAL_PROTOCOL_ERROR, id, g);
    CloseCapsuleFollows(s, c.value, id, g);
    Unseen(s, Step(s, []), id, g);
    Unseen(s, Step(s.(phase := Draining), [EmitSession(SessionDraining)]), id, g);
    match Varint.Read(c.value) {
      case Incomplete =>
        LimitsFollow(s, false, 0, id, g);
      case Got(limit, _) =>
        MaxDataFollows(s, limit, id, g);
        LimitsFollow(s, false, limit, id, g);
        LimitsFollow(s, true, limit, id, g);
    }
  }

  lemma CloseCapsuleFollows(s: SessionVal, value: Bytes, id: StreamId, g: Stage)
    requires StreamsOk(s) && Tracks(s, id, g)
    ensures Follows(s, RecvClose(s, value), id, g)
  {
    hide Tracks, Follows, StreamsOk, AbortSession, Shutdown, Utf8.IsValid, Varint.FromBigEndian;
    AbortFollows(s, ERR_H3_MESSAGE_ERROR, id, g);
    ShutdownFollows(s, Closed, id, g);
    var o := RecvClose(s, value);
    if o != AbortSession(s, ERR_H3_MESSAGE_ERROR) {
      var d := Shutdown(s, Closed);
      Decorate(s, d, [], o.fx[|d.fx|..], id, g);
    }
  }

  lemma GrantsSilent(s: SessionVal, uni: bool, id: StreamId)
    ensures SameSight(s, ReplenishData(s, true).s, id) && Silent(ReplenishData(s, true).fx)
    ensures SameSight(s, ReplenishData(s, false).s, id) && Silent(ReplenishData(s, false).fx)
    ensures SameSight(s, ReplenishStreams(s, uni, true).s, id) && Silent(ReplenishStreams(s, uni, true).fx)
  {
    hide Varint.Write;
  }

  lemma LimitsFollow(s: SessionVal, uni: bool, limit: nat, id: StreamId, g: Stage)
    requires StreamsOk(s) && Tracks(s, id, g)
    ensures Follows(s, RecvDataBlocked(s), id, g) && Follows(s, RecvStreamsBlocked(s, uni, limit), id, g)
    ensures Follows(s, RecvMaxStreams(s, uni, limit), id, g)
  {
    hide Tracks, Follows, StreamsOk, AbortSession, ReplenishData, ReplenishStreams, FlushStreamRequests;
    AbortFollows(s, ERR_WT_FLOW_CONTROL_ERROR, id, g);
    GrantsSilent(s, uni, id);
    Unseen(s, RecvDataBlocked(s), id, g);
    if limit <= STREAMS_LIMIT {
      Unseen(s, RecvStreamsBlocked(s, uni, limit), id, g);
    }
    var b := WithQuota(s, uni, QuotaOf(s, uni).(peerMax := limit));
    Requoted(s, uni, QuotaOf(s, uni).(peerMax := limit), id, g);
    FlushRequestsFollows(b, uni, id, g);
    var f := FlushStreamRequests(b, uni);
    Decorate(b, f, [EmitSession(SessionMaxStreamsUpdated(uni, limit))], [], id, g);
    Rebased(s, b, Step(f.s, [EmitSession(SessionMaxStreamsUpdated(uni, limit))] + f.fx), id, g);
  }

  lemma Requoted(s: SessionVal, uni: bool, q: Quota, id: StreamId, g: Stage)
    requires Tracks(s, id, g)
    ensures Tracks(WithQuota(s, uni, q), id, g) && SameSight(s, WithQuota(s, uni, q), id)
  {
  }

  lemma CapsuleFollows(s: SessionVal, c: Capsule, id: StreamId, g: Stage)
    requires StreamsOk(s) && Tracks(s, id, g)
    ensures Follows(s, RecvCapsule(s, c), id, g)
  {
    hide Tracks, Follows, StreamsOk, AbortSession, ProcessCapsule;
    AbortFollows(s, ERR_H3_EXCESSIVE_LOAD, id, g);
    ProcessFollows(s, c, id, g);
    Unseen(s, Step(s, []), id, g);
    Unseen(s, Step(s.(capsules := s.capsules + [c]), []), id, g);
    Unseen(s, Step(s, [ResetQuicStream(s.cfg.id, ERR_H3_MESSAGE_ERROR)]), id, g);
  }

  lemma PeerDataFollows(s: SessionVal, k: StreamId, data: Bytes, fin: bool, id: StreamId, g: Stage)
    requires StreamsOk(s) && Tracks(s, id, g)
    ensures Follows(s, RecvStreamData(s, k, data, fin), id, g)
  {
    hide Tracks, RecvData, ReplenishData, HandleClosed, AbortSession, Quiet, Heard, Streams.Inv;
    if k !in s.streams {
      Unseen(s, Step(s, []), id, g);
    } else {
      var w := s.window.(received := s.window.received + |data|);
      if s.cfg.flowControl && w.received > w.limit {
        Windowed(s, w, id, g);
        AbortFollows(s.(window := w), ERR_WT_FLOW_CONTROL_ERROR, id, g);
        Rebased(s, s.(window := w), AbortSession(s.(window := w), ERR_WT_FLOW_CONTROL_ERROR), id, g);
      } else {
        var o := RecvData(s.streams[k], data, fin);
        ReceivingQuiet(s.streams[k], 0, 0, data, fin);
        QuietHeard(s, k, o, id, g);
        StoreFollows(s, k, o, id, g);
        hide StreamsOk;
        var b := s.(streams := s.streams[k := o.st]);
        var full := w.(consumed := s.window.consumed + |data|);
        Windowed(b, full, id, Stages(g, Shown(o.fx, id)));
        SettleFollows(s, k, o.fx, b.(window := full), id, g);
      }
    }
  }

  lemma Windowed(s: SessionVal, w: ReceiveCredit, id: StreamId, g: Stage)
    ensures StreamsOk(s) ==> StreamsOk(s.(window := w))
    ensures Tracks(s, id, g) ==> Tracks(s.(window := w), id, g)
    ensures SameSight(s, s.(window := w), id)
  {
  }

  lemma SettleFollows(s: SessionVal, k: StreamId, fx: seq<Effect>, stored: SessionVal, id: StreamId, g: Stage)
    requires Follows(s, Step(stored, fx), id, g)
    ensures var r := ReplenishData(stored, false);
            var c := HandleClosed(r.s, k);
            Follows(s, Step(c.s, fx + r.fx + c.fx), id, g)
  {
    hide Tracks, ReplenishData, HandleClosed;
    var r := ReplenishData(stored, false);
    GrantsSilent(stored, false, id);
    Unseen(stored, r, id, Stages(g, Shown(fx, id)));
    Sequence(s, Step(stored, fx), r, id, g);
    HandleClosedFollows(r.s, k, id, Stages(g, Shown(fx + r.fx, id)));
    Sequence(s, Step(r.s, fx + r.fx), HandleClosed(r.s, k), id, g);
  }

  // ----- confirmation

  lemma {:induction false} ShowEachShown(s: SessionVal, ids: seq<StreamId>, id: StreamId)
    requires Count(ids, id) <= 1
    ensures Shown(ShowEach(s, ids), id) ==
            if id in ids && id in s.streams then [Opened(true, DirectionOf(id, s.cfg.isClient))] else []
  {
    CountZero(ids, id);
    if ids != [] {
      ShowEachShown(s, ids[1..], id);
      CountZero(ids[1..], id);
      assert ids == [ids[0]] + ids[1..];
      if ids[0] in s.streams {
        var e := EmitStream(ids[0], Opened(true, DirectionOf(ids[0], s.cfg.isClient)));
        assert ShowEach(s, ids)[1..] == ShowEach(s, ids[1..]);
      } else {
        assert ShowEach(s, ids) == ShowEach(s, ids[1..]);
      }
    }
  }

  lemma ShowPendingFollows(s: SessionVal, id: StreamId, g: Stage)
    requires Tracks(s, id, g)
    ensures Follows(s, ShowPending(s), id, g)
  {
    hide ShowEach;
    ShowEachShown(s, s.pendingStreams, id);
    var e := Opened(true, DirectionOf(id, s.cfg.isClient));
    assert [e][1..] == [];
    assert Stages(g, [e]) == Advance(g, e);
  }

  lemma {:induction false} ReplayDatagramsFollows(s: SessionVal, id: StreamId, g: Stage)
    requires Tracks(s, id, g)
    ensures Follows(s, ReplayDatagrams(s), id, g)
    decreases |s.datagrams|
  {
    hide Follows, ShowPending, Tracks;
    if s.datagramRequests == [] || s.datagrams == [] {
      ShowPendingFollows(s, id, g);
    } else {
      var b := s.(datagrams := s.datagrams[1..], datagramRequests := s.datagramRequests[1..]);
      Requeued(s, b, id, g);
      ReplayDatagramsFollows(b, id, g);
      var rest := ReplayDatagrams(b);
      var head := [Done(s.datagramRequests[0], DatagramData(s.datagrams[0]))];
      Decorate(b, rest, head, [], id, g);
      Rebased(s, b, Step(rest.s, head + rest.fx), id, g);
    }
  }

  lemma Requeued(s: SessionVal, t: SessionVal, id: StreamId, g: Stage)
    requires t.cfg == s.cfg && t.streams == s.streams && t.pendingStreams == s.pendingStreams
    ensures Tracks(s, id, g) ==> Tracks(t, id, g)
    ensures StreamsOk(s) ==> StreamsOk(t)
    ensures SameSight(s, t, id)
  {
  }

  lemma {:induction false} ReplayCapsulesFollows(s: SessionVal, n: nat, id: StreamId, g: Stage)
    requires Base(s) && s.phase == Connected && Tracks(s, id, g)
    ensures Follows(s, ReplayCapsules(s, n), id, g)
    decreases n
  {
    hide Base, Tracks, ProcessCapsule, ReplayDatagrams;
    if n == 0 || s.capsules == [] {
      ReplayDatagramsFollows(s, id, g);
    } else {
      var b := s.(capsules := s.capsules[1..]);
      QueuesInv(s, s.capsules[1..], s.datagramRequests, s.datagrams);
      Requeued(s, b, id, g);
      BaseParts(b);
      var p := ProcessCapsule(b, s.capsules[0]);
      ProcessFollows(b, s.capsules[0], id, g);
      ProcessCapsuleInv(b, s.capsules[0]);
      Rebased(s, b, p, id, g);
      if p.s.phase == Connected {
        ReplayCapsulesFollows(p.s, n - 1, id, Stages(g, Shown(p.fx, id)));
        Sequence(s, p, ReplayCapsules(p.s, n - 1), id, g);
      }
    }
  }

  lemma ConfirmFollows(s: SessionVal, e: Event, id: StreamId, g: Stage)
    requires Base(s) && Tracks(s, id, g) && (e.PeerConfirmed? || e.UserAccept?)
    ensures Follows(s, Handle(s, e), id, g)
  {
    hide Base, Tracks, Follows, ReplayCapsules;
    var o := Handle(s, e);
    if s.phase == Connecting && (e.UserAccept? ==> !s.cfg.isClient && e.acceptable) {
      PhaseInv(s, []);
      var b := s.(phase := Connected);
      Requeued(s, b, id, g);
      ReplayCapsulesFollows(b, |s.capsules|, id, g);
      var p := ReplayCapsules(b, |s.capsules|);
      var head := o.fx[..|o.fx| - |p.fx|];
      Decorate(b, p, head, [], id, g);
      Rebased(s, b, Step(p.s, head + p.fx), id, g);
      assert head + p.fx == o.fx;
    } else {
      Unseen(s, o, id, g);
    }
  }

  // ----- streams that come to life

  /** Does the event open this stream? */
  predicate Opens(e: Event, id: StreamId) {
    (e.TransportBind? || e.PeerOpened?) && e.stream == id
  }

  lemma BindTracked(s: SessionVal, k: StreamId, request: RequestId, uni: bool, id: StreamId, g: Stage)
    requires Dead(s, k) && Tracks(s, id, g) && (k == id ==> g == Fresh)
    ensures var o := BindStream(s, k, request, uni);
            Tracked(o, id, g) && (k != id ==> Follows(s, o, id, g))
  {
    hide Count;
    var o := BindStream(s, k, request, uni);
    if !IsOpen(s) {
      Unseen(s, o, id, g);
    } else {
      var opening := o.fx[0].event;
      assert o.fx == [EmitStream(k, opening)] + [o.fx[1]];
      if k == id {
        ShownFirst(k, opening, [o.fx[1]], g);
      } else {
        ShownElsewhere(o.fx, k, id);
      }
    }
  }

  lemma AdmitTracked(s: SessionVal, k: StreamId, direction: Direction, uni: bool, id: StreamId, g: Stage)
    requires Dead(s, k) && Tracks(s, id, g) && (k == id ==> g == Fresh)
    ensures var o := AdmitStream(s, k, direction, uni);
            Tracked(o, id, g) && (k != id ==> Follows(s, o, id, g))
  {
    hide CountClosed, NewStream;
    var o := AdmitStream(s, k, direction, uni);
    if s.phase == Connecting && |s.pendingStreams| >= s.cfg.maxPendingStreams {
      CountClosedSilent(s, uni, id);
      Unseen(s, o, id, g);
    } else if s.phase == Connecting {
      CountAppend(s.pendingStreams, [k], id);
      CountZero(s.pendingStreams, k);
      assert [k][1..] == [];
      assert Shown(o.fx, id) == [];
    } else {
      hide Count;
      if k == id {
        assert o.fx == [o.fx[0]] + [];
        ShownFirst(k, o.fx[0].event, [], g);
      } else {
        ShownElsewhere(o.fx, k, id);
      }
    }
  }

  lemma OpenedTracked(s: SessionVal, k: StreamId, id: StreamId, g: Stage)
    requires StreamsOk(s) && Dead(s, k) && Tracks(s, id, g) && (k == id ==> g == Fresh)
    ensures var o := StreamOpened(s, k);
            Tracked(o, id, g) && (k != id ==> Follows(s, o, id, g))
  {
    hide AdmitStream, AbortSession, StreamsOk, Tracks;
    var direction := DirectionOf(k, s.cfg.isClient);
    var uni := direction == ReceiveOnly;
    var q := QuotaOf(s, uni);
    if !IsOpen(s) || direction == SendOnly {
      Unseen(s, StreamOpened(s, k), id, g);
    } else if s.cfg.flowControl && q.peerOpened >= q.localMax {
      AbortFollows(s, ERR_WT_FLOW_CONTROL_ERROR, id, g);
      var head := (if uni then [] else [ResetQuicStream(k, ERR_WT_SESSION_GONE)]) + [StopQuicStream(k, ERR_WT_SESSION_GONE)];
      Decorate(s, AbortSession(s, ERR_WT_FLOW_CONTROL_ERROR), head, [], id, g);
    } else {
      var b := WithQuota(s, uni, q.(peerOpened := q.peerOpened + 1));
      Requoted(s, uni, q.(peerOpened := q.peerOpened + 1), id, g);
      AdmitTracked(b, k, direction, uni, id, g);
    }
  }

  // ----- whole runs

  lemma HandleTracked(s: SessionVal, e: Event, id: StreamId, g: Stage)
    requires Base(s) && Allowed(s, e) && Tracks(s, id, g) && (Opens(e, id) ==> g == Fresh)
    ensures Tracked(Handle(s, e), id, g)
    ensures !Opens(e, id) ==> Follows(s, Handle(s, e), id, g)
  {
    hide Tracks, StreamsOk, Queued, Spent, QuotaOk, ShutOk;
    hide StreamOpened, RecvStreamData, BindStream, CreateStream, DeferStream, FlushStreamRequests, RecvCapsule, ReadDatagram,
    RecvDatagram, SendDatagramTo, RecvConnectClose, AbortSession, CloseSession, RejectSession, ConfirmSession, AcceptSession;
    if OnStream(e) {
      if e.stream in s.streams {
        StreamOpFollows(s, e, id, g);
      } else {
        MissingStreamFollows(s, e, id, g);
      }
    } else {
      match e {
        case UserAccept(_, _) => ConfirmFollows(s, e, id, g);
        case PeerConfirmed => ConfirmFollows(s, e, id, g);
        case UserReject(_, _) => EndingsFollow(s, e, id, g);
        case UserClose(_, _, _) => EndingsFollow(s, e, id, g);
        case PeerClosed(_) => EndingsFollow(s, e, id, g);
        case AbortAll(code) => AbortFollows(s, code, id, g);
        case TransportMaxStreams(uni) => FlushRequestsFollows(s, uni, id, g);
        case TransportBind(k, request, uni) => BindTracked(s, k, request, uni, id, g);
        case PeerOpened(k) => OpenedTracked(s, k, id, g);
        case PeerData(k, data, fin) => PeerDataFollows(s, k, data, fin, id, g);
        case PeerCapsule(c) => CapsuleFollows(s, c, id, g);
        case _ => RestFollows(s, e, id, g);
      }
    }
  }

  /** How often a run opens a stream id. */
  function Openings(es: seq<Event>, id: StreamId): nat {
    if es == [] then 0 else (if Opens(es[0], id) then 1 else 0) + Openings(es[1..], id)
  }

  lemma {:induction false} RunTracked(s: SessionVal, es: seq<Event>, id: StreamId, g: Stage)
    requires SessionInvariant.Inv(s) && AllowedRun(s, es) && Tracks(s, id, g)
    requires Openings(es, id) == 0 || (Openings(es, id) == 1 && Dead(s, id) && g == Fresh)
    ensures Tracks(After(s, es), id, Stages(g, Shown(Effects(s, es), id)))
    decreases |es|
  {
    hide Base, Handle, Allowed, Tracks, Opens, Dead;
    if es != [] {
      var o := Handle(s, es[0]);
      var g' := Stages(g, Shown(o.fx, id));
      HandleTracked(s, es[0], id, g);
      HandleInv(s, es[0]);
      RunTracked(o.s, es[1..], id, g');
      ShownAppend(o.fx, Effects(o.s, es[1..]), id);
      StagesAppend(g, Shown(o.fx, id), Shown(Effects(o.s, es[1..]), id));
    }
  }

  /** In every run of a session in which the transport never reuses a stream id, the events shown for each
      stream are well formed - also for streams that die before the session is confirmed. */
  lemma EventGrammar(s: SessionVal, es: seq<Event>, id: StreamId)
    requires SessionInvariant.Inv(s) && AllowedRun(s, es) && Dead(s, id) && Openings(es, id) <= 1
    ensures WellFormed(Shown(Effects(s, es), id))
  {
    hide SessionInvariant.Inv, AllowedRun, WellFormed;
    CountZero(s.pendingStreams, id);
    RunTracked(s, es, id, Fresh);
    GrammarMeaning(Shown(Effects(s, es), id));
  }
}
