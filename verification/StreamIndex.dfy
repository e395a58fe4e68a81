/** The index from streams to sessions is faithful: reaching a stream through it comes to the same as searching
    every session for it. */
module StreamIndex {
  import opened Types
  import opened Streams
  import opened Sessions
  import opened SessionInvariant
  import opened Connections
  import EE = EarlyEvents

  // ----- a session gains no stream but by opening it

  /** The stream an event may bring to life. */
  function Born(e: Event): set<StreamId> {
    if e.TransportBind? || e.PeerOpened? then {e.stream} else {}
  }

  lemma ClosedKeys(s: SessionVal, id: StreamId)
    ensures HandleClosed(s, id).s.streams.Keys <= s.streams.Keys
  {
    hide ReplenishQuota, Suppress, IsClosed;
  }

  lemma AfterOpKeys(s: SessionVal, id: StreamId, o: Outcome)
    requires id in s.streams
    ensures AfterStreamOp(s, id, o).s.streams.Keys <= s.streams.Keys
    ensures AfterSend(s, id, o).s.streams.Keys <= s.streams.Keys
  {
    hide HandleClosed, EmitDataBlocked, NoteBlocked, IsBlocked;
    ClosedKeys(s.(streams := s.streams[id := o.st]), id);
  }

  lemma {:induction false} AbortEachKeys(s: SessionVal, ids: seq<StreamId>)
    ensures AbortEach(s, ids).s.streams.Keys <= s.streams.Keys
    decreases |ids|
  {
    hide AfterStreamOp, Suppress, Streams.Abort;
    if ids != [] {
      if ids[0] in s.streams {
        var o := Streams.Abort(s.streams[ids[0]], ERR_WT_SESSION_GONE);
        var quiet := o.(fx := Suppress(s, ids[0], o.fx));
        AfterOpKeys(s, ids[0], quiet);
        AbortEachKeys(AfterStreamOp(s, ids[0], quiet).s, ids[1..]);
      } else {
        AbortEachKeys(s, ids[1..]);
      }
    }
  }

  lemma ShutdownKeys(s: SessionVal, phase: Phase)
    ensures Shutdown(s, phase).s.streams.Keys <= s.streams.Keys
  {
    hide AbortEach, Sorted;
    var b := s.(phase := phase, capsules := [], datagrams := []);
    AbortEachKeys(b, Sorted(b.streams.Keys));
  }

  lemma AbortKeys(s: SessionVal, code: ErrorCode)
    ensures AbortSession(s, code).s.streams.Keys <= s.streams.Keys
  {
    hide Shutdown;
    ShutdownKeys(s, Closed);
  }

  lemma {:induction false} FlushKeys(s: SessionVal, n: nat)
    ensures FlushQueue(s, n).s.streams.Keys <= s.streams.Keys
    decreases n
  {
    hide FlushWrites, IsBlocked;
    if n > 0 && s.credit.queue != [] {
      var t := FirstTurn(s);
      assert t.s.streams.Keys <= s.streams.Keys;
      hide FirstTurn;
      if !t.stop {
        FlushKeys(t.s, n - 1);
      }
    }
  }

  lemma MaxDataKeys(s: SessionVal, limit: nat)
    ensures RecvMaxData(s, limit).s.streams.Keys <= s.streams.Keys
  {
    hide FlushQueue, AbortSession, EmitDataBlocked;
    AbortKeys(s, ERR_WT_FLOW_CONTROL_ERROR);
    var b := s.(credit := s.credit.(limit := limit));
    FlushKeys(b, |b.credit.queue|);
  }

  lemma ProcessKeys(s: SessionVal, c: Capsule)
    ensures ProcessCapsule(s, c).s.streams.Keys <= s.streams.Keys
  {
    hide AbortSession, RecvMaxData, FlushStreamRequests, Shutdown, Varint.Read, ReplenishWindow, ReplenishQuota;
    AbortKeys(s, ERR_H3_FRAME_UNEXPECTED);
    AbortKeys(s, ERR_H3_GENERAL_PROTOCOL_ERROR);
    AbortKeys(s, ERR_WT_FLOW_CONTROL_ERROR);
    AbortKeys(s, ERR_H3_MESSAGE_ERROR);
    ShutdownKeys(s, Closed);
    match Varint.Read(c.value) {
      case Incomplete =>
      case Got(limit, _) =>
        MaxDataKeys(s, limit);
        RequestKeys(WithQuota(s, false, s.bidi.(peerMax := limit)), false);
        RequestKeys(WithQuota(s, true, s.uni.(peerMax := limit)), true);
    }
  }

  lemma RequestKeys(s: SessionVal, uni: bool)
    ensures FlushStreamRequests(s, uni).s.streams == s.streams
  {
    hide Reissue, EmitStreamsBlocked;
  }

  lemma {:induction false} ReplayDatagramKeys(s: SessionVal)
    ensures ReplayDatagrams(s).s.streams == s.streams
    decreases |s.datagrams|
  {
    hide ShowEach;
    if s.datagramRequests != [] && s.datagrams != [] {
      ReplayDatagramKeys(s.(datagrams := s.datagrams[1..], datagramRequests := s.datagramRequests[1..]));
    }
  }

  lemma {:induction false} ReplayKeys(s: SessionVal, n: nat)
    ensures ReplayCapsules(s, n).s.streams.Keys <= s.streams.Keys
    decreases n
  {
    hide ProcessCapsule, ReplayDatagrams;
    if n == 0 || s.capsules == [] {
      ReplayDatagramKeys(s);
    } else {
      var b := s.(capsules := s.capsules[1..]);
      ProcessKeys(b, s.capsules[0]);
      ReplayKeys(ProcessCapsule(b, s.capsules[0]).s, n - 1);
    }
  }

  lemma StreamOpKeys(s: SessionVal, e: Event)
    requires SessionInvariant.OnStream(e)
    ensures Handle(s, e).s.streams.Keys <= s.streams.Keys
  {
    hide AfterSend, AfterStreamOp, Suppress, Read, Write, Reset, Stop, CompleteWrite, RecvReset, RecvStop;
    if e.stream in s.streams {
      var st := s.streams[e.stream];
      var credit := AvailableCredit(s.cfg, s.credit);
      match e {
        case UserRead(id, request, maxSize) => AfterOpKeys(s, id, Read(st, request, maxSize));
        case UserWrite(id, request, data, fin) => AfterOpKeys(s, id, Write(st, request, data, fin, credit));
        case UserReset(id, request, code) => AfterOpKeys(s, id, Reset(st, request, code));
        case UserStop(id, request, code) => AfterOpKeys(s, id, Stop(st, request, code));
        case TransportCompleted(id) => AfterOpKeys(s, id, CompleteWrite(st, credit));
        case TransportAcknowledged(id) => AfterOpKeys(s, id, Outcome(Acknowledge(st), [], 0));
        case PeerReset(id, code) =>
          var o := RecvReset(st, code);
          AfterOpKeys(s, id, o.(fx := Suppress(s, id, o.fx)));
        case PeerStop(id, code) =>
          var o := RecvStop(st, code);
          AfterOpKeys(s, id, o.(fx := Suppress(s, id, o.fx)));
      }
    }
  }

  lemma PeerDataKeys(s: SessionVal, id: StreamId, data: Bytes, fin: bool)
    ensures RecvStreamData(s, id, data, fin).s.streams.Keys <= s.streams.Keys
  {
    hide HandleClosed, AbortSession, ReplenishWindow, RecvData;
    if id in s.streams {
      var w := s.window.(received := s.window.received + |data|);
      AbortKeys(s.(window := w), ERR_WT_FLOW_CONTROL_ERROR);
      var o := RecvData(s.streams[id], data, fin);
      var stored := s.(streams := s.streams[id := o.st], window := w.(consumed := s.window.consumed + |data|));
      ClosedKeys(ReplenishData(stored, false).s, id);
    }
  }

  lemma OpenedKeys(s: SessionVal, id: StreamId)
    ensures StreamOpened(s, id).s.streams.Keys <= s.streams.Keys + {id}
  {
    hide AbortSession, NewStream, ReplenishQuota;
    AbortKeys(s, ERR_WT_FLOW_CONTROL_ERROR);
  }

  lemma CapsuleKeys(s: SessionVal, c: Capsule)
    ensures RecvCapsule(s, c).s.streams.Keys <= s.streams.Keys
  {
    hide AbortSession, ProcessCapsule;
    AbortKeys(s, ERR_H3_EXCESSIVE_LOAD);
    ProcessKeys(s, c);
  }

  lemma EndingKeys(s: SessionVal, e: Event)
    requires e.UserReject? || e.UserClose? || e.PeerClosed? || e.AbortAll?
    ensures Handle(s, e).s.streams.Keys <= s.streams.Keys
  {
    hide Shutdown;
    ShutdownKeys(s, Closed);
    ShutdownKeys(s, Closing);
  }

  lemma ConfirmKeys(s: SessionVal, e: Event)
    requires e.PeerConfirmed? || e.UserAccept?
    ensures Handle(s, e).s.streams.Keys <= s.streams.Keys
  {
    hide ReplayCapsules;
    ReplayKeys(s.(phase := Connected), |s.capsules|);
  }

  lemma OtherKeys(s: SessionVal, e: Event)
    requires e.UserCreate? || e.UserReadDatagram? || e.UserSendDatagram? || e.TransportDefer? || e.TransportMaxStreams?
             || e.PeerDatagram? || e.DrainAll? || e.TransportBind?
    ensures Handle(s, e).s.streams.Keys <= s.streams.Keys + Born(e)
  {
    hide Reissue, EmitStreamsBlocked, NewStream;
  }

  lemma HandleKeys(s: SessionVal, e: Event)
    ensures Handle(s, e).s.streams.Keys <= s.streams.Keys + Born(e)
  {
    hide StreamOpened, RecvStreamData, BindStream, CreateStream, DeferStream, FlushStreamRequests, RecvCapsule, ReadDatagram,
    RecvDatagram, RecvConnectClose, AbortSession, CloseSession, RejectSession, ConfirmSession, AcceptSession;
    if SessionInvariant.OnStream(e) {
      StreamOpKeys(s, e);
    } else {
      match e {
        case UserAccept(_, _) => ConfirmKeys(s, e);
        case PeerConfirmed => ConfirmKeys(s, e);
        case UserReject(_, _) => EndingKeys(s, e);
        case UserClose(_, _, _) => EndingKeys(s, e);
        case PeerClosed(_) => EndingKeys(s, e);
        case AbortAll(_) => EndingKeys(s, e);
        case PeerOpened(id) => OpenedKeys(s, id);
        case PeerData(id, data, fin) => PeerDataKeys(s, id, data, fin);
        case PeerCapsule(c) => CapsuleKeys(s, c);
        case _ => OtherKeys(s, e);
      }
    }
  }

  // ----- the index

  ghost predicate Covers(index: map<StreamId, SessionId>, sessions: map<SessionId, SessionVal>) {
    && (forall s, id :: s in sessions && id in sessions[s].streams ==> id in index && index[id] == s)
    && (forall id :: id in index ==> id !in sessions)
  }

  /** Every live stream of every session is indexed under that session, and no session id is indexed as a stream. */
  ghost predicate Indexed(c: Conn) {
    Covers(c.index, c.sessions)
  }

  /** Stream ids are not shared between sessions, and are not session ids. */
  ghost predicate NotElsewhere(c: Conn, session: SessionId, id: StreamId) {
    id !in c.sessions && forall k :: k in c.sessions && k != session ==> id !in c.sessions[k].streams
  }

  /** One session changed, and may have gained some streams. */
  ghost predicate Changed(before: map<SessionId, SessionVal>, sessions: map<SessionId, SessionVal>, session: SessionId,
                          gained: set<StreamId>) {
    && session in before && sessions.Keys == before.Keys
    && (forall k :: k in before && k != session ==> sessions[k] == before[k])
    && sessions[session].streams.Keys <= before[session].streams.Keys + gained
  }

  lemma AtSessions(c: Conn, session: SessionId, e: Event)
    requires session in c.sessions
    ensures var d := At(c, session, e).c; d == c.(sessions := d.sessions) && Changed(c.sessions, d.sessions, session, Born(e))
  {
    hide Handle;
    HandleKeys(c.sessions[session], e);
  }

  lemma ShrinkCovered(index: map<StreamId, SessionId>, before: map<SessionId, SessionVal>, sessions: map<SessionId, SessionVal>,
                      session: SessionId)
    requires Covers(index, before) && Changed(before, sessions, session, {})
    ensures Covers(index, sessions)
  {
    forall s, id | s in sessions && id in sessions[s].streams ensures id in index && index[id] == s {
      assert id in before[s].streams;
    }
  }

  lemma GainCovered(index: map<StreamId, SessionId>, before: map<SessionId, SessionVal>, sessions: map<SessionId, SessionVal>,
                    session: SessionId, id: StreamId)
    requires Covers(index, before) && Changed(before, sessions, session, {id})
    requires id !in before && forall k :: k in before && k != session ==> id !in before[k].streams
    ensures Covers(index[id := session], sessions)
    ensures id !in sessions[session].streams ==> Covers(index, sessions)
  {
    GainedLive(index, before, sessions, session, id);
    assert forall k :: k in index ==> k !in sessions;
  }

  lemma GainedLive(index: map<StreamId, SessionId>, before: map<SessionId, SessionVal>, sessions: map<SessionId, SessionVal>,
                   session: SessionId, id: StreamId)
    requires Covers(index, before) && Changed(before, sessions, session, {id})
    requires forall k :: k in before && k != session ==> id !in before[k].streams
    ensures forall s, k :: s in sessions && k in sessions[s].streams ==>
              if k == id then s == session else k in index && index[k] == s
  {
    forall s, k | s in sessions && k in sessions[s].streams
      ensures if k == id then s == session else k in index && index[k] == s
    {
      assert k == id || k in before[s].streams;
    }
  }

  lemma DropCovered(index: map<StreamId, SessionId>, sessions: map<SessionId, SessionVal>, id: StreamId)
    requires Covers(index, sessions) && id in index
    requires index[id] in sessions ==> id !in sessions[index[id]].streams
    ensures Covers(index - {id}, sessions)
  {
  }

  lemma AtKeeps(c: Conn, session: SessionId, e: Event)
    requires Indexed(c) && session in c.sessions && Born(e) == {}
    ensures Indexed(At(c, session, e).c)
  {
    hide At, Covers, Changed;
    AtSessions(c, session, e);
    ShrinkCovered(c.index, c.sessions, At(c, session, e).c.sessions, session);
  }

  lemma OpenAtKeeps(c: Conn, session: SessionId, id: StreamId, e: Event)
    requires Indexed(c) && session in c.sessions && Born(e) == {id} && NotElsewhere(c, session, id)
    ensures Indexed(OpenAt(c, session, id, e).c)
  {
    hide At, Covers, Born;
    AtSessions(c, session, e);
    GainCovered(c.index, c.sessions, At(c, session, e).c.sessions, session, id);
  }

  lemma ByIndexKeeps(c: Conn, id: StreamId, e: Event)
    requires Indexed(c) && Born(e) == {}
    ensures Indexed(ByIndex(c, id, e).c)
  {
    hide At, Covers, Changed, Born;
    if id in c.index && c.index[id] in c.sessions {
      var session := c.index[id];
      AtKeeps(c, session, e);
      AtSessions(c, session, e);
      var o := At(c, session, e).c;
      if !HasStream(o, session, id) {
        DropCovered(o.index, o.sessions, id);
      }
    } else if (e.PeerReset? || e.PeerStop?) && id in c.sessions {
      NothingBorn(e.code);
      AtKeeps(c, id, AbortAll(e.code));
    }
  }

  lemma NothingBorn(code: ErrorCode)
    ensures Born(AbortAll(code)) == {}
  {
  }

  lemma {:induction false} ToEachKeeps(c: Conn, sessions: seq<SessionId>, e: Event)
    requires Indexed(c) && Born(e) == {}
    ensures Indexed(ToEach(c, sessions, e).c)
    decreases |sessions|
  {
    hide At, Indexed;
    if sessions != [] {
      if sessions[0] in c.sessions {
        AtKeeps(c, sessions[0], e);
        ToEachKeeps(At(c, sessions[0], e).c, sessions[1..], e);
      } else {
        ToEachKeeps(c, sessions[1..], e);
      }
    }
  }

  ghost predicate AllNew(c: Conn, session: SessionId, events: seq<EE.Stamped>) {
    forall i :: 0 <= i < |events| && events[i].event.StreamIn? ==>
      events[i].event.stream != session && NotElsewhere(c, session, events[i].event.stream)
  }

  lemma {:induction false} ReplayEachKeeps(c: Conn, session: SessionId, events: seq<EE.Stamped>)
    requires Indexed(c) && AllNew(c, session, events)
    ensures Indexed(ReplayEach(c, session, events).c)
    decreases |events|
  {
    hide At, OpenAt, Indexed, AllNew;
    if events != [] && session in c.sessions {
      if events[0].event.StreamIn? {
        ReplayStreamKeeps(c, session, events);
        ReplayEachKeeps(OpenAt(c, session, events[0].event.stream, PeerOpened(events[0].event.stream)).c, session, events[1..]);
      } else {
        ReplayDatagramKeeps(c, session, events);
        ReplayEachKeeps(At(c, session, PeerDatagram(events[0].event.data)).c, session, events[1..]);
      }
    }
  }

  lemma ReplayStreamKeeps(c: Conn, session: SessionId, events: seq<EE.Stamped>)
    requires Indexed(c) && AllNew(c, session, events) && session in c.sessions && events != [] && events[0].event.StreamIn?
    ensures var d := OpenAt(c, session, events[0].event.stream, PeerOpened(events[0].event.stream)).c;
            Indexed(d) && AllNew(d, session, events[1..])
  {
    hide At, Indexed, Changed, AllNew;
    var id := events[0].event.stream;
    AtSessions(c, session, PeerOpened(id));
    FirstNew(c, session, events);
    OpenAtKeeps(c, session, id, PeerOpened(id));
    RestNew(c, OpenAt(c, session, id, PeerOpened(id)).c, session, {id}, events);
  }

  lemma FirstNew(c: Conn, session: SessionId, events: seq<EE.Stamped>)
    requires AllNew(c, session, events) && events != [] && events[0].event.StreamIn?
    ensures NotElsewhere(c, session, events[0].event.stream)
  {
  }

  lemma RestNew(c: Conn, d: Conn, session: SessionId, gained: set<StreamId>, events: seq<EE.Stamped>)
    requires AllNew(c, session, events) && Changed(c.sessions, d.sessions, session, gained) && events != []
    ensures AllNew(d, session, events[1..])
  {
    var rest := events[1..];
    forall i | 0 <= i < |rest| && rest[i].event.StreamIn?
      ensures rest[i].event.stream != session && NotElsewhere(d, session, rest[i].event.stream)
    {
      assert rest[i] == events[i + 1];
    }
  }

  lemma ReplayDatagramKeeps(c: Conn, session: SessionId, events: seq<EE.Stamped>)
    requires Indexed(c) && AllNew(c, session, events) && session in c.sessions && events != [] && events[0].event.DatagramIn?
    ensures var d := At(c, session, PeerDatagram(events[0].event.data)).c;
            Indexed(d) && AllNew(d, session, events[1..])
  {
    hide At, Indexed, Changed, AllNew;
    var e := PeerDatagram(events[0].event.data);
    AtSessions(c, session, e);
    AtKeeps(c, session, e);
    RestNew(c, At(c, session, e).c, session, {}, events);
  }

  lemma ReplayEarlyKeeps(c: Conn, session: SessionId)
    requires Indexed(c) && AllNew(c, session, EE.EventsOf(c.early, session))
    ensures Indexed(ReplayEarly(c, session).c)
  {
    hide ReplayEach;
    var t := EE.Take(c.early, session);
    ReplayEachKeeps(c.(early := t.buffer), session, t.events);
  }

  /** What the environment promises the connection: a stream id belongs to one session, also while its opening
      is buffered, and is never the id of a session, and a new session has no streams. */
  ghost predicate Permitted(c: Conn, e: ConnEvent) {
    match e
    case OnSession(_, event) => Born(event) == {}
    case OnOneStream(_, event) => Born(event) == {}
    case Bind(session, id, _, _) => NotElsewhere(c, session, id)
    case Stream(session, id, _) => NotElsewhere(c, session, id)
    case SessionBound(id, _, made) => made.streams == map[] && id !in c.index
    case ResponseSeen(id, _, made) => made.streams == map[] && id !in c.index && AllNew(c, id, EE.EventsOf(c.early, id))
    case RequestSeen(id, _, _, made) => made.streams == map[] && id !in c.index && AllNew(c, id, EE.EventsOf(c.early, id))
    case _ => true
  }

  lemma TurnedKeeps(c: Conn, id: StreamId, request: RequestId, code: ErrorCode)
    requires Indexed(c)
    ensures Indexed(Turned(c, id, request, code).c)
  {
    hide At;
    if id in c.sessions {
      AtKeeps(c, id, AbortAll(code));
    }
  }

  lemma TurnedNew(c: Conn, id: StreamId, request: RequestId, code: ErrorCode)
    requires AllNew(c, id, EE.EventsOf(c.early, id))
    ensures var d := Turned(c, id, request, code).c; AllNew(d, id, EE.EventsOf(d.early, id))
  {
    hide At, Born;
    if id in c.sessions {
      AtSessions(c, id, AbortAll(code));
    }
  }

  lemma ConfirmedKeeps(c: Conn, id: StreamId, request: RequestId, made: SessionVal)
    requires Indexed(c) && made.streams == map[] && id !in c.index
    ensures Indexed(Confirmed(c, id, request, made).c)
  {
    hide At, Covers;
    if id in c.sessions {
      AtKeeps(c, id, PeerConfirmed);
    } else if request in c.requests {
      EmptyCovered(c.index, c.sessions, id, made);
      AtKeeps(c.(requests := c.requests - {request}, sessions := c.sessions[id := made]), id, PeerConfirmed);
    }
  }

  lemma ConfirmedNew(c: Conn, id: StreamId, request: RequestId, made: SessionVal)
    requires AllNew(c, id, EE.EventsOf(c.early, id))
    ensures var d := Confirmed(c, id, request, made).c; AllNew(d, id, EE.EventsOf(d.early, id))
  {
    hide At;
    if id in c.sessions {
      AtSessions(c, id, PeerConfirmed);
    } else if request in c.requests {
      AtSessions(c.(requests := c.requests - {request}, sessions := c.sessions[id := made]), id, PeerConfirmed);
    }
  }

  lemma ResponseKeeps(c: Conn, id: StreamId, verdict: Verdict, made: SessionVal)
    requires Indexed(c) && made.streams == map[] && id !in c.index && AllNew(c, id, EE.EventsOf(c.early, id))
    ensures Indexed(Response(c, id, verdict, made).c)
  {
    hide Covers, AllNew, Turned, Confirmed, ReplayEarly;
    if id in c.pending {
      var request := c.pending[id];
      var d := c.(pending := c.pending - {id});
      var f := d.(requests := d.requests - {request});
      StillNew(c, d, id);
      StillNew(c, f, id);
      match verdict {
        case WrongProtocol => TurnedKeeps(d, id, request, ERR_WT_ALPN_ERROR);
        case Rejected =>
          TurnedKeeps(f, id, request, ERR_H3_REQUEST_REJECTED);
          TurnedNew(f, id, request, ERR_H3_REQUEST_REJECTED);
          ReplayEarlyKeeps(Turned(f, id, request, ERR_H3_REQUEST_REJECTED).c, id);
        case Granted =>
          ConfirmedKeeps(d, id, request, made);
          ConfirmedNew(d, id, request, made);
          ReplayEarlyKeeps(Confirmed(d, id, request, made).c, id);
      }
    }
  }

  lemma StillNew(c: Conn, d: Conn, session: SessionId)
    requires AllNew(c, session, EE.EventsOf(c.early, session)) && d.sessions == c.sessions && d.early == c.early
    ensures AllNew(d, session, EE.EventsOf(d.early, session))
  {
  }

  lemma ToAllKeeps(c: Conn, d: Conn, e: Event)
    requires Indexed(c) && d.sessions == c.sessions && d.index == c.index && Born(e) == {}
    ensures Indexed(ToAll(d, e).c)
  {
    hide ToEach, Covers, Sorted;
    ToEachKeeps(d, Sorted(d.sessions.Keys), e);
  }

  lemma MaxStreamsKeeps(c: Conn, uni: bool)
    requires Indexed(c)
    ensures Indexed(MaxStreams(c, uni).c)
  {
    hide ToAll, Indexed, WrapRequests;
    ToAllKeeps(c, if uni then c else c.(blocked := []), TransportMaxStreams(uni));
  }

  lemma GoawayKeeps(c: Conn)
    requires Indexed(c)
    ensures Indexed(Goaway(c).c)
  {
    hide ToAll, Indexed, FailEach;
    ToAllKeeps(c, c.(goawayReceived := true, blocked := [], requests := c.requests - (set r | r in c.blocked)), DrainAll);
  }

  lemma GracefulKeeps(c: Conn, request: RequestId)
    requires Indexed(c)
    ensures Indexed(CloseGracefully(c, request).c)
  {
    hide ToAll, Indexed;
    ToAllKeeps(c, c.(goawaySent := true), DrainAll);
  }

  lemma TerminateKeeps(c: Conn, code: ErrorCode)
    requires Indexed(c)
    ensures Indexed(Terminate(c, code).c)
  {
    hide ToAll, Indexed, Sorted, FailEach;
    ToAllKeeps(c, c.(phase := Ended, requests := map[], request := None, blocked := [], pending := map[]), PeerClosed(code));
  }

  lemma EmptyCovered(index: map<StreamId, SessionId>, sessions: map<SessionId, SessionVal>, id: SessionId, made: SessionVal)
    requires Covers(index, sessions) && made.streams == map[] && id !in index
    ensures Covers(index, sessions[id := made])
  {
  }

  lemma BoundKeeps(c: Conn, id: StreamId, request: RequestId, made: SessionVal)
    requires Indexed(c) && made.streams == map[] && id !in c.index
    ensures Indexed(BindSession(c, id, request, made).c)
  {
    hide Covers;
    EmptyCovered(c.index, c.sessions, id, made);
  }

  lemma PruneKeeps(c: Conn)
    requires Indexed(c)
    ensures Indexed(PruneSessions(c))
  {
  }

  lemma StreamKeeps(c: Conn, session: SessionId, id: StreamId, now: EE.Time)
    requires Indexed(c) && NotElsewhere(c, session, id)
    ensures Indexed(StreamArrived(c, session, id, now).c)
  {
    hide OpenAt, Covers, NotElsewhere, EE.Store;
    if session in c.sessions {
      OpenAtKeeps(c, session, id, PeerOpened(id));
    }
  }

  lemma DatagramKeeps(c: Conn, session: SessionId, data: Bytes, now: EE.Time)
    requires Indexed(c)
    ensures Indexed(DatagramArrived(c, session, data, now).c)
  {
    hide At, Covers, EE.Store;
    if session in c.sessions {
      AtKeeps(c, session, PeerDatagram(data));
    }
  }

  lemma RequestKeeps(c: Conn, id: StreamId, limit: nat, valid: bool, made: SessionVal)
    requires Indexed(c) && made.streams == map[] && id !in c.index && AllNew(c, id, EE.EventsOf(c.early, id))
    ensures Indexed(RequestArrived(c, id, limit, valid, made).c)
  {
    hide ReplayEarly, Indexed, AllNew;
    NewSessionKeeps(c, id, made);
    ReplayEarlyKeeps(c.(sessions := c.sessions[id := made]), id);
  }

  /** Every step of the connection keeps the index. */
  lemma HandleConnKeeps(c: Conn, e: ConnEvent)
    requires Indexed(c) && Permitted(c, e)
    ensures Indexed(HandleConn(c, e).c)
  {
    hide Indexed, AllNew, NotElsewhere, Born, At, OpenAt, ByIndex, StreamArrived, DatagramArrived, Response;
    hide RequestArrived;
    hide MaxStreams, Goaway, CloseGracefully, Terminate, BindSession, PruneSessions, EE.Prune, CreateSession;
    hide FailSession;
    hide CloseConnection, HandshakeDone;
    hide SettingsSeen, NoSession, Wrap;
    match e {
      case OnSession(session, event) =>
        if session in c.sessions {
          AtKeeps(c, session, event);
        }
      case OnOneStream(id, event) => ByIndexKeeps(c, id, event);
      case Bind(session, id, request, uni) =>
        if session in c.sessions {
          BornBound(id, request, uni);
          OpenAtKeeps(c, session, id, TransportBind(id, request, uni));
        }
      case Stream(session, id, now) => StreamKeeps(c, session, id, now);
      case Datagram(session, data, now) => DatagramKeeps(c, session, data, now);
      case ResponseSeen(id, verdict, made) => ResponseKeeps(c, id, verdict, made);
      case RequestSeen(id, limit, valid, made) => RequestKeeps(c, id, limit, valid, made);
      case StreamsAvailable(uni) => MaxStreamsKeeps(c, uni);
      case GoawaySeen => GoawayKeeps(c);
      case CloseNicely(request) => GracefulKeeps(c, request);
      case Terminated(code) => TerminateKeeps(c, code);
      case SessionBound(id, request, made) => BoundKeeps(c, id, request, made);
      case PruneClosed => PruneKeeps(c);
      case PruneEarlyEvents(_) => SameSessions(c, HandleConn(c, e).c);
      case _ =>
        ConnectionSame(c, e);
        SameSessions(c, HandleConn(c, e).c);
    }
  }

  lemma BornBound(id: StreamId, request: RequestId, uni: bool)
    ensures Born(TransportBind(id, request, uni)) == {id}
  {
  }

  lemma SameSessions(c: Conn, d: Conn)
    requires Indexed(c) && d.sessions == c.sessions && d.index == c.index
    ensures Indexed(d)
  {
  }

  lemma NewSessionKeeps(c: Conn, id: StreamId, made: SessionVal)
    requires Indexed(c) && made.streams == map[] && id !in c.index && AllNew(c, id, EE.EventsOf(c.early, id))
    ensures var d := c.(sessions := c.sessions[id := made]);
            Indexed(d) && AllNew(d, id, EE.EventsOf(d.early, id))
  {
  }

  // ----- reaching a stream by search

  /** The session that has a stream, if any. */
  ghost predicate Owns(c: Conn, session: SessionId, id: StreamId) {
    session in c.sessions && id in c.sessions[session].streams
  }

  /** What a search through all sessions would do; a reset or stop of a stream that is no stream of a session but
      carries one ends that session. */
  ghost function BySearch(c: Conn, id: StreamId, e: Event): ConnStep {
    if exists session :: Owns(c, session, id) then
      var session :| Owns(c, session, id);
      At(c, session, e)
    else if (e.PeerReset? || e.PeerStop?) && id in c.sessions then At(c, id, AbortAll(e.code))
    else ConnStep(c, NoStream(e))
  }

  /** Operations on a stream that come from the user, the transport or the peer. */
  predicate Routed(e: Event, id: StreamId) {
    && (e.UserRead? || e.UserWrite? || e.UserReset? || e.UserStop? || e.TransportCompleted? || e.TransportAcknowledged? || e.PeerData?
        || e.PeerReset? || e.PeerStop?)
    && e.stream == id
  }

  /** A session without the stream answers as the connection does for a stream nobody has. */
  lemma MissingSame(c: Conn, session: SessionId, id: StreamId, e: Event)
    requires session in c.sessions && id !in c.sessions[session].streams && Routed(e, id)
    ensures At(c, session, e) == ConnStep(c, NoStream(e))
  {
    MissingAnswer(c.sessions[session], id, e);
    hide Handle, Routed;
    assert c.sessions[session := c.sessions[session]] == c.sessions;
  }

  lemma MissingAnswer(s: SessionVal, id: StreamId, e: Event)
    requires id !in s.streams && Routed(e, id)
    ensures Handle(s, e).s == s && Wrap(Handle(s, e).fx) == NoStream(e)
  {
    var fx := Handle(s, e).fx;
    assert |fx| <= 1;
    if fx != [] {
      WrapOne(fx[0]);
      assert fx == [fx[0]];
    }
  }

  lemma WrapOne(e: Effect)
    ensures Wrap([e]) == [Fx(e)]
  {
    assert [e][1..] == [];
  }

  /** The index is faithful: for every operation on a stream it leads to the same effects and the same sessions
      as a search, even when it holds entries of streams and sessions that are gone. */
  lemma IndexFaithful(c: Conn, id: StreamId, e: Event)
    requires Indexed(c) && Routed(e, id)
    ensures ByIndex(c, id, e).out == BySearch(c, id, e).out
    ensures ByIndex(c, id, e).c.sessions == BySearch(c, id, e).c.sessions
  {
    hide At, NoStream;
    if exists session :: Owns(c, session, id) {
      var session :| Owns(c, session, id);
    } else if id in c.index && c.index[id] in c.sessions {
      assert !Owns(c, c.index[id], id);
      MissingSame(c, c.index[id], id, e);
    }
  }

  // ----- whole runs

  function AfterConn(c: Conn, es: seq<ConnEvent>): Conn
    decreases |es|
  {
    if es == [] then c else AfterConn(HandleConn(c, es[0]).c, es[1..])
  }

  ghost predicate PermittedRun(c: Conn, es: seq<ConnEvent>)
    decreases |es|
  {
    es != [] ==> Permitted(c, es[0]) && PermittedRun(HandleConn(c, es[0]).c, es[1..])
  }

  lemma {:induction false} IndexedRun(c: Conn, es: seq<ConnEvent>)
    requires Indexed(c) && PermittedRun(c, es)
    ensures Indexed(AfterConn(c, es))
    decreases |es|
  {
    hide Indexed, HandleConn, Permitted;
    if es != [] {
      HandleConnKeeps(c, es[0]);
      IndexedRun(HandleConn(c, es[0]).c, es[1..]);
    }
  }

  /** In every run of a connection that starts without sessions, the index is faithful. */
  lemma AlwaysFaithful(c: Conn, es: seq<ConnEvent>, id: StreamId, e: Event)
    requires c.sessions == map[] && PermittedRun(c, es) && Routed(e, id)
    ensures var d := AfterConn(c, es);
            && ByIndex(d, id, e).out == BySearch(d, id, e).out
            && ByIndex(d, id, e).c.sessions == BySearch(d, id, e).c.sessions
  {
    hide AfterConn, PermittedRun, ByIndex, BySearch;
    assert Indexed(c);
    IndexedRun(c, es);
    IndexFaithful(AfterConn(c, es), id, e);
  }
}
