/** The engine: a loop over a work list on top of a connection. A transport event is first parsed into further
    events, and requests made before a client is connected wait and are put back in front when it is. */
module Engines {
  import opened Types
  import opened Streams
  import opened Sessions
  import opened Traces
  import opened Connections
  import EE = EarlyEvents
  import SI = StreamIndex
  import CI = ConnInvariant
  import TE = Termination

  /** Requests for a session or a stream: these wait while a client is not connected yet. */
  predicate IsCreate(e: ConnEvent) {
    e.MakeSession? || (e.OnSession? && e.event.UserCreate?)
  }

  type Create = e: ConnEvent | IsCreate(e) witness MakeSession(0, false, 0, false)

  function RequestOf(e: Create): RequestId {
    if e.MakeSession? then e.request else e.event.request
  }

  /** `produced` stands for what the HTTP/3 layer makes of a transport event. */
  datatype Work = One(event: ConnEvent) | Raw(produced: seq<ConnEvent>)

  datatype Engine = Engine(conn: Conn, waiting: seq<Create>)

  predicate PreConnected(c: Conn) {
    c.isClient && (c.phase == Idle || c.phase == Handshaking)
  }

  /** What the engine did, in order: an event given to the connection, or a waiting request failed. */
  datatype Deed = Did(event: ConnEvent) | Dropped(create: Create)

  datatype Round = Round(g: Engine, out: seq<Output>, front: seq<Work>, deeds: seq<Deed>)

  function Ones(es: seq<ConnEvent>): seq<Work> {
    if es == [] then [] else [One(es[0])] + Ones(es[1..])
  }

  function DropAll(es: seq<Create>): seq<Deed> {
    if es == [] then [] else [Dropped(es[0])] + DropAll(es[1..])
  }

  function FailWaiting(es: seq<Create>): seq<Output> {
    if es == [] then [] else [Fail(RequestOf(es[0]), Some(ERR_LIB_CONNECTION_STATE_ERROR))] + FailWaiting(es[1..])
  }

  predicate Connects(e: ConnEvent, d: Conn) {
    (e.Handshake? || e.SettingsArrived?) && d.isClient && d.phase == Established
  }

  /** One event from the head of the work list; `front` is what goes back to the head. */
  function Process(g: Engine, w: Work): Round {
    match w
    case Raw(produced) => Round(g, [], Ones(produced), [])
    case One(e) =>
      if IsCreate(e) && PreConnected(g.conn) then Round(g.(waiting := g.waiting + [e]), [], [], [])
      else
        var o := HandleConn(g.conn, e);
        if Connects(e, o.c) then Round(Engine(o.c, []), o.out, Ones(g.waiting), [Did(e)])
        else if e.CloseNow? || e.Terminated? then
          Round(Engine(o.c, []), o.out + FailWaiting(g.waiting), [], [Did(e)] + DropAll(g.waiting))
        else Round(g.(conn := o.c), o.out, [], [Did(e)])
  }

  // ----- the loop ends

  function WeightOf(w: Work): nat {
    match w
    case Raw(produced) => 1 + |produced|
    case One(e) => if IsCreate(e) then 0 else 1
  }

  /** What is left to do, not counting requests: putting requests back in front adds nothing. */
  function Weight(work: seq<Work>): nat {
    if work == [] then 0 else WeightOf(work[0]) + Weight(work[1..])
  }

  lemma {:induction false} WeightAppend(a: seq<Work>, b: seq<Work>)
    ensures Weight(a + b) == Weight(a) + Weight(b)
  {
    if a == [] {
      assert a + b == b;
    } else {
      assert (a + b)[1..] == a[1..] + b;
      WeightAppend(a[1..], b);
    }
  }

  lemma {:induction false} OnesWeight(es: seq<ConnEvent>)
    ensures |Ones(es)| == |es| && Weight(Ones(es)) <= |es|
    ensures (forall i :: 0 <= i < |es| ==> IsCreate(es[i])) ==> Weight(Ones(es)) == 0
  {
    if es != [] {
      OnesWeight(es[1..]);
    }
  }

  /** Every turn makes the work list smaller: less to do, or as much and fewer entries. */
  lemma TurnShrinks(g: Engine, work: seq<Work>)
    requires work != []
    ensures var next := Process(g, work[0]).front + work[1..];
            Weight(next) < Weight(work) || (Weight(next) == Weight(work) && |next| < |work|)
  {
    hide HandleConn, FailWaiting, DropAll;
    var front := Process(g, work[0]).front;
    WeightAppend(front, work[1..]);
    FrontWeight(g, work[0]);
    assert Weight(work) == WeightOf(work[0]) + Weight(work[1..]);
    if front == [] {
      assert front + work[1..] == work[1..];
    }
  }

  lemma FrontWeight(g: Engine, w: Work)
    ensures var front := Process(g, w).front;
            Weight(front) < WeightOf(w) || (Weight(front) == WeightOf(w) && front == [])
  {
    hide HandleConn, FailWaiting, DropAll;
    if w.Raw? {
      OnesWeight(w.produced);
    } else {
      OnesWeight(g.waiting);
      assert Process(g, w).front == [] || (Process(g, w).front == Ones(g.waiting) && !IsCreate(w.event));
    }
  }

  datatype Result = Result(g: Engine, out: seq<Output>, deeds: seq<Deed>)

  /** Work through the list, until it is empty. */
  function WorkOff(g: Engine, work: seq<Work>): Result
    decreases Weight(work), |work|
  {
    if work == [] then Result(g, [], [])
    else
      var t := Process(g, work[0]);
      TurnShrinks(g, work);
      var rest := WorkOff(t.g, t.front + work[1..]);
      Result(rest.g, t.out + rest.out, t.deeds + rest.deeds)
  }

  function HandleEvent(g: Engine, w: Work): Result {
    WorkOff(g, [w])
  }

  // ----- what the connection sees

  function Seen(deeds: seq<Deed>): seq<ConnEvent> {
    if deeds == [] then [] else (if deeds[0].Did? then [deeds[0].event] else []) + Seen(deeds[1..])
  }

  lemma {:induction false} SeenAppend(a: seq<Deed>, b: seq<Deed>)
    ensures Seen(a + b) == Seen(a) + Seen(b)
  {
    if a == [] {
      assert a + b == b;
    } else {
      assert (a + b)[1..] == a[1..] + b;
      SeenAppend(a[1..], b);
      var head := if a[0].Did? then [a[0].event] else [];
      assert Seen(a + b) == head + (Seen(a[1..]) + Seen(b));
      assert head + (Seen(a[1..]) + Seen(b)) == head + Seen(a[1..]) + Seen(b);
    }
  }

  lemma {:induction false} DropsUnseen(es: seq<Create>)
    ensures Seen(DropAll(es)) == []
  {
    if es != [] {
      DropsUnseen(es[1..]);
      assert DropAll(es)[1..] == DropAll(es[1..]);
    }
  }

  lemma {:induction false} AfterAppend(c: Conn, a: seq<ConnEvent>, b: seq<ConnEvent>)
    ensures SI.AfterConn(c, a + b) == SI.AfterConn(SI.AfterConn(c, a), b)
    decreases |a|
  {
    hide HandleConn;
    if a == [] {
      assert a + b == b;
    } else {
      assert (a + b)[1..] == a[1..] + b;
      AfterAppend(HandleConn(c, a[0]).c, a[1..], b);
    }
  }

  lemma AfterOne(c: Conn, e: ConnEvent)
    ensures SI.AfterConn(c, [e]) == HandleConn(c, e).c
  {
    hide HandleConn;
    assert [e][1..] == [];
  }

  lemma TurnSeen(g: Engine, w: Work)
    ensures Process(g, w).g.conn == SI.AfterConn(g.conn, Seen(Process(g, w).deeds))
  {
    hide HandleConn;
    if w.One? && !(IsCreate(w.event) && PreConnected(g.conn)) {
      AfterOne(g.conn, w.event);
      SeenAppend([Did(w.event)], DropAll(g.waiting));
      DropsUnseen(g.waiting);
      SeenOne(w.event);
    }
  }

  lemma SeenOne(e: ConnEvent)
    ensures Seen([Did(e)]) == [e] && Seen([Did(e)]) + [] == [e]
  {
    assert [Did(e)][1..] == [];
  }

  /** The engine is a scheduler: what it does to the connection is a run of the connection on the events it did. */
  lemma {:induction false} EngineRuns(g: Engine, work: seq<Work>)
    ensures WorkOff(g, work).g.conn == SI.AfterConn(g.conn, Seen(WorkOff(g, work).deeds))
    decreases Weight(work), |work|
  {
    hide Process, HandleConn, Weight;
    if work != [] {
      var t := Process(g, work[0]);
      TurnShrinks(g, work);
      var next := t.front + work[1..];
      EngineRuns(t.g, next);
      TurnSeen(g, work[0]);
      SeenAppend(t.deeds, WorkOff(t.g, next).deeds);
      AfterAppend(g.conn, Seen(t.deeds), Seen(WorkOff(t.g, next).deeds));
    }
  }

  /** What the engine puts out for its deeds: what the connection puts out, and a failure for a dropped request. */
  function Emitted(c: Conn, deeds: seq<Deed>): seq<Output>
    decreases |deeds|
  {
    if deeds == [] then []
    else
      match deeds[0]
      case Did(e) => HandleConn(c, e).out + Emitted(HandleConn(c, e).c, deeds[1..])
      case Dropped(e) => [Fail(RequestOf(e), Some(ERR_LIB_CONNECTION_STATE_ERROR))] + Emitted(c, deeds[1..])
  }

  lemma {:induction false} EmittedAppend(c: Conn, a: seq<Deed>, b: seq<Deed>)
    ensures Emitted(c, a + b) == Emitted(c, a) + Emitted(SI.AfterConn(c, Seen(a)), b)
    decreases |a|
  {
    hide HandleConn;
    if a == [] {
      assert a + b == b;
    } else {
      assert (a + b)[1..] == a[1..] + b;
      match a[0] {
        case Did(e) =>
          EmittedAppend(HandleConn(c, e).c, a[1..], b);
          SeenAppend([a[0]], a[1..]);
          SeenOne(e);
          assert [a[0]] + a[1..] == a;
          AfterAppend(c, [e], Seen(a[1..]));
          AfterOne(c, e);
        case Dropped(e) =>
          EmittedAppend(c, a[1..], b);
          assert Seen(a) == Seen(a[1..]);
      }
    }
  }

  lemma {:induction false} DropsEmitted(c: Conn, es: seq<Create>)
    ensures Emitted(c, DropAll(es)) == FailWaiting(es)
  {
    hide HandleConn;
    if es != [] {
      DropsEmitted(c, es[1..]);
      assert DropAll(es)[1..] == DropAll(es[1..]);
    }
  }

  lemma TurnEmits(g: Engine, w: Work)
    ensures Process(g, w).out == Emitted(g.conn, Process(g, w).deeds)
  {
    hide HandleConn;
    if w.One? && !(IsCreate(w.event) && PreConnected(g.conn)) {
      EmittedOne(g.conn, w.event);
      EmittedAppend(g.conn, [Did(w.event)], DropAll(g.waiting));
      DropsEmitted(SI.AfterConn(g.conn, Seen([Did(w.event)])), g.waiting);
    }
  }

  lemma EmittedOne(c: Conn, e: ConnEvent)
    ensures Emitted(c, [Did(e)]) == HandleConn(c, e).out
  {
    hide HandleConn;
    assert [Did(e)][1..] == [];
    assert HandleConn(c, e).out + [] == HandleConn(c, e).out;
  }

  /** What the engine puts out is what its deeds put out, in order: nothing is lost or added on the way. */
  lemma {:induction false} EngineEmits(g: Engine, work: seq<Work>)
    ensures WorkOff(g, work).out == Emitted(g.conn, WorkOff(g, work).deeds)
    decreases Weight(work), |work|
  {
    hide Process, HandleConn, Weight, Emitted;
    if work == [] {
      NothingEmitted(g.conn);
    } else {
      var t := Process(g, work[0]);
      TurnShrinks(g, work);
      var next := t.front + work[1..];
      EngineEmits(t.g, next);
      TurnEmits(g, work[0]);
      TurnSeen(g, work[0]);
      EmittedAppend(g.conn, t.deeds, WorkOff(t.g, next).deeds);
    }
  }

  lemma NothingEmitted(c: Conn)
    ensures Emitted(c, []) == []
  {
  }

  // ----- order

  /** The requests among some events. */
  function CreatesOf(es: seq<ConnEvent>): seq<ConnEvent> {
    if es == [] then [] else (if IsCreate(es[0]) then [es[0]] else []) + CreatesOf(es[1..])
  }

  function Submitted(work: seq<Work>): seq<ConnEvent> {
    if work == [] then []
    else (match work[0] case One(e) => CreatesOf([e]) case Raw(produced) => CreatesOf(produced)) + Submitted(work[1..])
  }

  /** The requests that were run or failed, in the order in which that happened. */
  function Settled(deeds: seq<Deed>): seq<ConnEvent> {
    if deeds == [] then []
    else (match deeds[0] case Did(e) => CreatesOf([e]) case Dropped(e) => [e]) + Settled(deeds[1..])
  }

  lemma {:induction false} SubmittedAppend(a: seq<Work>, b: seq<Work>)
    ensures Submitted(a + b) == Submitted(a) + Submitted(b)
  {
    if a == [] {
      assert a + b == b;
    } else {
      assert (a + b)[1..] == a[1..] + b;
      SubmittedAppend(a[1..], b);
    }
  }

  lemma {:induction false} SettledAppend(a: seq<Deed>, b: seq<Deed>)
    ensures Settled(a + b) == Settled(a) + Settled(b)
  {
    if a == [] {
      assert a + b == b;
    } else {
      assert (a + b)[1..] == a[1..] + b;
      SettledAppend(a[1..], b);
    }
  }

  lemma CreatesOne(e: ConnEvent)
    ensures CreatesOf([e]) == if IsCreate(e) then [e] else []
  {
    assert [e][1..] == [];
  }

  lemma {:induction false} OnesSubmitted(es: seq<ConnEvent>)
    ensures Submitted(Ones(es)) == CreatesOf(es)
  {
    if es != [] {
      OnesSubmitted(es[1..]);
      CreatesOne(es[0]);
      assert Ones(es)[1..] == Ones(es[1..]);
    }
  }

  lemma {:induction false} CreatesAll(es: seq<Create>)
    ensures CreatesOf(es) == es
  {
    if es != [] {
      CreatesAll(es[1..]);
    }
  }

  lemma {:induction false} DropsSettled(es: seq<Create>)
    ensures Settled(DropAll(es)) == es
  {
    if es != [] {
      DropsSettled(es[1..]);
      assert DropAll(es)[1..] == DropAll(es[1..]);
    }
  }

  /** Only a client that is not connected yet lets requests wait. */
  ghost predicate Patient(g: Engine) {
    g.waiting != [] ==> PreConnected(g.conn)
  }

  lemma NewEngineOk(isClient: bool, limits: EE.Limits, request: Option<RequestId>)
    ensures Patient(Engine(NewConn(isClient, limits, request), []))
  {
  }

  lemma PhasesMove(c: Conn, e: ConnEvent)
    requires PreConnected(c) && !e.CloseNow? && !e.Terminated?
    ensures var d := HandleConn(c, e).c; PreConnected(d) || Connects(e, d)
  {
    hide HandleConn;
    if AboutConnection(e) {
      TE.AboutPhase(c, e);
      if e.Handshake? || e.SettingsArrived? {
        TE.OpeningPhase(c);
        OpeningDispatch(c);
      }
    } else {
      TE.PhaseStays(c, e);
    }
  }

  lemma OpeningDispatch(c: Conn)
    ensures HandleConn(c, Handshake) == HandshakeDone(c) && HandleConn(c, SettingsArrived) == SettingsSeen(c)
  {
    hide HandshakeDone, SettingsSeen;
  }

  lemma TurnPatient(g: Engine, w: Work)
    requires Patient(g)
    ensures Patient(Process(g, w).g)
  {
    hide HandleConn;
    if g.waiting != [] && w.One? && !IsCreate(w.event) && !w.event.CloseNow? && !w.event.Terminated? {
      PhasesMove(g.conn, w.event);
    }
  }

  /** The requests that wait, are put back or are settled in a turn are those that waited or came, in order. */
  lemma TurnOrder(g: Engine, w: Work)
    requires Patient(g)
    ensures var t := Process(g, w);
            Settled(t.deeds) + t.g.waiting + Submitted(t.front) == g.waiting + Submitted([w])
  {
    hide HandleConn, CreatesOf, Submitted, Settled, DropAll, Ones;
    SubmittedOne(w);
    NothingSubmitted();
    match w {
      case Raw(produced) =>
        OnesSubmitted(produced);
      case One(e) =>
        CreatesOne(e);
        if IsCreate(e) && PreConnected(g.conn) {
        } else {
          SettledOne(e);
          OnesSubmitted(g.waiting);
          CreatesAll(g.waiting);
          SettledAppend([Did(e)], DropAll(g.waiting));
          DropsSettled(g.waiting);
        }
    }
  }

  lemma SubmittedOne(w: Work)
    ensures Submitted([w]) == match w case One(e) => CreatesOf([e]) case Raw(produced) => CreatesOf(produced)
  {
    assert [w][1..] == [];
  }

  lemma SettledOne(e: ConnEvent)
    ensures Settled([Did(e)]) == CreatesOf([e])
  {
    assert [Did(e)][1..] == [];
  }

  lemma NothingSubmitted()
    ensures Submitted([]) == [] && Settled([]) == []
  {
  }

  /** Order is kept: the requests run or failed, followed by those that still wait, are the requests that waited
      followed by those that came, each once and in the order of submission. */
  lemma {:induction false} InOrder(g: Engine, work: seq<Work>)
    requires Patient(g)
    ensures Patient(WorkOff(g, work).g)
    ensures Settled(WorkOff(g, work).deeds) + WorkOff(g, work).g.waiting == g.waiting + Submitted(work)
    decreases Weight(work), |work|
  {
    hide Process, Patient, Weight, Settled, Submitted;
    if work == [] {
      NothingSubmitted();
    } else {
      var t := Process(g, work[0]);
      TurnShrinks(g, work);
      var next := t.front + work[1..];
      TurnPatient(g, work[0]);
      TurnOrder(g, work[0]);
      InOrder(t.g, next);
      var rest := WorkOff(t.g, next);
      SettledAppend(t.deeds, rest.deeds);
      SubmittedAppend(t.front, work[1..]);
      SubmittedAppend([work[0]], work[1..]);
      assert [work[0]] + work[1..] == work;
      Regroup(Settled(t.deeds), Settled(rest.deeds), rest.g.waiting, t.g.waiting, Submitted(t.front), Submitted(work[1..]),
              g.waiting, Submitted([work[0]]));
    }
  }

  lemma Regroup(done: seq<ConnEvent>, later: seq<ConnEvent>, left: seq<ConnEvent>, waiting: seq<ConnEvent>, front: seq<ConnEvent>,
                rest: seq<ConnEvent>, before: seq<ConnEvent>, came: seq<ConnEvent>)
    requires later + left == waiting + (front + rest)
    requires done + waiting + front == before + came
    ensures done + later + left == before + (came + rest)
  {
    calc {
      done + later + left;
      done + (later + left);
      done + (waiting + (front + rest));
      done + waiting + front + rest;
      before + came + rest;
      before + (came + rest);
    }
  }

  // ----- whole runs of the engine

  function Calls(g: Engine, ws: seq<Work>): Result
    decreases |ws|
  {
    if ws == [] then Result(g, [], [])
    else
      var first := HandleEvent(g, ws[0]);
      var rest := Calls(first.g, ws[1..]);
      Result(rest.g, first.out + rest.out, first.deeds + rest.deeds)
  }

  /** In every run of an engine, over any number of calls, each request is run once, failed once, or still waits,
      and all of this happens in the order of submission. */
  lemma {:induction false} OnceInOrder(g: Engine, ws: seq<Work>)
    requires Patient(g)
    ensures Patient(Calls(g, ws).g)
    ensures Settled(Calls(g, ws).deeds) + Calls(g, ws).g.waiting == g.waiting + Submitted(ws)
    decreases |ws|
  {
    hide WorkOff, Patient, Settled, Submitted;
    if ws == [] {
      NothingSubmitted();
    } else {
      var first := HandleEvent(g, ws[0]);
      InOrder(g, [ws[0]]);
      OnceInOrder(first.g, ws[1..]);
      var rest := Calls(first.g, ws[1..]);
      SettledAppend(first.deeds, rest.deeds);
      SubmittedAppend([ws[0]], ws[1..]);
      assert [ws[0]] + ws[1..] == ws;
      Regroup(Settled(first.deeds), Settled(rest.deeds), rest.g.waiting, first.g.waiting, [], Submitted(ws[1..]),
              g.waiting, Submitted([ws[0]]));
    }
  }

  /** A run of the engine is a run of its connection. */
  lemma {:induction false} CallsRun(g: Engine, ws: seq<Work>)
    ensures Calls(g, ws).g.conn == SI.AfterConn(g.conn, Seen(Calls(g, ws).deeds))
    decreases |ws|
  {
    hide WorkOff;
    if ws != [] {
      var first := HandleEvent(g, ws[0]);
      var rest := Calls(first.g, ws[1..]);
      EngineRuns(g, [ws[0]]);
      CallsRun(first.g, ws[1..]);
      SeenAppend(first.deeds, rest.deeds);
      AfterAppend(g.conn, Seen(first.deeds), Seen(rest.deeds));
    }
  }

  // ----- the end

  /** An engine whose connection has ended keeps nothing waiting. */
  ghost predicate Finished(g: Engine) {
    TE.Dead(g.conn) && g.waiting == []
  }

  lemma TurnFinished(g: Engine, w: Work)
    requires Finished(g)
    ensures Finished(Process(g, w).g)
    ensures w.One? ==>
              var o := HandleConn(g.conn, w.event);
              Process(g, w) == Round(g.(conn := o.c), o.out, [], [Did(w.event)])
  {
    DeadPhase(g.conn);
    hide HandleConn, TE.Dead;
    if w.One? {
      TE.DeadStays(g.conn, w.event);
      DeadPhase(HandleConn(g.conn, w.event).c);
      assert HandleConn(g.conn, w.event).out + [] == HandleConn(g.conn, w.event).out;
    }
  }

  lemma DeadPhase(c: Conn)
    requires TE.Dead(c)
    ensures c.phase == Ended && !PreConnected(c)
  {
  }

  lemma {:induction false} StaysFinished(g: Engine, work: seq<Work>)
    requires Finished(g)
    ensures Finished(WorkOff(g, work).g)
    decreases Weight(work), |work|
  {
    hide Process, Finished, Weight;
    if work != [] {
      var t := Process(g, work[0]);
      TurnShrinks(g, work);
      TurnFinished(g, work[0]);
      StaysFinished(t.g, t.front + work[1..]);
    }
  }

  lemma {:induction false} CallsFinished(g: Engine, ws: seq<Work>)
    requires Finished(g)
    ensures Finished(Calls(g, ws).g)
    decreases |ws|
  {
    hide WorkOff, Finished;
    if ws != [] {
      StaysFinished(g, [ws[0]]);
      CallsFinished(HandleEvent(g, ws[0]).g, ws[1..]);
    }
  }

  /** The call that ends the connection leaves nothing waiting. */
  lemma EndFinishes(g: Engine, code: ErrorCode)
    requires TE.AliveOrDead(g.conn)
    ensures Finished(HandleEvent(g, One(Terminated(code))).g)
  {
    TE.KilledBy(g.conn, code);
    DeadPhase(HandleConn(g.conn, Terminated(code)).c);
    hide HandleConn, TE.Dead, TE.AliveOrDead, FailWaiting, DropAll, Weight;
    OneTurn(g, One(Terminated(code)));
  }

  /** A call that puts nothing in front is over after one turn. */
  lemma OneTurn(g: Engine, w: Work)
    requires Process(g, w).front == []
    ensures var t := Process(g, w); HandleEvent(g, w) == Result(t.g, t.out, t.deeds)
  {
    hide Process, Weight;
    var t := Process(g, w);
    TurnShrinks(g, [w]);
    assert [w][0] == w && t.front + [w][1..] == [];
    assert WorkOff(t.g, []) == Result(t.g, [], []);
    assert t.out + [] == t.out && t.deeds + [] == t.deeds;
  }

  lemma CallsAliveOrDead(g: Engine, ws: seq<Work>)
    requires TE.AliveOrDead(g.conn) && CI.AllowedConnRun(g.conn, Seen(Calls(g, ws).deeds))
    ensures TE.AliveOrDead(Calls(g, ws).g.conn)
  {
    hide TE.AliveOrDead, CI.AllowedConnRun, Calls, Seen, SI.AfterConn;
    CallsRun(g, ws);
    TE.AliveOrDeadRun(g.conn, Seen(Calls(g, ws).deeds));
  }

  /** After any allowed run, the end of the connection, and whatever else happens then, the engine answers each user
      event in the call that brings it: once, and with nothing else. */
  lemma AnsweredAtOnce(g: Engine, vs: seq<Work>, code: ErrorCode, ws: seq<Work>, e: ConnEvent)
    requires TE.AliveOrDead(g.conn) && CI.AllowedConnRun(g.conn, Seen(Calls(g, vs).deeds)) && TE.AskedBy(e).Some?
    ensures var h := Calls(HandleEvent(Calls(g, vs).g, One(Terminated(code))).g, ws).g;
            Finished(h) && TE.OneAnswer(HandleEvent(h, One(e)).out, TE.AskedBy(e).value)
  {
    hide HandleConn, TE.Dead, TE.AliveOrDead, HandleEvent, Process, Calls, CI.AllowedConnRun, Seen;
    var f := Calls(g, vs).g;
    CallsAliveOrDead(g, vs);
    EndFinishes(f, code);
    CallsFinished(HandleEvent(f, One(Terminated(code))).g, ws);
    var h := Calls(HandleEvent(f, One(Terminated(code))).g, ws).g;
    TurnFinished(h, One(e));
    OneTurn(h, One(e));
    TE.DeadAnswers(h.conn, e);
  }

  /** A client whose connection opens runs everything that waited in that very call. */
  lemma {:induction false} NoCreateWaits(g: Engine, work: seq<Work>)
    requires g.waiting == [] && !PreConnected(g.conn) && g.conn.phase == Established
    requires forall i :: 0 <= i < |work| ==> work[i].One? && IsCreate(work[i].event)
    ensures WorkOff(g, work).g.waiting == [] && Seen(WorkOff(g, work).deeds) == CreatesOf(Events(work))
    decreases |work|
  {
    hide HandleConn, Weight;
    if work != [] {
      var e := work[0].event;
      var t := Process(g, work[0]);
      CreateKeepsPhase(g.conn, e);
      assert t == Round(g.(conn := HandleConn(g.conn, e).c), HandleConn(g.conn, e).out, [], [Did(e)]);
      TurnShrinks(g, work);
      assert t.front + work[1..] == work[1..];
      NoCreateWaits(t.g, work[1..]);
      SeenAppend([Did(e)], WorkOff(t.g, work[1..]).deeds);
      SeenOne(e);
    }
  }

  function Events(work: seq<Work>): seq<ConnEvent> {
    if work == [] then [] else (if work[0].One? then [work[0].event] else work[0].produced) + Events(work[1..])
  }

  lemma CreateKeepsPhase(c: Conn, e: ConnEvent)
    requires IsCreate(e)
    ensures TE.SameRole(c, HandleConn(c, e).c)
  {
    hide HandleConn;
    if e.MakeSession? {
      TE.AboutPhase(c, e);
    } else {
      TE.PhaseStays(c, e);
    }
  }

  lemma {:induction false} OnesEvents(es: seq<ConnEvent>)
    ensures Events(Ones(es)) == es && |Ones(es)| == |es|
    ensures forall i :: 0 <= i < |es| ==> Ones(es)[i] == One(es[i])
  {
    if es != [] {
      OnesEvents(es[1..]);
      assert Ones(es)[1..] == Ones(es[1..]);
    }
  }

  /** When the handshake or the settings complete the connection, the requests that waited are given to it, in
      order, in that very call, and none waits any more. */
  lemma ConnectedRunsAll(g: Engine, e: ConnEvent)
    requires Connects(e, HandleConn(g.conn, e).c)
    ensures var r := HandleEvent(g, One(e)); r.g.waiting == [] && Seen(r.deeds) == [e] + g.waiting
  {
    hide HandleConn, Weight;
    var t := Process(g, One(e));
    TurnShrinks(g, [One(e)]);
    assert t == Round(Engine(HandleConn(g.conn, e).c, []), HandleConn(g.conn, e).out, Ones(g.waiting), [Did(e)]);
    assert [One(e)][1..] == [] && t.front + [] == t.front;
    OnesEvents(g.waiting);
    CreatesAll(g.waiting);
    NoCreateWaits(t.g, t.front);
    SeenAppend([Did(e)], WorkOff(t.g, t.front).deeds);
    SeenOne(e);
  }
}
