/** The waker between the reactor thread and the Python event loop: one atomic flag, one byte pipe and a shared
    event queue, under every interleaving of the atomic steps of the two sides. */
module Waker {

  type Event = nat

  /** What the event queue holds; a push to a full queue fails and the event is dropped. */
  const CAPACITY: nat := 65536

  /** Where the reactor stands. `Writing` lies between its swap of the flag and its write to the pipe. */
  datatype Next = ResetFlag | Leave | Finish
  datatype ReactorAt = Working | Writing(next: Next) | Resetting | Leaving | Notifying | Stopped

  /** Where the Python loop stands: waiting to receive, draining the pipe, about to clear the flag, polling. */
  datatype LoopAt = Waiting | Draining | Clearing | Polling

  datatype State = State(
    signaled: bool,
    pipe: nat,
    queue: seq<Event>,
    emitted: bool,
    reactor: ReactorAt,
    loop: LoopAt,
    offered: seq<Event>,
    pushed: seq<Event>,
    dropped: nat,
    delivered: seq<Event>)

  function Initial(): State {
    State(false, 0, [], false, Working, Waiting, [], [], 0, [])
  }

  datatype Step =
    | Push(event: Event)
    | SwapInLoop
    | Write
    | Reset
    | Quit
    | Notify(event: Event)
    | SwapAtEnd
    | Receive(n: nat)
    | DrainSome(n: nat)
    | DrainBlocked
    | Clear
    | Pop
    | PollDone

  predicate Enabled(s: State, step: Step) {
    match step
    case Push(_) => s.reactor == Working
    case SwapInLoop => s.reactor == Working && s.emitted
    case Write => s.reactor.Writing?
    case Reset => s.reactor == Resetting
    case Quit => s.reactor == Working
    case Notify(_) => s.reactor == Leaving
    case SwapAtEnd => s.reactor == Notifying
    case Receive(n) => s.loop == Waiting && 1 <= n <= s.pipe
    case DrainSome(n) => s.loop == Draining && 1 <= n <= s.pipe
    case DrainBlocked => s.loop == Draining && s.pipe == 0
    case Clear => s.loop == Clearing
    case Pop => s.loop == Polling && s.queue != []
    case PollDone => s.loop == Polling && s.queue == []
  }

  /** `wake`: swap the flag, and write a byte only if it was clear. */
  function Swap(s: State, next: Next): State {
    if !s.signaled then s.(signaled := true, reactor := Writing(next))
    else s.(reactor := After(next))
  }

  function After(next: Next): ReactorAt {
    match next
    case ResetFlag => Resetting
    case Leave => Leaving
    case Finish => Stopped
  }

  predicate Full(s: State) {
    |s.queue| >= CAPACITY
  }

  /** A push to the event queue. */
  function Enqueue(s: State, event: Event): State {
    var o := s.(offered := s.offered + [event]);
    if Full(s) then o.(dropped := s.dropped + 1) else o.(queue := s.queue + [event], pushed := s.pushed + [event])
  }

  function Do(s: State, step: Step): State
    requires Enabled(s, step)
  {
    match step
    case Push(event) => Enqueue(s, event).(emitted := s.emitted || !Full(s))
    case SwapInLoop => Swap(s, ResetFlag)
    case Write => s.(pipe := s.pipe + 1, reactor := After(s.reactor.next))
    case Reset => s.(emitted := false, reactor := Working)
    case Quit => if s.emitted then Swap(s, Leave) else s.(reactor := Leaving)
    case Notify(event) => Enqueue(s, event).(reactor := Notifying)
    case SwapAtEnd => Swap(s, Finish)
    case Receive(n) => s.(pipe := s.pipe - n, loop := Draining)
    case DrainSome(n) => s.(pipe := s.pipe - n)
    case DrainBlocked => s.(loop := Clearing)
    case Clear => s.(signaled := false, loop := Polling)
    case Pop => s.(queue := s.queue[1..], delivered := s.delivered + [s.queue[0]])
    case PollDone => s.(loop := Waiting)
  }

  /** A raised flag stands for exactly one wakeup: the byte in the pipe, the byte about to be written, or the
      loop being on its way to the clear. A lowered flag stands for none. */
  ghost predicate OneToken(s: State) {
    (if s.reactor.Writing? then 1 else 0) + s.pipe + (if s.loop == Draining || s.loop == Clearing then 1 else 0)
    == if s.signaled then 1 else 0
  }

  /** An event in the queue is announced: the reactor still has to wake, or the flag is up, or the loop is polling. */
  ghost predicate Announced(s: State) {
    s.queue != [] ==> s.signaled || s.loop == Polling || (s.emitted && s.reactor == Working) || s.reactor == Notifying
  }

  /** What the queue took has been delivered or waits, in order. */
  ghost predicate InOrder(s: State) {
    s.delivered + s.queue == s.pushed && |s.queue| <= CAPACITY
  }

  ghost predicate Inv(s: State) {
    OneToken(s) && Announced(s) && InOrder(s)
  }

  lemma TokenKept(s: State, step: Step)
    requires OneToken(s) && Enabled(s, step)
    ensures OneToken(Do(s, step))
  {
    hide Full;
  }

  lemma AnnouncedKept(s: State, step: Step)
    requires OneToken(s) && Announced(s) && Enabled(s, step)
    ensures Announced(Do(s, step))
  {
    hide Full;
  }

  lemma EnqueueInOrder(s: State, event: Event)
    requires InOrder(s)
    ensures InOrder(Enqueue(s, event))
  {
    assert s.delivered + (s.queue + [event]) == s.delivered + s.queue + [event];
  }

  lemma PopInOrder(s: State)
    requires InOrder(s) && s.queue != []
    ensures InOrder(s.(queue := s.queue[1..], delivered := s.delivered + [s.queue[0]]))
  {
    assert s.delivered + [s.queue[0]] + s.queue[1..] == s.delivered + s.queue;
  }

  lemma OrderKept(s: State, step: Step)
    requires InOrder(s) && Enabled(s, step)
    ensures InOrder(Do(s, step))
  {
    hide Enqueue, Full;
    match step {
      case Push(event) => EnqueueInOrder(s, event);
      case Notify(event) => EnqueueInOrder(s, event);
      case Pop => PopInOrder(s);
      case _ =>
    }
  }

  lemma DoKeeps(s: State, step: Step)
    requires Inv(s) && Enabled(s, step)
    ensures Inv(Do(s, step))
  {
    hide OneToken, Announced, InOrder, Do, Enabled;
    TokenKept(s, step);
    AnnouncedKept(s, step);
    OrderKept(s, step);
  }

  predicate EnabledRun(s: State, steps: seq<Step>)
    decreases |steps|
  {
    steps != [] ==> Enabled(s, steps[0]) && EnabledRun(Do(s, steps[0]), steps[1..])
  }

  function Run(s: State, steps: seq<Step>): State
    requires EnabledRun(s, steps)
    decreases |steps|
  {
    if steps == [] then s else Run(Do(s, steps[0]), steps[1..])
  }

  lemma {:induction false} RunKeeps(s: State, steps: seq<Step>)
    requires Inv(s) && EnabledRun(s, steps)
    ensures Inv(Run(s, steps))
    decreases |steps|
  {
    if steps != [] {
      DoKeeps(s, steps[0]);
      RunKeeps(Do(s, steps[0]), steps[1..]);
    }
  }

  // ----- what the queue takes

  predicate Pushes(step: Step) {
    step.Push? || step.Notify?
  }

  /** The events pushed in a run, whether the queue has room for them or not. */
  function Offers(steps: seq<Step>): seq<Event> {
    if steps == [] then [] else (if Pushes(steps[0]) then [steps[0].event] else []) + Offers(steps[1..])
  }

  /** Those of them that find room. */
  function Taken(s: State, steps: seq<Step>): seq<Event>
    requires EnabledRun(s, steps)
    decreases |steps|
  {
    if steps == [] then []
    else (if Pushes(steps[0]) && !Full(s) then [steps[0].event] else []) + Taken(Do(s, steps[0]), steps[1..])
  }

  lemma StepTakes(s: State, step: Step)
    requires Enabled(s, step)
    ensures var t := Do(s, step);
            && t.offered == s.offered + (if Pushes(step) then [step.event] else [])
            && t.pushed == s.pushed + (if Pushes(step) && !Full(s) then [step.event] else [])
            && t.dropped == s.dropped + (if Pushes(step) && Full(s) then 1 else 0)
            && (!Pushes(step) || !Full(s) ==> |t.queue| == |s.queue| + Change(step))
  {
  }

  /** The books of a run: what was offered, what was taken, and how many are missing. */
  lemma {:induction false} RunTakes(s: State, steps: seq<Step>)
    requires EnabledRun(s, steps)
    ensures var t := Run(s, steps);
            && t.offered == s.offered + Offers(steps) && t.pushed == s.pushed + Taken(s, steps)
            && t.dropped + |Taken(s, steps)| == s.dropped + |Offers(steps)|
    decreases |steps|
  {
    hide Do, Enabled, Pushes, Full;
    if steps != [] {
      StepTakes(s, steps[0]);
      RunTakes(Do(s, steps[0]), steps[1..]);
    }
  }

  /** By how much a step lengthens a queue that has room. */
  function Change(step: Step): int {
    if Pushes(step) then 1 else if step.Pop? then -1 else 0
  }

  /** Pushes less pops. */
  function Backlog(steps: seq<Step>): int {
    if steps == [] then 0 else Change(steps[0]) + Backlog(steps[1..])
  }

  /** A queue of n events has room for a run: it never gets more than CAPACITY ahead of the pops. */
  ghost predicate Fits(n: int, steps: seq<Step>) {
    forall k :: 0 <= k <= |steps| ==> n + Backlog(steps[..k]) <= CAPACITY
  }

  lemma FitsHead(n: int, steps: seq<Step>)
    requires steps != [] && n <= CAPACITY
    ensures Fits(n, steps) <==> n + Change(steps[0]) <= CAPACITY && Fits(n + Change(steps[0]), steps[1..])
  {
    var head, rest := steps[0], steps[1..];
    assert forall k :: 0 <= k <= |rest| ==> steps[..k + 1][1..] == rest[..k] && steps[..k + 1][0] == head;
    if Fits(n, steps) {
      forall k | 0 <= k <= |rest| ensures n + Change(head) + Backlog(rest[..k]) <= CAPACITY {
        assert n + Backlog(steps[..k + 1]) <= CAPACITY;
      }
      assert n + Change(head) + Backlog(rest[..0]) <= CAPACITY;
    } else {
      var k :| 0 <= k <= |steps| && n + Backlog(steps[..k]) > CAPACITY;
      if k > 0 {
        assert steps[..k][1..] == rest[..k - 1];
        assert n + Change(head) + Backlog(rest[..k - 1]) > CAPACITY;
      }
    }
  }

  lemma {:induction false} TakenAtMost(s: State, steps: seq<Step>)
    requires EnabledRun(s, steps)
    ensures |Taken(s, steps)| <= |Offers(steps)|
    decreases |steps|
  {
    hide Do, Enabled, Full;
    if steps != [] {
      TakenAtMost(Do(s, steps[0]), steps[1..]);
    }
  }

  /** Nothing is dropped exactly as long as the run fits. */
  lemma {:induction false} TakenAll(s: State, steps: seq<Step>)
    requires EnabledRun(s, steps) && |s.queue| <= CAPACITY
    ensures |Taken(s, steps)| == |Offers(steps)| <==> Fits(|s.queue|, steps)
    ensures Fits(|s.queue|, steps) ==> Taken(s, steps) == Offers(steps)
    decreases |steps|
  {
    hide Do, Enabled, Fits;
    if steps == [] {
      NothingFits(|s.queue|);
    } else {
      var t := Do(s, steps[0]);
      FitsHead(|s.queue|, steps);
      StepTakes(s, steps[0]);
      TakenAtMost(t, steps[1..]);
      if !(Pushes(steps[0]) && Full(s)) {
        TakenAll(t, steps[1..]);
      }
    }
  }

  lemma NothingFits(n: int)
    requires n <= CAPACITY
    ensures Fits(n, [])
  {
  }

  // ----- the promises

  /** Under every interleaving: when events are queued and the loop waits, a byte is in the pipe, or the reactor
      is between its swap and its write, or it still has to wake. The pipe never holds more than one byte, so
      the write never finds it full. What was delivered and what is queued are, in order, the events pushed in the
      run without exactly those that found the queue full. */
  lemma NoLostWakeup(steps: seq<Step>)
    requires EnabledRun(Initial(), steps)
    ensures var s := Run(Initial(), steps);
            && (s.queue != [] && s.loop == Waiting ==>
                  s.pipe == 1 || s.reactor.Writing? || (s.emitted && s.reactor == Working) || s.reactor == Notifying)
            && s.pipe <= 1 && (s.reactor.Writing? ==> s.pipe == 0)
            && s.offered == Offers(steps) && s.delivered + s.queue == s.pushed == Taken(Initial(), steps)
            && |s.queue| <= CAPACITY && |s.offered| == |s.pushed| + s.dropped
  {
    hide Enabled, Do, EnabledRun, Run;
    RunKeeps(Initial(), steps);
    RunTakes(Initial(), steps);
    assert Initial().offered + Offers(steps) == Offers(steps);
    assert Initial().pushed + Taken(Initial(), steps) == Taken(Initial(), steps);
  }

  /** Nothing pushed is lost if and only if at no point of the run the pushes are more than CAPACITY ahead of the
      pops, however the two sides interleave otherwise. */
  lemma LostExactly(steps: seq<Step>)
    requires EnabledRun(Initial(), steps)
    ensures var s := Run(Initial(), steps);
            && (s.pushed == s.offered <==> Fits(0, steps))
            && (s.dropped == 0 <==> Fits(0, steps))
  {
    hide Enabled, Do, EnabledRun, Run, Fits, Taken;
    NoLostWakeup(steps);
    TakenAll(Initial(), steps);
  }

  function Burst(first: Event, n: nat): seq<Step>
    decreases n
  {
    if n == 0 then [] else [Push(first)] + Burst(first + 1, n - 1)
  }

  lemma {:induction false} BurstFrom(s: State, n: nat)
    requires s.reactor == Working && |s.queue| + n <= CAPACITY + 1
    ensures var steps := Burst(|s.queue|, n);
            && EnabledRun(s, steps)
            && Run(s, steps).dropped == s.dropped + (if |s.queue| + n == CAPACITY + 1 && n > 0 then 1 else 0)
    decreases n
  {
    if n > 0 {
      var steps := Burst(|s.queue|, n);
      var t := Do(s, steps[0]);
      assert steps[1..] == Burst(|s.queue| + 1, n - 1);
      if !Full(s) {
        BurstFrom(t, n - 1);
      }
    }
  }

  /** A run that loses an event: a burst one longer than the queue. */
  lemma BurstLoses()
    ensures EnabledRun(Initial(), Burst(0, CAPACITY + 1)) && Run(Initial(), Burst(0, CAPACITY + 1)).dropped == 1
  {
    BurstFrom(Initial(), CAPACITY + 1);
  }

  /** When the reactor has nothing left to do and the loop waits on an empty pipe, everything was delivered. */
  lemma QuietMeansDelivered(steps: seq<Step>)
    requires EnabledRun(Initial(), steps)
    requires var s := Run(Initial(), steps);
             s.loop == Waiting && s.pipe == 0 && (s.reactor == Stopped || (s.reactor == Working && !s.emitted))
    ensures var s := Run(Initial(), steps);
            s.delivered == s.pushed
  {
    RunKeeps(Initial(), steps);
    var s := Run(Initial(), steps);
    assert s.queue == [] ==> s.delivered + [] == s.delivered;
  }
}
