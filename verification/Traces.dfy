/** What a list of effects amounts to: requests answered or lent to the transport, payload bytes sent,
    capsules sent, and the events shown for one stream. */
module Traces {
  import opened Types

  /** How often a request is answered. */
  function Answers(fx: seq<Effect>, r: RequestId): nat {
    if fx == [] then 0
    else (if (fx[0].Done? || fx[0].Failed?) && fx[0].request == r then 1 else 0) + Answers(fx[1..], r)
  }

  /** How often a request is handed to the transport with CreateQuicStream. */
  function Lends(fx: seq<Effect>, r: RequestId): nat {
    if fx == [] then 0
    else (if fx[0].CreateQuicStream? && fx[0].request == r then 1 else 0) + Lends(fx[1..], r)
  }

  /** How many streams of one kind the transport is asked to open. */
  function Creates(fx: seq<Effect>, uni: bool): nat {
    if fx == [] then 0
    else (if fx[0].CreateQuicStream? && fx[0].uni == uni then 1 else 0) + Creates(fx[1..], uni)
  }

  /** Payload bytes handed to the transport. */
  function SentBytes(fx: seq<Effect>): nat {
    if fx == [] then 0 else (if fx[0].SendQuicData? then |fx[0].data| else 0) + SentBytes(fx[1..])
  }

  function Capsules(fx: seq<Effect>): seq<Capsule> {
    if fx == [] then [] else (if fx[0].SendCapsule? then [fx[0].capsule] else []) + Capsules(fx[1..])
  }

  /** Events shown to the user for one stream. */
  function Shown(fx: seq<Effect>, id: StreamId): seq<StreamEvent> {
    if fx == [] then []
    else (if fx[0].EmitStream? && fx[0].stream == id then [fx[0].event] else []) + Shown(fx[1..], id)
  }

  lemma {:induction false} AnswersAppend(a: seq<Effect>, b: seq<Effect>, r: RequestId)
    ensures Answers(a + b, r) == Answers(a, r) + Answers(b, r)
  {
    if a == [] {
      assert a + b == b;
    } else {
      assert (a + b)[1..] == a[1..] + b;
      AnswersAppend(a[1..], b, r);
    }
  }

  lemma {:induction false} LendsAppend(a: seq<Effect>, b: seq<Effect>, r: RequestId)
    ensures Lends(a + b, r) == Lends(a, r) + Lends(b, r)
  {
    if a == [] {
      assert a + b == b;
    } else {
      assert (a + b)[1..] == a[1..] + b;
      LendsAppend(a[1..], b, r);
    }
  }

  lemma {:induction false} CreatesAppend(a: seq<Effect>, b: seq<Effect>, uni: bool)
    ensures Creates(a + b, uni) == Creates(a, uni) + Creates(b, uni)
  {
    if a == [] {
      assert a + b == b;
    } else {
      assert (a + b)[1..] == a[1..] + b;
      CreatesAppend(a[1..], b, uni);
    }
  }

  lemma {:induction false} SentAppend(a: seq<Effect>, b: seq<Effect>)
    ensures SentBytes(a + b) == SentBytes(a) + SentBytes(b)
  {
    if a == [] {
      assert a + b == b;
    } else {
      assert (a + b)[1..] == a[1..] + b;
      SentAppend(a[1..], b);
    }
  }

  lemma {:induction false} CapsulesAppend(a: seq<Effect>, b: seq<Effect>)
    ensures Capsules(a + b) == Capsules(a) + Capsules(b)
  {
    if a == [] {
      assert a + b == b;
    } else {
      assert (a + b)[1..] == a[1..] + b;
      CapsulesAppend(a[1..], b);
    }
  }

  lemma {:induction false} ShownAppend(a: seq<Effect>, b: seq<Effect>, id: StreamId)
    ensures Shown(a + b, id) == Shown(a, id) + Shown(b, id)
  {
    if a == [] {
      assert a + b == b;
    } else {
      assert (a + b)[1..] == a[1..] + b;
      ShownAppend(a[1..], b, id);
    }
  }

  /** Effects that neither lend a request nor send a capsule. */
  ghost predicate Plain(fx: seq<Effect>) {
    forall i :: 0 <= i < |fx| ==> !fx[i].SendCapsule? && !fx[i].CreateQuicStream?
  }

  /** Effects that show no stream event. */
  ghost predicate Silent(fx: seq<Effect>) {
    forall i :: 0 <= i < |fx| ==> !fx[i].EmitStream?
  }

  /** Effects that send no payload. */
  ghost predicate Mute(fx: seq<Effect>) {
    forall i :: 0 <= i < |fx| ==> !fx[i].SendQuicData?
  }

  lemma {:induction false} PlainFacts(fx: seq<Effect>)
    requires Plain(fx)
    ensures Capsules(fx) == [] && Creates(fx, false) == 0 && Creates(fx, true) == 0
    ensures forall r :: Lends(fx, r) == 0
  {
    if fx != [] {
      PlainFacts(fx[1..]);
    }
  }

  lemma {:induction false} SilentFacts(fx: seq<Effect>, id: StreamId)
    requires Silent(fx)
    ensures Shown(fx, id) == []
  {
    if fx != [] {
      SilentFacts(fx[1..], id);
    }
  }

  lemma {:induction false} MuteFacts(fx: seq<Effect>)
    requires Mute(fx)
    ensures SentBytes(fx) == 0
  {
    if fx != [] {
      MuteFacts(fx[1..]);
    }
  }

  function Count(requests: seq<RequestId>, r: RequestId): nat {
    if requests == [] then 0 else (if requests[0] == r then 1 else 0) + Count(requests[1..], r)
  }

  lemma {:induction false} CountAppend(a: seq<RequestId>, b: seq<RequestId>, r: RequestId)
    ensures Count(a + b, r) == Count(a, r) + Count(b, r)
  {
    if a == [] {
      assert a + b == b;
    } else {
      assert (a + b)[1..] == a[1..] + b;
      CountAppend(a[1..], b, r);
    }
  }

  lemma {:induction false} CountZero(requests: seq<RequestId>, r: RequestId)
    ensures Count(requests, r) == 0 <==> r !in requests
  {
    if requests != [] {
      CountZero(requests[1..], r);
      assert requests == [requests[0]] + requests[1..];
    }
  }

  lemma {:induction false} FailAllAnswers(requests: seq<RequestId>, error: Option<ErrorCode>, r: RequestId)
    ensures Answers(FailAll(requests, error), r) == Count(requests, r)
  {
    if requests != [] {
      FailAllAnswers(requests[1..], error, r);
      assert FailAll(requests, error)[1..] == FailAll(requests[1..], error);
    }
  }
}
