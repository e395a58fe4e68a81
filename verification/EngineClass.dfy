/** The engine as an object: its event loop over a double-ended work list. */
module EngineClass {
  import opened Types
  import opened Connections
  import CC = ConnectionClass
  import EG = Engines

  class Engine {
    const conn: CC.Connection
    var waiting: seq<EG.Create>

    constructor (conn: CC.Connection)
      ensures this.conn == conn && waiting == []
    {
      this.conn, waiting := conn, [];
    }

    ghost function Val(): EG.Engine
      reads this, conn, conn.early
    {
      EG.Engine(conn.Val(), waiting)
    }

    /** Take the waiting requests from the back and push each to the front of the work list. */
    method PutBack(work: seq<EG.Work>) returns (more: seq<EG.Work>)
      modifies this
      ensures waiting == [] && more == EG.Ones(old(waiting)) + work
    {
      more := work;
      while waiting != []
        invariant |waiting| <= |old(waiting)| && waiting == old(waiting)[..|waiting|]
        invariant EG.Ones(waiting) + more == EG.Ones(old(waiting)) + work
      {
        var last := waiting[|waiting| - 1];
        OnesLast(waiting);
        assert EG.Ones(waiting) + more == EG.Ones(waiting[..|waiting| - 1]) + ([EG.One(last)] + more);
        waiting := waiting[..|waiting| - 1];
        more := [EG.One(last)] + more;
      }
      assert EG.Ones(waiting) + more == more;
    }

    /** Fail the waiting requests, from the front. */
    method FailAll() returns (out: seq<Output>)
      modifies this
      ensures waiting == [] && out == EG.FailWaiting(old(waiting))
    {
      out := [];
      while waiting != []
        invariant out + EG.FailWaiting(waiting) == EG.FailWaiting(old(waiting))
        decreases |waiting|
      {
        var failure := Fail(EG.RequestOf(waiting[0]), Some(ERR_LIB_CONNECTION_STATE_ERROR));
        assert out + ([failure] + EG.FailWaiting(waiting[1..])) == out + [failure] + EG.FailWaiting(waiting[1..]);
        out := out + [failure];
        waiting := waiting[1..];
      }
    }

    /** One event from the head of the work list. */
    method Step(w: EG.Work, work: seq<EG.Work>) returns (out: seq<Output>, next: seq<EG.Work>)
      modifies this, conn, conn.early
      ensures var t := EG.Process(old(Val()), w); Val() == t.g && out == t.out && next == t.front + work
    {
      hide HandleConn, EG.Ones, EG.FailWaiting, EG.DropAll;
      match w {
        case Raw(produced) =>
          next := Front(produced, work);
          out := [];
        case One(e) =>
          if EG.IsCreate(e) && conn.isClient && (conn.phase == Idle || conn.phase == Handshaking) {
            waiting := waiting + [e];
            out, next := [], work;
          } else {
            out := conn.Handle(e);
            next := work;
            if (e.Handshake? || e.SettingsArrived?) && conn.isClient && conn.phase == Established {
              next := PutBack(work);
            } else if e.CloseNow? || e.Terminated? {
              var failures := FailAll();
              out := out + failures;
            }
          }
      }
    }

    /** The event loop: work until the list is empty. */
    method HandleEvent(w: EG.Work) returns (out: seq<Output>)
      modifies this, conn, conn.early
      ensures var r := EG.HandleEvent(old(Val()), w); Val() == r.g && out == r.out
    {
      hide EG.Process, HandleConn, EG.Weight;
      var work := [w];
      out := [];
      while work != []
        invariant var r := EG.WorkOff(old(Val()), [w]); var rest := EG.WorkOff(Val(), work);
                  r.g == rest.g && r.out == out + rest.out
        decreases EG.Weight(work), |work|
      {
        EG.TurnShrinks(Val(), work);
        ghost var before := Val();
        ghost var t := EG.Process(before, work[0]);
        var more, next := Step(work[0], work[1..]);
        assert EG.WorkOff(before, work).out == more + EG.WorkOff(Val(), next).out;
        assert out + (more + EG.WorkOff(Val(), next).out) == out + more + EG.WorkOff(Val(), next).out;
        out, work := out + more, next;
      }
    }
  }

  lemma {:induction false} OnesLast(es: seq<ConnEvent>)
    requires es != []
    ensures EG.Ones(es) == EG.Ones(es[..|es| - 1]) + [EG.One(es[|es| - 1])]
  {
    if |es| == 1 {
      assert es[1..] == [] && es[..0] == [];
    } else {
      OnesLast(es[1..]);
      assert es[1..][..|es| - 2] == es[..|es| - 1][1..];
    }
  }

  /** Put parsed events in front of the work list, keeping their order. */
  method Front(produced: seq<ConnEvent>, work: seq<EG.Work>) returns (next: seq<EG.Work>)
    ensures next == EG.Ones(produced) + work
  {
    next := work;
    var i := |produced|;
    assert produced[..i] == produced;
    while i > 0
      invariant 0 <= i <= |produced|
      invariant EG.Ones(produced[..i]) + next == EG.Ones(produced) + work
    {
      OnesLast(produced[..i]);
      assert produced[..i][..i - 1] == produced[..i - 1];
      assert EG.Ones(produced[..i]) + next == EG.Ones(produced[..i - 1]) + ([EG.One(produced[i - 1])] + next);
      i := i - 1;
      next := [EG.One(produced[i])] + next;
    }
    assert EG.Ones(produced[..i]) + next == next;
  }
}
