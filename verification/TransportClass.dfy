/** The transport's loops over one QUIC stream: handing its send buffer to QUIC, and taking received bytes. */
module TransportClass {
  import opened Types
  import WP = WritePath
  import RP = ReadPath

  datatype WriteResult = Written(count: nat) | WouldBlock | Gone

  /** The sending side of a QUIC stream. It takes at least one byte of what it is offered while it has room. */
  class QuicSend {
    var accepted: Bytes
    var room: nat
    var gone: bool
    var finishes: nat

    constructor (room: nat)
      ensures accepted == [] && this.room == room && !gone && finishes == 0
    {
      accepted, this.room, gone, finishes := [], room, false, 0;
    }

    method Write(chunk: Bytes) returns (r: WriteResult)
      requires chunk != []
      modifies this
      ensures gone == old(gone) && finishes == old(finishes)
      ensures r.Gone? <==> gone
      ensures r.WouldBlock? <==> !gone && old(room) == 0
      ensures r.Written? ==> 1 <= r.count <= |chunk| && room == old(room) - r.count && accepted == old(accepted) + chunk[..r.count]
      ensures !r.Written? ==> room == old(room) && accepted == old(accepted)
    {
      if gone {
        return Gone;
      }
      if room == 0 {
        return WouldBlock;
      }
      var count :| 1 <= count <= |chunk| && count <= room;
      accepted, room := accepted + chunk[..count], room - count;
      return Written(count);
    }

    /** Finishing fails, without effect, on a stream that is gone. */
    method Finish()
      modifies this
      ensures finishes == old(finishes) + (if gone then 0 else 1)
      ensures accepted == old(accepted) && room == old(room) && gone == old(gone)
    {
      if !gone {
        finishes := finishes + 1;
      }
    }
  }

  function Joined(chunks: seq<Bytes>): Bytes {
    if chunks == [] then [] else chunks[0] + Joined(chunks[1..])
  }

  lemma {:induction false} JoinedAppend(chunks: seq<Bytes>, data: Bytes)
    ensures Joined(chunks + [data]) == Joined(chunks) + data
  {
    if chunks == [] {
      assert [data][1..] == [] && chunks + [data] == [data];
    } else {
      assert (chunks + [data])[1..] == chunks[1..] + [data];
      JoinedAppend(chunks[1..], data);
    }
  }

  /** How handing over ends. */
  datatype Outcome = Emptied | Stuck | Lost

  /** What becomes of the bytes offered: a stream that is gone loses them, one without room for all keeps the rest. */
  function Fate(all: Bytes, room: nat, gone: bool): Outcome {
    if all == [] then Emptied else if gone then Lost else if room < |all| then Stuck else Emptied
  }

  /** The three ways a flush ends, on the write path. */
  lemma FlushCases(p: WP.Path, room: nat)
    requires p.outgoing.Some?
    ensures var o := p.outgoing.value;
            match Fate(o.rest, room, p.dead)
            case Lost => WP.FlushStream(p, room) == p.(outgoing := None)
            case Stuck =>
              WP.FlushStream(p, room) == p.(accepted := p.accepted + o.rest[..room], outgoing := Some(o.(rest := o.rest[room..])))
            case Emptied =>
              WP.FlushStream(p, room) ==
              p.(accepted := p.accepted + o.rest, outgoing := None, completions := p.completions + 1,
                 finishes := p.finishes + if o.finished && !p.dead then 1 else 0)
  {
    if p.dead && p.outgoing.value.rest == [] {
      assert p.accepted + [] == p.accepted;
    }
  }

  lemma NothingToFlush(p: WP.Path, room: nat)
    requires p.outgoing.None?
    ensures WP.FlushStream(p, room) == p
  {
  }

  /** The send buffer of one stream: present while something waits to be handed over. */
  class SendBuffer {
    var present: bool
    var chunks: seq<Bytes>
    var finished: bool
    const quic: QuicSend

    constructor (quic: QuicSend)
      ensures this.quic == quic && !present && Valid()
    {
      this.quic, present, chunks, finished := quic, false, [], false;
    }

    ghost predicate Valid()
      reads this
    {
      (forall i :: 0 <= i < |chunks| ==> chunks[i] != []) && (!present ==> chunks == [] && !finished)
    }

    /** This buffer and its QUIC stream, as part of a write path. */
    ghost function View(p: WP.Path): WP.Path
      reads this, quic
    {
      p.(outgoing := if present then Some(WP.Outgoing(Joined(chunks), finished)) else None, accepted := quic.accepted,
         finishes := quic.finishes, dead := quic.gone)
    }

    method Drop()
      modifies this
      ensures !present && Valid()
    {
      present, chunks, finished := false, [], false;
    }

    /** Hand over chunks until there are none left or QUIC takes no more. */
    method HandOver() returns (end: Outcome)
      requires Valid() && present
      modifies this, quic
      ensures Valid() && present && finished == old(finished)
      ensures quic.gone == old(quic.gone) && quic.finishes == old(quic.finishes)
      ensures end == Fate(old(Joined(chunks)), old(quic.room), quic.gone)
      ensures end.Emptied? ==> chunks == [] && quic.accepted == old(quic.accepted) + old(Joined(chunks))
      ensures end.Stuck? ==> quic.accepted == old(quic.accepted) + old(Joined(chunks))[..old(quic.room)]
      ensures end.Stuck? ==> Joined(chunks) == old(Joined(chunks))[old(quic.room)..]
      ensures end.Lost? ==> quic.accepted == old(quic.accepted)
    {
      ghost var all := Joined(chunks);
      ghost var taken: Bytes := [];
      while chunks != []
        invariant Valid() && present && finished == old(finished)
        invariant taken + Joined(chunks) == all && quic.accepted == old(quic.accepted) + taken
        invariant |taken| + quic.room == old(quic.room)
        invariant quic.gone == old(quic.gone) && quic.finishes == old(quic.finishes)
        invariant quic.gone ==> taken == []
        decreases |Joined(chunks)|
      {
        var front := chunks[0];
        var rest := chunks[1..];
        NotEmpty(chunks);
        var r := quic.Write(front);
        match r {
          case Gone =>
            return Lost;
          case WouldBlock =>
            assert all[..|taken|] == taken && all[|taken|..] == Joined(chunks);
            return Stuck;
          case Written(count) =>
            Advanced(taken, front, count, Joined(rest));
            chunks := if count == |front| then rest else [front[count..]] + rest;
            Trimmed(front[count..], rest);
            taken := taken + front[..count];
        }
      }
      assert taken == all;
      return Emptied;
    }

    /** Flush the buffer; one that is empty then is finished if asked, dropped and reported. */
    method Flush(ghost p: WP.Path) returns (completed: bool)
      requires Valid()
      modifies this, quic
      ensures Valid()
      ensures View(p.(completions := p.completions + if completed then 1 else 0)) == WP.FlushStream(old(View(p)), old(quic.room))
    {
      hide WP.FlushStream;
      if !present {
        NothingToFlush(View(p), quic.room);
        return false;
      }
      FlushCases(View(p), quic.room);
      var end := HandOver();
      match end {
        case Lost =>
          Drop();
          return false;
        case Stuck =>
          return false;
        case Emptied =>
          if finished {
            quic.Finish();
          }
          Drop();
          return true;
      }
    }

    method Queue(data: Bytes, fin: bool)
      requires Valid()
      modifies this
      ensures Valid() && present && Joined(chunks) == old(Joined(chunks)) + data && finished == (old(finished) || fin)
    {
      present := true;
      if data != [] {
        JoinedAppend(chunks, data);
        chunks := chunks + [data];
      } else {
        assert Joined(chunks) + data == Joined(chunks);
      }
      if fin {
        finished := true;
      }
    }

    /** The SendQuicData effect: queue the data, note the FIN, and flush. */
    method Send(data: Bytes, fin: bool, ghost p: WP.Path) returns (completed: bool)
      requires Valid()
      modifies this, quic
      ensures Valid()
      ensures View(p.(completions := p.completions + if completed then 1 else 0)) == WP.SendData(old(View(p)), data, fin, old(quic.room))
    {
      Queue(data, fin);
      completed := Flush(p);
    }
  }

  lemma NotEmpty(chunks: seq<Bytes>)
    requires chunks != [] && chunks[0] != []
    ensures Joined(chunks) != []
  {
  }

  /** The chunks left after a write: without the first one, or with what is left of it. */
  lemma Trimmed(left: Bytes, rest: seq<Bytes>)
    ensures Joined(if left == [] then rest else [left] + rest) == left + Joined(rest)
  {
    if left == [] {
      assert left + Joined(rest) == Joined(rest);
    } else {
      assert ([left] + rest)[1..] == rest;
    }
  }

  lemma Advanced(taken: Bytes, front: Bytes, count: nat, rest: Bytes)
    requires count <= |front|
    ensures taken + front[..count] + (front[count..] + rest) == taken + (front + rest)
  {
    assert front == front[..count] + front[count..];
    assert front[..count] + (front[count..] + rest) == front + rest;
  }

  // ----- receiving

  datatype ReadResult = Chunk(bytes: Bytes) | End | ReadBlocked | WasReset(code: ErrorCode)

  /** The receiving side of a QUIC stream: the bytes that arrived in order and were not taken yet. */
  class QuicReceive {
    var arrived: Bytes
    var ended: bool
    var reset: Option<ErrorCode>

    constructor ()
      ensures arrived == [] && !ended && reset == None
    {
      arrived, ended, reset := [], false, None;
    }

    method Next(limit: nat) returns (r: ReadResult)
      requires limit > 0
      modifies this
      ensures ended == old(ended) && reset == old(reset)
      ensures r.WasReset? <==> reset.Some?
      ensures r.WasReset? ==> r.code == reset.value
      ensures r.Chunk? <==> reset.None? && old(arrived) != []
      ensures r.End? <==> reset.None? && old(arrived) == [] && ended
      ensures r.Chunk? ==> 1 <= |r.bytes| <= limit && old(arrived) == r.bytes + arrived
      ensures !r.Chunk? ==> arrived == old(arrived)
    {
      if reset.Some? {
        return WasReset(reset.value);
      }
      if arrived == [] {
        return if ended then End else ReadBlocked;
      }
      var n :| 1 <= n <= |arrived| && n <= limit;
      var bytes := arrived[..n];
      arrived := arrived[n..];
      return Chunk(bytes);
    }
  }

  datatype Received = Idle | Data(bytes: Bytes, fin: bool) | Reset(code: ErrorCode)

  /** The pending receive of one stream. */
  class Receiver {
    var outstanding: Option<nat>
    const quic: QuicReceive

    constructor (quic: QuicReceive)
      ensures this.quic == quic && outstanding == None
    {
      this.quic, outstanding := quic, None;
    }

    /** This receive and its QUIC stream, as part of a read path. */
    ghost function View(p: RP.Path): RP.Path
      reads this, quic
    {
      p.(outstanding := outstanding, arrived := quic.arrived, ended := quic.ended)
    }

    /** Take what has arrived, up to the size asked for, and see the end of the stream if the data runs out first;
        with nothing to report the receive stays pending. */
    method Poll(ghost p: RP.Path) returns (r: Received)
      modifies this, quic
      ensures old(quic.reset).Some? && old(outstanding).Some? && old(outstanding).value > 0 ==>
                r == Reset(old(quic.reset).value) && outstanding == None
      ensures old(quic.reset).None? ==> !r.Reset?
      ensures old(quic.reset).None? ==>
                View(if r.Data? then p.(event := Some(RP.Delivery(r.bytes, r.fin))) else p) == RP.Poll(old(View(p)))
    {
      if outstanding.None? {
        return Idle;
      }
      var limit := outstanding.value;
      var chunks: seq<Bytes> := [];
      var size := 0;
      var fin := false;
      var reset: Option<ErrorCode> := None;
      while size < limit && !fin && reset.None?
        invariant quic.ended == old(quic.ended) && quic.reset == old(quic.reset) && outstanding == old(outstanding)
        invariant old(quic.arrived) == Joined(chunks) + quic.arrived && size == |Joined(chunks)| <= limit
        invariant fin ==> quic.ended && quic.arrived == [] && size < limit
        invariant reset.Some? ==> reset == quic.reset
        invariant quic.reset.Some? ==> size == 0 && !fin
        decreases limit - size, !fin, reset.None?
      {
        var next := quic.Next(limit - size);
        match next {
          case Chunk(bytes) =>
            JoinedAppend(chunks, bytes);
            assert Joined(chunks) + (bytes + quic.arrived) == Joined(chunks) + bytes + quic.arrived;
            size, chunks := size + |bytes|, chunks + [bytes];
          case End => fin := true;
          case WasReset(code) => reset := Some(code);
          case ReadBlocked => break;
        }
      }
      if reset.Some? {
        outstanding := None;
        return Reset(reset.value);
      }
      if size == 0 && !fin {
        assert Joined(chunks) == [] && quic.arrived == old(quic.arrived);
        return Idle;
      }
      outstanding := None;
      var data := Assemble(chunks);
      assert old(quic.arrived)[..size] == data && old(quic.arrived)[size..] == quic.arrived;
      return Data(data, fin);
    }
  }

  /** Put the chunks together. */
  method Assemble(chunks: seq<Bytes>) returns (data: Bytes)
    ensures data == Joined(chunks)
  {
    if |chunks| == 1 {
      assert chunks[1..] == [] && chunks[0] + [] == chunks[0];
      return chunks[0];
    }
    data := [];
    var i := 0;
    while i < |chunks|
      invariant 0 <= i <= |chunks| && data == Joined(chunks[..i])
    {
      assert chunks[..i + 1] == chunks[..i] + [chunks[i]];
      JoinedAppend(chunks[..i], chunks[i]);
      data := data + chunks[i];
      i := i + 1;
    }
    assert chunks[..i] == chunks;
  }
}
