/** The HTTP/3 parsers as the source runs them: buffers consumed in place by loops. Each is proved to compute
    the corresponding function of modules Frames and ControlStream. */
module H3Class {
  import opened Types
  import F = Frames
  import C = ControlStream

  /** A CONNECT stream past its headers. */
  class ConnectStream {
    const bounds: F.Bounds
    var buffer: Bytes
    var capsuleBuffer: Bytes
    var frameType: Option<nat>
    var frameSize: Option<nat>

    predicate Valid()
      reads this
    {
      frameType.Some? <==> frameSize.Some?
    }

    function Val(): F.Connect
      requires Valid()
      reads this
    {
      F.Connect(buffer, capsuleBuffer, if frameType.Some? then Some(F.Frame(frameType.value, frameSize.value)) else None)
    }

    constructor (bounds: F.Bounds)
      ensures Valid() && Val() == F.FRESH && this.bounds == bounds
    {
      this.bounds := bounds;
      buffer, capsuleBuffer, frameType, frameSize := [], [], None, None;
    }

    /** Take the complete capsules from the capsule buffer. */
    method ParseCapsules() returns (error: Option<ErrorCode>, capsules: seq<Capsule>)
      modifies this`capsuleBuffer
      ensures match F.ParseCapsules(old(capsuleBuffer), bounds.maxCapsuleSize)
              case CapsuleError(code) => error == Some(code)
              case CapsulesRead(taken, rest) => error == None && capsules == taken && capsuleBuffer == rest
    {
      hide F.ReadHead;
      error, capsules := None, [];
      ghost var start := capsuleBuffer;
      ghost var limit := bounds.maxCapsuleSize;
      NothingTaken(start, limit);
      while capsuleBuffer != []
        invariant F.ParseCapsules(start, limit) == F.Prepend(capsules, F.ParseCapsules(capsuleBuffer, limit))
        decreases |capsuleBuffer|
      {
        var head := F.ReadHead(capsuleBuffer);
        if head.NoHead? {
          break;
        }
        if head.length > bounds.maxCapsuleSize {
          return Some(ERR_H3_MESSAGE_ERROR), capsules;
        }
        if |capsuleBuffer| < head.size + head.length {
          break;
        }
        ghost var here := capsuleBuffer;
        capsuleBuffer := capsuleBuffer[head.size..];
        var value := capsuleBuffer[..head.length];
        capsuleBuffer := capsuleBuffer[head.length..];
        CapsuleTaken(here, head, limit, capsules);
        capsules := capsules + [Capsule(head.kind, value)];
      }
      assert capsules + [] == capsules;
      NothingTaken(capsuleBuffer, limit);
    }

    method HandleFrame(kind: nat, payload: Bytes) returns (error: Option<ErrorCode>, capsules: seq<Capsule>)
      requires Valid()
      modifies this`capsuleBuffer
      ensures match F.HandleFrame(old(Val()), kind, payload, bounds)
              case FrameError(code) => error == Some(code)
              case FrameRead(t, taken) => error == None && capsules == taken && Val() == t
    {
      hide F.ParseCapsules;
      error, capsules := None, [];
      if kind in {F.FRAME_CANCEL_PUSH, F.FRAME_GOAWAY, F.FRAME_MAX_PUSH_ID, F.FRAME_CONTINUATION, F.FRAME_PING,
                  F.FRAME_PRIORITY, F.FRAME_WINDOW_UPDATE, F.FRAME_SETTINGS, F.FRAME_HEADERS, F.FRAME_PUSH_PROMISE} {
        return Some(ERR_H3_FRAME_UNEXPECTED), [];
      }
      if kind == F.FRAME_WT_STREAM {
        return Some(F.ERR_H3_FRAME_ERROR), [];
      }
      if kind == F.FRAME_DATA {
        capsuleBuffer := capsuleBuffer + payload;
        error, capsules := ParseCapsules();
      }
    }

    /** One turn of the frame loop: read a frame head if none is pending, then take what has arrived of the
        frame. `stop` says that the loop is left. */
    method OneTurn() returns (error: Option<ErrorCode>, capsules: seq<Capsule>, stop: bool)
      requires Valid()
      modifies this
      ensures Valid()
      ensures match F.OneTurn(old(Val()), bounds)
              case Halt(t) => error == None && capsules == [] && stop && Val() == t
              case Fail(code) => error == Some(code)
              case Took(t, taken, last) => error == None && capsules == taken && stop == last && Val() == t
    {
      hide F.ReadHead, F.HandleFrame;
      error, capsules, stop := None, [], true;
      if buffer == [] {
        return;
      }
      if frameType.None? {
        var head := F.ReadHead(buffer);
        if head.NoHead? {
          return;
        }
        if head.kind == F.FRAME_HEADERS && head.length > bounds.maxFieldSectionSize {
          error := Some(ERR_H3_MESSAGE_ERROR);
          return;
        }
        if head.kind != F.FRAME_DATA && head.kind != F.FRAME_HEADERS && head.length > F.CONTROL_FRAME_SIZE_LIMIT {
          error := Some(F.ERR_H3_FRAME_ERROR);
          return;
        }
        frameType, frameSize := Some(head.kind), Some(head.length);
        buffer := buffer[head.size..];
      }
      error, capsules, stop := TakePiece();
    }

    method TakePiece() returns (error: Option<ErrorCode>, capsules: seq<Capsule>, stop: bool)
      requires Valid() && frameType.Some?
      modifies this
      ensures Valid()
      ensures match F.FrameTurn(old(Val()), bounds)
              case Halt(t) => error == None && capsules == [] && stop && Val() == t
              case Fail(code) => error == Some(code)
              case Took(t, taken, last) => error == None && capsules == taken && stop == last && Val() == t
    {
      hide F.ParseCapsules;
      error, capsules, stop := None, [], true;
      var kind, size := frameType.value, frameSize.value;
      var n := if size <= |buffer| then size else |buffer|;
      if kind != F.FRAME_DATA && n < size {
        return;
      }
      var payload := buffer[..n];
      error, capsules := HandleFrame(kind, payload);
      if error.Some? {
        return;
      }
      buffer := buffer[n..];
      frameSize := Some(size - n);
      if n == size {
        frameType, frameSize := None, None;
      }
      stop := n == 0;
    }

    /** The frame loop, on a stream that has not ended. */
    method ParseStreamData() returns (error: Option<ErrorCode>, capsules: seq<Capsule>)
      requires Valid()
      modifies this
      ensures Valid()
      ensures match F.Parse(old(Val()), bounds)
              case FrameError(code) => error == Some(code)
              case FrameRead(t, taken) => error == None && capsules == taken && Val() == t
    {
      hide F.OneTurn, F.Parse;
      error, capsules := None, [];
      ghost var start := Val();
      FrameBegin(start, bounds);
      var stop := false;
      while !stop
        invariant Valid() && error == None
        invariant !stop ==> F.Parse(start, bounds) == F.PrependFrame(capsules, F.Parse(Val(), bounds))
        invariant stop ==> F.Parse(start, bounds) == F.FrameRead(Val(), capsules)
        decreases !stop, |buffer|
      {
        ghost var here := Val();
        FrameStep(here, bounds, capsules);
        var taken;
        error, taken, stop := OneTurn();
        if error.Some? {
          return;
        }
        capsules := capsules + taken;
      }
    }

    /** New bytes of a stream past its headers: parse them, and unless that fails ask for all that comes next. */
    method RecvRequestData(data: Bytes) returns (error: Option<ErrorCode>, capsules: seq<Capsule>, receive: Option<nat>)
      requires Valid()
      modifies this
      ensures Valid()
      ensures match F.Feed(old(Val()), data, bounds)
              case FrameError(code) => error == Some(code) && receive == None
              case FrameRead(t, taken) => error == None && capsules == taken && Val() == t && receive == Some(U64_MAX)
    {
      hide F.Parse;
      buffer := buffer + data;
      error, capsules := ParseStreamData();
      receive := if error.Some? then None else Some(U64_MAX);
    }
  }

  lemma NothingTaken(buffer: Bytes, limit: nat)
    ensures F.ParseCapsules(buffer, limit) == F.Prepend([], F.ParseCapsules(buffer, limit))
    ensures buffer == [] ==> F.ParseCapsules(buffer, limit) == F.CapsulesRead([], [])
  {
    var r := F.ParseCapsules(buffer, limit);
    assert r.CapsulesRead? ==> [] + r.capsules == r.capsules;
  }

  lemma CapsuleTaken(buffer: Bytes, head: F.Head, limit: nat, before: seq<Capsule>)
    requires head == F.ReadHead(buffer) && head.Head? && head.length <= limit && head.size + head.length <= |buffer|
    ensures var value := buffer[head.size..][..head.length];
            var rest := buffer[head.size..][head.length..];
            F.Prepend(before, F.ParseCapsules(buffer, limit))
            == F.Prepend(before + [Capsule(head.kind, value)], F.ParseCapsules(rest, limit))
  {
    hide F.ReadHead;
    var n := head.size + head.length;
    assert buffer[head.size..][..head.length] == buffer[head.size..n];
    assert buffer[head.size..][head.length..] == buffer[n..];
    F.PrependTwice(before, [Capsule(head.kind, buffer[head.size..n])], F.ParseCapsules(buffer[n..], limit));
  }

  lemma FrameBegin(st: F.Connect, bounds: F.Bounds)
    ensures F.Parse(st, bounds) == F.PrependFrame([], F.Parse(st, bounds))
  {
    hide F.Parse;
    F.PrependFrameTwice([], [], F.Parse(st, bounds));
  }

  lemma FrameStep(st: F.Connect, bounds: F.Bounds, before: seq<Capsule>)
    ensures match F.OneTurn(st, bounds)
            case Halt(t) => F.PrependFrame(before, F.Parse(st, bounds)) == F.FrameRead(t, before + [])
            case Fail(code) => F.Parse(st, bounds) == F.FrameError(code)
            case Took(t, taken, last) =>
              F.PrependFrame(before, F.Parse(st, bounds)) ==
              if last then F.FrameRead(t, before + taken) else F.PrependFrame(before + taken, F.Parse(t, bounds))
  {
    hide F.OneTurn;
    var t := F.OneTurn(st, bounds);
    if t.Took? && !t.last {
      F.ParseTook(st, bounds);
      F.PrependFrameTwice(before, t.capsules, F.Parse(t.st, bounds));
    }
  }

  // ----- settings

  /** Write the known settings in their fixed order, then the unknown ones. */
  method EncodeSettings(s: C.Settings) returns (bytes: Option<Bytes>)
    ensures bytes == C.EncodeSettings(s)
  {
    var entries := KnownEntries(s.known, C.KNOWN_ORDER);
    entries := entries + s.unknown;
    assert entries == C.Entries(s);
    bytes := EncodeList(entries);
  }

  method KnownEntries(known: map<nat, nat>, order: seq<nat>) returns (entries: seq<C.Entry>)
    ensures entries == C.KnownEntries(known, order)
  {
    entries := [];
    var i := 0;
    assert order[0..] == order;
    while i < |order|
      invariant 0 <= i <= |order|
      invariant C.KnownEntries(known, order) == entries + C.KnownEntries(known, order[i..])
    {
      var id := order[i];
      assert order[i..][1..] == order[i + 1..];
      if id in known {
        entries := entries + [C.Entry(id, known[id])];
      }
      i := i + 1;
    }
  }

  method EncodeList(entries: seq<C.Entry>) returns (bytes: Option<Bytes>)
    ensures bytes == C.EncodeEntries(entries)
  {
    var buffer: Bytes := [];
    var i := 0;
    EncodedFrom(entries);
    while i < |entries|
      invariant 0 <= i <= |entries|
      invariant C.EncodeEntries(entries) == After(buffer, C.EncodeEntries(entries[i..]))
    {
      var head := F.WriteHead(entries[i].id, entries[i].value);
      EncodedNext(buffer, entries, i);
      if head.None? {
        return None;
      }
      buffer := buffer + head.value;
      i := i + 1;
    }
    assert entries[i..] == [] && buffer + [] == buffer;
    return Some(buffer);
  }

  function After(buffer: Bytes, rest: Option<Bytes>): Option<Bytes> {
    if rest.None? then None else Some(buffer + rest.value)
  }

  lemma EncodedFrom(entries: seq<C.Entry>)
    ensures C.EncodeEntries(entries) == After([], C.EncodeEntries(entries[0..]))
  {
    assert entries[0..] == entries;
    var r := C.EncodeEntries(entries);
    assert r.Some? ==> [] + r.value == r.value;
  }

  lemma EncodedNext(buffer: Bytes, entries: seq<C.Entry>, i: nat)
    requires i < |entries|
    ensures var head := F.WriteHead(entries[i].id, entries[i].value);
            After(buffer, C.EncodeEntries(entries[i..])) ==
            if head.None? then None else After(buffer + head.value, C.EncodeEntries(entries[i + 1..]))
  {
    hide F.WriteHead;
    assert entries[i..][1..] == entries[i + 1..] && entries[i..][0] == entries[i];
    var head := F.WriteHead(entries[i].id, entries[i].value);
    var rest := C.EncodeEntries(entries[i + 1..]);
    assert head.Some? && rest.Some? ==> buffer + (head.value + rest.value) == buffer + head.value + rest.value;
  }

  /** Read settings one by one until the payload is used up. */
  method ParseSettings(bytes: Bytes) returns (r: C.SettingsResult)
    ensures r == C.ParseSettings(bytes)
  {
    hide C.Store, F.ReadHead;
    var settings := C.NO_SETTINGS;
    var rest := bytes;
    var count := 0;
    while rest != []
      invariant C.ParseSettings(bytes) == C.ParseEntries(rest, settings, count)
      decreases |rest|
    {
      if count >= C.SETTINGS_ENTRIES_LIMIT {
        return C.SettingsError(C.ERR_H3_SETTINGS_ERROR);
      }
      var head := F.ReadHead(rest);
      if head.NoHead? {
        return C.SettingsError(F.ERR_H3_FRAME_ERROR);
      }
      var stored := C.Store(settings, C.Entry(head.kind, head.length));
      if stored.SettingsError? {
        return stored;
      }
      settings := stored.settings;
      rest := rest[head.size..];
      count := count + 1;
    }
    return C.SettingsRead(settings);
  }

  /** The frame loop of the control stream. */
  method ParseControl(start: C.Control) returns (r: C.ControlResult)
    ensures r == C.ParseControl(start)
  {
    hide F.ReadHead, C.TakeFrame;
    var st := start;
    var events := [];
    C.FollowTwice([], [], C.ParseControl(start));
    while st.buffer != []
      invariant C.ParseControl(start) == C.Follow(events, C.ParseControl(st))
      decreases |st.buffer|
    {
      var head := F.ReadHead(st.buffer);
      if head.NoHead? {
        break;
      }
      if head.kind == F.FRAME_DATA {
        return C.ControlError(ERR_H3_FRAME_UNEXPECTED);
      }
      if head.kind != F.FRAME_HEADERS && head.length > F.CONTROL_FRAME_SIZE_LIMIT {
        return C.ControlError(F.ERR_H3_FRAME_ERROR);
      }
      if |st.buffer| < head.size + head.length {
        break;
      }
      var taken := C.TakeFrame(st);
      if taken.ControlError? {
        return taken;
      }
      C.FollowTwice(events, taken.events, C.ParseControl(taken.st));
      st := taken.st;
      events := events + taken.events;
    }
    if st.buffer == [] {
      C.EmptyControl(st);
    }
    assert events + [] == events;
    return C.ControlRead(st, events);
  }
}
