/** Incremental parsing of a CONNECT stream past its headers: HTTP/3 frames (section 7.1 of RFC 9114) whose DATA
    payloads carry capsules (section 3.2 of RFC 9297), in whatever pieces the bytes arrive. */
module Frames {
  import opened Types
  import Varint

  const FRAME_DATA: nat := 0x00
  const FRAME_HEADERS: nat := 0x01
  const FRAME_PRIORITY: nat := 0x02
  const FRAME_CANCEL_PUSH: nat := 0x03
  const FRAME_SETTINGS: nat := 0x04
  const FRAME_PUSH_PROMISE: nat := 0x05
  const FRAME_PING: nat := 0x06
  const FRAME_GOAWAY: nat := 0x07
  const FRAME_WINDOW_UPDATE: nat := 0x08
  const FRAME_CONTINUATION: nat := 0x09
  const FRAME_MAX_PUSH_ID: nat := 0x0D
  const FRAME_WT_STREAM: nat := 0x41
  const CONTROL_FRAME_SIZE_LIMIT: nat := 4096
  const ERR_H3_FRAME_ERROR: ErrorCode := 0x0106

  /** What bounds the parser: the largest capsule and the largest field section. */
  datatype Bounds = Bounds(maxCapsuleSize: nat, maxFieldSectionSize: nat)

  /** Two varints in a row, as at the head of a frame or a capsule. */
  datatype Head = NoHead | Head(kind: nat, length: nat, size: nat)

  function ReadHead(bytes: Bytes): (h: Head)
    ensures h.Head? ==> 2 <= h.size <= |bytes|
  {
    match Varint.Read(bytes)
    case Incomplete => NoHead
    case Got(kind, n) =>
      match Varint.Read(bytes[n..])
      case Incomplete => NoHead
      case Got(length, m) => Head(kind, length, n + m)
  }

  function WriteHead(kind: nat, length: nat): Option<Bytes> {
    match (Varint.Write(kind), Varint.Write(length))
    case (Some(a), Some(b)) => Some(a + b)
    case _ => None
  }

  // ----- capsules

  datatype CapsuleResult = CapsuleError(code: ErrorCode) | CapsulesRead(capsules: seq<Capsule>, rest: Bytes)

  function Prepend(capsules: seq<Capsule>, r: CapsuleResult): CapsuleResult {
    if r.CapsuleError? then r else r.(capsules := capsules + r.capsules)
  }

  /** Take every complete capsule from the front of the buffer. */
  function ParseCapsules(buffer: Bytes, limit: nat): CapsuleResult
    decreases |buffer|
  {
    var h := ReadHead(buffer);
    if h.NoHead? then CapsulesRead([], buffer)
    else if h.length > limit then CapsuleError(ERR_H3_MESSAGE_ERROR)
    else if |buffer| < h.size + h.length then CapsulesRead([], buffer)
    else
      Prepend([Capsule(h.kind, buffer[h.size..h.size + h.length])], ParseCapsules(buffer[h.size + h.length..], limit))
  }

  // ----- frames

  datatype Frame = Frame(kind: nat, left: nat)

  /** The CONNECT stream: unparsed bytes, capsule bytes, and the frame being received. */
  datatype Connect = Connect(buffer: Bytes, capsules: Bytes, frame: Option<Frame>)

  datatype FrameResult = FrameError(code: ErrorCode) | FrameRead(st: Connect, capsules: seq<Capsule>)

  /** A piece of a DATA frame, or a whole frame of another kind. */
  function HandleFrame(st: Connect, kind: nat, payload: Bytes, bounds: Bounds): FrameResult {
    if kind in {FRAME_CANCEL_PUSH, FRAME_GOAWAY, FRAME_MAX_PUSH_ID, FRAME_CONTINUATION, FRAME_PING, FRAME_PRIORITY,
                FRAME_WINDOW_UPDATE, FRAME_SETTINGS, FRAME_HEADERS, FRAME_PUSH_PROMISE} then FrameError(ERR_H3_FRAME_UNEXPECTED)
    else if kind == FRAME_WT_STREAM then FrameError(ERR_H3_FRAME_ERROR)
    else if kind == FRAME_DATA then
      match ParseCapsules(st.capsules + payload, bounds.maxCapsuleSize)
      case CapsuleError(code) => FrameError(code)
      case CapsulesRead(capsules, rest) => FrameRead(st.(capsules := rest), capsules)
    else FrameRead(st, [])
  }

  /** One turn of the parse loop: it stops for lack of bytes, fails, or goes on; `last` marks the turn after
      which the loop is left. */
  datatype Turn = Halt(st: Connect) | Fail(code: ErrorCode) | Took(st: Connect, capsules: seq<Capsule>, last: bool)

  function FrameTurn(st: Connect, bounds: Bounds): Turn
    requires st.frame.Some?
  {
    var frame := st.frame.value;
    var n := if frame.left <= |st.buffer| then frame.left else |st.buffer|;
    if frame.kind != FRAME_DATA && n < frame.left then Halt(st)
    else
      match HandleFrame(st, frame.kind, st.buffer[..n], bounds)
      case FrameError(code) => Fail(code)
      case FrameRead(t, capsules) =>
        Took(t.(buffer := st.buffer[n..], frame := if n == frame.left then None else Some(Frame(frame.kind, frame.left - n))),
             capsules, n == 0)
  }

  function OneTurn(st: Connect, bounds: Bounds): (t: Turn)
    ensures t.Took? && !t.last ==> |t.st.buffer| < |st.buffer|
  {
    if st.buffer == [] then Halt(st)
    else if st.frame.Some? then FrameTurn(st, bounds)
    else
      var h := ReadHead(st.buffer);
      if h.NoHead? then Halt(st)
      else if h.kind == FRAME_HEADERS && h.length > bounds.maxFieldSectionSize then Fail(ERR_H3_MESSAGE_ERROR)
      else if h.kind != FRAME_DATA && h.kind != FRAME_HEADERS && h.length > CONTROL_FRAME_SIZE_LIMIT then Fail(ERR_H3_FRAME_ERROR)
      else FrameTurn(st.(frame := Some(Frame(h.kind, h.length)), buffer := st.buffer[h.size..]), bounds)
  }

  /** The parse loop, on a stream that has not ended. */
  function Parse(st: Connect, bounds: Bounds): FrameResult
    decreases |st.buffer|
  {
    match OneTurn(st, bounds)
    case Halt(t) => FrameRead(t, [])
    case Fail(code) => FrameError(code)
    case Took(t, capsules, last) =>
      if last then FrameRead(t, capsules)
      else
        match Parse(t, bounds)
        case FrameError(code) => FrameError(code)
        case FrameRead(u, more) => FrameRead(u, capsules + more)
  }

  /** Bytes arrive. */
  function Feed(st: Connect, data: Bytes, bounds: Bounds): FrameResult {
    Parse(st.(buffer := st.buffer + data), bounds)
  }

  function FeedAll(st: Connect, chunks: seq<Bytes>, bounds: Bounds): FrameResult
    decreases |chunks|
  {
    if chunks == [] then FrameRead(st, [])
    else
      match Feed(st, chunks[0], bounds)
      case FrameError(code) => FrameError(code)
      case FrameRead(t, capsules) =>
        match FeedAll(t, chunks[1..], bounds)
        case FrameError(code) => FrameError(code)
        case FrameRead(u, more) => FrameRead(u, capsules + more)
  }

  function Join(chunks: seq<Bytes>): Bytes {
    if chunks == [] then [] else chunks[0] + Join(chunks[1..])
  }

  // ----- capsules do not care about chunks

  lemma HeadPrefix(bytes: Bytes, more: Bytes)
    requires ReadHead(bytes).Head?
    ensures ReadHead(bytes + more) == ReadHead(bytes)
  {
    hide Varint.Read;
    var n := Varint.Read(bytes).size;
    Varint.ReadPrefix(bytes, more);
    assert (bytes + more)[n..] == bytes[n..] + more;
    Varint.ReadPrefix(bytes[n..], more);
  }

  /** Two parses, with what the first one left over put before the new bytes, do the work of one. */
  lemma {:induction false} CapsulesSplit(buffer: Bytes, more: Bytes, limit: nat)
    requires ParseCapsules(buffer + more, limit).CapsulesRead?
    ensures var first := ParseCapsules(buffer, limit);
            && first.CapsulesRead?
            && ParseCapsules(buffer + more, limit) == Prepend(first.capsules, ParseCapsules(first.rest + more, limit))
    decreases |buffer|
  {
    hide ReadHead, ParseCapsules;
    var h := ReadHead(buffer);
    if h.NoHead? || |buffer| < h.size + h.length {
      StuckCapsules(buffer, more, limit);
    } else {
      var n := h.size + h.length;
      var c := [Capsule(h.kind, buffer[h.size..n])];
      FirstCapsule(buffer, more, limit);
      CapsulesSplit(buffer[n..], more, limit);
      var f := ParseCapsules(buffer[n..], limit);
      PrependTwice(c, f.capsules, ParseCapsules(f.rest + more, limit));
    }
  }

  lemma PrependTwice(a: seq<Capsule>, b: seq<Capsule>, r: CapsuleResult)
    ensures Prepend(a, Prepend(b, r)) == Prepend(a + b, r)
  {
    assert r.CapsulesRead? ==> a + (b + r.capsules) == a + b + r.capsules;
  }

  lemma StuckCapsules(buffer: Bytes, more: Bytes, limit: nat)
    requires var h := ReadHead(buffer); h.NoHead? || |buffer| < h.size + h.length
    requires ParseCapsules(buffer + more, limit).CapsulesRead?
    ensures ParseCapsules(buffer, limit) == CapsulesRead([], buffer)
    ensures ParseCapsules(buffer + more, limit) == Prepend([], ParseCapsules(buffer + more, limit))
  {
    hide ReadHead;
    if ReadHead(buffer).Head? {
      HeadPrefix(buffer, more);
    }
  }

  /** A complete capsule is taken whatever follows it. */
  lemma FirstCapsule(buffer: Bytes, more: Bytes, limit: nat)
    requires var h := ReadHead(buffer); h.Head? && h.size + h.length <= |buffer|
    requires ParseCapsules(buffer + more, limit).CapsulesRead?
    ensures var h := ReadHead(buffer);
            var n := h.size + h.length;
            var c := [Capsule(h.kind, buffer[h.size..n])];
            && ParseCapsules(buffer, limit) == Prepend(c, ParseCapsules(buffer[n..], limit))
            && ParseCapsules(buffer + more, limit) == Prepend(c, ParseCapsules(buffer[n..] + more, limit))
  {
    hide ReadHead;
    var h := ReadHead(buffer);
    var n := h.size + h.length;
    HeadPrefix(buffer, more);
    assert (buffer + more)[n..] == buffer[n..] + more;
    assert (buffer + more)[h.size..n] == buffer[h.size..n];
  }

  /** What a parse leaves over holds no complete capsule. */
  ghost predicate Settled(capsules: Bytes, limit: nat) {
    ParseCapsules(capsules, limit) == CapsulesRead([], capsules)
  }

  lemma {:induction false} RestSettled(buffer: Bytes, limit: nat)
    requires ParseCapsules(buffer, limit).CapsulesRead?
    ensures Settled(ParseCapsules(buffer, limit).rest, limit)
    decreases |buffer|
  {
    hide ReadHead;
    var h := ReadHead(buffer);
    if h.Head? && h.size + h.length <= |buffer| {
      RestSettled(buffer[h.size + h.length..], limit);
    }
  }

  // ----- neither do frames

  /** The condition on the bytes: behind the first frame of length zero, where the loop is left, no head of another
      frame is complete. `left` is what the frame in progress still lacks. */
  predicate Flowing(bytes: Bytes, left: nat)
    decreases |bytes|
  {
    |bytes| <= left ||
    var rest := bytes[left..];
    var h := ReadHead(rest);
    h.NoHead? || if h.length == 0 then ReadHead(rest[h.size..]).NoHead? else Flowing(rest[h.size..], h.length)
  }

  function Left(st: Connect): nat {
    if st.frame.Some? then st.frame.value.left else 0
  }

  ghost predicate Clear(st: Connect) {
    Flowing(st.buffer, Left(st))
  }

  lemma FlowingAfter(bytes: Bytes, left: nat)
    requires left <= |bytes|
    ensures Flowing(bytes, left) <==> Flowing(bytes[left..], 0)
  {
    hide ReadHead;
    assert bytes[left..][0..] == bytes[left..];
    if |bytes| == left {
      assert bytes[left..] == [];
    }
  }

  lemma FlowingWithin(x: Bytes, more: Bytes, left: nat)
    requires |x| <= left
    ensures Flowing(x + more, left) <==> Flowing(more, left - |x|)
  {
    hide ReadHead;
    if left < |x + more| {
      assert (x + more)[left..] == more[left - |x|..];
    }
  }

  /** A stream between two calls: nothing complete is left in the capsule buffer, and a frame in progress lacks
      bytes. */
  ghost predicate Ready(st: Connect, bounds: Bounds) {
    Settled(st.capsules, bounds.maxCapsuleSize) && (st.frame.Some? ==> st.frame.value.left > 0)
  }

  function PrependFrame(capsules: seq<Capsule>, r: FrameResult): FrameResult {
    if r.FrameError? then r else r.(capsules := capsules + r.capsules)
  }

  predicate HeadAllowed(h: Head, bounds: Bounds)
    requires h.Head?
  {
    && !(h.kind == FRAME_HEADERS && h.length > bounds.maxFieldSectionSize)
    && !(h.kind != FRAME_DATA && h.kind != FRAME_HEADERS && h.length > CONTROL_FRAME_SIZE_LIMIT)
  }

  /** The stream once the head of the next frame has been read. */
  function Headed(st: Connect): Connect
    requires ReadHead(st.buffer).Head?
  {
    var h := ReadHead(st.buffer);
    st.(frame := Some(Frame(h.kind, h.length)), buffer := st.buffer[h.size..])
  }

  /** Reading the head of a frame first, and then its payload, comes to the same. */
  lemma HeadFirst(st: Connect, bounds: Bounds)
    requires Ready(st, bounds) && st.frame.None? && ReadHead(st.buffer).Head?
    requires ReadHead(st.buffer).length > 0 && HeadAllowed(ReadHead(st.buffer), bounds)
    ensures Ready(Headed(st), bounds) && Parse(st, bounds) == Parse(Headed(st), bounds)
    ensures Clear(st) <==> Clear(Headed(st))
  {
    hide ReadHead, ParseCapsules;
    assert st.buffer[0..] == st.buffer;
    if Headed(st).buffer == [] {
      assert st.capsules + [] == st.capsules;
      assert OneTurn(st, bounds) == FrameTurn(Headed(st), bounds);
    }
  }

  /** The frame loop goes on after a turn that took something. */
  lemma ParseTook(st: Connect, bounds: Bounds)
    requires var t := OneTurn(st, bounds); t.Took? && !t.last
    ensures var t := OneTurn(st, bounds); Parse(st, bounds) == PrependFrame(t.capsules, Parse(t.st, bounds))
  {
    hide OneTurn;
  }

  lemma PrependFrameTwice(a: seq<Capsule>, b: seq<Capsule>, r: FrameResult)
    ensures PrependFrame(a, PrependFrame(b, r)) == PrependFrame(a + b, r)
    ensures PrependFrame([], r) == r
  {
    assert r.FrameRead? ==> a + (b + r.capsules) == a + b + r.capsules && [] + r.capsules == r.capsules;
  }

  /** A frame whose payload has all arrived is taken whatever follows it. */
  lemma WholeTurn(st: Connect, more: Bytes, bounds: Bounds)
    requires Ready(st, bounds) && st.frame.Some? && st.frame.value.left <= |st.buffer|
    requires Parse(st.(buffer := st.buffer + more), bounds).FrameRead?
    ensures var t := OneTurn(st, bounds);
            var u := OneTurn(st.(buffer := st.buffer + more), bounds);
            && t.Took? && !t.last && u == t.(st := t.st.(buffer := t.st.buffer + more)) && Ready(t.st, bounds)
  {
    hide ParseCapsules, Parse;
    var n := st.frame.value.left;
    var whole := st.(buffer := st.buffer + more);
    assert whole.buffer[..n] == st.buffer[..n] && whole.buffer[n..] == st.buffer[n..] + more;
    TurnTakes(whole, bounds);
    var r := HandleFrame(st, st.frame.value.kind, st.buffer[..n], bounds);
    HandledReady(st, st.frame.value.kind, st.buffer[..n], bounds);
    HandledSame(st, whole, st.frame.value.kind, st.buffer[..n], bounds);
  }

  lemma TurnTakes(st: Connect, bounds: Bounds)
    requires Parse(st, bounds).FrameRead?
    ensures !OneTurn(st, bounds).Fail?
  {
    hide OneTurn;
  }

  /** What a frame does depends on the capsule buffer alone. */
  lemma HandledSame(st: Connect, u: Connect, kind: nat, payload: Bytes, bounds: Bounds)
    requires u == st.(buffer := u.buffer, frame := u.frame)
    ensures var r := HandleFrame(st, kind, payload, bounds);
            HandleFrame(u, kind, payload, bounds) ==
            if r.FrameError? then r else r.(st := r.st.(buffer := u.buffer, frame := u.frame))
  {
    hide ParseCapsules;
  }

  lemma HandledReady(st: Connect, kind: nat, payload: Bytes, bounds: Bounds)
    requires Settled(st.capsules, bounds.maxCapsuleSize) && HandleFrame(st, kind, payload, bounds).FrameRead?
    ensures Settled(HandleFrame(st, kind, payload, bounds).st.capsules, bounds.maxCapsuleSize)
  {
    if kind == FRAME_DATA {
      RestSettled(st.capsules + payload, bounds.maxCapsuleSize);
    }
    hide ParseCapsules;
  }

  /** A DATA frame whose payload arrives in two pieces. */
  lemma PieceTurn(st: Connect, more: Bytes, bounds: Bounds)
    requires Ready(st, bounds) && st.frame.Some? && st.frame.value.kind == FRAME_DATA
    requires st.buffer != [] && more != [] && |st.buffer| < st.frame.value.left
    requires !OneTurn(st.(buffer := st.buffer + more), bounds).Fail?
    ensures var t := OneTurn(st, bounds);
            var whole := OneTurn(st.(buffer := st.buffer + more), bounds);
            && t.Took? && !t.last && t.st.buffer == [] && Ready(t.st, bounds) && t.st.frame.Some?
            && var u := OneTurn(t.st.(buffer := more), bounds);
               u.Took? && !u.last && whole == Took(u.st, t.capsules + u.capsules, false)
  {
    hide ParseCapsules;
    var left := st.frame.value.left;
    var x := st.buffer;
    var n := if left <= |x + more| then left else |x + more|;
    assert (x + more)[..n] == x + more[..n - |x|] && (x + more)[n..] == more[n - |x|..];
    assert x[..|x|] == x && x[|x|..] == [];
    assert st.capsules + (x + more[..n - |x|]) == st.capsules + x + more[..n - |x|];
    CapsulesSplit(st.capsules + x, more[..n - |x|], bounds.maxCapsuleSize);
    RestSettled(st.capsules + x, bounds.maxCapsuleSize);
  }

  /** The head of a frame that has arrived is read the same whatever follows it. */
  lemma HeadArrived(st: Connect, more: Bytes, bounds: Bounds)
    requires Ready(st, bounds) && st.frame.None? && ReadHead(st.buffer).Head? && ReadHead(st.buffer).length > 0
    requires var whole := st.(buffer := st.buffer + more); Parse(whole, bounds).FrameRead? && Clear(whole)
    ensures Ready(Headed(st), bounds) && Parse(st, bounds) == Parse(Headed(st), bounds)
    ensures var whole := st.(buffer := st.buffer + more);
            var wholeHeaded := Headed(st).(buffer := Headed(st).buffer + more);
            Parse(whole, bounds) == Parse(wholeHeaded, bounds) && Clear(wholeHeaded)
  {
    hide ParseCapsules, FrameTurn, Parse, Flowing;
    var whole := st.(buffer := st.buffer + more);
    HeadPrefix(st.buffer, more);
    hide ReadHead;
    TurnTakes(whole, bounds);
    HeadFirst(st, bounds);
    HeadFirst(whole, bounds);
    var n := ReadHead(st.buffer).size;
    assert whole.buffer[n..] == st.buffer[n..] + more;
  }

  lemma PieceSplit(st: Connect, more: Bytes, bounds: Bounds)
    requires Ready(st, bounds) && st.frame.Some? && OneTurn(st, bounds) != Halt(st) && |st.buffer| < st.frame.value.left
    requires var whole := st.(buffer := st.buffer + more); Parse(whole, bounds).FrameRead? && Clear(whole)
    ensures var first := Parse(st, bounds);
            && first.FrameRead? && Ready(first.st, bounds)
            && var next := first.st.(buffer := first.st.buffer + more);
               Clear(next) && Parse(st.(buffer := st.buffer + more), bounds) == PrependFrame(first.capsules, Parse(next, bounds))
  {
    hide OneTurn, FrameTurn, Settled, Parse, Flowing;
    var whole := st.(buffer := st.buffer + more);
    NotHalted(st, bounds);
    TurnTakes(whole, bounds);
    if more == [] {
      assert whole == st;
      PieceAlone(st, bounds);
    } else {
      PieceTurn(st, more, bounds);
      var t := OneTurn(st, bounds);
      var next := t.st.(buffer := more);
      assert t.st.(buffer := t.st.buffer + more) == next;
      ParseTook(st, bounds);
      ParseTook(whole, bounds);
      ParseTook(next, bounds);
      StopsEmpty(t.st, bounds);
      var u := OneTurn(next, bounds);
      PrependFrameTwice(t.capsules, u.capsules, Parse(u.st, bounds));
      PieceLeft(st, bounds);
      FlowingWithin(st.buffer, more, Left(st));
    }
  }

  lemma PieceLeft(st: Connect, bounds: Bounds)
    requires st.frame.Some? && OneTurn(st, bounds).Took? && st.buffer != [] && |st.buffer| < st.frame.value.left
    ensures Left(OneTurn(st, bounds).st) == Left(st) - |st.buffer|
  {
    hide ParseCapsules;
  }

  lemma NotHalted(st: Connect, bounds: Bounds)
    requires st.frame.Some? && OneTurn(st, bounds) != Halt(st) && |st.buffer| < st.frame.value.left
    ensures st.buffer != [] && st.frame.value.kind == FRAME_DATA
  {
  }

  lemma StopsEmpty(st: Connect, bounds: Bounds)
    requires st.buffer == []
    ensures Parse(st, bounds) == FrameRead(st, [])
  {
  }

  /** A piece of a DATA frame on its own. */
  lemma PieceAlone(st: Connect, bounds: Bounds)
    requires Ready(st, bounds) && st.frame.Some? && st.frame.value.kind == FRAME_DATA
    requires st.buffer != [] && |st.buffer| < st.frame.value.left && Parse(st, bounds).FrameRead?
    ensures var first := Parse(st, bounds);
            && Ready(first.st, bounds)
            && var next := first.st.(buffer := first.st.buffer + []);
               Clear(next) && Parse(st, bounds) == PrependFrame(first.capsules, Parse(next, bounds))
  {
    hide ParseCapsules, ReadHead;
    HandledReady(st, FRAME_DATA, st.buffer[..|st.buffer|], bounds);
  }

  /** A frame of length zero: the loop is left behind it. */
  lemma EmptyTurn(st: Connect, bounds: Bounds)
    requires Ready(st, bounds) && st.frame.None? && ReadHead(st.buffer).Head? && ReadHead(st.buffer).length == 0
    requires Parse(st, bounds).FrameRead?
    ensures Parse(st, bounds) == FrameRead(st.(buffer := st.buffer[ReadHead(st.buffer).size..]), [])
  {
    hide ReadHead, ParseCapsules;
    var rest := st.buffer[ReadHead(st.buffer).size..];
    assert rest[..0] == [] && rest[0..] == rest && st.capsules + [] == st.capsules;
  }

  /** Without a complete head nothing is parsed. */
  lemma NoHeadStops(st: Connect, bounds: Bounds)
    requires st.frame.None? && ReadHead(st.buffer).NoHead?
    ensures Parse(st, bounds) == FrameRead(st, [])
  {
  }

  lemma EmptySplit(st: Connect, more: Bytes, bounds: Bounds)
    requires Ready(st, bounds) && st.frame.None? && ReadHead(st.buffer).Head? && ReadHead(st.buffer).length == 0
    requires var whole := st.(buffer := st.buffer + more); Parse(whole, bounds).FrameRead? && Clear(whole)
    ensures var first := Parse(st, bounds);
            && first.FrameRead? && Ready(first.st, bounds)
            && var next := first.st.(buffer := first.st.buffer + more);
               Clear(next) && Parse(st.(buffer := st.buffer + more), bounds) == PrependFrame(first.capsules, Parse(next, bounds))
  {
    var whole := st.(buffer := st.buffer + more);
    var n := ReadHead(st.buffer).size;
    HeadPrefix(st.buffer, more);
    assert whole.buffer[0..] == whole.buffer && whole.buffer[n..] == st.buffer[n..] + more;
    TurnTakes(whole, bounds);
    EmptyTakes(st, more, bounds);
    EmptyTurn(st, bounds);
    EmptyTurn(whole, bounds);
    var next := st.(buffer := st.buffer[n..] + more);
    assert ReadHead(next.buffer).NoHead?;
    NoHeadStops(next, bounds);
    assert next.buffer[0..] == next.buffer;
    hide ReadHead, Parse;
  }

  lemma EmptyTakes(st: Connect, more: Bytes, bounds: Bounds)
    requires st.frame.None? && ReadHead(st.buffer).Head? && ReadHead(st.buffer).length == 0
    requires ReadHead(st.buffer + more) == ReadHead(st.buffer) && !OneTurn(st.(buffer := st.buffer + more), bounds).Fail?
    ensures Parse(st, bounds).FrameRead?
  {
    hide ReadHead, ParseCapsules;
    var n := ReadHead(st.buffer).size;
    assert st.buffer[n..][..0] == [] && (st.buffer + more)[n..][..0] == [];
  }

  /** Parsing what has arrived, and later the rest behind what was left over, does the work of one parse. */
  lemma {:induction false} FramesSplit(st: Connect, more: Bytes, bounds: Bounds)
    requires Ready(st, bounds)
    requires var whole := st.(buffer := st.buffer + more); Parse(whole, bounds).FrameRead? && Clear(whole)
    ensures var first := Parse(st, bounds);
            && first.FrameRead? && Ready(first.st, bounds)
            && var next := first.st.(buffer := first.st.buffer + more);
               Clear(next) && Parse(st.(buffer := st.buffer + more), bounds) == PrependFrame(first.capsules, Parse(next, bounds))
    decreases |st.buffer|
  {
    hide ReadHead, FrameTurn, OneTurn, Settled, Flowing;
    var whole := st.(buffer := st.buffer + more);
    if OneTurn(st, bounds) == Halt(st) {
      PrependFrameTwice([], [], Parse(whole, bounds));
    } else if st.frame.None? {
      HeadThere(st, bounds);
      if ReadHead(st.buffer).length == 0 {
        EmptySplit(st, more, bounds);
      } else {
        HeadArrived(st, more, bounds);
        FramesSplit(Headed(st), more, bounds);
      }
    } else if st.frame.value.left <= |st.buffer| {
      WholeTurn(st, more, bounds);
      WholeLeft(st, bounds);
      FlowingAfter(whole.buffer, Left(whole));
      assert whole.buffer[Left(st)..] == st.buffer[Left(st)..] + more;
      var t := OneTurn(st, bounds);
      ParseTook(st, bounds);
      ParseTook(whole, bounds);
      FramesSplit(t.st, more, bounds);
      var first := Parse(t.st, bounds);
      PrependFrameTwice(t.capsules, first.capsules, Parse(first.st.(buffer := first.st.buffer + more), bounds));
    } else {
      PieceSplit(st, more, bounds);
    }
  }

  lemma HeadThere(st: Connect, bounds: Bounds)
    requires st.frame.None? && OneTurn(st, bounds) != Halt(st)
    ensures ReadHead(st.buffer).Head?
  {
  }

  lemma WholeLeft(st: Connect, bounds: Bounds)
    requires st.frame.Some? && st.frame.value.left <= |st.buffer| && st.buffer != [] && OneTurn(st, bounds).Took?
    ensures var t := OneTurn(st, bounds).st; t.frame.None? && t.buffer == st.buffer[Left(st)..]
  {
    hide ParseCapsules;
  }

  /** Independence from chunking: input that parses without error, and has no complete frame head behind its first
      empty frame, gives the same capsules in the same order, and the same state, however it is cut. */
  lemma {:induction false} ChunkingIrrelevant(st: Connect, chunks: seq<Bytes>, bounds: Bounds)
    requires Ready(st, bounds) && chunks != []
    requires Feed(st, Join(chunks), bounds).FrameRead?
    requires Flowing(st.buffer + Join(chunks), Left(st))
    ensures FeedAll(st, chunks, bounds) == Feed(st, Join(chunks), bounds)
    decreases |chunks|
  {
    hide Parse, Flowing, Settled;
    var head := st.(buffer := st.buffer + chunks[0]);
    var rest := Join(chunks[1..]);
    assert st.buffer + Join(chunks) == head.buffer + rest;
    FramesSplit(head, rest, bounds);
    var first := Parse(head, bounds);
    if chunks[1..] == [] {
      assert first.st.buffer + rest == first.st.buffer && head.buffer + rest == head.buffer;
      assert FeedAll(first.st, chunks[1..], bounds) == FrameRead(first.st, []);
    } else {
      ChunkingIrrelevant(first.st, chunks[1..], bounds);
    }
  }

  // ----- and the condition is exact

  lemma {:induction false} ParseShrinks(st: Connect, bounds: Bounds)
    requires Parse(st, bounds).FrameRead?
    ensures |Parse(st, bounds).st.buffer| <= |st.buffer|
    decreases |st.buffer|
  {
    TurnShrinks(st, bounds);
    hide OneTurn;
    var t := OneTurn(st, bounds);
    if t.Took? && !t.last {
      ParseShrinks(t.st, bounds);
    }
  }

  lemma TurnShrinks(st: Connect, bounds: Bounds)
    ensures var t := OneTurn(st, bounds);
            !t.Fail? ==> |t.st.buffer| <= |st.buffer| && (st.frame.None? && ReadHead(st.buffer).Head? ==> |t.st.buffer| < |st.buffer|)
  {
    hide ReadHead, ParseCapsules;
  }

  /** A parse that is called again where a frame head is left does something. */
  lemma GoesOn(st: Connect, bounds: Bounds)
    requires st.frame.None? && ReadHead(st.buffer).Head?
    ensures Parse(st, bounds).FrameRead? ==> |Parse(st, bounds).st.buffer| < |st.buffer|
  {
    TurnShrinks(st, bounds);
    hide OneTurn, ReadHead;
    var t := OneTurn(st, bounds);
    if t.Took? && !t.last && Parse(t.st, bounds).FrameRead? {
      ParseShrinks(t.st, bounds);
    }
  }

  /** Where the condition fails the loop is left in front of a complete frame head. */
  lemma {:induction false} LeftBehind(st: Connect, bounds: Bounds)
    requires Ready(st, bounds) && Parse(st, bounds).FrameRead? && !Clear(st)
    ensures var r := Parse(st, bounds).st; r.frame.None? && ReadHead(r.buffer).Head?
    decreases |st.buffer|
  {
    hide ReadHead, FrameTurn, OneTurn, Settled;
    TurnTakes(st, bounds);
    if st.frame.None? {
      assert st.buffer[0..] == st.buffer;
      if ReadHead(st.buffer).length == 0 {
        EmptyTurn(st, bounds);
      } else {
        AllowedHead(st, bounds);
        HeadFirst(st, bounds);
        LeftBehind(Headed(st), bounds);
      }
    } else {
      assert st.(buffer := st.buffer + []) == st;
      WholeTurn(st, [], bounds);
      WholeLeft(st, bounds);
      FlowingAfter(st.buffer, Left(st));
      ParseTook(st, bounds);
      LeftBehind(OneTurn(st, bounds).st, bounds);
    }
  }

  lemma AllowedHead(st: Connect, bounds: Bounds)
    requires st.frame.None? && ReadHead(st.buffer).Head? && !OneTurn(st, bounds).Fail?
    ensures HeadAllowed(ReadHead(st.buffer), bounds)
  {
    hide ReadHead, FrameTurn;
  }

  lemma Slices(bytes: Bytes, n: nat, size: nat, k: nat)
    requires n <= size <= k <= |bytes|
    ensures bytes[..n] + bytes[n..k] == bytes[..k]
    ensures bytes[n..][..size - n] + bytes[size..k] == bytes[..k][n..]
  {
    assert bytes[n..][..size - n] == bytes[n..size];
    assert bytes[..k][n..] == bytes[n..k];
  }

  lemma HeadOwn(bytes: Bytes, k: nat)
    requires ReadHead(bytes).Head? && ReadHead(bytes).size <= k <= |bytes|
    ensures ReadHead(bytes[..k]) == ReadHead(bytes)
  {
    hide Varint.Read;
    var n := Varint.Read(bytes).size;
    var size := ReadHead(bytes).size;
    Varint.ReadOwn(bytes);
    Varint.ReadOwn(bytes[n..]);
    Slices(bytes, n, size, k);
    Varint.ReadPrefix(bytes[..n], bytes[n..k]);
    Varint.ReadPrefix(bytes[n..][..size - n], bytes[size..k]);
  }

  /** Where the first empty frame ends. */
  function EmptyEnd(bytes: Bytes, left: nat): nat
    requires !Flowing(bytes, left)
    decreases |bytes|
  {
    var rest := bytes[left..];
    var h := ReadHead(rest);
    left + h.size + if h.length == 0 then 0 else EmptyEnd(rest[h.size..], h.length)
  }

  lemma {:induction false} EmptyEndInside(bytes: Bytes, left: nat)
    requires !Flowing(bytes, left)
    ensures left + 2 <= EmptyEnd(bytes, left) < |bytes|
    decreases |bytes|
  {
    var rest := bytes[left..];
    var h := ReadHead(rest);
    if h.length != 0 {
      EmptyEndInside(rest[h.size..], h.length);
    } else {
      assert ReadHead(rest[h.size..]).Head?;
    }
    hide ReadHead;
  }

  /** Bytes that end with the first empty frame are parsed to the end, and leave the stream where the whole is left. */
  lemma {:induction false} StopsAt(st: Connect, bounds: Bounds)
    requires Ready(st, bounds) && Parse(st, bounds).FrameRead? && !Clear(st)
    ensures var k := EmptyEnd(st.buffer, Left(st));
            && 0 < k < |st.buffer|
            && Parse(st, bounds).st.buffer == st.buffer[k..]
            && Parse(st.(buffer := st.buffer[..k]), bounds)
               == FrameRead(Parse(st, bounds).st.(buffer := []), Parse(st, bounds).capsules)
    decreases |st.buffer|
  {
    hide ReadHead, FrameTurn, OneTurn, Settled;
    var k := EmptyEnd(st.buffer, Left(st));
    EmptyEndInside(st.buffer, Left(st));
    var cut := st.(buffer := st.buffer[..k]);
    TurnTakes(st, bounds);
    if st.frame.None? {
      assert st.buffer[0..] == st.buffer;
      StopsAtHead(st, bounds);
    } else {
      var left := Left(st);
      var rest := st.buffer[k..];
      assert cut.(buffer := cut.buffer + rest) == st;
      WholeTurn(cut, rest, bounds);
      WholeLeft(st, bounds);
      FlowingAfter(st.buffer, left);
      ParseTook(st, bounds);
      ParseTook(cut, bounds);
      var t := OneTurn(st, bounds).st;
      assert t.buffer[0..] == t.buffer;
      StopsAt(t, bounds);
      assert st.buffer[left..][..k - left] == st.buffer[left..k];
      WholeLeft(cut, bounds);
      assert cut.buffer[left..] == t.buffer[..k - left] && st.buffer[k..] == t.buffer[k - left..];
    }
  }

  lemma StopsAtHead(st: Connect, bounds: Bounds)
    requires Ready(st, bounds) && st.frame.None? && Parse(st, bounds).FrameRead? && !Clear(st)
    ensures var k := EmptyEnd(st.buffer, 0);
            && 0 < k < |st.buffer|
            && Parse(st, bounds).st.buffer == st.buffer[k..]
            && Parse(st.(buffer := st.buffer[..k]), bounds)
               == FrameRead(Parse(st, bounds).st.(buffer := []), Parse(st, bounds).capsules)
    decreases |st.buffer|, 0
  {
    hide ReadHead, FrameTurn, OneTurn, Settled;
    var k := EmptyEnd(st.buffer, 0);
    EmptyEndInside(st.buffer, 0);
    var cut := st.(buffer := st.buffer[..k]);
    assert st.buffer[0..] == st.buffer;
    var h := ReadHead(st.buffer);
    HeadOwn(st.buffer, k);
    TurnTakes(st, bounds);
    AllowedHead(st, bounds);
    if h.length == 0 {
      EmptyTurn(st, bounds);
      assert cut.(buffer := cut.buffer + st.buffer[k..]) == st;
      EmptyTakes(cut, st.buffer[k..], bounds);
      EmptyTurn(cut, bounds);
      assert cut.buffer[h.size..] == [];
    } else {
      HeadFirst(st, bounds);
      HeadFirst(cut, bounds);
      StopsAt(Headed(st), bounds);
      assert Headed(cut).buffer == Headed(st).buffer[..k - h.size];
      assert st.buffer[h.size..][k - h.size..] == st.buffer[k..];
    }
  }

  /** The cut behind the first empty frame makes a difference: the frame head behind it is then read. */
  lemma CutDiffers(st: Connect, data: Bytes, bounds: Bounds)
    requires Ready(st, bounds) && st.buffer == [] && Feed(st, data, bounds).FrameRead? && !Flowing(data, Left(st))
    ensures var k := EmptyEnd(data, Left(st));
            0 < k < |data| && FeedAll(st, [data[..k], data[k..]], bounds) != Feed(st, data, bounds)
  {
    hide Flowing, Parse, Ready, EmptyEnd, ReadHead, FeedAll;
    assert [] + data == data;
    var whole := st.(buffer := data);
    var r := Parse(whole, bounds);
    WholeReady(st, data, bounds);
    StopsAt(whole, bounds);
    LeftBehind(whole, bounds);
    GoesOn(r.st, bounds);
    var k := EmptyEnd(data, Left(st));
    assert [] + data[..k] == data[..k] && [] + data[k..] == data[k..];
    assert r.st.(buffer := []).(buffer := data[k..]) == r.st;
    FeedPair(st, data[..k], data[k..], bounds);
  }

  /** For a stream with an empty buffer the failing cut has two pieces, neither of them empty. */
  lemma TwoPieces(st: Connect, data: Bytes, bounds: Bounds)
    requires Ready(st, bounds) && st.buffer == [] && Feed(st, data, bounds).FrameRead? && !Flowing(data, Left(st))
    ensures exists a, b :: a != [] && b != [] && a + b == data && FeedAll(st, [a, b], bounds) != Feed(st, data, bounds)
  {
    hide Flowing, Feed, FeedAll, Ready, EmptyEnd;
    CutDiffers(st, data, bounds);
    var k := EmptyEnd(data, Left(st));
    assert data[..k] + data[k..] == data;
  }

  lemma WholeReady(st: Connect, data: Bytes, bounds: Bounds)
    requires Ready(st, bounds)
    ensures Ready(st.(buffer := data), bounds)
  {
  }

  lemma FeedPair(st: Connect, a: Bytes, b: Bytes, bounds: Bounds)
    requires Feed(st, a, bounds).FrameRead?
    ensures var r := Feed(st, a, bounds); FeedAll(st, [a, b], bounds) == PrependFrame(r.capsules, Feed(r.st, b, bounds))
  {
    hide Parse;
    var r := Feed(st, a, bounds);
    var again := Feed(r.st, b, bounds);
    assert [a, b][1..] == [b] && [b][1..] == [];
    if again.FrameRead? {
      assert FeedAll(again.st, [], bounds) == FrameRead(again.st, []);
      assert again.capsules + [] == again.capsules;
    }
    assert FeedAll(r.st, [b], bounds) == again;
  }

  /** Exactly when: input that parses without error gives the same however it is cut if and only if behind its first
      empty frame no complete frame head is left. */
  lemma ChunkingExact(st: Connect, data: Bytes, bounds: Bounds)
    requires Ready(st, bounds) && Feed(st, data, bounds).FrameRead?
    ensures (forall chunks :: chunks != [] && Join(chunks) == data ==> FeedAll(st, chunks, bounds) == Feed(st, data, bounds))
            <==> Flowing(st.buffer + data, Left(st))
    ensures st.buffer == [] && !Flowing(data, Left(st)) ==>
              exists a, b :: a != [] && b != [] && a + b == data && FeedAll(st, [a, b], bounds) != Feed(st, data, bounds)
  {
    hide Ready, Parse, Flowing;
    if st.buffer == [] && !Flowing(data, Left(st)) {
      TwoPieces(st, data, bounds);
    }
    if Flowing(st.buffer + data, Left(st)) {
      forall chunks | chunks != [] && Join(chunks) == data ensures FeedAll(st, chunks, bounds) == Feed(st, data, bounds) {
        ChunkingIrrelevant(st, chunks, bounds);
      }
    } else {
      Differs(st, data, bounds);
    }
  }

  /** A call with nothing new, after the whole input, makes the difference. */
  lemma Differs(st: Connect, data: Bytes, bounds: Bounds)
    requires Ready(st, bounds) && Feed(st, data, bounds).FrameRead? && !Flowing(st.buffer + data, Left(st))
    ensures Join([data, []]) == data && FeedAll(st, [data, []], bounds) != Feed(st, data, bounds)
  {
    hide Parse, Flowing;
    var whole := st.(buffer := st.buffer + data);
    var r := Parse(whole, bounds);
    LeftBehind(whole, bounds);
    GoesOn(r.st, bounds);
    var none: seq<Bytes> := [[]];
    assert [data, []][1..] == none && none[1..] == [];
    assert Join(none) == [] + [] && data + ([] + []) == data;
    assert r.st.(buffer := r.st.buffer + []) == r.st;
    FeedPair(st, data, [], bounds);
  }

  // ----- round trip

  /** The three pieces encode_capsule makes of a capsule, joined: a DATA frame around type, length and value. */
  function EncodeCapsule(c: Capsule): Option<Bytes> {
    match WriteHead(c.kind, |c.value|)
    case None => None
    case Some(header) =>
      match WriteHead(FRAME_DATA, |header| + |c.value|)
      case None => None
      case Some(frame) => Some(frame + header + c.value)
  }

  function EncodeAll(cs: seq<Capsule>): Option<Bytes> {
    if cs == [] then Some([])
    else
      match (EncodeCapsule(cs[0]), EncodeAll(cs[1..]))
      case (Some(a), Some(b)) => Some(a + b)
      case _ => None
  }

  lemma HeadRoundTrip(kind: nat, length: nat, rest: Bytes)
    requires WriteHead(kind, length).Some?
    ensures var head := WriteHead(kind, length).value;
            |head| >= 2 && ReadHead(head + rest) == Head(kind, length, |head|)
  {
    var a := Varint.Write(kind).value;
    var b := Varint.Write(length).value;
    Writable(kind);
    Writable(length);
    Varint.RoundTrip(kind, b + rest);
    Varint.RoundTrip(length, rest);
    hide Varint.Read, Varint.Write;
    assert a + b + rest == a + (b + rest);
    assert (a + b + rest)[|a|..] == b + rest;
  }

  lemma Writable(value: nat)
    requires Varint.Write(value).Some?
    ensures value <= VARINT_MAX
  {
  }

  lemma CapsuleRoundTrip(c: Capsule, header: Bytes, limit: nat)
    requires WriteHead(c.kind, |c.value|) == Some(header) && |c.value| <= limit
    ensures ParseCapsules(header + c.value, limit) == CapsulesRead([c], [])
  {
    hide WriteHead;
    HeadRoundTrip(c.kind, |c.value|, c.value);
    var buffer := header + c.value;
    hide ReadHead;
    assert buffer[|header|..|buffer|] == c.value && buffer[|buffer|..] == [];
    NothingLeft(limit);
    assert ParseCapsules(buffer, limit) == Prepend([c], ParseCapsules([], limit));
  }

  lemma NothingLeft(limit: nat)
    ensures ParseCapsules([], limit) == CapsulesRead([], [])
  {
  }

  const FRESH: Connect := Connect([], [], None)

  /** A whole DATA frame that holds one capsule. */
  lemma CapsuleFrame(payload: Bytes, rest: Bytes, c: Capsule, bounds: Bounds)
    requires ParseCapsules(payload, bounds.maxCapsuleSize) == CapsulesRead([c], []) && payload != []
    ensures FrameTurn(Connect(payload + rest, [], Some(Frame(FRAME_DATA, |payload|))), bounds)
            == Took(FRESH.(buffer := rest), [c], false)
  {
    hide ParseCapsules;
    var n := |payload|;
    assert (payload + rest)[..n] == payload && (payload + rest)[n..] == rest;
    assert [] + payload == payload;
  }

  /** One encoded capsule at the front of the stream. */
  lemma FirstFrame(c: Capsule, rest: Bytes, bounds: Bounds)
    requires EncodeCapsule(c).Some? && |c.value| <= bounds.maxCapsuleSize
    ensures var st := FRESH.(buffer := EncodeCapsule(c).value + rest);
            && OneTurn(st, bounds) == Took(FRESH.(buffer := rest), [c], false)
            && (Flowing(rest, 0) ==> Clear(st))
  {
    hide WriteHead, ReadHead, ParseCapsules, FrameTurn;
    var header := WriteHead(c.kind, |c.value|).value;
    var payload := header + c.value;
    var frame := WriteHead(FRAME_DATA, |payload|).value;
    HeadRoundTrip(c.kind, |c.value|, []);
    HeadRoundTrip(FRAME_DATA, |payload|, payload + rest);
    var buffer := EncodeCapsule(c).value + rest;
    assert buffer == frame + (payload + rest);
    assert buffer[|frame|..] == payload + rest;
    CapsuleRoundTrip(c, header, bounds.maxCapsuleSize);
    CapsuleFrame(payload, rest, c, bounds);
    assert buffer[0..] == buffer && (payload + rest)[|payload|..] == rest;
    FlowingAfter(payload + rest, |payload|);
  }

  lemma {:induction false} WholeRoundTrip(cs: seq<Capsule>, bounds: Bounds)
    requires EncodeAll(cs).Some? && forall i :: 0 <= i < |cs| ==> |cs[i].value| <= bounds.maxCapsuleSize
    ensures var st := FRESH.(buffer := EncodeAll(cs).value);
            Parse(st, bounds) == FrameRead(FRESH, cs) && Clear(st)
    decreases |cs|
  {
    hide EncodeCapsule, ReadHead, FrameTurn, OneTurn;
    if cs == [] {
      NothingToParse(bounds);
    } else {
      var st := FRESH.(buffer := EncodeAll(cs).value);
      FirstFrame(cs[0], EncodeAll(cs[1..]).value, bounds);
      WholeRoundTrip(cs[1..], bounds);
      assert cs == [cs[0]] + cs[1..];
    }
  }

  lemma NothingToParse(bounds: Bounds)
    ensures Parse(FRESH, bounds) == FrameRead(FRESH, []) && Clear(FRESH)
  {
  }

  /** Capsules within the size limit, encoded one after the other, cut into any pieces and fed to a CONNECT
      stream, come out exactly as they went in, in order, and leave both buffers empty. */
  lemma CapsulesSurviveChunking(cs: seq<Capsule>, chunks: seq<Bytes>, bounds: Bounds)
    requires EncodeAll(cs).Some? && forall i :: 0 <= i < |cs| ==> |cs[i].value| <= bounds.maxCapsuleSize
    requires Join(chunks) == EncodeAll(cs).value
    ensures FeedAll(FRESH, chunks, bounds) == FrameRead(FRESH, cs)
  {
    hide EncodeAll, Flowing, Parse;
    WholeRoundTrip(cs, bounds);
    assert [] + Join(chunks) == Join(chunks);
    if chunks == [] {
      EncodesToNothing(cs);
    } else {
      NothingLeft(bounds.maxCapsuleSize);
      ChunkingIrrelevant(FRESH, chunks, bounds);
    }
  }

  lemma EncodesToNothing(cs: seq<Capsule>)
    requires EncodeAll(cs) == Some([])
    ensures cs == []
  {
    if cs != [] {
      HeadRoundTrip(cs[0].kind, |cs[0].value|, []);
    }
  }

  const EMPTY_FRAME: Bytes := [0, 0]

  lemma EmptyFrameTurn(rest: Bytes, bounds: Bounds)
    ensures Parse(FRESH.(buffer := EMPTY_FRAME + rest), bounds) == FrameRead(FRESH.(buffer := rest), [])
  {
    var st := FRESH.(buffer := EMPTY_FRAME + rest);
    assert st.buffer[1..][0] == 0;
    assert ReadHead(st.buffer) == Head(FRAME_DATA, 0, 2);
    hide ReadHead;
    assert st.buffer[2..] == rest && rest[..0] == [] && rest[0..] == rest;
    NothingLeft(bounds.maxCapsuleSize);
    hide ParseCapsules;
    assert FrameTurn(Connect(rest, [], Some(Frame(FRAME_DATA, 0))), bounds) == Took(FRESH.(buffer := rest), [], true);
  }

  /** An instance of the failing inputs: behind an empty DATA frame the loop is left, so capsules that arrive in the
      same piece stay unread, while in a piece of their own they are read. */
  lemma EmptyFrameStops(cs: seq<Capsule>, bounds: Bounds)
    requires EncodeAll(cs).Some? && forall i :: 0 <= i < |cs| ==> |cs[i].value| <= bounds.maxCapsuleSize
    ensures var bytes := EncodeAll(cs).value;
            && FeedAll(FRESH, [EMPTY_FRAME + bytes], bounds) == FrameRead(FRESH.(buffer := bytes), [])
            && FeedAll(FRESH, [EMPTY_FRAME, bytes], bounds) == FrameRead(FRESH, cs)
  {
    hide Parse, EncodeAll, Flowing;
    var bytes := EncodeAll(cs).value;
    WholeRoundTrip(cs, bounds);
    EmptyFrameTurn(bytes, bounds);
    EmptyFrameTurn([], bounds);
    assert [] + EMPTY_FRAME == EMPTY_FRAME + [] && [] + (EMPTY_FRAME + bytes) == EMPTY_FRAME + bytes && [] + bytes == bytes;
    assert |[EMPTY_FRAME + bytes][1..]| == 0;
    assert [EMPTY_FRAME, bytes][1..] == [bytes];
    var none: seq<Bytes> := [];
    assert [bytes][1..] == none;
    assert FeedAll(FRESH, [bytes], bounds) == FrameRead(FRESH, cs + []);
    assert cs + [] == cs && [] + cs == cs;
  }
}
