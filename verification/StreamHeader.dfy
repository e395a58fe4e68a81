/** The header of a WebTransport stream: two varints, read one byte at a time so that no payload is consumed. */
module StreamHeader {
  import opened Types
  import Varint
  import opened Frames

  const STREAM_CONTROL: nat := 0x00
  const STREAM_PUSH: nat := 0x01
  const STREAM_QPACK_ENCODER: nat := 0x02
  const STREAM_QPACK_DECODER: nat := 0x03
  const STREAM_WEBTRANSPORT: nat := 0x54
  const ERR_H3_STREAM_CREATION_ERROR: ErrorCode := 0x0103
  const ERR_H3_ID_ERROR: ErrorCode := 0x0108

  /** A new stream of the peer: the bytes held back, and whether its type was read. */
  datatype Pending = Pending(buffer: Bytes, typed: bool)

  /** What a piece of data leads to: one more byte is asked for, a WebTransport stream is open, the stream is of
      another kind and handled elsewhere, it is refused, or the connection is in error. */
  datatype Reception =
    | Wants(st: Pending)
    | IsOpen(session: SessionId)
    | Infrastructure(kind: nat)
    | Request(st: Pending)
    | Refused(code: ErrorCode)
    | Error(code: ErrorCode)

  function ParseHeader(buffer: Bytes): Reception {
    match Varint.Read(buffer)
    case Incomplete => Wants(Pending(buffer, true))
    case Got(session, _) => if IsValidSessionId(session) then IsOpen(session) else Error(ERR_H3_ID_ERROR)
  }

  function RecvUnidirectional(st: Pending, data: Bytes, isClient: bool): Reception {
    var buffer := st.buffer + data;
    if st.typed then ParseHeader(buffer)
    else
      match Varint.Read(buffer)
      case Incomplete => Wants(st.(buffer := buffer))
      case Got(kind, _) =>
        if kind == STREAM_CONTROL || kind == STREAM_QPACK_DECODER || kind == STREAM_QPACK_ENCODER then Infrastructure(kind)
        else if kind == STREAM_PUSH then Error(if isClient then ERR_H3_ID_ERROR else ERR_H3_STREAM_CREATION_ERROR)
        else if kind == STREAM_WEBTRANSPORT then ParseHeader([])
        else Refused(ERR_H3_STREAM_CREATION_ERROR)
  }

  function RecvBidirectional(st: Pending, data: Bytes, isClient: bool): Reception {
    var buffer := st.buffer + data;
    if st.typed then ParseHeader(buffer)
    else
      match Varint.Read(buffer)
      case Incomplete => Wants(st.(buffer := buffer))
      case Got(kind, _) =>
        if kind == FRAME_WT_STREAM then ParseHeader([])
        else if isClient then Error(ERR_H3_STREAM_CREATION_ERROR)
        else Request(Pending(buffer, false))
  }

  function Recv(st: Pending, data: Bytes, isClient: bool, uni: bool): Reception {
    if uni then RecvUnidirectional(st, data, isClient) else RecvBidirectional(st, data, isClient)
  }

  datatype Progress = Progress(outcome: Reception, consumed: nat)

  /** The transport delivers one byte for each byte asked for, until none is. */
  function ByteByByte(st: Pending, bytes: Bytes, isClient: bool, uni: bool): Progress
    decreases |bytes|
  {
    if bytes == [] then Progress(Wants(st), 0)
    else
      var o := Recv(st, [bytes[0]], isClient, uni);
      if o.Wants? then
        var rest := ByteByByte(o.st, bytes[1..], isClient, uni);
        rest.(consumed := rest.consumed + 1)
      else Progress(o, 1)
  }

  /** The stream header, as the opener writes it. */
  function EncodeHeader(session: SessionId, uni: bool): Option<Bytes> {
    match (Varint.Write(if uni then STREAM_WEBTRANSPORT else FRAME_WT_STREAM), Varint.Write(session))
    case (Some(a), Some(b)) => Some(a + b)
    case _ => None
  }

  // ----- exactness

  /** Bytes that are exactly one varint, in whatever length it was written. */
  predicate IsVarint(bytes: Bytes, value: nat) {
    Varint.Read(bytes) == Varint.Got(value, |bytes|)
  }

  /** A varint is recognised by its last byte and not before. */
  lemma PrefixIncomplete(bytes: Bytes, value: nat, k: nat)
    requires IsVarint(bytes, value) && k < |bytes|
    ensures Varint.Read(bytes[..k]) == Varint.Incomplete
  {
    if k > 0 {
      assert bytes[..k][0] == bytes[0];
    }
  }

  lemma VarintNotEmpty(bytes: Bytes, value: nat)
    requires IsVarint(bytes, value)
    ensures bytes != []
  {
  }

  /** The session id, byte by byte from position k. */
  lemma {:induction false} SessionBytes(id: Bytes, session: SessionId, k: nat, payload: Bytes, isClient: bool, uni: bool)
    requires IsVarint(id, session) && k < |id|
    ensures ByteByByte(Pending(id[..k], true), id[k..] + payload, isClient, uni)
            == Progress(if IsValidSessionId(session) then IsOpen(session) else Error(ERR_H3_ID_ERROR), |id| - k)
    decreases |id| - k
  {
    hide Varint.Read;
    var bytes := id[k..] + payload;
    assert bytes[0] == id[k] && bytes[1..] == id[k + 1..] + payload;
    assert id[..k] + [bytes[0]] == id[..k + 1];
    if k + 1 < |id| {
      PrefixIncomplete(id, session, k + 1);
      SessionBytes(id, session, k + 1, payload, isClient, uni);
    } else {
      assert id[..k + 1] == id;
    }
  }

  /** The stream type, byte by byte from position k, and then the session id. */
  lemma {:induction false} TypeBytes(kind: Bytes, id: Bytes, session: SessionId, k: nat, payload: Bytes, isClient: bool, uni: bool)
    requires IsVarint(kind, if uni then STREAM_WEBTRANSPORT else FRAME_WT_STREAM) && IsVarint(id, session) && k < |kind|
    ensures ByteByByte(Pending(kind[..k], false), kind[k..] + id + payload, isClient, uni)
            == Progress(if IsValidSessionId(session) then IsOpen(session) else Error(ERR_H3_ID_ERROR), |kind| - k + |id|)
    decreases |kind| - k
  {
    hide Varint.Read;
    var value := if uni then STREAM_WEBTRANSPORT else FRAME_WT_STREAM;
    var bytes := kind[k..] + id + payload;
    assert bytes[0] == kind[k] && bytes[1..] == kind[k + 1..] + id + payload;
    assert kind[..k] + [bytes[0]] == kind[..k + 1];
    if k + 1 < |kind| {
      PrefixIncomplete(kind, value, k + 1);
      TypeBytes(kind, id, session, k + 1, payload, isClient, uni);
    } else {
      assert kind[..k + 1] == kind;
      VarintNotEmpty(id, session);
      PrefixIncomplete(id, session, 0);
      assert id[..0] == [];
      assert bytes[1..] == id[0..] + payload;
      SessionBytes(id, session, 0, payload, isClient, uni);
    }
  }

  /** The receiver takes the header to the last byte and nothing of the payload, and opens the stream for the
      session it names - however long the opener's varints are. */
  lemma HeaderExact(kind: Bytes, id: Bytes, session: SessionId, payload: Bytes, isClient: bool, uni: bool)
    requires IsVarint(kind, if uni then STREAM_WEBTRANSPORT else FRAME_WT_STREAM) && IsVarint(id, session)
    ensures ByteByByte(Pending([], false), kind + id + payload, isClient, uni)
            == Progress(if IsValidSessionId(session) then IsOpen(session) else Error(ERR_H3_ID_ERROR), |kind| + |id|)
  {
    hide Varint.Read, ByteByByte;
    VarintNotEmpty(kind, if uni then STREAM_WEBTRANSPORT else FRAME_WT_STREAM);
    assert kind[..0] == [] && kind[0..] == kind;
    TypeBytes(kind, id, session, 0, payload, isClient, uni);
  }

  /** In particular the header this code writes is read back exactly. */
  lemma EncodedHeaderExact(session: SessionId, payload: Bytes, isClient: bool, uni: bool)
    requires session <= VARINT_MAX && IsValidSessionId(session)
    ensures EncodeHeader(session, uni).Some?
    ensures ByteByByte(Pending([], false), EncodeHeader(session, uni).value + payload, isClient, uni)
            == Progress(IsOpen(session), |EncodeHeader(session, uni).value|)
  {
    hide ByteByByte;
    var kind := if uni then STREAM_WEBTRANSPORT else FRAME_WT_STREAM;
    Varint.RoundTrip(kind, []);
    Varint.RoundTrip(session, []);
    hide Varint.Read, Varint.Write;
    var a := Varint.Write(kind).value;
    var b := Varint.Write(session).value;
    assert a + [] == a && b + [] == b;
    HeaderExact(a, b, session, payload, isClient, uni);
  }
}
