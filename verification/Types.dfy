/** Identifiers, constants and effects shared by the protocol layers. */
module Types {

  datatype Option<+T> = None | Some(value: T)

  type Byte = n: int | 0 <= n < 256
  type Bytes = seq<Byte>

  type StreamId = nat
  type SessionId = nat
  type RequestId = nat
  type ErrorCode = nat

  const U64_MAX: nat := 0xFFFF_FFFF_FFFF_FFFF
  const VARINT_MAX: nat := 0x3FFF_FFFF_FFFF_FFFF
  const STREAMS_LIMIT: nat := 0x1000_0000_0000_0000

  const ERR_APP_NO_ERROR: ErrorCode := 0
  const ERR_H3_EXCESSIVE_LOAD: ErrorCode := 0x0107
  const ERR_H3_FRAME_UNEXPECTED: ErrorCode := 0x0105
  const ERR_H3_GENERAL_PROTOCOL_ERROR: ErrorCode := 0x0101
  const ERR_H3_MESSAGE_ERROR: ErrorCode := 0x010E
  const ERR_LIB_CONNECTION_STATE_ERROR: ErrorCode := 0x1100_0001
  const ERR_LIB_SESSION_STATE_ERROR: ErrorCode := 0x1200_0001
  const ERR_LIB_STREAM_STATE_ERROR: ErrorCode := 0x1300_0001
  const ERR_WT_APPLICATION_ERROR_FIRST: ErrorCode := 0x52E4_A40F_A8DB
  const ERR_WT_APPLICATION_ERROR_LAST: ErrorCode := 0x52E5_AC98_3162
  const ERR_WT_BUFFERED_STREAM_REJECTED: ErrorCode := 0x3994_BD84
  const ERR_WT_FLOW_CONTROL_ERROR: ErrorCode := 0x045D_4487
  const ERR_WT_SESSION_GONE: ErrorCode := 0x170D_7B68

  const CAPSULE_CLOSE_SESSION: nat := 0x2843
  const CAPSULE_DRAIN_SESSION: nat := 0x78AE
  const CAPSULE_MAX_DATA: nat := 0x190B_4D3D
  const CAPSULE_MAX_STREAM_DATA: nat := 0x190B_4D3E
  const CAPSULE_MAX_STREAMS_BIDI: nat := 0x190B_4D3F
  const CAPSULE_MAX_STREAMS_UNI: nat := 0x190B_4D40
  const CAPSULE_DATA_BLOCKED: nat := 0x190B_4D41
  const CAPSULE_STREAM_DATA_BLOCKED: nat := 0x190B_4D42
  const CAPSULE_STREAMS_BLOCKED_BIDI: nat := 0x190B_4D43
  const CAPSULE_STREAMS_BLOCKED_UNI: nat := 0x190B_4D44
  const CLOSE_REASON_SIZE_LIMIT: nat := 1024

  /** u64::saturating_add */
  function SatAdd(a: nat, b: nat): nat {
    if a + b <= U64_MAX then a + b else U64_MAX
  }

  /** u64::saturating_sub */
  function SatSub(a: nat, b: nat): nat {
    if b <= a then a - b else 0
  }

  datatype Direction = Bidirectional | ReceiveOnly | SendOnly

  predicate IsUnidirectional(id: StreamId) {
    id / 2 % 2 != 0
  }

  predicate IsPeerInitiated(id: StreamId, isClient: bool) {
    (id % 2 == 0) != isClient
  }

  predicate IsValidSessionId(id: SessionId) {
    id % 4 == 0
  }

  function DirectionOf(id: StreamId, isClient: bool): Direction {
    if !IsUnidirectional(id) then Bidirectional
    else if IsPeerInitiated(id, isClient) then ReceiveOnly
    else SendOnly
  }

  datatype StreamEvent = Opened(peerInitiated: bool, direction: Direction)
                       | ResetReceived(code: Option<ErrorCode>)
                       | StopSendingReceived(code: Option<ErrorCode>)
                       | StreamClosed

  datatype SessionEvent = SessionReady
                        | SessionClosed(code: Option<ErrorCode>)
                        | SessionDraining
                        | SessionDataBlocked
                        | SessionStreamsBlocked(uni: bool)
                        | SessionMaxDataUpdated(maxData: nat)
                        | SessionMaxStreamsUpdated(uni: bool, maxStreams: nat)

  datatype RequestResult = Nothing
                         | ReadData(data: Bytes)
                         | DatagramData(data: Bytes)
                         | BoundStream(id: StreamId)

  datatype Capsule = Capsule(kind: nat, value: Bytes)

  /** The effects a session or stream hands to the transport and to the user. */
  datatype Effect = SendQuicData(stream: StreamId, data: Bytes, fin: bool)
                  | ReceiveQuicData(stream: StreamId, maxSize: nat)
                  | ResetQuicStream(stream: StreamId, code: ErrorCode)
                  | StopQuicStream(stream: StreamId, code: ErrorCode)
                  | CreateQuicStream(request: RequestId, uni: bool)
                  | SendCapsule(capsule: Capsule, fin: bool)
                  | SendDatagram(data: Bytes)
                  | SendHeaders(fin: bool)
                  | EmitStream(stream: StreamId, event: StreamEvent)
                  | EmitSession(sessionEvent: SessionEvent)
                  | Done(request: RequestId, result: RequestResult)
                  | Failed(request: RequestId, error: Option<ErrorCode>)

  /** One failure notice per request, in order. */
  function FailAll(requests: seq<RequestId>, error: Option<ErrorCode>): (fx: seq<Effect>)
    ensures |fx| == |requests|
    ensures forall i :: 0 <= i < |fx| ==> fx[i] == Failed(requests[i], error)
  {
    if requests == [] then [] else [Failed(requests[0], error)] + FailAll(requests[1..], error)
  }
}
