/** The frame decoder: turns one frame read from a SocketCAN raw socket into the
    protocol-agnostic vehicle data message the channel publishes. */
module CanFrame {
  import opened CanDataTypes
  import opened CanTimestamp

  /** A 32-bit SocketCAN `can_id` word: the arbitration id in the low bits, the
      extended-frame flag in bit 31 (bits 30 and 29 are the remote and error flags). */
  type CanIdWord = w: int | 0 <= w < 0x1_0000_0000

  /** Bit 31 of `can_id`, set for a 29-bit extended identifier (`CAN_EFF_FLAG`). */
  const CAN_EFF_FLAG: nat := 0x8000_0000
  /** Number of values of a 29-bit extended id (`CAN_EFF_MASK` + 1). */
  const EXTENDED_ID_RANGE: nat := 0x2000_0000
  /** Number of values of an 11-bit standard id (`CAN_SFF_MASK` + 1). */
  const STANDARD_ID_RANGE: nat := 0x800

  /** Payload capacity of a classic frame (`CAN_MAX_DLEN`) and of a CAN-FD frame (`CANFD_MAX_DLEN`). */
  const CAN_MAX_DLEN: nat := 8
  const CANFD_MAX_DLEN: nat := 64

  /** An arbitration identifier as sent on the bus. */
  datatype ArbitrationId = Standard(id: nat) | Extended(id: nat)

  predicate ValidArbitrationId(a: ArbitrationId)
  {
    match a
    case Standard(id) => id < STANDARD_ID_RANGE
    case Extended(id) => id < EXTENDED_ID_RANGE
  }

  /** How SocketCAN lays an identifier out in `can_id`. */
  function EncodeCanId(a: ArbitrationId): (w: CanIdWord)
    requires ValidArbitrationId(a)
    ensures (w >= CAN_EFF_FLAG) == a.Extended?
  {
    match a
    case Standard(id) => id
    case Extended(id) => CAN_EFF_FLAG + id
  }

  /** The normalised message id: an extended frame keeps its 29-bit id with the
      extended flag folded into bit 31 (`(can_id & CAN_EFF_MASK) | CAN_EFF_FLAG`);
      a standard frame keeps its 11-bit id (`can_id & CAN_SFF_MASK`). */
  function MessageId(canId: CanIdWord): (m: CanIdWord)
    ensures (m >= CAN_EFF_FLAG) == (canId >= CAN_EFF_FLAG)
    ensures canId >= CAN_EFF_FLAG ==> m - CAN_EFF_FLAG == canId % EXTENDED_ID_RANGE
    ensures canId < CAN_EFF_FLAG ==> m == canId % STANDARD_ID_RANGE
  {
    if canId >= CAN_EFF_FLAG then CAN_EFF_FLAG + canId % EXTENDED_ID_RANGE
    else canId % STANDARD_ID_RANGE
  }

  /** Reads a normalised message id back as the arbitration id it came from. */
  function ArbitrationIdOf(m: CanIdWord): ArbitrationId
  {
    if m >= CAN_EFF_FLAG then Extended(m - CAN_EFF_FLAG) else Standard(m)
  }

  /** The message id carries the whole arbitration id: it can be read back. */
  lemma MessageIdRoundTrip(a: ArbitrationId)
    requires ValidArbitrationId(a)
    ensures ArbitrationIdOf(MessageId(EncodeCanId(a))) == a
  {
  }

  /** Two different identifiers never share a message id; in particular a standard
      and an extended frame with the same numeric id never collide. */
  lemma {:induction false} MessageIdInjective(a: ArbitrationId, b: ArbitrationId)
    requires ValidArbitrationId(a) && ValidArbitrationId(b)
    requires a != b
    ensures MessageId(EncodeCanId(a)) != MessageId(EncodeCanId(b))
  {
    MessageIdRoundTrip(a);
    MessageIdRoundTrip(b);
  }

  /** The identifiers the channel tests send: 0x123 as a standard and as an extended
      frame. The remote-request and error flags of a standard frame's word are masked off. */
  lemma MessageIdSamples()
    ensures EncodeCanId(Standard(0x123)) == 0x123
    ensures EncodeCanId(Extended(0x123)) == 0x8000_0123
    ensures MessageId(0x123) == 0x123
    ensures MessageId(0x8000_0123) == 0x8000_0123
    ensures MessageId(0x4000_0123) == 0x123 && MessageId(0x2000_0123) == 0x123
  {
  }

  /** One frame as read from the socket: its `can_id`, the length the kernel
      reports (`can_dlc` / `len`), the frame's fixed data storage, and whether it is
      a CAN-FD frame. */
  datatype RawFrame = RawFrame(canId: CanIdWord, len: nat, data: seq<Byte>, fd: bool)

  /** Payload capacity of the frame shape. */
  function ShapeCapacity(fd: bool): nat
  {
    if fd then CANFD_MAX_DLEN else CAN_MAX_DLEN
  }

  /** Why a frame the socket delivered is not published. The header does not say
      how a frame is judged malformed; these three rejections are this model's. */
  datatype DecodeError =
    | EmptyFrame        // reported length 0
    | ShapeMismatch     // reported length larger than the frame shape allows
    | TruncatedStorage  // reported length larger than the data actually present

  datatype Result<T, E> = Ok(value: T) | Err(error: E)

  /** The normalised message the channel publishes: message id, payload,
      reception time, the publishing channel's id, and whether it was a CAN-FD frame. */
  datatype VehicleDataMessage = VehicleDataMessage(
    messageId: CanIdWord,
    payload: seq<Byte>,
    receptionTime: Timestamp,
    sourceId: nat,
    fd: bool)

  /** When a delivered frame can be decoded. */
  predicate FrameWellFormed(f: RawFrame)
  {
    0 < f.len <= ShapeCapacity(f.fd) && f.len <= |f.data|
  }

  /** Decodes one frame. A malformed frame is an error (the channel counts it as
      discarded), and the error names the first check it fails; a well-formed one
      keeps exactly the reported number of payload bytes, never more than 64. */
  function DecodeFrame(f: RawFrame, receptionTime: Timestamp, sourceId: nat): (r: Result<VehicleDataMessage, DecodeError>)
    ensures r.Ok? <==> FrameWellFormed(f)
    ensures r == Err(EmptyFrame) <==> f.len == 0
    ensures r == Err(ShapeMismatch) <==> 0 < f.len && f.len > ShapeCapacity(f.fd)
    ensures r == Err(TruncatedStorage) <==> 0 < f.len <= ShapeCapacity(f.fd) && f.len > |f.data|
    ensures r.Ok? ==> r.value.messageId == MessageId(f.canId)
    ensures r.Ok? ==> |r.value.payload| == f.len <= MAX_CAN_FRAME_BYTE_SIZE
    ensures r.Ok? ==> r.value.payload == f.data[..f.len]
    ensures r.Ok? ==> r.value.fd == f.fd && r.value.receptionTime == receptionTime && r.value.sourceId == sourceId
    ensures r.Ok? && !f.fd ==> |r.value.payload| <= CAN_MAX_DLEN
  {
    if f.len == 0 then Err(EmptyFrame)
    else if f.len > ShapeCapacity(f.fd) then Err(ShapeMismatch)
    else if f.len > |f.data| then Err(TruncatedStorage)
    else Ok(VehicleDataMessage(MessageId(f.canId), f.data[..f.len], receptionTime, sourceId, f.fd))
  }
}
