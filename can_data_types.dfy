/** The records the CAN stack hands downstream: a physical value tagged with its
    signal type, a decoded signal, the frame information and the decoded message. */
module CanDataTypes {

  const TWO_POW_63: int := 0x8000_0000_0000_0000
  const TWO_POW_64: int := 0x1_0000_0000_0000_0000

  type Byte = x: int | 0 <= x < 0x100
  type Uint32 = x: int | 0 <= x < 0x1_0000_0000
  type Uint64 = x: int | 0 <= x < 0x1_0000_0000_0000_0000
  type Int64 = x: int | -0x8000_0000_0000_0000 <= x < 0x8000_0000_0000_0000

  /** Largest payload of any frame, classic or flexible-data-rate, in bytes. */
  const MAX_CAN_FRAME_BYTE_SIZE: nat := 64

  /** The signal types of the data-management layer. */
  datatype SignalType =
    | Uint8 | Int8 | Uint16 | Int16 | Uint32Type | Int32
    | Uint64Type | Int64Type | Float | Double | Boolean | Unknown

  /** Source kind and protocol tags of a vehicle data source. Only `CanSource` and
      `RawSocket` are used by the CAN channel; the other values stand for the rest of
      the data-source framework's enumerations. */
  datatype VehicleDataSourceType = CanSource | InvalidSourceType
  datatype VehicleDataSourceProtocol = RawSocket | Obd | InvalidProtocol

  /** A value of an integral type of at most 64 bits, signed or unsigned. */
  predicate IsIntegral64(v: int)
  {
    -TWO_POW_63 <= v < TWO_POW_64
  }

  /** `static_cast<uint64_t>`: reduction modulo 2^64. */
  function ToUint64(v: int): (u: Uint64)
    ensures (u - v) % TWO_POW_64 == 0
    ensures 0 <= v < TWO_POW_64 ==> u == v
  {
    v % TWO_POW_64
  }

  /** `static_cast<int64_t>`: the two's-complement reading of the low 64 bits. */
  function ToInt64(v: int): (i: Int64)
    ensures (i - v) % TWO_POW_64 == 0
    ensures -TWO_POW_63 <= v < TWO_POW_63 ==> i == v
  {
    var u := v % TWO_POW_64;
    if u < TWO_POW_63 then u else u - TWO_POW_64
  }

  /** The two integral members of a value built from the same source agree bit for bit. */
  lemma Int64AndUint64AgreeOnBits(v: int)
    ensures ToUint64(ToInt64(v)) == ToUint64(v)
  {
  }

  /** The union storage. The floating-point member is kept opaque: it records the
      integral value it was converted from, and its rounding is not modelled. */
  datatype CanPhysicalValue =
    | DoubleVal(convertedFrom: int)
    | Uint64Val(uint64Val: Uint64)
    | Int64Val(int64Val: Int64)

  /** A physical value together with the tag saying which member is set. */
  datatype CanPhysicalValueType = CanPhysicalValueType(signalValue: CanPhysicalValue, signalType: SignalType)
  {
    /** The tag: which member of the value is set. */
    function GetType(): (t: SignalType)
      ensures t == signalType
    {
      signalType
    }
  }

  /** The member that is set is the one the tag selects. */
  predicate MemberMatchesTag(p: CanPhysicalValueType)
  {
    match p.signalType
    case Uint64Type => p.signalValue.Uint64Val?
    case Int64Type => p.signalValue.Int64Val?
    case _ => p.signalValue.DoubleVal?
  }

  /** The tag-directed constructor, for a source value of an integral type. */
  function MakePhysicalValue(val: int, signalType: SignalType): (p: CanPhysicalValueType)
    requires IsIntegral64(val)
    ensures p.GetType() == signalType
    ensures MemberMatchesTag(p)
    ensures p.signalValue.Uint64Val? ==> (p.signalValue.uint64Val - val) % TWO_POW_64 == 0
    ensures p.signalValue.Int64Val? ==> (p.signalValue.int64Val - val) % TWO_POW_64 == 0
    ensures p.signalValue.DoubleVal? ==> p.signalValue.convertedFrom == val
  {
    match signalType
    case Uint64Type => CanPhysicalValueType(Uint64Val(ToUint64(val)), signalType)
    case Int64Type => CanPhysicalValueType(Int64Val(ToInt64(val)), signalType)
    case _ => CanPhysicalValueType(DoubleVal(val), signalType)
  }

  /** A value that fits the selected member is stored exactly. */
  lemma PhysicalValueStoredExactly(val: int, signalType: SignalType)
    requires IsIntegral64(val)
    ensures signalType == Uint64Type && 0 <= val ==> MakePhysicalValue(val, signalType).signalValue == Uint64Val(val)
    ensures signalType == Int64Type && val < TWO_POW_63 ==> MakePhysicalValue(val, signalType).signalValue == Int64Val(val)
    ensures signalType != Uint64Type && signalType != Int64Type ==> MakePhysicalValue(val, signalType).signalValue == DoubleVal(val)
  {
  }

  /** Reading the tag back recovers the member: the tag and the variant determine each other. */
  lemma TagDeterminesMember(p: CanPhysicalValueType, q: CanPhysicalValueType)
    requires MemberMatchesTag(p) && MemberMatchesTag(q)
    requires p.GetType() == q.GetType()
    ensures p.signalValue.Uint64Val? == q.signalValue.Uint64Val?
    ensures p.signalValue.Int64Val? == q.signalValue.Int64Val?
    ensures p.signalValue.DoubleVal? == q.signalValue.DoubleVal?
  {
  }

  /** A decoded signal. The source does not check that `signalType` agrees with the
      tag of `physicalValue`; `SignalTypesAgree` names the case where it does. */
  datatype CanDecodedSignal = CanDecodedSignal(
    signalId: Uint32,
    rawValue: Int64,
    physicalValue: CanPhysicalValueType,
    signalType: SignalType)

  predicate SignalTypesAgree(s: CanDecodedSignal)
  {
    s.signalType == s.physicalValue.GetType()
  }

  /** A decoded signal keeps its four fields exactly as given, whatever the value and the type. */
  lemma DecodedSignalStoresFields(signalId: Uint32, rawValue: Int64, p: CanPhysicalValueType, t: SignalType)
    ensures var s := CanDecodedSignal(signalId, rawValue, p, t);
      s.signalId == signalId && s.rawValue == rawValue && s.physicalValue == p && s.signalType == t
  {
  }

  /** A decoded signal built from a tag-directed value and the same tag is consistent:
      its type agrees with the value's tag and the member set is the one the tag selects. */
  lemma DecodedSignalFromTaggedValueAgrees(signalId: Uint32, rawValue: Int64, val: int, signalType: SignalType)
    requires IsIntegral64(val)
    ensures var s := CanDecodedSignal(signalId, rawValue, MakePhysicalValue(val, signalType), signalType);
      SignalTypesAgree(s) && MemberMatchesTag(s.physicalValue)
  {
  }

  /** The identifier, raw payload and decoded signals of one CAN frame. */
  datatype CanFrameInfo = CanFrameInfo(frameId: Uint32, frameRawData: seq<Byte>, signals: seq<CanDecodedSignal>)

  /** A frame information record whose payload fits a CAN-FD frame. */
  predicate FrameInfoWithinBound(f: CanFrameInfo)
  {
    |f.frameRawData| <= MAX_CAN_FRAME_BYTE_SIZE
  }

  /** The default-constructed frame information: id 0, no payload, no signals. */
  function DefaultFrameInfo(): (f: CanFrameInfo)
    ensures f.frameId == 0 && f.frameRawData == [] && f.signals == []
    ensures FrameInfoWithinBound(f)
  {
    CanFrameInfo(0, [], [])
  }

  /** A decoded message: frame information, when it was received and decoded, and
      the channel it came from. */
  datatype CanDecodedMessage = CanDecodedMessage(
    frameInfo: CanFrameInfo,
    receptionTime: nat,
    decodingTime: nat,
    channelIfName: string,
    channelType: VehicleDataSourceType,
    channelProtocol: VehicleDataSourceProtocol)

  /** A default-constructed decoded message: default frame information, both times
      zero and an empty interface name. The channel type and protocol have no
      default in the record; they are the arguments. */
  function DefaultDecodedMessage(sourceType: VehicleDataSourceType, protocol: VehicleDataSourceProtocol): (m: CanDecodedMessage)
    ensures m.frameInfo == DefaultFrameInfo()
    ensures m.receptionTime == 0 && m.decodingTime == 0
    ensures m.channelIfName == []
    ensures m.channelType == sourceType && m.channelProtocol == protocol
  {
    CanDecodedMessage(DefaultFrameInfo(), 0, 0, "", sourceType, protocol)
  }
}
