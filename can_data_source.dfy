/** The Linux CAN acquisition channel: one raw socket on one interface, a reader
    that tags, decodes and queues frames, an active gate switched by
    suspend/resume, and the connect/disconnect lifecycle. The reader thread is
    replaced by `OnFrame`, one step of its loop for one received frame. */
module VehicleNetwork {
  import opened CanDataTypes
  import opened CanTimestamp
  import opened CanFrame

  /** Default reader idle time in milliseconds. */
  const DEFAULT_THREAD_IDLE_TIME_MS: nat := 1000
  /** `IFNAMSIZ`: an interface name must be shorter than this. */
  const IFNAMSIZ: nat := 16
  /** The first id the process-wide counter hands out. */
  const FIRST_SOURCE_ID: nat := 1
  /** The socket value meaning "no socket". */
  const NO_SOCKET: int := -1

  type VehicleDataSourceId = nat

  /** What the subscribed listeners are told. */
  datatype ListenerEvent = Connected(id: VehicleDataSourceId) | Disconnected(id: VehicleDataSourceId)

  /** Which frames the socket is set up to receive. */
  datatype CanProtocol = Can | CanFd

  /** One data-source configuration, with its transport properties already typed. */
  datatype VehicleDataSourceConfig = VehicleDataSourceConfig(
    interfaceName: string,
    protocolName: CanProtocol,
    threadIdleTimeMs: nat,
    maxNumberOfVehicleDataMessages: nat)

  /** When `init` accepts a set of configurations: exactly one, naming an
      interface that fits `IFNAMSIZ`, with a positive idle time. */
  predicate ConfigAcceptable(configs: seq<VehicleDataSourceConfig>)
  {
    |configs| == 1 &&
    0 < |configs[0].interfaceName| < IFNAMSIZ &&
    configs[0].threadIdleTimeMs > 0
  }

  /** The most frames one receive call hands the reader. */
  const PARALLEL_RECEIVED_FRAMES_FROM_KERNEL: nat := 10

  /** A frame as the reader receives it: the frame and the kernel's software and
      hardware receive timestamps (0 when absent), with the polling time. */
  datatype ReceivedFrame = ReceivedFrame(raw: RawFrame, software: Timestamp, hardware: Timestamp, polling: Timestamp)

  /** Whether the socket hands a frame to the reader at all: a raw socket receives
      CAN-FD frames only once CAN-FD frames are enabled on it. */
  predicate Delivered(f: RawFrame, fdEnabled: bool)
  {
    !f.fd || fdEnabled
  }

  /** The decoding of one received frame on a channel with the given settings. */
  function DecodeReceived(r: ReceivedFrame, strategy: CanTimestampType, sourceId: VehicleDataSourceId): Result<VehicleDataMessage, DecodeError>
  {
    DecodeFrame(r.raw, ResolveTimestamp(strategy, r.software, r.hardware, r.polling), sourceId)
  }

  /** The messages that frames decode to, in arrival order; frames the socket does
      not deliver and malformed frames drop out. */
  function DecodedAll(frames: seq<ReceivedFrame>, fdEnabled: bool, strategy: CanTimestampType, sourceId: VehicleDataSourceId): (ms: seq<VehicleDataMessage>)
    ensures |ms| <= |frames|
    ensures forall m :: m in ms ==> m.sourceId == sourceId && |m.payload| <= MAX_CAN_FRAME_BYTE_SIZE
  {
    if frames == [] then []
    else
      var before := DecodedAll(frames[..|frames| - 1], fdEnabled, strategy, sourceId);
      var last := frames[|frames| - 1];
      if !Delivered(last.raw, fdEnabled) then before
      else match DecodeReceived(last, strategy, sourceId)
        case Err(_) => before
        case Ok(m) => before + [m]
  }

  /** How many frames the socket delivered but the reader could not decode. Every
      frame is either undelivered, discarded or decoded; when all are delivered,
      discarded and decoded frames together are all of them. */
  function DiscardedCount(frames: seq<ReceivedFrame>, fdEnabled: bool, strategy: CanTimestampType, sourceId: VehicleDataSourceId): (n: nat)
    ensures n + |DecodedAll(frames, fdEnabled, strategy, sourceId)| <= |frames|
    ensures (forall k :: 0 <= k < |frames| ==> Delivered(frames[k].raw, fdEnabled)) ==>
              n + |DecodedAll(frames, fdEnabled, strategy, sourceId)| == |frames|
  {
    if frames == [] then 0
    else
      var before := DiscardedCount(frames[..|frames| - 1], fdEnabled, strategy, sourceId);
      var last := frames[|frames| - 1];
      if Delivered(last.raw, fdEnabled) && DecodeReceived(last, strategy, sourceId).Err? then before + 1 else before
  }

  /** The bounded buffer after a reader with its gate open has processed `frames`
      in arrival order, starting from `buffer`: each decoded message is appended
      while there is room, and dropped once the buffer is full. The buffer only
      grows, by at most one message per frame, each from this channel. */
  function AfterFrames(buffer: seq<VehicleDataMessage>, capacity: nat, frames: seq<ReceivedFrame>,
                       fdEnabled: bool, strategy: CanTimestampType, sourceId: VehicleDataSourceId): (r: seq<VehicleDataMessage>)
    ensures |buffer| <= |r| <= |buffer| + |frames|
    ensures forall k :: |buffer| <= k < |r| ==> r[k].sourceId == sourceId && |r[k].payload| <= MAX_CAN_FRAME_BYTE_SIZE
  {
    if frames == [] then buffer
    else
      var before := AfterFrames(buffer, capacity, frames[..|frames| - 1], fdEnabled, strategy, sourceId);
      var last := frames[|frames| - 1];
      if !Delivered(last.raw, fdEnabled) then before
      else match DecodeReceived(last, strategy, sourceId)
        case Err(_) => before
        case Ok(m) => if |before| < capacity then before + [m] else before
  }

  /** Nothing already queued is lost or reordered, and the capacity is never exceeded. */
  lemma {:induction false} AfterFramesExtends(buffer: seq<VehicleDataMessage>, capacity: nat, frames: seq<ReceivedFrame>,
                                              fdEnabled: bool, strategy: CanTimestampType, sourceId: VehicleDataSourceId)
    ensures buffer <= AfterFrames(buffer, capacity, frames, fdEnabled, strategy, sourceId)
    ensures |buffer| <= capacity ==> |AfterFrames(buffer, capacity, frames, fdEnabled, strategy, sourceId)| <= capacity
  {
    if frames != [] {
      AfterFramesExtends(buffer, capacity, frames[..|frames| - 1], fdEnabled, strategy, sourceId);
    }
  }

  /** While the buffer has room for all of them, every decoded message is queued,
      in the order its frame arrived. */
  lemma {:induction false} AfterFramesInOrder(buffer: seq<VehicleDataMessage>, capacity: nat, frames: seq<ReceivedFrame>,
                                              fdEnabled: bool, strategy: CanTimestampType, sourceId: VehicleDataSourceId)
    requires |buffer| + |DecodedAll(frames, fdEnabled, strategy, sourceId)| <= capacity
    ensures AfterFrames(buffer, capacity, frames, fdEnabled, strategy, sourceId)
            == buffer + DecodedAll(frames, fdEnabled, strategy, sourceId)
  {
    if frames != [] {
      var init := frames[..|frames| - 1];
      var last := frames[|frames| - 1];
      var before := DecodedAll(init, fdEnabled, strategy, sourceId);
      assert |before| <= |DecodedAll(frames, fdEnabled, strategy, sourceId)|;
      AfterFramesInOrder(buffer, capacity, init, fdEnabled, strategy, sourceId);
      if Delivered(last.raw, fdEnabled) {
        match DecodeReceived(last, strategy, sourceId)
        case Err(_) =>
        case Ok(m) =>
          assert buffer + before + [m] == buffer + (before + [m]);
      }
    }
  }

  /** The process-wide source-id counter. `issued` is every id handed out so far. */
  class SourceIdCounter {
    var next: VehicleDataSourceId
    ghost var issued: set<VehicleDataSourceId>

    ghost predicate Valid()
      reads this
    {
      forall id :: id in issued ==> id < next
    }

    constructor ()
      ensures Valid() && next == FIRST_SOURCE_ID && issued == {}
    {
      next := FIRST_SOURCE_ID;
      issued := {};
    }

    /** Hands out the next id; it was never handed out before. */
    method Issue() returns (id: VehicleDataSourceId)
      requires Valid()
      modifies this
      ensures Valid()
      ensures id == old(next) && next == old(next) + 1
      ensures id !in old(issued) && issued == old(issued) + {id}
    {
      id := next;
      next := next + 1;
      issued := issued + {id};
    }
  }

  class CanDataSource {
    const sourceId: VehicleDataSourceId
    const timestampTypeToUse: CanTimestampType

    var socket: int             // the raw socket descriptor, NO_SOCKET when there is none
    var threadRunning: bool     // the reader thread exists
    var shouldStop: bool
    var shouldSleep: bool
    var idleTimeMs: nat
    var forceCanFd: bool        // the socket receives CAN-FD frames
    var ifName: string
    var receivedMessages: nat
    var discardedMessages: nat
    var buffer: seq<VehicleDataMessage>   // the bounded buffer, oldest first
    var capacity: nat
    var events: seq<ListenerEvent>        // notifications sent to listeners, oldest first

    /** The channel invariant: the reader never runs without a socket, the buffer
        stays within its capacity, and everything queued came from this channel
        and fits a CAN-FD frame. */
    ghost predicate Valid()
      reads this
    {
      (threadRunning ==> socket != NO_SOCKET) &&
      idleTimeMs > 0 &&
      |buffer| <= capacity &&
      (forall m :: m in buffer ==> m.sourceId == sourceId && |m.payload| <= MAX_CAN_FRAME_BYTE_SIZE)
    }

    /** The reader is running and may read the socket. */
    ghost predicate Reading()
      reads this
    {
      socket != NO_SOCKET && threadRunning && !shouldStop
    }

    /** The active gate is open: a received frame reaches the buffer. */
    ghost predicate Acquiring()
      reads this
    {
      Reading() && !shouldSleep
    }

    /** The state of a channel that was just constructed: no socket, no reader,
        the gate closed, the default idle time, nothing counted, queued or announced. */
    ghost predicate Unconnected()
      reads this
    {
      socket == NO_SOCKET && !threadRunning && !shouldStop && !shouldSleep &&
      idleTimeMs == DEFAULT_THREAD_IDLE_TIME_MS &&
      receivedMessages == 0 && discardedMessages == 0 &&
      buffer == [] && capacity == 0 && events == [] && !forceCanFd
    }

    /** A channel using the default timestamp strategy. */
    constructor (counter: SourceIdCounter)
      requires counter.Valid()
      modifies counter
      ensures Valid() && counter.Valid()
      ensures timestampTypeToUse == DEFAULT_TIMESTAMP_TYPE
      ensures sourceId == old(counter.next) && sourceId !in old(counter.issued)
      ensures counter.issued == old(counter.issued) + {sourceId}
      ensures Unconnected()
    {
      var id := counter.Issue();
      sourceId := id;
      timestampTypeToUse := DEFAULT_TIMESTAMP_TYPE;
      socket := NO_SOCKET;
      threadRunning, shouldStop, shouldSleep := false, false, false;
      idleTimeMs := DEFAULT_THREAD_IDLE_TIME_MS;
      forceCanFd := false;
      ifName := "";
      receivedMessages, discardedMessages := 0, 0;
      buffer, capacity, events := [], 0, [];
    }

    /** A channel tagging frames with the given timestamp strategy. */
    constructor WithTimestampType(timestampType: CanTimestampType, counter: SourceIdCounter)
      requires counter.Valid()
      modifies counter
      ensures Valid() && counter.Valid()
      ensures timestampTypeToUse == timestampType
      ensures sourceId == old(counter.next) && sourceId !in old(counter.issued)
      ensures counter.issued == old(counter.issued) + {sourceId}
      ensures Unconnected()
    {
      var id := counter.Issue();
      sourceId := id;
      timestampTypeToUse := timestampType;
      socket := NO_SOCKET;
      threadRunning, shouldStop, shouldSleep := false, false, false;
      idleTimeMs := DEFAULT_THREAD_IDLE_TIME_MS;
      forceCanFd := false;
      ifName := "";
      receivedMessages, discardedMessages := 0, 0;
      buffer, capacity, events := [], 0, [];
    }

    /** Validates the configuration and takes the bound socket. `kernelSocket` is
        the outcome of creating, configuring and binding the raw socket (negative
        when any of those failed). On failure nothing changes. */
    method Init(configs: seq<VehicleDataSourceConfig>, kernelSocket: int) returns (ok: bool)
      requires Valid()
      requires socket == NO_SOCKET && !threadRunning
      modifies this
      ensures Valid()
      ensures ok <==> ConfigAcceptable(configs) && kernelSocket >= 0
      ensures ok ==> (socket == kernelSocket && ifName == configs[0].interfaceName
                      && forceCanFd == (configs[0].protocolName == CanFd)
                      && idleTimeMs == configs[0].threadIdleTimeMs
                      && capacity == configs[0].maxNumberOfVehicleDataMessages && buffer == [])
      ensures !ok ==> (socket == old(socket) && ifName == old(ifName) && forceCanFd == old(forceCanFd)
                       && idleTimeMs == old(idleTimeMs) && capacity == old(capacity) && buffer == old(buffer))
      ensures threadRunning == old(threadRunning) && shouldStop == old(shouldStop) && shouldSleep == old(shouldSleep)
      ensures receivedMessages == old(receivedMessages) && discardedMessages == old(discardedMessages)
      ensures events == old(events)
    {
      if !ConfigAcceptable(configs) || kernelSocket < 0 {
        return false;
      }
      var config := configs[0];
      ifName := config.interfaceName;
      forceCanFd := config.protocolName == CanFd;
      idleTimeMs := config.threadIdleTimeMs;
      capacity := config.maxNumberOfVehicleDataMessages;
      buffer := [];
      socket := kernelSocket;
      ok := true;
    }

    /** Starts the reader, parked behind the closed gate, and notifies the
        listeners. `threadStarted` is whether the operating system started the
        thread. Fails without a socket; does nothing when the reader already runs. */
    method Connect(threadStarted: bool) returns (ok: bool)
      requires Valid()
      modifies this`threadRunning, this`shouldStop, this`shouldSleep, this`events
      ensures Valid()
      ensures ok <==> old(socket) != NO_SOCKET && (old(threadRunning) || threadStarted)
      ensures old(socket) != NO_SOCKET && !old(threadRunning) && threadStarted ==>
                threadRunning && !shouldStop && shouldSleep && events == old(events) + [Connected(sourceId)]
      ensures !(old(socket) != NO_SOCKET && !old(threadRunning) && threadStarted) ==>
                threadRunning == old(threadRunning) && shouldStop == old(shouldStop)
                && shouldSleep == old(shouldSleep) && events == old(events)
    {
      if socket == NO_SOCKET {
        return false;
      }
      if threadRunning {
        return true;
      }
      if !threadStarted {
        return false;
      }
      shouldStop := false;
      shouldSleep := true;
      threadRunning := true;
      events := events + [Connected(sourceId)];
      ok := true;
    }

    /** Stops and joins the reader, closes the socket and notifies the listeners.
        Always succeeds; with neither a socket nor a reader it does nothing. */
    method Disconnect() returns (ok: bool)
      requires Valid()
      modifies this`threadRunning, this`shouldStop, this`socket, this`events
      ensures Valid() && ok
      ensures socket == NO_SOCKET && !threadRunning && !Reading()
      ensures old(socket) != NO_SOCKET || old(threadRunning) ==>
                shouldStop && events == old(events) + [Disconnected(sourceId)]
      ensures old(socket) == NO_SOCKET && !old(threadRunning) ==>
                shouldStop == old(shouldStop) && events == old(events)
    {
      if socket != NO_SOCKET || threadRunning {
        shouldStop := true;
        threadRunning := false;
        socket := NO_SOCKET;
        events := events + [Disconnected(sourceId)];
      }
      ok := true;
    }

    /** The channel is alive when it has a socket and a running reader. */
    method IsAlive() returns (alive: bool)
      requires Valid()
      ensures alive <==> socket != NO_SOCKET && threadRunning
    {
      alive := socket != NO_SOCKET && threadRunning;
    }

    /** Opens the active gate. */
    method ResumeDataAcquisition()
      requires Valid()
      modifies this`shouldSleep
      ensures Valid() && !shouldSleep
      ensures Reading() ==> Acquiring()
    {
      shouldSleep := false;
    }

    /** Closes the active gate; the reader keeps running. */
    method SuspendDataAcquisition()
      requires Valid()
      modifies this`shouldSleep
      ensures Valid() && shouldSleep && !Acquiring()
      ensures Reading() == old(Reading())
    {
      shouldSleep := true;
    }

    /** One iteration of the reader loop for one frame arriving on the bus, with the
        kernel's software and hardware receive timestamps and the polling time.
        While the gate is closed or the reader is not running the frame does not
        reach the buffer, and a CAN-FD frame never reaches a socket without CAN-FD
        frames enabled. Otherwise a malformed frame is counted as discarded, and a
        decoded one is counted as received and queued if the buffer has room. */
    method OnFrame(frame: RawFrame, software: Timestamp, hardware: Timestamp, polling: Timestamp) returns (enqueued: bool)
      requires Valid()
      modifies this`buffer, this`receivedMessages, this`discardedMessages
      ensures Valid()
      ensures var decoded := DecodeFrame(frame, ResolveTimestamp(timestampTypeToUse, software, hardware, polling), sourceId);
        if !Acquiring() || !Delivered(frame, forceCanFd) then
          !enqueued && buffer == old(buffer)
          && receivedMessages == old(receivedMessages) && discardedMessages == old(discardedMessages)
        else if decoded.Err? then
          !enqueued && buffer == old(buffer)
          && receivedMessages == old(receivedMessages) && discardedMessages == old(discardedMessages) + 1
        else
          enqueued == (|old(buffer)| < capacity)
          && buffer == (if enqueued then old(buffer) + [decoded.value] else old(buffer))
          && receivedMessages == old(receivedMessages) + 1 && discardedMessages == old(discardedMessages)
    {
      enqueued := false;
      if !(socket != NO_SOCKET && threadRunning && !shouldStop && !shouldSleep) || (frame.fd && !forceCanFd) {
        return;
      }
      var timestamp := ResolveTimestamp(timestampTypeToUse, software, hardware, polling);
      var decoded := DecodeFrame(frame, timestamp, sourceId);
      if decoded.Err? {
        discardedMessages := discardedMessages + 1;
        return;
      }
      receivedMessages := receivedMessages + 1;
      if |buffer| < capacity {
        buffer := buffer + [decoded.value];
        enqueued := true;
      }
    }

    /** One iteration of the reader loop for a batch of frames returned by a single
        receive call, processed in arrival order. */
    method OnFrames(batch: seq<ReceivedFrame>)
      requires Valid()
      requires |batch| <= PARALLEL_RECEIVED_FRAMES_FROM_KERNEL
      modifies this`buffer, this`receivedMessages, this`discardedMessages
      ensures Valid()
      ensures if !Acquiring() then
          buffer == old(buffer)
          && receivedMessages == old(receivedMessages) && discardedMessages == old(discardedMessages)
        else
          buffer == AfterFrames(old(buffer), capacity, batch, forceCanFd, timestampTypeToUse, sourceId)
          && receivedMessages == old(receivedMessages) + |DecodedAll(batch, forceCanFd, timestampTypeToUse, sourceId)|
          && discardedMessages == old(discardedMessages) + DiscardedCount(batch, forceCanFd, timestampTypeToUse, sourceId)
    {
      var i := 0;
      while i < |batch|
        invariant 0 <= i <= |batch|
        invariant Valid()
        invariant !Acquiring() ==> (buffer == old(buffer)
          && receivedMessages == old(receivedMessages) && discardedMessages == old(discardedMessages))
        invariant Acquiring() ==> (
          buffer == AfterFrames(old(buffer), capacity, batch[..i], forceCanFd, timestampTypeToUse, sourceId)
          && receivedMessages == old(receivedMessages) + |DecodedAll(batch[..i], forceCanFd, timestampTypeToUse, sourceId)|
          && discardedMessages == old(discardedMessages) + DiscardedCount(batch[..i], forceCanFd, timestampTypeToUse, sourceId))
      {
        var r := batch[i];
        assert batch[..i + 1][..i] == batch[..i];
        assert batch[..i + 1][i] == r;
        var _ := OnFrame(r.raw, r.software, r.hardware, r.polling);
        i := i + 1;
      }
      assert batch[..i] == batch;
    }

    /** A consumer takes the oldest queued message, if any. */
    method Pop() returns (m: Option<VehicleDataMessage>)
      requires Valid()
      modifies this`buffer
      ensures Valid()
      ensures old(buffer) == [] ==> m == None && buffer == []
      ensures old(buffer) != [] ==> m == Some(old(buffer)[0]) && buffer == old(buffer)[1..]
    {
      if buffer == [] {
        m := None;
      } else {
        m := Some(buffer[0]);
        buffer := buffer[1..];
      }
    }

    method GetVehicleDataSourceId() returns (id: VehicleDataSourceId)
      ensures id == sourceId
    {
      id := sourceId;
    }

    method GetVehicleDataSourceIfName() returns (name: string)
      ensures name == ifName
    {
      name := ifName;
    }

    method GetVehicleDataSourceProtocol() returns (protocol: VehicleDataSourceProtocol)
      ensures protocol == RawSocket
    {
      protocol := RawSocket;
    }

    method GetVehicleDataSourceType() returns (sourceType: VehicleDataSourceType)
      ensures sourceType == CanSource
    {
      sourceType := CanSource;
    }
  }

  datatype Option<T> = None | Some(value: T)
}
