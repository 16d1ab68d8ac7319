/** The channel's behavioural tests as method sequences: each drives a fresh
    channel through init, connect, resume/suspend and disconnect while test frames
    are written to the bus and popped from the buffer, and its postcondition
    states what the test asserts. The outcome of setting up the raw socket is the
    parameter `kernelSocket`. */
module CanDataSourceTest {
  import opened CanDataTypes
  import opened CanTimestamp
  import opened CanFrame
  import opened VehicleNetwork

  /** The identifier the tests send. */
  const TEST_ID: nat := 0x123

  /** The configuration every test uses, on `vcan0`, classic or CAN-FD. */
  function TestConfig(protocol: CanProtocol): VehicleDataSourceConfig
  {
    VehicleDataSourceConfig("vcan0", protocol, 100, 1000)
  }

  /** A classic frame with `can_dlc` 4 whose first three data bytes are 0, 1, 2;
      the rest of its 8-byte storage is zero. */
  method TestMessage(canId: CanIdWord) returns (f: RawFrame)
    ensures f.canId == canId && f.len == 4 && !f.fd && |f.data| == CAN_MAX_DLEN
    ensures forall i :: 0 <= i < |f.data| ==> f.data[i] == (if i < 3 then i else 0)
  {
    var data := new Byte[CAN_MAX_DLEN](_ => 0);
    for i := 0 to 3
      invariant forall k :: 0 <= k < data.Length ==> data[k] == (if k < i then k else 0)
    {
      data[i] := i;
    }
    f := RawFrame(canId, 4, data[..], false);
  }

  /** A CAN-FD frame with `len` 64 whose data bytes are 0, 1, ..., 63. */
  method TestFdMessage(canId: CanIdWord) returns (f: RawFrame)
    ensures f.canId == canId && f.len == CANFD_MAX_DLEN && f.fd && |f.data| == CANFD_MAX_DLEN
    ensures forall i :: 0 <= i < |f.data| ==> f.data[i] == i
  {
    var data := new Byte[CANFD_MAX_DLEN](_ => 0);
    for i := 0 to CANFD_MAX_DLEN
      invariant forall k :: 0 <= k < i ==> data[k] == k
    {
      data[i] := i;
    }
    f := RawFrame(canId, CANFD_MAX_DLEN, data[..], true);
  }

  /** A fresh, initialised and connected channel, as every lifecycle test starts:
      connect succeeds, fires exactly the connect callback and makes the channel
      alive, and the accessors report the configured interface, protocol and type. */
  method ConnectedSource(protocol: CanProtocol, kernelSocket: nat) returns (source: CanDataSource)
    ensures fresh(source) && source.Valid()
    ensures source.Reading() && source.shouldSleep && !source.Acquiring()
    ensures source.events == [Connected(source.sourceId)] && source.buffer == []
    ensures source.receivedMessages == 0 && source.discardedMessages == 0
    ensures source.ifName == "vcan0" && source.forceCanFd == (protocol == CanFd)
    ensures source.capacity == 1000 && source.timestampTypeToUse == DEFAULT_TIMESTAMP_TYPE
  {
    var counter := new SourceIdCounter();
    source := new CanDataSource(counter);
    var ok := source.Init([TestConfig(protocol)], kernelSocket);
    assert ok;
    ok := source.Connect(true);
    assert ok;
    var alive := source.IsAlive();
    assert alive;
    var name := source.GetVehicleDataSourceIfName();
    var proto := source.GetVehicleDataSourceProtocol();
    var kind := source.GetVehicleDataSourceType();
    assert name == "vcan0" && proto == RawSocket && kind == CanSource;
  }

  /** With the gate open, a frame on the bus can be popped; disconnect succeeds and
      fires the disconnect callback after the connect callback. */
  method AquireDataFromNetwork(kernelSocket: nat, software: Timestamp, hardware: Timestamp, polling: Timestamp)
    returns (popped: Option<VehicleDataMessage>, disconnected: bool, events: seq<ListenerEvent>)
    ensures popped.Some? && popped.value.messageId == TEST_ID && |popped.value.payload| == 4
    ensures popped.value.receptionTime == (if software != 0 then software else polling)
    ensures disconnected
    ensures |events| == 2 && events[0].Connected? && events[1] == Disconnected(events[0].id)
  {
    var source := ConnectedSource(Can, kernelSocket);
    source.ResumeDataAcquisition();
    var frame := TestMessage(TEST_ID);
    var _ := source.OnFrame(frame, software, hardware, polling);
    popped := source.Pop();
    disconnected := source.Disconnect();
    events := source.events;
  }

  /** The channel does not acquire by default: a frame on the bus never reaches the buffer. */
  method DoNotAcquireDataFromNetwork(kernelSocket: nat, software: Timestamp, hardware: Timestamp, polling: Timestamp)
    returns (popped: Option<VehicleDataMessage>, disconnected: bool, events: seq<ListenerEvent>)
    ensures popped == None
    ensures disconnected
    ensures |events| == 2 && events[0].Connected? && events[1] == Disconnected(events[0].id)
  {
    var source := ConnectedSource(Can, kernelSocket);
    var frame := TestMessage(TEST_ID);
    var _ := source.OnFrame(frame, software, hardware, polling);
    popped := source.Pop();
    disconnected := source.Disconnect();
    events := source.events;
  }

  /** Asleep by default, acquiring after resume, asleep again after suspend. */
  method NetworkDataAquisitionStateChange(kernelSocket: nat, software: Timestamp, hardware: Timestamp, polling: Timestamp)
    returns (beforeResume: Option<VehicleDataMessage>, afterResume: Option<VehicleDataMessage>,
             afterSuspend: Option<VehicleDataMessage>, disconnected: bool)
    ensures beforeResume == None
    ensures afterResume.Some? && afterResume.value.messageId == TEST_ID
    ensures afterSuspend == None
    ensures disconnected
  {
    var source := ConnectedSource(Can, kernelSocket);
    var frame := TestMessage(TEST_ID);
    var _ := source.OnFrame(frame, software, hardware, polling);
    beforeResume := source.Pop();
    source.ResumeDataAcquisition();
    var _ := source.OnFrame(frame, software, hardware, polling);
    afterResume := source.Pop();
    source.SuspendDataAcquisition();
    var _ := source.OnFrame(frame, software, hardware, polling);
    afterSuspend := source.Pop();
    disconnected := source.Disconnect();
  }

  /** Constructing `n` sources hands out `n` distinct ids. */
  method SourceIdsAreUnique(n: nat) returns (ids: seq<VehicleDataSourceId>)
    ensures |ids| == n
    ensures forall i, j :: 0 <= i < j < |ids| ==> ids[i] != ids[j]
  {
    var counter := new SourceIdCounter();
    ids := [];
    while |ids| < n
      invariant |ids| <= n
      invariant counter.Valid()
      invariant forall k :: 0 <= k < |ids| ==> ids[k] in counter.issued
      invariant forall i, j :: 0 <= i < j < |ids| ==> ids[i] != ids[j]
    {
      var source := new CanDataSource(counter);
      var id := source.GetVehicleDataSourceId();
      ids := ids + [id];
    }
  }

  /** A CAN-FD channel accepts a 64-byte frame and keeps all of its payload. */
  method CanFdSocketMode(kernelSocket: nat, software: Timestamp, hardware: Timestamp, polling: Timestamp)
    returns (popped: Option<VehicleDataMessage>, disconnected: bool)
    ensures popped.Some? && popped.value.fd && popped.value.messageId == TEST_ID
    ensures |popped.value.payload| == 64
    ensures forall i :: 0 <= i < |popped.value.payload| ==> popped.value.payload[i] == i
    ensures disconnected
  {
    var source := ConnectedSource(CanFd, kernelSocket);
    source.ResumeDataAcquisition();
    var frame := TestFdMessage(TEST_ID);
    var _ := source.OnFrame(frame, software, hardware, polling);
    popped := source.Pop();
    disconnected := source.Disconnect();
  }

  /** A classic channel never sees a CAN-FD frame: nothing is queued or counted. */
  method ClassicSourceIgnoresFdFrame(kernelSocket: nat, software: Timestamp, hardware: Timestamp, polling: Timestamp)
    returns (popped: Option<VehicleDataMessage>, received: nat, discarded: nat)
    ensures popped == None && received == 0 && discarded == 0
  {
    var source := ConnectedSource(Can, kernelSocket);
    source.ResumeDataAcquisition();
    var frame := TestFdMessage(TEST_ID);
    var _ := source.OnFrame(frame, software, hardware, polling);
    popped := source.Pop();
    received, discarded := source.receivedMessages, source.discardedMessages;
  }

  /** A standard id 0x123 is published as message id 0x123. */
  method SendRegularId(kernelSocket: nat, software: Timestamp, hardware: Timestamp, polling: Timestamp)
    returns (popped: Option<VehicleDataMessage>)
    ensures popped.Some? && popped.value.messageId == 0x123
  {
    var source := ConnectedSource(Can, kernelSocket);
    source.ResumeDataAcquisition();
    var frame := TestMessage(TEST_ID);
    var _ := source.OnFrame(frame, software, hardware, polling);
    popped := source.Pop();
    var _ := source.Disconnect();
  }

  /** The id 0x123 sent as an extended frame is published as 0x80000123. */
  method ExtractExtendedId(kernelSocket: nat, software: Timestamp, hardware: Timestamp, polling: Timestamp)
    returns (popped: Option<VehicleDataMessage>)
    ensures popped.Some? && popped.value.messageId == 0x8000_0123
  {
    var source := ConnectedSource(Can, kernelSocket);
    source.ResumeDataAcquisition();
    var frame := TestMessage(EncodeCanId(Extended(TEST_ID)));
    var _ := source.OnFrame(frame, software, hardware, polling);
    popped := source.Pop();
    var _ := source.Disconnect();
  }

  /** A second disconnect is a no-op that still succeeds; after it no frame is read. */
  method DisconnectTwice(kernelSocket: nat, software: Timestamp, hardware: Timestamp, polling: Timestamp)
    returns (first: bool, second: bool, events: seq<ListenerEvent>, popped: Option<VehicleDataMessage>)
    ensures first && second
    ensures |events| == 2 && events[0].Connected? && events[1] == Disconnected(events[0].id)
    ensures popped == None
  {
    var source := ConnectedSource(Can, kernelSocket);
    source.ResumeDataAcquisition();
    first := source.Disconnect();
    second := source.Disconnect();
    events := source.events;
    var frame := TestMessage(TEST_ID);
    var _ := source.OnFrame(frame, software, hardware, polling);
    popped := source.Pop();
  }

  /** Connect fails on a channel whose init failed, and fires no callback. */
  method ConnectWithoutSocket() returns (initOk: bool, connectOk: bool, alive: bool, events: seq<ListenerEvent>)
    ensures !initOk && !connectOk && !alive && events == []
  {
    var counter := new SourceIdCounter();
    var source := new CanDataSource(counter);
    initOk := source.Init([TestConfig(Can)], -1);
    connectOk := source.Connect(true);
    alive := source.IsAlive();
    events := source.events;
  }
}
