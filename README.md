# CAN acquisition channel of the FleetWise edge agent, modelled in Dafny

This project models the Linux CAN bus data source of the vehicle-network layer:

- the timestamp strategies (software kernel timestamp, hardware kernel timestamp,
  polling time), the parser from their configuration names, and the rule that picks
  a frame's timestamp;
- the records of the data-management layer: the tag-directed physical value, the
  decoded signal, the frame information and the decoded message;
- the frame decoder, which folds SocketCAN's extended-frame flag into the message id
  and bounds the payload;
- the acquisition channel `CanDataSource`, as a class. It owns one raw socket, runs
  a reader with a sleep gate and a stop flag, counts received and discarded frames,
  and publishes into a bounded buffer. Listener callbacks are recorded in an event log;
- the channel's unit tests, as method sequences on that class.

Files, one module each:

| file | module | models |
|---|---|---|
| `can_timestamp.dfy` | `CanTimestamp` | `CAN_TIMESTAMP_TYPE`, `stringToCanTimestampType`, timestamp selection |
| `can_data_types.dfy` | `CanDataTypes` | `CANPhysicalValueType`, `CANDecodedSignal`, `CANFrameInfo`, `CANDecodedMessage`, `MAX_CAN_FRAME_BYTE_SIZE` |
| `can_frame.dfy` | `CanFrame` | frame decoding: message-id folding, payload bound, frame shape |
| `can_data_source.dfy` | `VehicleNetwork` | `CanDataSource`, the process-wide source-id counter, the reader loop step |
| `can_data_source_test.dfy` | `CanDataSourceTest` | the channel tests |

Modelling decisions:

- The reader thread is replaced by explicit steps:
  - `OnFrame` is one loop iteration for one received frame;
  - `OnFrames` is one iteration for a receive batch of at most
    `PARALLEL_RECEIVED_FRAMES_FROM_KERNEL` frames.
  - `OnFrames` is proved against the pure function `AfterFrames`, which gives the
    buffer after a frame sequence is processed in arrival order.
- The outcome of creating, configuring and binding the raw socket is the `kernelSocket`
  parameter of `Init`. A negative value means one of those steps failed.
- Whether the operating system started the reader thread is the `threadStarted`
  parameter of `Connect`.
- The kernel's software and hardware receive timestamps and the polling time are plain
  inputs. 0 means the timestamp is absent.
- Transport properties arrive already typed (`VehicleDataSourceConfig`). Parsing the
  property strings is not part of this core.
- `CANDataSource.cpp` is not part of this model, and the header only declares `init`,
  `connect`, `disconnect` and the reader. The following rules are therefore this model's
  own conventions, chosen to agree with the header's fields and with the tests; none of
  them is stated by the modelled files:
  - `init` accepts exactly one configuration. The interface name must be non-empty and
    shorter than `IFNAMSIZ` (16), and the idle time must be positive. The name bound is the
    one the test helper `setup()` applies to its own socket
    (`src/vehiclenetwork/test/CANDataSourceTest.cpp:51`); the channel's own check is not
    visible. If `init` fails, nothing changes. Calling `init` again on a channel that
    already holds a socket or a reader is undefined; `Init` requires that it does not.
  - `connect()` on a channel whose reader already runs succeeds and changes nothing; in
    particular it fires no second connect callback.
  - `disconnect()` with neither a socket nor a reader is a no-op that returns true.
    Otherwise it sets the stop flag, stops the reader, closes the socket and fires the
    disconnect callback.
  - A delivered frame is rejected in three cases, and the decoder names which: the reported
    length is 0 (`EmptyFrame`); it is more than the frame shape allows, 8 bytes for a
    classic frame and 64 for CAN-FD (`ShapeMismatch`); it is more than the data present
    (`TruncatedStorage`). A rejected frame increments `discardedMessages`.
  - A decoded frame increments `receivedMessages` whether or not it is queued: a full
    buffer rejects the newest message after it has been counted.
  - The id masks below, in particular that the remote-request and error flags (bits 30
    and 29) of a standard frame are cleared, so `MessageId(0x40000123) == 0x123`. The
    tests only fix the two values `0x123` and `0x80000123`.
  - A classic channel never receives a CAN-FD frame: `OnFrame` lets such a frame go by
    without queuing or counting it (`Delivered`). This assumes the channel enables
    CAN-FD frames on its raw socket exactly when the protocol is `CAN-FD`. The header
    only declares the flag `mForceCanFD` (`CANDataSource.h:122`); the tests show only
    that a `CAN-FD` channel does receive a CAN-FD frame (`CANDataSourceTest.cpp:314`, `334`).
  - A frame's data storage may be shorter than its reported length, and the decoder then
    rejects it (`TruncatedStorage`). A frame read from a kernel socket always has the full
    8 or 64 bytes of storage (`CANDataSourceTest.cpp:107`, `122`), so such frames never
    reach this rejection; it covers the model's own, unconstrained `RawFrame`.
- The header initialises `mShouldSleep` to false. The tests, however, state that a newly
  connected channel does not acquire until `resumeDataAcquisition()`
  (`CANDataSourceTest.cpp:224-226`, `260-262`). So in the model, `Connect` parks the reader
  behind the closed gate. The tests decide this; the header does not.
- Message-id folding: an extended frame becomes `(can_id & CAN_EFF_MASK) | CAN_EFF_FLAG`,
  and a standard frame becomes `can_id & CAN_SFF_MASK`. These masks are the SocketCAN
  constants. The masks are written as arithmetic on `nat`: the remainder modulo 2^29 or
  2^11, and bit 31 as `>= 2^31`.
- The process-wide source-id counter is a `SourceIdCounter` object passed to the
  constructors. It starts at 1, and its ghost set `issued` proves that ids are distinct.
- `SignalType` is declared with the enumerators of the data-management layer's signal
  types. `SignalTypes.h` is not part of this model. The only ones that matter here are
  `UINT64`, `INT64` and the rest.

## Model

| member | source | states |
|---|---|---|
| `CanTimestamp.StringToCanTimestampType` | src/vehiclenetwork/include/businterfaces/CANDataSource.h:35-55 | accepts a string exactly when it is the spelling of some strategy, and then returns that strategy; any other string returns false and leaves the out-parameter unchanged |
| `CanTimestamp.ParseSpelling` | src/vehiclenetwork/include/businterfaces/CANDataSource.h:38-49 | every strategy is reached by parsing its own spelling, whatever the out-parameter held |
| `CanTimestamp.SpellingInjective` | src/vehiclenetwork/include/businterfaces/CANDataSource.h:35-55 | distinct strategies have distinct spellings, so each value has exactly one accepted spelling |
| `CanTimestamp.ParserSamples` | src/vehiclenetwork/include/businterfaces/CANDataSource.h:38-53 | "Software", "Hardware", "Polling" give the three strategies; a lower-case or empty name is rejected and the out-parameter is unchanged |
| `CanTimestamp.ResolveTimestamp` | src/vehiclenetwork/include/businterfaces/CANDataSource.h:25-33 | software/hardware strategies use their kernel timestamp unless it is 0, when the polling time is used; polling uses the polling time; the result is one of the three inputs and is 0 only when polling time is 0 |
| `CanTimestamp.ResolvedNeverZero` | src/vehiclenetwork/include/businterfaces/CANDataSource.h:31-32 | with a running polling clock a frame is never tagged with the zero sentinel |
| `CanDataTypes.ToUint64` | src/datamanagement/types/include/CANDataTypes.h:39-40 | the uint64 conversion agrees with its input modulo 2^64 and is the identity on values that fit |
| `CanDataTypes.ToInt64` | src/datamanagement/types/include/CANDataTypes.h:42-43 | the int64 conversion agrees with its input modulo 2^64 and is the identity on values that fit |
| `CanDataTypes.Int64AndUint64AgreeOnBits` | src/datamanagement/types/include/CANDataTypes.h:22-26 | the two integral union members built from one value hold the same 64 bits |
| `CanDataTypes.MakePhysicalValue` | src/datamanagement/types/include/CANDataTypes.h:33-48 | `GetType()` returns the constructing tag; tag UINT64 stores the uint64 member, INT64 the int64 member, any other tag the double member, each converted from the argument |
| `CanDataTypes.PhysicalValueStoredExactly` | src/datamanagement/types/include/CANDataTypes.h:37-47 | a value that fits the selected member is stored unchanged |
| `CanDataTypes.TagDeterminesMember` | src/datamanagement/types/include/CANDataTypes.h:28-31 | two tag-consistent values with the same tag hold the same union member |
| `CanDataTypes.CanPhysicalValueType.GetType` | src/datamanagement/types/include/CANDataTypes.h:50-54 | returns the tag the value was built with |
| `CanDataTypes.DecodedSignalStoresFields` | src/datamanagement/types/include/CANDataTypes.h:60-66 | for any id, raw value, physical value and type, the decoded-signal constructor stores all four unchanged |
| `CanDataTypes.DecodedSignalFromTaggedValueAgrees` | src/datamanagement/types/include/CANDataTypes.h:33-48 | a decoded signal built from a tag-directed value and the same tag has a type agreeing with the value's tag, and the value holds the member the tag selects |
| `CanDataTypes.DefaultFrameInfo` | src/datamanagement/types/include/CANDataTypes.h:74-79 | a default frame information has frame id 0, no payload and no signals, within the 64-byte bound |
| `CanDataTypes.DefaultDecodedMessage` | src/datamanagement/types/include/CANDataTypes.h:85-93 | a default decoded message has the default frame information (id 0, no payload, no signals), reception and decoding time 0 and an empty interface name |
| `CanFrame.EncodeCanId` | src/vehiclenetwork/test/CANDataSourceTest.cpp:134-148 | an identifier's `can_id` word has bit 31 set exactly when the identifier is extended |
| `CanFrame.MessageId` | src/vehiclenetwork/test/CANDataSourceTest.cpp:372-402 | the message id keeps the extended flag in bit 31, keeps the 29-bit id of an extended frame and the 11-bit id of a standard frame |
| `CanFrame.MessageIdRoundTrip` | src/vehiclenetwork/test/CANDataSourceTest.cpp:340-402 | the arbitration id (value and standard/extended kind) is recovered from the message id |
| `CanFrame.MessageIdInjective` | src/vehiclenetwork/test/CANDataSourceTest.cpp:372-402 | distinct identifiers, in particular standard and extended ones with the same value, never share a message id |
| `CanFrame.MessageIdSamples` | src/vehiclenetwork/test/CANDataSourceTest.cpp:104-148 | standard 0x123 gives message id 0x123; extended 0x123 is the word 0x80000123 and gives message id 0x80000123; the remote-request and error flags of a standard word are masked off |
| `CanFrame.DecodeFrame` | src/datamanagement/types/include/CANDataTypes.h:80-83 | decoding succeeds exactly on well-formed frames, and each rejection is reported under the one condition that causes it; the payload is exactly the reported bytes, at most 64 (at most 8 for a classic frame), with the folded message id, the timestamp and the channel id |
| `VehicleNetwork.DecodedAll` | src/vehiclenetwork/include/businterfaces/CANDataSource.h:103-105 | the decoded messages of a frame sequence are at most as many as the frames, all from this channel and within 64 bytes |
| `VehicleNetwork.DiscardedCount` | src/vehiclenetwork/include/businterfaces/CANDataSource.h:118-119 | discarded and decoded frames together are never more than the frames, and are all of them when the socket delivered every frame |
| `VehicleNetwork.AfterFrames` | src/vehiclenetwork/include/businterfaces/CANDataSource.h:103-105 | processing frames only grows the buffer, by at most one message per frame, and every added message is from this channel and within 64 bytes |
| `VehicleNetwork.AfterFramesExtends` | src/vehiclenetwork/include/businterfaces/CANDataSource.h:103-105 | processing frames never loses or reorders queued messages and never exceeds the capacity |
| `VehicleNetwork.AfterFramesInOrder` | src/vehiclenetwork/include/businterfaces/CANDataSource.h:103-105 | while the buffer has room, every decoded message is queued in arrival order |
| `VehicleNetwork.SourceIdCounter.constructor` | src/vehiclenetwork/test/CANDataSourceTest.cpp:290-303 | a fresh counter starts at 1 and has handed out no id |
| `VehicleNetwork.SourceIdCounter.Issue` | src/vehiclenetwork/test/CANDataSourceTest.cpp:290-303 | hands out the counter's next value, which was never handed out before |
| `VehicleNetwork.CanDataSource.constructor` | src/vehiclenetwork/include/businterfaces/CANDataSource.h:109-122 | a fresh channel has a new source id, the default strategy, and the initial state `Unconnected`: socket -1, no reader, stop and sleep flags false, idle time 1000 ms, counters 0, an empty buffer, CAN-FD off |
| `VehicleNetwork.CanDataSource.WithTimestampType` | src/vehiclenetwork/include/businterfaces/CANDataSource.h:68-73 | a fresh channel with a new source id, the given timestamp strategy and the same initial state `Unconnected` |
| `VehicleNetwork.CanDataSource.Init` | src/vehiclenetwork/include/businterfaces/CANDataSource.h:83 | succeeds exactly on one acceptable configuration and a bound socket; then holds the socket, interface, CAN-FD mode, idle time and capacity; on failure changes nothing |
| `VehicleNetwork.CanDataSource.Connect` | src/vehiclenetwork/test/CANDataSourceTest.cpp:186-191 | succeeds exactly when a socket exists and the reader runs or starts; starting it clears the stop flag, parks the reader asleep and fires one connect callback |
| `VehicleNetwork.CanDataSource.Disconnect` | src/vehiclenetwork/test/CANDataSourceTest.cpp:199-201 | always returns true; leaves no socket and no reader; fires the disconnect callback when there was something to stop, and is a no-op otherwise |
| `VehicleNetwork.CanDataSource.IsAlive` | src/vehiclenetwork/include/businterfaces/CANDataSource.h:88 | alive exactly when there is a socket and a running reader |
| `VehicleNetwork.CanDataSource.ResumeDataAcquisition` | src/vehiclenetwork/test/CANDataSourceTest.cpp:271-276 | opens the gate: a running reader now acquires |
| `VehicleNetwork.CanDataSource.SuspendDataAcquisition` | src/vehiclenetwork/test/CANDataSourceTest.cpp:278-283 | closes the gate and leaves the reader running |
| `VehicleNetwork.CanDataSource.OnFrame` | src/vehiclenetwork/include/businterfaces/CANDataSource.h:103-105 | with the gate closed, no reader, or a CAN-FD frame on a socket without CAN-FD frames nothing changes; otherwise a malformed frame increments the discarded count, and a decoded one increments the received count and is appended if the buffer has room |
| `VehicleNetwork.CanDataSource.OnFrames` | src/vehiclenetwork/include/businterfaces/CANDataSource.h:65 | a receive batch leaves the buffer as `AfterFrames` of the old buffer, adds the decoded frames to the received count and the rejected ones to the discarded count, and changes nothing while the gate is closed |
| `VehicleNetwork.CanDataSource.Pop` | src/vehiclenetwork/test/CANDataSourceTest.cpp:198 | removes and returns the oldest queued message, or nothing from an empty buffer |
| `VehicleNetwork.CanDataSource.GetVehicleDataSourceId` | src/vehiclenetwork/test/CANDataSourceTest.cpp:300 | returns the id given at construction |
| `VehicleNetwork.CanDataSource.GetVehicleDataSourceIfName` | src/vehiclenetwork/test/CANDataSourceTest.cpp:194 | returns the configured interface name |
| `VehicleNetwork.CanDataSource.GetVehicleDataSourceProtocol` | src/vehiclenetwork/test/CANDataSourceTest.cpp:195 | returns `RAW_SOCKET` and no other protocol |
| `VehicleNetwork.CanDataSource.GetVehicleDataSourceType` | src/vehiclenetwork/test/CANDataSourceTest.cpp:196 | returns `CAN_SOURCE` and no other source type |
| `CanDataSourceTest.TestMessage` | src/vehiclenetwork/test/CANDataSourceTest.cpp:104-117 | the classic test frame: dlc 4, data bytes 0, 1, 2, the rest zero |
| `CanDataSourceTest.TestFdMessage` | src/vehiclenetwork/test/CANDataSourceTest.cpp:119-132 | the CAN-FD test frame: len 64, data bytes 0 to 63 |
| `CanDataSourceTest.ConnectedSource` | src/vehiclenetwork/test/CANDataSourceTest.cpp:179-196 | after init and connect the channel is alive, asleep, has fired exactly the connect callback, and reports "vcan0", `RAW_SOCKET` and `CAN_SOURCE` |
| `CanDataSourceTest.AquireDataFromNetwork` | src/vehiclenetwork/test/CANDataSourceTest.cpp:173-202 | after resume a sent frame is popped with id 0x123, 4 payload bytes and the software timestamp; disconnect succeeds and fires its callback |
| `CanDataSourceTest.DoNotAcquireDataFromNetwork` | src/vehiclenetwork/test/CANDataSourceTest.cpp:204-236 | without resume a sent frame never reaches the buffer |
| `CanDataSourceTest.NetworkDataAquisitionStateChange` | src/vehiclenetwork/test/CANDataSourceTest.cpp:238-288 | nothing is popped before resume, a frame is popped after resume, nothing after suspend |
| `CanDataSourceTest.SourceIdsAreUnique` | src/vehiclenetwork/test/CANDataSourceTest.cpp:290-303 | constructing n sources yields n pairwise distinct ids |
| `CanDataSourceTest.CanFdSocketMode` | src/vehiclenetwork/test/CANDataSourceTest.cpp:305-338 | a CAN-FD channel publishes a 64-byte frame with its full payload and the CAN-FD flag |
| `CanDataSourceTest.ClassicSourceIgnoresFdFrame` | src/vehiclenetwork/include/businterfaces/CANDataSource.h:122 | a channel without CAN-FD frames enabled never sees a CAN-FD frame: nothing is popped and neither counter moves |
| `CanDataSourceTest.SendRegularId` | src/vehiclenetwork/test/CANDataSourceTest.cpp:340-370 | a standard id 0x123 is published as message id 0x123 |
| `CanDataSourceTest.ExtractExtendedId` | src/vehiclenetwork/test/CANDataSourceTest.cpp:372-402 | 0x123 sent with the extended flag is published as 0x80000123 |
| `CanDataSourceTest.DisconnectTwice` | src/vehiclenetwork/test/CANDataSourceTest.cpp:199-201 | exercises the model's `disconnect` convention beyond the single disconnect the tests make: a second disconnect succeeds without another callback, and after it no frame reaches the buffer |
| `CanDataSourceTest.ConnectWithoutSocket` | src/vehiclenetwork/test/CANDataSourceTest.cpp:157-163 | exercises the model's `init`/`connect` conventions for the case the tests skip when no socket is available: init and connect fail, the channel is not alive and no callback fires |

## Left out

- Creating the raw socket, `setsockopt(CAN_RAW_FD_FRAMES)`, `ioctl(SIOCGIFINDEX)` and `bind` are kernel I/O. Their combined outcome is the `kernelSocket` parameter of `Init`.
- The thread, its mutex, the wake signal, the timer, the clock and atomic memory ordering are left out, because the model is sequential. The reader loop is the explicit steps `OnFrame` and `OnFrames`. The reader's idle wait and the timing of stop-flag observation are not modelled.
- `extractTimestamp` parses kernel control messages. That structure is foreign to the model, so the software and hardware timestamps are plain inputs.
- The `CANPhysicalValue` double member is floating point. It only records the integral value it was converted from. A floating-point source value (`T` = `double`) is not modelled.
- The listener registry, subscribe/unsubscribe and the generic data-source framework are external collaborators. Listener notifications are the `events` log.
- The bounded buffer's internals are an external collaborator. It is a `seq` with a capacity that rejects the newest message when full.
- `mResumeTime` is declared in the header, but nothing in the modelled files reads or writes it.
- `mTimer` and `mClock` are not modelled.
- `mForceCanFD` is the `forceCanFd` field. It is set by `Init` from the configured protocol; the socket option it stands for is kernel I/O, and its effect on delivery is the convention `Delivered` above.
- Timing of frame delivery (`WAIT_ASSERT_TRUE`, `DELAY_ASSERT_FALSE`) is not modelled. So is the question whether frames arriving while suspended are drained from the socket or left in it. Only the outcome at the gate is modelled: a frame arriving while suspended never reaches the buffer and changes no counter.
- A reader thread failing to join within its bounded wait is not modelled.
- The widths of timestamps and of the `uint64_t` counters are not modelled. They are unbounded `nat`.
- The timestamp selection rule is modelled from the header's comments. The code that applies it lives in `CANDataSource.cpp`, which is not part of this model.
- `VehicleDataSourceTypes.h`, which declares the source-type and protocol enumerations, is not part of this model. Besides `CAN_SOURCE` and `RAW_SOCKET` the model assumes an invalid source type, an OBD protocol and an invalid protocol, so that the accessors' results rule something out; the enumerations' exact other members are not modelled.
