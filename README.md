# F1 23 UDP telemetry receiver — a verified model of packet decoding

This project models the core of `SimRacing.Telemetry.Receiver.F1.23`, a C#
library that listens for the UDP telemetry datagrams the F1 23 game sends,
decodes each one into a packet object by its packet id, and raises the event
of that packet kind. The model covers:

- **Bytes** (`bytes.dfy`): the little-endian `BitConverter` readers the
  packet constructors use, each one failing on a read past the end of the
  datagram, and the range-checked `Convert.ToSByte`, which fails on a byte
  above 127. One value, `Fail`, stands for every exception, because every
  one ends the same way: the receive loop catches it and drops the datagram.
  Single and double values are kept as their raw bit patterns.
- **Enums** (`enums.dfy`): packet types, tyre order, event codes, and
  `ByteArrayToEventCode` (ASCII decoding, then a parse by member name).
- **PacketHeader** (`header.dfy`): the 25-byte header read by
  `Packet(byte[])`, the older one-byte-shifted layout read by
  `getHeaderData`, and the header overwrite that every record constructor
  performs. The overwrite means a decoded record's `packetId` is byte 5
  of the datagram, while the receiver dispatches on byte 6.
- **One module per packet file** (motion, session, lap data, event,
  participants, car setups, car telemetry, car status, final
  classification, lobby info, car damage, session history, tyre sets,
  motion extra):
  - Each entry reader is a method that walks a cursor. It is proved equal
    to a closed-form layout function whose fields sit at fixed offsets.
  - Each fixed-count loop is a method over an array. It is proved equal to
    `Collect` of the blocks at `at + size * i`.
  - Each packet constructor is a method that walks the whole datagram. It is
    proved equal to a closed-form record function.
  - Lemmas about each record function state when decoding succeeds (the
    exact minimum length, and which signed bytes must stay at or below
    127) and where every field comes from.
  - Further lemmas capture the packet's peculiarities:
    - count bytes that bound nothing;
    - participant names filled with cursor positions instead of bytes;
    - a classification array and a tyre-set array that stay null;
    - a lobby loop that runs 29 times over a 22-slot array and so always
      throws;
    - an event decoder that swallows its own exceptions.
- **Receiver** (`receiver.dfy`):
  - The `switch` is `DecodeRecord`, a table from packet kind to record
    constructor. The cursor-based `DecodeDatagram` method is proved equal
    to it.
  - `Handle` is what one pass of the loop does to a datagram's bytes: the
    header read, the dispatch on byte 6, the constructor, and the hand-off
    to a subscribed handler.
  - `Run` is the whole `while (!cancelled)` loop over a sequence of inputs,
    where each input is a datagram or a stop request.
  - `TelemetryReceiver` is the receiver object. Its constructor sets the
    switch to `DecodeRecord`. `Subscribe` attaches a handler and
    `StopReceiving` requests cancellation. `ProcessDatagram` and
    `ReceiveLoop` are the loop body and the loop, proved against `Handle`
    and `Run`.
  - `Handle`, `Run` and the receiver's methods take the switch as a
    parameter or a constant field. The lemmas about runs therefore hold for
    any switch, and the ones about lobby info and event datagrams
    instantiate it with `DecodeRecord`.

All sources cited below are under `SimRacing.Telemetry.Receiver.F1.23/`.
The model follows the code as written, also where it departs from the game's
published layout:

- Headers are read at the code's offsets.
- The lobby loop has 29 iterations.
- Names are cursor values.
- The final classification and tyre-set arrays are never stored.

## Model

| member | source | states |
|---|---|---|
| Bytes.ReaderFailures | SimRacing.Telemetry.Receiver.F1.23/Packets/Packet.cs:32-46 | each little-endian reader succeeds exactly when its bytes lie inside the buffer; the range-checked signed-byte conversion also needs the byte to be at most 127 |
| Bytes.I16TwosComplement | SimRacing.Telemetry.Receiver.F1.23/Packets/PacketMotionData.cs:155-165 | a signed 16-bit read is the two's-complement reading of the unsigned word (the same value modulo 2^16), negative exactly when the high byte has its top bit set |
| Bytes.ReadBytes | SimRacing.Telemetry.Receiver.F1.23/Packets/PacketCarTelemetryData.cs:156-161 | the inner byte-array loop returns the `n` bytes from `at` in order, fails exactly when they overrun, and leaves the cursor `n` on |
| Bytes.ReadU16s | SimRacing.Telemetry.Receiver.F1.23/Packets/PacketCarTelemetryData.cs:148-153 | the inner word-array loop returns the `n` 16-bit words from `at`, two bytes apart, and leaves the cursor `2n` on |
| Bytes.ReadF32s | SimRacing.Telemetry.Receiver.F1.23/Packets/PacketCarTelemetryData.cs:173-178 | the inner single-array loop returns the `n` singles from `at`, four bytes apart, and leaves the cursor `4n` on |
| Bytes.ReadCursorChars | SimRacing.Telemetry.Receiver.F1.23/Packets/PacketParticipantsData.cs:125-133 | the name loop stores the cursor value itself (not a buffer byte) in each slot, so slot `x` holds code unit `at + x`; it fails only past code unit 0xFFFF |
| Enums.PacketTypeOf | SimRacing.Telemetry.Receiver.F1.23/Packets/Enums.cs:25-41 | an id names a packet kind exactly when it is below 14, and then the kind's id is that byte |
| Enums.PacketTypeRoundTrip | SimRacing.Telemetry.Receiver.F1.23/Packets/Enums.cs:25-41 | every kind's id maps back to the kind, and distinct kinds have distinct ids |
| Enums.TyreAt | SimRacing.Telemetry.Receiver.F1.23/Packets/Enums.cs:43-49 | index `k` of a wheel array belongs to the wheel whose ordinal is `k` (rear left, rear right, front left, front right) |
| Enums.NameOf | SimRacing.Telemetry.Receiver.F1.23/Packets/Enums.cs:138-181 | the name assigned for a code is the event name in the same declaration position as the code |
| Enums.CodeOrdinalInjective | SimRacing.Telemetry.Receiver.F1.23/Packets/Enums.cs:138-159 | two codes in the same declaration position are the same code |
| Enums.CodeNames | SimRacing.Telemetry.Receiver.F1.23/Packets/Enums.cs:138-159 | every code's identifier is four upper-case letters and distinct codes have distinct identifiers |
| Enums.AsciiChar | SimRacing.Telemetry.Receiver.F1.23/Packets/PacketEventData.cs:261 | ASCII decoding keeps a byte below 128 as that character and turns any other byte into '?' |
| Enums.AsciiString | SimRacing.Telemetry.Receiver.F1.23/Packets/PacketEventData.cs:261 | ASCII decoding of an array is the per-byte decoding, with the same length |
| Enums.CodeNamed | SimRacing.Telemetry.Receiver.F1.23/Packets/PacketEventData.cs:263-264 | a string parses to a code only when it is that code's identifier, and parses to none when no identifier equals it |
| Enums.ByteArrayToEventCode | SimRacing.Telemetry.Receiver.F1.23/Packets/PacketEventData.cs:256-267 | a code is returned only for a four-byte array whose ASCII text is that code's identifier |
| Enums.CodeBytes | SimRacing.Telemetry.Receiver.F1.23/Packets/Enums.cs:138-159 | a sender writes a code as four bytes |
| Enums.EventCodeRoundTrip | SimRacing.Telemetry.Receiver.F1.23/Packets/PacketEventData.cs:256-267 | decoding the four bytes a sender writes for a code gives that code back |
| Enums.EventCodeExact | SimRacing.Telemetry.Receiver.F1.23/Packets/PacketEventData.cs:256-267 | the only four bytes that decode to a code are that code's own identifier bytes |
| PacketHeader.ReadPacketHeader | SimRacing.Telemetry.Receiver.F1.23/Packets/Packet.cs:32-46 | the header read succeeds exactly when the datagram has 25 bytes, and each field comes from its fixed offset (packet id from byte 6); `overallFrameIdentifier` and `packetType` keep their defaults |
| PacketHeader.GetHeaderData | SimRacing.Telemetry.Receiver.F1.23/Packets/Packet.cs:131-159 | the older header layout is read from offsets one byte lower and yields no object (null) exactly when fewer than 24 bytes are given; it never sets the game year |
| PacketHeader.Overwrite | SimRacing.Telemetry.Receiver.F1.23/Packets/PacketCarTelemetryData.cs:106-120 | the header overwrite replaces every header field except the game year and the overall frame identifier, and replaces the packet type unless the constructor leaves it out |
| PacketHeader.Take | SimRacing.Telemetry.Receiver.F1.23/Packets/PacketMotionData.cs:120 | taking the header bytes gives the first 29 bytes, or the whole datagram when it is shorter |
| PacketHeader.RecordHeaderLayout | SimRacing.Telemetry.Receiver.F1.23/Packets/PacketMotionData.cs:118-137 | a decoded record's header exists exactly when the datagram has 25 bytes; it then carries the older layout's fields (packet id from byte 5), while its game year is still byte 2 |
| PacketHeader.RecordHeaderLocal | SimRacing.Telemetry.Receiver.F1.23/Packets/PacketMotionData.cs:118-137 | a record's header depends on the first 25 bytes only |
| PacketHeader.RecordIdDiffersFromDispatchId | SimRacing.Telemetry.Receiver.F1.23/Packets/Packet.cs:38 | a concrete 25-byte datagram that dispatches as lap data (byte 6 is 2) yields a record whose packet id is 0 (byte 5) |
| MotionPacket.ReadCarMotionData | SimRacing.Telemetry.Receiver.F1.23/Packets/PacketMotionData.cs:141-179 | the loop body reads one `CarMotionData` field by field with a moving cursor; the result is the fixed-offset block `CarMotionDataAt` and the cursor ends 60 bytes on |
| MotionPacket.CarMotionDataAtLocal | SimRacing.Telemetry.Receiver.F1.23/Packets/PacketMotionData.cs:141-179 | a `CarMotionData` depends on its own 60 bytes only |
| MotionPacket.CarMotionDataBlocksNeedValid | SimRacing.Telemetry.Receiver.F1.23/Packets/PacketMotionData.cs:140-180 | if all 22 blocks decode, they fit in the buffer |
| MotionPacket.CarMotionDataBlocksSucceed | SimRacing.Telemetry.Receiver.F1.23/Packets/PacketMotionData.cs:140-180 | all 22 blocks, 60 bytes apart, decode exactly when they fit in the buffer |
| MotionPacket.ReadCarMotionDataArray | SimRacing.Telemetry.Receiver.F1.23/Packets/PacketMotionData.cs:140-180 | the 22-iteration loop fails at the first block that fails, and otherwise slot `i` holds block `i`, 60 bytes apart, and the cursor ends 1320 bytes on |
| MotionPacket.DecodeMotionData | SimRacing.Telemetry.Receiver.F1.23/Packets/PacketMotionData.cs:118-184 | the constructor's cursor walk (header, then every field and loop in wire order) gives exactly `PacketMotionDataOf` |
| MotionPacket.PacketMotionDataSucceeds | SimRacing.Telemetry.Receiver.F1.23/Packets/PacketMotionData.cs:118-184 | the constructor returns exactly when the datagram has 1349 bytes |
| MotionPacket.PacketMotionDataLayout | SimRacing.Telemetry.Receiver.F1.23/Packets/PacketMotionData.cs:118-184 | in a decoded record each field comes from its absolute offset and array entry `i` from block `i` |
| SessionPacket.ReadMarshalZone | SimRacing.Telemetry.Receiver.F1.23/Packets/PacketSessionData.cs:141-147 | the loop body reads one `MarshalZone` field by field with a moving cursor; the result is the fixed-offset block `MarshalZoneAt` and the cursor ends 5 bytes on |
| SessionPacket.MarshalZoneAtLocal | SimRacing.Telemetry.Receiver.F1.23/Packets/PacketSessionData.cs:141-147 | a `MarshalZone` depends on its own 5 bytes only |
| SessionPacket.MarshalZoneBlocksNeedValid | SimRacing.Telemetry.Receiver.F1.23/Packets/PacketSessionData.cs:140-148 | if all 21 blocks decode, they fit in the buffer and hold no signed byte above 127 |
| SessionPacket.MarshalZoneBlocksSucceed | SimRacing.Telemetry.Receiver.F1.23/Packets/PacketSessionData.cs:140-148 | all 21 blocks, 5 bytes apart, decode exactly when they fit in the buffer and no signed byte in it is above 127 |
| SessionPacket.ReadMarshalZoneArray | SimRacing.Telemetry.Receiver.F1.23/Packets/PacketSessionData.cs:140-148 | the 21-iteration loop fails at the first block that fails, and otherwise slot `i` holds block `i`, 5 bytes apart, and the cursor ends 105 bytes on |
| SessionPacket.ReadWeatherForecastSample | SimRacing.Telemetry.Receiver.F1.23/Packets/PacketSessionData.cs:157-176 | the loop body reads one `WeatherForecastSample` field by field with a moving cursor; the result is the fixed-offset block `WeatherForecastSampleAt` and the cursor ends 8 bytes on |
| SessionPacket.WeatherForecastSampleAtLocal | SimRacing.Telemetry.Receiver.F1.23/Packets/PacketSessionData.cs:157-176 | a `WeatherForecastSample` depends on its own 8 bytes only |
| SessionPacket.WeatherForecastSampleBlocksNeedValid | SimRacing.Telemetry.Receiver.F1.23/Packets/PacketSessionData.cs:156-177 | if all 56 blocks decode, they fit in the buffer and hold no signed byte above 127 |
| SessionPacket.WeatherForecastSampleBlocksSucceed | SimRacing.Telemetry.Receiver.F1.23/Packets/PacketSessionData.cs:156-177 | all 56 blocks, 8 bytes apart, decode exactly when they fit in the buffer and no signed byte in it is above 127 |
| SessionPacket.ReadWeatherForecastSampleArray | SimRacing.Telemetry.Receiver.F1.23/Packets/PacketSessionData.cs:156-177 | the 56-iteration loop fails at the first block that fails, and otherwise slot `i` holds block `i`, 8 bytes apart, and the cursor ends 448 bytes on |
| SessionPacket.DecodeSessionData | SimRacing.Telemetry.Receiver.F1.23/Packets/PacketSessionData.cs:84-235 | the constructor's cursor walk (header, then every field and loop in wire order) gives exactly `PacketSessionDataOf` |
| SessionPacket.PacketSessionDataSucceeds | SimRacing.Telemetry.Receiver.F1.23/Packets/PacketSessionData.cs:84-235 | the constructor returns exactly when the datagram has 644 bytes and bytes 30, 31 and 36, the zone flags and the four signed bytes of every weather sample are at most 127 |
| SessionPacket.PacketSessionDataLayout | SimRacing.Telemetry.Receiver.F1.23/Packets/PacketSessionData.cs:84-235 | in a decoded record each field comes from its absolute offset and array entry `i` from block `i` |
| LapDataPacket.ReadLapData | SimRacing.Telemetry.Receiver.F1.23/Packets/PacketLapData.cs:193-254 | the loop body reads one `LapData` field by field with a moving cursor; the result is the fixed-offset block `LapDataAt` and the cursor ends 50 bytes on |
| LapDataPacket.LapDataAtLocal | SimRacing.Telemetry.Receiver.F1.23/Packets/PacketLapData.cs:193-254 | a `LapData` depends on its own 50 bytes only |
| LapDataPacket.LapDataBlocksNeedValid | SimRacing.Telemetry.Receiver.F1.23/Packets/PacketLapData.cs:192-255 | if all 22 blocks decode, they fit in the buffer |
| LapDataPacket.LapDataBlocksSucceed | SimRacing.Telemetry.Receiver.F1.23/Packets/PacketLapData.cs:192-255 | all 22 blocks, 50 bytes apart, decode exactly when they fit in the buffer |
| LapDataPacket.ReadLapDataArray | SimRacing.Telemetry.Receiver.F1.23/Packets/PacketLapData.cs:192-255 | the 22-iteration loop fails at the first block that fails, and otherwise slot `i` holds block `i`, 50 bytes apart, and the cursor ends 1100 bytes on |
| LapDataPacket.DecodeLapData | SimRacing.Telemetry.Receiver.F1.23/Packets/PacketLapData.cs:172-261 | the constructor's cursor walk (header, then every field and loop in wire order) gives exactly `PacketLapDataOf` |
| LapDataPacket.PacketLapDataSucceeds | SimRacing.Telemetry.Receiver.F1.23/Packets/PacketLapData.cs:172-261 | the constructor returns exactly when the datagram has 1131 bytes |
| LapDataPacket.PacketLapDataLayout | SimRacing.Telemetry.Receiver.F1.23/Packets/PacketLapData.cs:172-261 | in a decoded record each field comes from its absolute offset and array entry `i` from block `i` |
| ParticipantsPacket.ReadParticipantData | SimRacing.Telemetry.Receiver.F1.23/Packets/PacketParticipantsData.cs:109-141 | the loop body reads one `ParticipantData` field by field with a moving cursor; the result is the fixed-offset block `ParticipantDataAt` and the cursor ends 58 bytes on |
| ParticipantsPacket.ParticipantDataAtLocal | SimRacing.Telemetry.Receiver.F1.23/Packets/PacketParticipantsData.cs:109-141 | a `ParticipantData` depends on its own 58 bytes only |
| ParticipantsPacket.ParticipantDataBlocksNeedValid | SimRacing.Telemetry.Receiver.F1.23/Packets/PacketParticipantsData.cs:108-142 | if all 22 blocks decode, they fit in the buffer |
| ParticipantsPacket.ParticipantDataBlocksSucceed | SimRacing.Telemetry.Receiver.F1.23/Packets/PacketParticipantsData.cs:108-142 | all 22 blocks, 58 bytes apart, decode exactly when they fit in the buffer (for cursors up to 0xFFFF) |
| ParticipantsPacket.ReadParticipantDataArray | SimRacing.Telemetry.Receiver.F1.23/Packets/PacketParticipantsData.cs:108-142 | the 22-iteration loop fails at the first block that fails, and otherwise slot `i` holds block `i`, 58 bytes apart, and the cursor ends 1276 bytes on |
| ParticipantsPacket.DecodeParticipantsData | SimRacing.Telemetry.Receiver.F1.23/Packets/PacketParticipantsData.cs:86-144 | the constructor's cursor walk (header, then every field and loop in wire order) gives exactly `PacketParticipantsDataOf` |
| ParticipantsPacket.PacketParticipantsDataSucceeds | SimRacing.Telemetry.Receiver.F1.23/Packets/PacketParticipantsData.cs:86-144 | the constructor returns exactly when the datagram has 1306 bytes |
| ParticipantsPacket.PacketParticipantsDataLayout | SimRacing.Telemetry.Receiver.F1.23/Packets/PacketParticipantsData.cs:86-144 | in a decoded record each field comes from its absolute offset and array entry `i` from block `i` |
| CarSetupsPacket.ReadCarSetupData | SimRacing.Telemetry.Receiver.F1.23/Packets/PacketCarSetupData.cs:156-206 | the loop body reads one `CarSetupData` field by field with a moving cursor; the result is the fixed-offset block `CarSetupDataAt` and the cursor ends 49 bytes on |
| CarSetupsPacket.CarSetupDataAtLocal | SimRacing.Telemetry.Receiver.F1.23/Packets/PacketCarSetupData.cs:156-206 | a `CarSetupData` depends on its own 49 bytes only |
| CarSetupsPacket.CarSetupDataBlocksNeedValid | SimRacing.Telemetry.Receiver.F1.23/Packets/PacketCarSetupData.cs:155-207 | if all 22 blocks decode, they fit in the buffer |
| CarSetupsPacket.CarSetupDataBlocksSucceed | SimRacing.Telemetry.Receiver.F1.23/Packets/PacketCarSetupData.cs:155-207 | all 22 blocks, 49 bytes apart, decode exactly when they fit in the buffer |
| CarSetupsPacket.ReadCarSetupDataArray | SimRacing.Telemetry.Receiver.F1.23/Packets/PacketCarSetupData.cs:155-207 | the 22-iteration loop fails at the first block that fails, and otherwise slot `i` holds block `i`, 49 bytes apart, and the cursor ends 1078 bytes on |
| CarSetupsPacket.DecodeCarSetupData | SimRacing.Telemetry.Receiver.F1.23/Packets/PacketCarSetupData.cs:133-208 | the constructor's cursor walk (header, then every field and loop in wire order) gives exactly `PacketCarSetupDataOf` |
| CarSetupsPacket.PacketCarSetupDataSucceeds | SimRacing.Telemetry.Receiver.F1.23/Packets/PacketCarSetupData.cs:133-208 | the constructor returns exactly when the datagram has 1107 bytes |
| CarSetupsPacket.PacketCarSetupDataLayout | SimRacing.Telemetry.Receiver.F1.23/Packets/PacketCarSetupData.cs:133-208 | in a decoded record each field comes from its absolute offset and array entry `i` from block `i` |
| CarTelemetryPacket.ReadCarTelemetryData | SimRacing.Telemetry.Receiver.F1.23/Packets/PacketCarTelemetryData.cs:124-188 | the loop body reads one `CarTelemetryData` field by field with a moving cursor; the result is the fixed-offset block `CarTelemetryDataAt` and the cursor ends 60 bytes on |
| CarTelemetryPacket.CarTelemetryDataAtLocal | SimRacing.Telemetry.Receiver.F1.23/Packets/PacketCarTelemetryData.cs:124-188 | a `CarTelemetryData` depends on its own 60 bytes only |
| CarTelemetryPacket.CarTelemetryDataBlocksNeedValid | SimRacing.Telemetry.Receiver.F1.23/Packets/PacketCarTelemetryData.cs:123-189 | if all 22 blocks decode, they fit in the buffer and hold no signed byte above 127 |
| CarTelemetryPacket.CarTelemetryDataBlocksSucceed | SimRacing.Telemetry.Receiver.F1.23/Packets/PacketCarTelemetryData.cs:123-189 | all 22 blocks, 60 bytes apart, decode exactly when they fit in the buffer and no signed byte in it is above 127 |
| CarTelemetryPacket.ReadCarTelemetryDataArray | SimRacing.Telemetry.Receiver.F1.23/Packets/PacketCarTelemetryData.cs:123-189 | the 22-iteration loop fails at the first block that fails, and otherwise slot `i` holds block `i`, 60 bytes apart, and the cursor ends 1320 bytes on |
| CarTelemetryPacket.DecodeCarTelemetryData | SimRacing.Telemetry.Receiver.F1.23/Packets/PacketCarTelemetryData.cs:104-198 | the constructor's cursor walk (header, then every field and loop in wire order) gives exactly `PacketCarTelemetryDataOf` |
| CarTelemetryPacket.PacketCarTelemetryDataSucceeds | SimRacing.Telemetry.Receiver.F1.23/Packets/PacketCarTelemetryData.cs:104-198 | the constructor returns exactly when the datagram has 1352 bytes and every car's gear byte and the suggested-gear byte 1351 are at most 127 |
| CarTelemetryPacket.PacketCarTelemetryDataLayout | SimRacing.Telemetry.Receiver.F1.23/Packets/PacketCarTelemetryData.cs:104-198 | in a decoded record the header keeps its default packet type (this constructor does not copy it), each car entry `i` is block `i` and the trailing fields come from bytes 1349-1351 |
| CarStatusPacket.ReadCarStatusData | SimRacing.Telemetry.Receiver.F1.23/Packets/PacketCarStatusData.cs:177-237 | the loop body reads one `CarStatusData` field by field with a moving cursor; the result is the fixed-offset block `CarStatusDataAt` and the cursor ends 55 bytes on |
| CarStatusPacket.CarStatusDataAtLocal | SimRacing.Telemetry.Receiver.F1.23/Packets/PacketCarStatusData.cs:177-237 | a `CarStatusData` depends on its own 55 bytes only |
| CarStatusPacket.CarStatusDataBlocksNeedValid | SimRacing.Telemetry.Receiver.F1.23/Packets/PacketCarStatusData.cs:176-238 | if all 22 blocks decode, they fit in the buffer and hold no signed byte above 127 |
| CarStatusPacket.CarStatusDataBlocksSucceed | SimRacing.Telemetry.Receiver.F1.23/Packets/PacketCarStatusData.cs:176-238 | all 22 blocks, 55 bytes apart, decode exactly when they fit in the buffer and no signed byte in it is above 127 |
| CarStatusPacket.ReadCarStatusDataArray | SimRacing.Telemetry.Receiver.F1.23/Packets/PacketCarStatusData.cs:176-238 | the 22-iteration loop fails at the first block that fails, and otherwise slot `i` holds block `i`, 55 bytes apart, and the cursor ends 1210 bytes on |
| CarStatusPacket.DecodeCarStatusData | SimRacing.Telemetry.Receiver.F1.23/Packets/PacketCarStatusData.cs:156-239 | the constructor's cursor walk (header, then every field and loop in wire order) gives exactly `PacketCarStatusDataOf` |
| CarStatusPacket.PacketCarStatusDataSucceeds | SimRacing.Telemetry.Receiver.F1.23/Packets/PacketCarStatusData.cs:156-239 | the constructor returns exactly when the datagram has 1239 bytes and every car's FIA flag byte is at most 127 |
| CarStatusPacket.PacketCarStatusDataLayout | SimRacing.Telemetry.Receiver.F1.23/Packets/PacketCarStatusData.cs:156-239 | in a decoded record each field comes from its absolute offset and array entry `i` from block `i` |
| FinalClassificationPacket.ReadFinalClassificationData | SimRacing.Telemetry.Receiver.F1.23/Packets/PacketFinalClassificationData.cs:116-162 | the loop body reads one `FinalClassificationData` field by field with a moving cursor; the result is the fixed-offset block `FinalClassificationDataAt` and the cursor ends 45 bytes on |
| FinalClassificationPacket.FinalClassificationDataAtLocal | SimRacing.Telemetry.Receiver.F1.23/Packets/PacketFinalClassificationData.cs:116-162 | a `FinalClassificationData` depends on its own 45 bytes only |
| FinalClassificationPacket.FinalClassificationDataBlocksNeedValid | SimRacing.Telemetry.Receiver.F1.23/Packets/PacketFinalClassificationData.cs:115-163 | if all 22 blocks decode, they fit in the buffer |
| FinalClassificationPacket.FinalClassificationDataBlocksSucceed | SimRacing.Telemetry.Receiver.F1.23/Packets/PacketFinalClassificationData.cs:115-163 | all 22 blocks, 45 bytes apart, decode exactly when they fit in the buffer |
| FinalClassificationPacket.ReadFinalClassificationDataArray | SimRacing.Telemetry.Receiver.F1.23/Packets/PacketFinalClassificationData.cs:115-163 | the 22-iteration loop fails exactly when one of the blocks, 45 bytes apart, fails; each block read goes into a local that is never stored, so the array keeps its 22 null slots, and the cursor ends 990 bytes on |
| FinalClassificationPacket.DecodeFinalClassificationData | SimRacing.Telemetry.Receiver.F1.23/Packets/PacketFinalClassificationData.cs:93-164 | the constructor's cursor walk (header, then every field and loop in wire order) gives exactly `PacketFinalClassificationDataOf` |
| FinalClassificationPacket.PacketFinalClassificationDataSucceeds | SimRacing.Telemetry.Receiver.F1.23/Packets/PacketFinalClassificationData.cs:93-164 | the constructor returns exactly when the datagram has 1020 bytes |
| FinalClassificationPacket.PacketFinalClassificationDataLayout | SimRacing.Telemetry.Receiver.F1.23/Packets/PacketFinalClassificationData.cs:93-164 | in a decoded record the header and the car count come from their offsets and the classification array holds only null entries |
| CarDamagePacket.ReadCarDamageData | SimRacing.Telemetry.Receiver.F1.23/Packets/PacketCarDamageData.cs:148-210 | the loop body reads one `CarDamageData` field by field with a moving cursor; the result is the fixed-offset block `CarDamageDataAt` and the cursor ends 42 bytes on |
| CarDamagePacket.CarDamageDataAtLocal | SimRacing.Telemetry.Receiver.F1.23/Packets/PacketCarDamageData.cs:148-210 | a `CarDamageData` depends on its own 42 bytes only |
| CarDamagePacket.CarDamageDataBlocksNeedValid | SimRacing.Telemetry.Receiver.F1.23/Packets/PacketCarDamageData.cs:147-211 | if all 22 blocks decode, they fit in the buffer |
| CarDamagePacket.CarDamageDataBlocksSucceed | SimRacing.Telemetry.Receiver.F1.23/Packets/PacketCarDamageData.cs:147-211 | all 22 blocks, 42 bytes apart, decode exactly when they fit in the buffer |
| CarDamagePacket.ReadCarDamageDataArray | SimRacing.Telemetry.Receiver.F1.23/Packets/PacketCarDamageData.cs:147-211 | the 22-iteration loop fails at the first block that fails, and otherwise slot `i` holds block `i`, 42 bytes apart, and the cursor ends 924 bytes on |
| CarDamagePacket.DecodeCarDamageData | SimRacing.Telemetry.Receiver.F1.23/Packets/PacketCarDamageData.cs:127-212 | the constructor's cursor walk (header, then every field and loop in wire order) gives exactly `PacketCarDamageDataOf` |
| CarDamagePacket.PacketCarDamageDataSucceeds | SimRacing.Telemetry.Receiver.F1.23/Packets/PacketCarDamageData.cs:127-212 | the constructor returns exactly when the datagram has 953 bytes |
| CarDamagePacket.PacketCarDamageDataLayout | SimRacing.Telemetry.Receiver.F1.23/Packets/PacketCarDamageData.cs:127-212 | in a decoded record each field comes from its absolute offset and array entry `i` from block `i` |
| SessionHistoryPacket.ReadLapHistoryData | SimRacing.Telemetry.Receiver.F1.23/Packets/PacketSessionHistoryData.cs:130-148 | the loop body reads one `LapHistoryData` field by field with a moving cursor; the result is the fixed-offset block `LapHistoryDataAt` and the cursor ends 14 bytes on |
| SessionHistoryPacket.LapHistoryDataAtLocal | SimRacing.Telemetry.Receiver.F1.23/Packets/PacketSessionHistoryData.cs:130-148 | a `LapHistoryData` depends on its own 14 bytes only |
| SessionHistoryPacket.LapHistoryDataBlocksNeedValid | SimRacing.Telemetry.Receiver.F1.23/Packets/PacketSessionHistoryData.cs:129-149 | if all 100 blocks decode, they fit in the buffer |
| SessionHistoryPacket.LapHistoryDataBlocksSucceed | SimRacing.Telemetry.Receiver.F1.23/Packets/PacketSessionHistoryData.cs:129-149 | all 100 blocks, 14 bytes apart, decode exactly when they fit in the buffer |
| SessionHistoryPacket.ReadLapHistoryDataArray | SimRacing.Telemetry.Receiver.F1.23/Packets/PacketSessionHistoryData.cs:129-149 | the 100-iteration loop fails at the first block that fails, and otherwise slot `i` holds block `i`, 14 bytes apart, and the cursor ends 1400 bytes on |
| SessionHistoryPacket.ReadTyreStintHistoryData | SimRacing.Telemetry.Receiver.F1.23/Packets/PacketSessionHistoryData.cs:153-161 | the loop body reads one `TyreStintHistoryData` field by field with a moving cursor; the result is the fixed-offset block `TyreStintHistoryDataAt` and the cursor ends 3 bytes on |
| SessionHistoryPacket.TyreStintHistoryDataAtLocal | SimRacing.Telemetry.Receiver.F1.23/Packets/PacketSessionHistoryData.cs:153-161 | a `TyreStintHistoryData` depends on its own 3 bytes only |
| SessionHistoryPacket.TyreStintHistoryDataBlocksNeedValid | SimRacing.Telemetry.Receiver.F1.23/Packets/PacketSessionHistoryData.cs:152-162 | if all 8 blocks decode, they fit in the buffer |
| SessionHistoryPacket.TyreStintHistoryDataBlocksSucceed | SimRacing.Telemetry.Receiver.F1.23/Packets/PacketSessionHistoryData.cs:152-162 | all 8 blocks, 3 bytes apart, decode exactly when they fit in the buffer |
| SessionHistoryPacket.ReadTyreStintHistoryDataArray | SimRacing.Telemetry.Receiver.F1.23/Packets/PacketSessionHistoryData.cs:152-162 | the 8-iteration loop fails at the first block that fails, and otherwise slot `i` holds block `i`, 3 bytes apart, and the cursor ends 24 bytes on |
| SessionHistoryPacket.DecodeSessionHistoryData | SimRacing.Telemetry.Receiver.F1.23/Packets/PacketSessionHistoryData.cs:93-164 | the constructor's cursor walk (header, then every field and loop in wire order) gives exactly `PacketSessionHistoryDataOf` |
| SessionHistoryPacket.PacketSessionHistoryDataSucceeds | SimRacing.Telemetry.Receiver.F1.23/Packets/PacketSessionHistoryData.cs:93-164 | the constructor returns exactly when the datagram has 1460 bytes |
| SessionHistoryPacket.PacketSessionHistoryDataLayout | SimRacing.Telemetry.Receiver.F1.23/Packets/PacketSessionHistoryData.cs:93-164 | in a decoded record each field comes from its absolute offset and array entry `i` from block `i` |
| TyreSetsPacket.ReadTyreSetData | SimRacing.Telemetry.Receiver.F1.23/Packets/PacketTyreSetsData.cs:108-125 | the loop body reads one `TyreSetData` field by field with a moving cursor; the result is the fixed-offset block `TyreSetDataAt` and the cursor ends 10 bytes on |
| TyreSetsPacket.TyreSetDataAtLocal | SimRacing.Telemetry.Receiver.F1.23/Packets/PacketTyreSetsData.cs:108-125 | a `TyreSetData` depends on its own 10 bytes only |
| TyreSetsPacket.TyreSetDataBlocksNeedValid | SimRacing.Telemetry.Receiver.F1.23/Packets/PacketTyreSetsData.cs:107-126 | if all 20 blocks decode, they fit in the buffer |
| TyreSetsPacket.TyreSetDataBlocksSucceed | SimRacing.Telemetry.Receiver.F1.23/Packets/PacketTyreSetsData.cs:107-126 | all 20 blocks, 10 bytes apart, decode exactly when they fit in the buffer |
| TyreSetsPacket.ReadTyreSetDataArray | SimRacing.Telemetry.Receiver.F1.23/Packets/PacketTyreSetsData.cs:107-126 | the 20-iteration loop fails at the first block that fails, and otherwise slot `i` holds block `i`, 10 bytes apart, and the cursor ends 200 bytes on |
| TyreSetsPacket.DecodeTyreSetData | SimRacing.Telemetry.Receiver.F1.23/Packets/PacketTyreSetsData.cs:82-129 | the constructor's cursor walk (header, then every field and loop in wire order) gives exactly `PacketTyreSetDataOf` |
| TyreSetsPacket.PacketTyreSetDataSucceeds | SimRacing.Telemetry.Receiver.F1.23/Packets/PacketTyreSetsData.cs:82-129 | the constructor returns exactly when the datagram has 231 bytes |
| TyreSetsPacket.PacketTyreSetDataLayout | SimRacing.Telemetry.Receiver.F1.23/Packets/PacketTyreSetsData.cs:82-129 | in a decoded record the car index and fitted index come from bytes 29 and 230, and the tyre-set field stays null because the loop fills a local array of the same name |
| MotionExtraPacket.DecodeMotionExtraData | SimRacing.Telemetry.Receiver.F1.23/Packets/PacketMotionExtraData.cs:14-120 | the constructor's cursor walk through the wheel arrays and scalars gives exactly `PacketMotionExtraDataOf` |
| MotionExtraPacket.PacketMotionExtraDataSucceeds | SimRacing.Telemetry.Receiver.F1.23/Packets/PacketMotionExtraData.cs:14-120 | the constructor returns exactly when the datagram has 217 bytes |
| MotionExtraPacket.PacketMotionExtraDataLayout | SimRacing.Telemetry.Receiver.F1.23/Packets/PacketMotionExtraData.cs:14-120 | in a decoded record each field comes from its absolute offset |
| MotionExtraPacket.WheelArraysInTyreOrder | SimRacing.Telemetry.Receiver.F1.23/Packets/PacketMotionExtraData.cs:38-91 | entry `k` of each of the nine wheel arrays is the single for wheel `TyreAt(k)`, four bytes apart from the array's base |
| SessionPacket.NumMarshalZonesIgnored | SimRacing.Telemetry.Receiver.F1.23/Packets/PacketSessionData.cs:136-148 | the marshal-zone count byte only sets its own field: the 21 zones are read whatever it says |
| SessionPacket.NumWeatherForecastSamplesIgnored | SimRacing.Telemetry.Receiver.F1.23/Packets/PacketSessionData.cs:153-177 | the forecast-sample count byte only sets its own field: the 56 samples are read whatever it says |
| SessionPacket.UnknownTrackRejected | SimRacing.Telemetry.Receiver.F1.23/Packets/PacketSessionData.cs:117 | a track id byte above 127, such as 255 for an unknown track (-1), makes the signed conversion throw, so the whole session datagram fails |
| SessionPacket.UnknownZoneFlagRejected | SimRacing.Telemetry.Receiver.F1.23/Packets/PacketSessionData.cs:145 | a marshal zone whose flag byte is above 127, such as the -1 of an unknown flag, makes the whole session datagram fail |
| ParticipantsPacket.NumActiveCarsIgnored | SimRacing.Telemetry.Receiver.F1.23/Packets/PacketParticipantsData.cs:106-108 | the active-car count only sets its own field: all 22 participants are read |
| ParticipantsPacket.NamesAreCursorPositions | SimRacing.Telemetry.Receiver.F1.23/Packets/PacketParticipantsData.cs:125-133 | character `x` of participant `i`'s 48-character name is the cursor position 37 + 58i + x, not a byte of the datagram |
| ParticipantsPacket.NamesIgnoreContents | SimRacing.Telemetry.Receiver.F1.23/Packets/PacketParticipantsData.cs:125-133 | two decoded datagrams give every participant the same name, whatever their name bytes hold |
| CarTelemetryPacket.NegativeGearRejected | SimRacing.Telemetry.Receiver.F1.23/Packets/PacketCarTelemetryData.cs:137 | a car whose gear byte is above 127, such as 255 for reverse (-1), makes the whole telemetry datagram fail |
| CarTelemetryPacket.NegativeSuggestedGearRejected | SimRacing.Telemetry.Receiver.F1.23/Packets/PacketCarTelemetryData.cs:196 | a suggested gear above 127 as a byte makes the whole telemetry datagram fail |
| CarStatusPacket.UnknownFiaFlagRejected | SimRacing.Telemetry.Receiver.F1.23/Packets/PacketCarStatusData.cs:219 | a car whose FIA flag byte is above 127, such as the -1 of an unknown flag, makes the whole status datagram fail |
| FinalClassificationPacket.NumCarsIgnored | SimRacing.Telemetry.Receiver.F1.23/Packets/PacketFinalClassificationData.cs:112-115 | the car count only sets its own field: the loop runs over all 22 slots |
| SessionHistoryPacket.NumLapslIgnored | SimRacing.Telemetry.Receiver.F1.23/Packets/PacketSessionHistoryData.cs:115-149 | the lap count byte only sets its own field: all 100 lap entries are read |
| SessionHistoryPacket.NumTyreStintslIgnored | SimRacing.Telemetry.Receiver.F1.23/Packets/PacketSessionHistoryData.cs:117-162 | the stint count byte only sets its own field: all 8 stint entries are read |
| EventPacket.ReadEventDetails | SimRacing.Telemetry.Receiver.F1.23/Packets/PacketEventData.cs:118-249 | each switch case reads its payload with a cursor from offset 33; the result is the fixed-offset reading `EventDetailsAt` |
| EventPacket.DecodeEventData | SimRacing.Telemetry.Receiver.F1.23/Packets/PacketEventData.cs:82-255 | the constructor (header outside the try block, code and payload inside it) gives exactly `PacketEventDataOf` |
| EventPacket.EventDetailsSucceeds | SimRacing.Telemetry.Receiver.F1.23/Packets/PacketEventData.cs:118-249 | a switch case throws exactly when its payload runs past the end of the datagram |
| EventPacket.EventDetailsKind | SimRacing.Telemetry.Receiver.F1.23/Packets/PacketEventData.cs:118-249 | every case but the overtake one attaches details of its own code; the overtake case attaches none |
| EventPacket.EventDecodeOutcome | SimRacing.Telemetry.Receiver.F1.23/Packets/PacketEventData.cs:82-255 | an event record is produced exactly when the datagram has the 25 header bytes, since the try block swallows every later failure; with no complete known code the type, name and details keep their defaults; with a known code `c` the type is `c`, and details of kind `c` with name `NameOf(c)` are attached exactly when `c` is not the overtake code and its payload fits, the name staying at its default otherwise |
| EventPacket.KnownCodeDecoded | SimRacing.Telemetry.Receiver.F1.23/Packets/PacketEventData.cs:104-249 | a datagram carrying a code's four letters and its whole payload decodes to that code, its name and details of that code |
| EventPacket.UnknownCodeKeepsDefaults | SimRacing.Telemetry.Receiver.F1.23/Packets/PacketEventData.cs:256-267 | four bytes that spell no code leave the record at session start, with no details |
| EventPacket.TruncatedPayloadMismatch | SimRacing.Telemetry.Receiver.F1.23/Packets/PacketEventData.cs:130-136 | a fastest-lap datagram cut after its code leaves type fastest lap but name session start |
| LobbyInfoPacket.ReadLobbyInfoData | SimRacing.Telemetry.Receiver.F1.23/Packets/PacketLobbyInfoData.cs:85-108 | the loop body reads one lobby player with a cursor; the result is the fixed-offset block `LobbyInfoDataAt` and the cursor ends 54 bytes on |
| LobbyInfoPacket.LobbyInfoDataAtLocal | SimRacing.Telemetry.Receiver.F1.23/Packets/PacketLobbyInfoData.cs:85-108 | a lobby player depends on its own 54 bytes only |
| LobbyInfoPacket.PacketLobbyInfoDataOf | SimRacing.Telemetry.Receiver.F1.23/Packets/PacketLobbyInfoData.cs:62-113 | the constructor never returns: a read past the end throws, or else the store into slot 22 of the 22-slot array does |
| LobbyInfoPacket.DecodeLobbyInfoData | SimRacing.Telemetry.Receiver.F1.23/Packets/PacketLobbyInfoData.cs:62-113 | the cursor loop with its 29 iterations over a 22-slot array gives exactly `PacketLobbyInfoDataOf` |
| LobbyInfoPacket.LobbyStoreOverrun | SimRacing.Telemetry.Receiver.F1.23/Packets/PacketLobbyInfoData.cs:82-108 | on a datagram long enough for 23 players every read succeeds, so the failure is the array overrun |
| Receiver.DecodeDatagram | SimRacing.Telemetry.Receiver.F1.23/F1_23_Telemetry_Receiver.cs:216-383 | for each packet kind, the record constructor of its switch case; the result is `DecodeRecord` |
| Receiver.RunShape | SimRacing.Telemetry.Receiver.F1.23/F1_23_Telemetry_Receiver.cs:207-392 | outcome `k` of a run comes from input `k`, a datagram; only the last datagram handled may lack the 25-byte header, and the loop crashed exactly when it did; a cancelled run stopped at a stop request; a run that ran out of inputs handled them all |
| Receiver.RunOutcome | SimRacing.Telemetry.Receiver.F1.23/F1_23_Telemetry_Receiver.cs:209-214 | outcome `k` of a run is the loop body applied to datagram `k` |
| Receiver.RaisedOnlySubscribed | SimRacing.Telemetry.Receiver.F1.23/F1_23_Telemetry_Receiver.cs:216-223 | a record reaches a handler only when the packet id in byte 6 names a subscribed kind and that kind's constructor returned that record |
| Receiver.StopHidesRest | SimRacing.Telemetry.Receiver.F1.23/F1_23_Telemetry_Receiver.cs:209 | nothing after a stop request is looked at |
| Receiver.RunHandlesAll | SimRacing.Telemetry.Receiver.F1.23/F1_23_Telemetry_Receiver.cs:209-386 | a run over datagrams that all carry a full header handles every one of them and ends only when the inputs run out |
| Receiver.HandleLobbyInfo | SimRacing.Telemetry.Receiver.F1.23/F1_23_Telemetry_Receiver.cs:327-336 | with the receiver's switch, a lobby info datagram with a full header always ends as a decode failure |
| Receiver.HandleEvent | SimRacing.Telemetry.Receiver.F1.23/F1_23_Telemetry_Receiver.cs:257-267 | with the receiver's switch, every event datagram with a full header decodes, so a subscribed handler always receives it |
| Receiver.LobbyInfoNeverRaised | SimRacing.Telemetry.Receiver.F1.23/F1_23_Telemetry_Receiver.cs:327-336 | over a whole run, lobby info datagrams with a full header never reach a handler |
| Receiver.Delivered | SimRacing.Telemetry.Receiver.F1.23/F1_23_Telemetry_Receiver.cs:223 | the records handed to handlers are at most one per outcome, each from a raised outcome |
| Receiver.TelemetryReceiver.constructor | SimRacing.Telemetry.Receiver.F1.23/F1_23_Telemetry_Receiver.cs:34-40 | a new receiver has the switch `DecodeRecord`, no handler attached, and is not cancelled |
| Receiver.TelemetryReceiver.Subscribe | SimRacing.Telemetry.Receiver.F1.23/F1_23_Telemetry_Receiver.cs:60-171 | attaching a handler adds its kind to the subscribed kinds and changes nothing else |
| Receiver.TelemetryReceiver.StopReceiving | SimRacing.Telemetry.Receiver.F1.23/F1_23_Telemetry_Receiver.cs:406-416 | stopping sets the cancellation flag and changes nothing else |
| Receiver.TelemetryReceiver.ProcessDatagram | SimRacing.Telemetry.Receiver.F1.23/F1_23_Telemetry_Receiver.cs:211-384 | one loop pass (header read, dispatch on the header's packet id, constructor, hand-off) gives the outcome `Handle` defines on the raw bytes, and appends a raised record to the delivered ones |
| Receiver.TelemetryReceiver.ReceiveLoop | SimRacing.Telemetry.Receiver.F1.23/F1_23_Telemetry_Receiver.cs:207-392 | the loop gives the outcomes of `Run` over its inputs, delivers exactly the records raised in them, and ends cancelled exactly when the run met a stop request |

## Left out

- Sockets: `UdpClient`, `IPEndPoint`, the IP address and port chosen by the two constructors, and `Receive`. The model takes the received datagrams as its input sequence, and the parameterised constructor is not part of this model.
- Threads: `Task.Run` and the background loop. The model does not cover concurrency between `StopReceiving` and the loop. A stop request is an input that the loop sees at its head, as `IsCancellationRequested` would be seen at its next test.
- The sample console program is not part of this model.
- Floating point: singles and doubles are carried as their raw 32-bit and 64-bit patterns. Nothing is computed on them.
- Byte order: `BitConverter` is modelled as little-endian, the order of the x86 and ARM machines it runs on.
- Exceptions: all exception kinds are collapsed into one `Fail`. Their messages, and the text logged by `Debug.WriteLine` and `Console.Write`, are not modelled.
- Enums.ByteArrayToEventCode: accepts member names only. `Enum.TryParse` also accepts numeric text, with surrounding whitespace. So four bytes such as "0012" or " 12 " give code number 12 in the source, but are rejected here.
- Event arguments: the `...EventArgs` wrapper classes are left out. A raised outcome carries the record itself.
- The generic `PacketReceived` event is declared but never raised by the source, so it has no counterpart.
- Handlers: what a handler does is not modelled. An exception inside a handler is caught by the same `try` block as a decode failure and only logged.
- The outer `try`/`catch` around the loop and the one in `StartReceiving` are modelled only as the loop ending (`HeaderCrash`). Only the header read can throw outside a case's own `try` block.
- Receiver.TelemetryReceiver.ProcessDatagram: applies the receiver's switch constant (`DecodeRecord`) rather than calling the cursor-based `DecodeDatagram` method. The two are proved equal, and keeping the switch abstract keeps the loop's proof small.
