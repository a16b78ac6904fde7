/** The lap data packet: lap timing for all 22 cars and the time trial car indices. */
module LapDataPacket {
  import opened Bytes
  import opened PacketHeader

  /** The lap timing and race state of one car. */
  datatype LapData = LapData(
    lastLapTimeInMS: uint32,
    currentLapTimeInMS: uint32,
    sector1TimeInMS: uint16,
    sector1TimeInMinutes: uint8,
    sector2TimeInMS: uint16,
    sector2TimeInMinutes: uint8,
    deltaToCarInFrontInMS: uint16,
    deltaToRaceLeaderInMS: uint16,
    lapDistanceInMeters: f32,
    totalDistanceInMeters: f32,
    safetyCarDelta: f32,
    carPosition: uint8,
    currentLapNum: uint8,
    pitStatus: uint8,
    numPitStops: uint8,
    sector: uint8,
    currentLapInvalid: uint8,
    penalties: uint8,
    totalWarnings: uint8,
    cornerCuttingWarnings: uint8,
    numUnservedDriveThroughPens: uint8,
    numUnservedStopGoPens: uint8,
    gridPosition: uint8,
    driverStatus: uint8,
    resultStatus: uint8,
    pitLaneTimerActive: uint8,
    pitLaneTimeInLaneInMS: uint16,
    pitStopTimerInMS: uint16,
    pitStopShouldServePen: uint8)

  const LapDataSize: nat := 50

  /** The `LapData` laid out from offset `at`: each field at its fixed
      position inside the 50-byte block, or a failure when the block
      overruns the buffer. */
  function LapDataAt(buf: Buffer, at: nat): Result<LapData>
  {
    if at + 50 <= |buf| then
      Ok(LapData(U32At(buf, at), U32At(buf, at + 4), U16At(buf, at + 8), buf[at + 10],
        U16At(buf, at + 11), buf[at + 13], U16At(buf, at + 14), U16At(buf, at + 16),
        F32At(buf, at + 18), F32At(buf, at + 22), F32At(buf, at + 26), buf[at + 30],
        buf[at + 31], buf[at + 32], buf[at + 33], buf[at + 34], buf[at + 35], buf[at + 36],
        buf[at + 37], buf[at + 38], buf[at + 39], buf[at + 40], buf[at + 41], buf[at + 42],
        buf[at + 43], buf[at + 44], U16At(buf, at + 45), U16At(buf, at + 47), buf[at + 49]))
    else Fail
  }

  /** The loop body that fills one `LapData`: the cursor advances by each
      field's width, and the first read that throws ends the decode. */
  method ReadLapData(buf: Buffer, at: nat) returns (r: Result<LapData>, next: nat)
    ensures r == LapDataAt(buf, at)
    ensures r.Ok? ==> next == at + LapDataSize
  {
    next := at;
    var cursor := at;
    var lastLapTimeInMS :- ReadU32(buf, cursor);
    cursor := cursor + 4;
    var currentLapTimeInMS :- ReadU32(buf, cursor);
    cursor := cursor + 4;
    var sector1TimeInMS :- ReadU16(buf, cursor);
    cursor := cursor + 2;
    var sector1TimeInMinutes :- ReadU8(buf, cursor);
    cursor := cursor + 1;
    var sector2TimeInMS :- ReadU16(buf, cursor);
    cursor := cursor + 2;
    var sector2TimeInMinutes :- ReadU8(buf, cursor);
    cursor := cursor + 1;
    var deltaToCarInFrontInMS :- ReadU16(buf, cursor);
    cursor := cursor + 2;
    var deltaToRaceLeaderInMS :- ReadU16(buf, cursor);
    cursor := cursor + 2;
    var lapDistanceInMeters :- ReadF32(buf, cursor);
    cursor := cursor + 4;
    var totalDistanceInMeters :- ReadF32(buf, cursor);
    cursor := cursor + 4;
    var safetyCarDelta :- ReadF32(buf, cursor);
    cursor := cursor + 4;
    var carPosition :- ReadU8(buf, cursor);
    cursor := cursor + 1;
    var currentLapNum :- ReadU8(buf, cursor);
    cursor := cursor + 1;
    var pitStatus :- ReadU8(buf, cursor);
    cursor := cursor + 1;
    var numPitStops :- ReadU8(buf, cursor);
    cursor := cursor + 1;
    var sector :- ReadU8(buf, cursor);
    cursor := cursor + 1;
    var currentLapInvalid :- ReadU8(buf, cursor);
    cursor := cursor + 1;
    var penalties :- ReadU8(buf, cursor);
    cursor := cursor + 1;
    var totalWarnings :- ReadU8(buf, cursor);
    cursor := cursor + 1;
    var cornerCuttingWarnings :- ReadU8(buf, cursor);
    cursor := cursor + 1;
    var numUnservedDriveThroughPens :- ReadU8(buf, cursor);
    cursor := cursor + 1;
    var numUnservedStopGoPens :- ReadU8(buf, cursor);
    cursor := cursor + 1;
    var gridPosition :- ReadU8(buf, cursor);
    cursor := cursor + 1;
    var driverStatus :- ReadU8(buf, cursor);
    cursor := cursor + 1;
    var resultStatus :- ReadU8(buf, cursor);
    cursor := cursor + 1;
    var pitLaneTimerActive :- ReadU8(buf, cursor);
    cursor := cursor + 1;
    var pitLaneTimeInLaneInMS :- ReadU16(buf, cursor);
    cursor := cursor + 2;
    var pitStopTimerInMS :- ReadU16(buf, cursor);
    cursor := cursor + 2;
    var pitStopShouldServePen :- ReadU8(buf, cursor);
    cursor := cursor + 1;
    r, next := Ok(LapData(lastLapTimeInMS, currentLapTimeInMS, sector1TimeInMS,
      sector1TimeInMinutes, sector2TimeInMS, sector2TimeInMinutes, deltaToCarInFrontInMS,
      deltaToRaceLeaderInMS, lapDistanceInMeters, totalDistanceInMeters, safetyCarDelta,
      carPosition, currentLapNum, pitStatus, numPitStops, sector, currentLapInvalid, penalties,
      totalWarnings, cornerCuttingWarnings, numUnservedDriveThroughPens, numUnservedStopGoPens,
      gridPosition, driverStatus, resultStatus, pitLaneTimerActive, pitLaneTimeInLaneInMS,
      pitStopTimerInMS, pitStopShouldServePen)), cursor;
  }

  /** A `LapData` depends on its own 50 bytes only. */
  lemma LapDataAtLocal(a: Buffer, b: Buffer, at: nat)
    requires at + LapDataSize <= |a| && at + LapDataSize <= |b|
    requires a[at..at + LapDataSize] == b[at..at + LapDataSize]
    ensures LapDataAt(a, at) == LapDataAt(b, at)
  {
    assert forall k :: at <= k < at + LapDataSize ==> a[k] == a[at..at + LapDataSize][k - at] == b[k];
  }

  /** The 22 `LapData` blocks the loop reads, 50 bytes apart from `at`. */
  function LapDataBlocks(buf: Buffer, at: nat): seq<Result<LapData>>
  {
    seq(22, i requires 0 <= i < 22 => LapDataAt(buf, at + 50 * i))
  }

  /** Blocks that all decode fit in the buffer. */
  lemma LapDataBlocksNeedValid(buf: Buffer, at: nat)
    requires Collect(LapDataBlocks(buf, at)).Ok?
    ensures at + 50 * 22 <= |buf|
  {
    assert LapDataBlocks(buf, at)[21].Ok?;
  }

  /** All 22 blocks decode exactly when they fit in the buffer. */
  lemma {:induction false} LapDataBlocksSucceed(buf: Buffer, at: nat)
    ensures Collect(LapDataBlocks(buf, at)).Ok? <==> at + 50 * 22 <= |buf|
  {
    if at + 50 * 22 <= |buf| {
      forall i | 0 <= i < 22 ensures LapDataBlocks(buf, at)[i].Ok? {
        assert at + 50 * i + 50 <= |buf|;
      }
    }
    if Collect(LapDataBlocks(buf, at)).Ok? {
      LapDataBlocksNeedValid(buf, at);
    }
  }

  /** The 22-iteration loop: it stores block `i` in slot `i`, and ends
      the decode at the first block that throws. */
  method ReadLapDataArray(buf: Buffer, at: nat) returns (r: Result<seq<LapData>>, next: nat)
    ensures r == Collect(LapDataBlocks(buf, at))
    ensures r.Ok? ==> next == at + 50 * 22
  {
    next := at;
    var cursor := at;
    var lapData := new LapData[22];
    for i := 0 to 22
      invariant cursor == at + 50 * i
      invariant forall k :: 0 <= k < i ==> LapDataBlocks(buf, at)[k] == Ok(lapData[k])
    {
      var temp, after := ReadLapData(buf, cursor);
      if temp.Fail? {
        assert LapDataBlocks(buf, at)[i].Fail?;
        return Fail, at;
      }
      lapData[i] := temp.value;
      cursor := after;
    }
    CollectAllOk(LapDataBlocks(buf, at), lapData[..]);
    r, next := Ok(lapData[..]), cursor;
  }

  /** The fields of a decoded `PacketLapData` object. */
  datatype PacketLapData = PacketLapData(
    header: Header,
    lapData: seq<LapData>,
    timeTrialPBCarIdx: uint8,
    timeTrialRivalCarIdx: uint8)

  /** The shortest datagram the decoder accepts. */
  const PacketLapDataLength: nat := 1131

  /** The record the bytes denote: the record header, then every field
      read at its absolute offset; any read that throws makes it a failure. */
  function PacketLapDataOf(buf: Buffer): Result<PacketLapData>
  {
    var header :- RecordHeader(buf, true);
    var lapData :- Collect(LapDataBlocks(buf, 29));
    var timeTrialPBCarIdx :- ReadU8(buf, 1129);
    var timeTrialRivalCarIdx :- ReadU8(buf, 1130);
    Ok(PacketLapData(header, lapData, timeTrialPBCarIdx, timeTrialRivalCarIdx))
  }

  /** The `PacketLapData` constructor: `base(data)` and the header overwrite, then
      a cursor from offset 29 through every field and fixed-count loop. */
  method DecodeLapData(buf: Buffer) returns (r: Result<PacketLapData>)
    ensures r == PacketLapDataOf(buf)
  {
    var header :- RecordHeader(buf, true);
    var cursor: nat := 29;
    var lapData;
    lapData, cursor :- ReadLapDataArray(buf, cursor);
    var timeTrialPBCarIdx :- ReadU8(buf, cursor);
    cursor := cursor + 1;
    var timeTrialRivalCarIdx :- ReadU8(buf, cursor);
    cursor := cursor + 1;
    r := Ok(PacketLapData(header, lapData, timeTrialPBCarIdx, timeTrialRivalCarIdx));
  }

  /** The decode succeeds exactly when the datagram has 1131 bytes. */
  lemma {:induction false} PacketLapDataSucceeds(buf: Buffer)
    ensures PacketLapDataOf(buf).Ok? <==> |buf| >= PacketLapDataLength
  {
    RecordHeaderLayout(buf, true);
    LapDataBlocksSucceed(buf, 29);
  }

  /** Where each field of a decoded record comes from: the record header,
      the scalars at their absolute offsets, and entry `i` of each array from
      block `i`, in wire order. */
  lemma PacketLapDataLayout(buf: Buffer)
    requires PacketLapDataOf(buf).Ok?
    ensures var p := PacketLapDataOf(buf).value;
      p.header == RecordHeader(buf, true).value
      && |p.lapData| == 22
      && (forall i :: 0 <= i < 22 ==> LapDataAt(buf, 29 + 50 * i) == Ok(p.lapData[i]))
      && p.timeTrialPBCarIdx == buf[1129]
      && p.timeTrialRivalCarIdx == buf[1130]
  {
    PacketLapDataSucceeds(buf);
  }
}
