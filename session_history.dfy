/** The session history packet: one car's best-lap summary, 100 lap entries and 8 tyre stints. */
module SessionHistoryPacket {
  import opened Bytes
  import opened PacketHeader

  /** One lap of a car's history. */
  datatype LapHistoryData = LapHistoryData(
    lapTimeInMS: uint32,
    sector1TimeInMS: uint16,
    sector1TimeInMinutes: uint8,
    sector2TimeInMS: uint16,
    sector2TimeInMinutes: uint8,
    sector3TimeInMS: uint16,
    sector3TimeInMinutes: uint8,
    lapValidBitFlags: uint8)

  const LapHistoryDataSize: nat := 14

  /** The `LapHistoryData` laid out from offset `at`: each field at its fixed
      position inside the 14-byte block, or a failure when the block
      overruns the buffer. */
  function LapHistoryDataAt(buf: Buffer, at: nat): Result<LapHistoryData>
  {
    if at + 14 <= |buf| then
      Ok(LapHistoryData(U32At(buf, at), U16At(buf, at + 4), buf[at + 6], U16At(buf, at + 7),
        buf[at + 9], U16At(buf, at + 10), buf[at + 12], buf[at + 13]))
    else Fail
  }

  /** The loop body that fills one `LapHistoryData`: the cursor advances by each
      field's width, and the first read that throws ends the decode. */
  method ReadLapHistoryData(buf: Buffer, at: nat) returns (r: Result<LapHistoryData>, next: nat)
    ensures r == LapHistoryDataAt(buf, at)
    ensures r.Ok? ==> next == at + LapHistoryDataSize
  {
    next := at;
    var cursor := at;
    var lapTimeInMS :- ReadU32(buf, cursor);
    cursor := cursor + 4;
    var sector1TimeInMS :- ReadU16(buf, cursor);
    cursor := cursor + 2;
    var sector1TimeInMinutes :- ReadU8(buf, cursor);
    cursor := cursor + 1;
    var sector2TimeInMS :- ReadU16(buf, cursor);
    cursor := cursor + 2;
    var sector2TimeInMinutes :- ReadU8(buf, cursor);
    cursor := cursor + 1;
    var sector3TimeInMS :- ReadU16(buf, cursor);
    cursor := cursor + 2;
    var sector3TimeInMinutes :- ReadU8(buf, cursor);
    cursor := cursor + 1;
    var lapValidBitFlags :- ReadU8(buf, cursor);
    cursor := cursor + 1;
    r, next := Ok(LapHistoryData(lapTimeInMS, sector1TimeInMS, sector1TimeInMinutes,
      sector2TimeInMS, sector2TimeInMinutes, sector3TimeInMS, sector3TimeInMinutes,
      lapValidBitFlags)), cursor;
  }

  /** A `LapHistoryData` depends on its own 14 bytes only. */
  lemma LapHistoryDataAtLocal(a: Buffer, b: Buffer, at: nat)
    requires at + LapHistoryDataSize <= |a| && at + LapHistoryDataSize <= |b|
    requires a[at..at + LapHistoryDataSize] == b[at..at + LapHistoryDataSize]
    ensures LapHistoryDataAt(a, at) == LapHistoryDataAt(b, at)
  {
    assert forall k :: at <= k < at + LapHistoryDataSize ==> a[k] == a[at..at + LapHistoryDataSize][k - at] == b[k];
  }

  /** One tyre stint of a car's history. */
  datatype TyreStintHistoryData = TyreStintHistoryData(
    endLap: uint8,
    tyreActualCompound: uint8,
    tyreVisualCompound: uint8)

  const TyreStintHistoryDataSize: nat := 3

  /** The `TyreStintHistoryData` laid out from offset `at`: each field at its fixed
      position inside the 3-byte block, or a failure when the block
      overruns the buffer. */
  function TyreStintHistoryDataAt(buf: Buffer, at: nat): Result<TyreStintHistoryData>
  {
    if at + 3 <= |buf| then
      Ok(TyreStintHistoryData(buf[at], buf[at + 1], buf[at + 2]))
    else Fail
  }

  /** The loop body that fills one `TyreStintHistoryData`: the cursor advances by each
      field's width, and the first read that throws ends the decode. */
  method ReadTyreStintHistoryData(buf: Buffer, at: nat) returns (r: Result<TyreStintHistoryData>, next: nat)
    ensures r == TyreStintHistoryDataAt(buf, at)
    ensures r.Ok? ==> next == at + TyreStintHistoryDataSize
  {
    next := at;
    var cursor := at;
    var endLap :- ReadU8(buf, cursor);
    cursor := cursor + 1;
    var tyreActualCompound :- ReadU8(buf, cursor);
    cursor := cursor + 1;
    var tyreVisualCompound :- ReadU8(buf, cursor);
    cursor := cursor + 1;
    r, next := Ok(TyreStintHistoryData(endLap, tyreActualCompound, tyreVisualCompound)), cursor;
  }

  /** A `TyreStintHistoryData` depends on its own 3 bytes only. */
  lemma TyreStintHistoryDataAtLocal(a: Buffer, b: Buffer, at: nat)
    requires at + TyreStintHistoryDataSize <= |a| && at + TyreStintHistoryDataSize <= |b|
    requires a[at..at + TyreStintHistoryDataSize] == b[at..at + TyreStintHistoryDataSize]
    ensures TyreStintHistoryDataAt(a, at) == TyreStintHistoryDataAt(b, at)
  {
    assert forall k :: at <= k < at + TyreStintHistoryDataSize ==> a[k] == a[at..at + TyreStintHistoryDataSize][k - at] == b[k];
  }

  /** The 100 `LapHistoryData` blocks the loop reads, 14 bytes apart from `at`. */
  function LapHistoryDataBlocks(buf: Buffer, at: nat): seq<Result<LapHistoryData>>
  {
    seq(100, i requires 0 <= i < 100 => LapHistoryDataAt(buf, at + 14 * i))
  }

  /** Blocks that all decode fit in the buffer. */
  lemma LapHistoryDataBlocksNeedValid(buf: Buffer, at: nat)
    requires Collect(LapHistoryDataBlocks(buf, at)).Ok?
    ensures at + 14 * 100 <= |buf|
  {
    assert LapHistoryDataBlocks(buf, at)[99].Ok?;
  }

  /** All 100 blocks decode exactly when they fit in the buffer. */
  lemma {:induction false} LapHistoryDataBlocksSucceed(buf: Buffer, at: nat)
    ensures Collect(LapHistoryDataBlocks(buf, at)).Ok? <==> at + 14 * 100 <= |buf|
  {
    if at + 14 * 100 <= |buf| {
      forall i | 0 <= i < 100 ensures LapHistoryDataBlocks(buf, at)[i].Ok? {
        assert at + 14 * i + 14 <= |buf|;
      }
    }
    if Collect(LapHistoryDataBlocks(buf, at)).Ok? {
      LapHistoryDataBlocksNeedValid(buf, at);
    }
  }

  /** The 100-iteration loop: it stores block `i` in slot `i`, and ends
      the decode at the first block that throws. */
  method ReadLapHistoryDataArray(buf: Buffer, at: nat) returns (r: Result<seq<LapHistoryData>>, next: nat)
    ensures r == Collect(LapHistoryDataBlocks(buf, at))
    ensures r.Ok? ==> next == at + 14 * 100
  {
    next := at;
    var cursor := at;
    var lapHistoryData := new LapHistoryData[100];
    for i := 0 to 100
      invariant cursor == at + 14 * i
      invariant forall k :: 0 <= k < i ==> LapHistoryDataBlocks(buf, at)[k] == Ok(lapHistoryData[k])
    {
      var temp, after := ReadLapHistoryData(buf, cursor);
      if temp.Fail? {
        assert LapHistoryDataBlocks(buf, at)[i].Fail?;
        return Fail, at;
      }
      lapHistoryData[i] := temp.value;
      cursor := after;
    }
    CollectAllOk(LapHistoryDataBlocks(buf, at), lapHistoryData[..]);
    r, next := Ok(lapHistoryData[..]), cursor;
  }

  /** The 8 `TyreStintHistoryData` blocks the loop reads, 3 bytes apart from `at`. */
  function TyreStintHistoryDataBlocks(buf: Buffer, at: nat): seq<Result<TyreStintHistoryData>>
  {
    seq(8, i requires 0 <= i < 8 => TyreStintHistoryDataAt(buf, at + 3 * i))
  }

  /** Blocks that all decode fit in the buffer. */
  lemma TyreStintHistoryDataBlocksNeedValid(buf: Buffer, at: nat)
    requires Collect(TyreStintHistoryDataBlocks(buf, at)).Ok?
    ensures at + 3 * 8 <= |buf|
  {
    assert TyreStintHistoryDataBlocks(buf, at)[7].Ok?;
  }

  /** All 8 blocks decode exactly when they fit in the buffer. */
  lemma {:induction false} TyreStintHistoryDataBlocksSucceed(buf: Buffer, at: nat)
    ensures Collect(TyreStintHistoryDataBlocks(buf, at)).Ok? <==> at + 3 * 8 <= |buf|
  {
    if at + 3 * 8 <= |buf| {
      forall i | 0 <= i < 8 ensures TyreStintHistoryDataBlocks(buf, at)[i].Ok? {
        assert at + 3 * i + 3 <= |buf|;
      }
    }
    if Collect(TyreStintHistoryDataBlocks(buf, at)).Ok? {
      TyreStintHistoryDataBlocksNeedValid(buf, at);
    }
  }

  /** The 8-iteration loop: it stores block `i` in slot `i`, and ends
      the decode at the first block that throws. */
  method ReadTyreStintHistoryDataArray(buf: Buffer, at: nat) returns (r: Result<seq<TyreStintHistoryData>>, next: nat)
    ensures r == Collect(TyreStintHistoryDataBlocks(buf, at))
    ensures r.Ok? ==> next == at + 3 * 8
  {
    next := at;
    var cursor := at;
    var tyreStintsHistoryData := new TyreStintHistoryData[8];
    for i := 0 to 8
      invariant cursor == at + 3 * i
      invariant forall k :: 0 <= k < i ==> TyreStintHistoryDataBlocks(buf, at)[k] == Ok(tyreStintsHistoryData[k])
    {
      var temp, after := ReadTyreStintHistoryData(buf, cursor);
      if temp.Fail? {
        assert TyreStintHistoryDataBlocks(buf, at)[i].Fail?;
        return Fail, at;
      }
      tyreStintsHistoryData[i] := temp.value;
      cursor := after;
    }
    CollectAllOk(TyreStintHistoryDataBlocks(buf, at), tyreStintsHistoryData[..]);
    r, next := Ok(tyreStintsHistoryData[..]), cursor;
  }

  /** The fields of a decoded `PacketSessionHistoryData` object. */
  datatype PacketSessionHistoryData = PacketSessionHistoryData(
    header: Header,
    carIdxl: uint8,
    numLapsl: uint8,
    numTyreStintsl: uint8,
    bestLapTimeLapNuml: uint8,
    bestSector1LapNuml: uint8,
    bestSector2LapNuml: uint8,
    bestSector3LapNuml: uint8,
    lapHistoryData: seq<LapHistoryData>,
    tyreStintsHistoryData: seq<TyreStintHistoryData>)

  /** The shortest datagram the decoder accepts. */
  const PacketSessionHistoryDataLength: nat := 1460

  /** The record the bytes denote: the record header, then every field
      read at its absolute offset; any read that throws makes it a failure. */
  function PacketSessionHistoryDataOf(buf: Buffer): Result<PacketSessionHistoryData>
  {
    var header :- RecordHeader(buf, true);
    var carIdxl :- ReadU8(buf, 29);
    var numLapsl :- ReadU8(buf, 30);
    var numTyreStintsl :- ReadU8(buf, 31);
    var bestLapTimeLapNuml :- ReadU8(buf, 32);
    var bestSector1LapNuml :- ReadU8(buf, 33);
    var bestSector2LapNuml :- ReadU8(buf, 34);
    var bestSector3LapNuml :- ReadU8(buf, 35);
    var lapHistoryData :- Collect(LapHistoryDataBlocks(buf, 36));
    var tyreStintsHistoryData :- Collect(TyreStintHistoryDataBlocks(buf, 1436));
    Ok(PacketSessionHistoryData(header, carIdxl, numLapsl, numTyreStintsl, bestLapTimeLapNuml,
      bestSector1LapNuml, bestSector2LapNuml, bestSector3LapNuml, lapHistoryData,
      tyreStintsHistoryData))
  }

  /** The `PacketSessionHistoryData` constructor: `base(data)` and the header overwrite, then
      a cursor from offset 29 through every field and fixed-count loop. */
  method DecodeSessionHistoryData(buf: Buffer) returns (r: Result<PacketSessionHistoryData>)
    ensures r == PacketSessionHistoryDataOf(buf)
  {
    var header :- RecordHeader(buf, true);
    var cursor: nat := 29;
    var carIdxl :- ReadU8(buf, cursor);
    cursor := cursor + 1;
    var numLapsl :- ReadU8(buf, cursor);
    cursor := cursor + 1;
    var numTyreStintsl :- ReadU8(buf, cursor);
    cursor := cursor + 1;
    var bestLapTimeLapNuml :- ReadU8(buf, cursor);
    cursor := cursor + 1;
    var bestSector1LapNuml :- ReadU8(buf, cursor);
    cursor := cursor + 1;
    var bestSector2LapNuml :- ReadU8(buf, cursor);
    cursor := cursor + 1;
    var bestSector3LapNuml :- ReadU8(buf, cursor);
    cursor := cursor + 1;
    var lapHistoryData;
    lapHistoryData, cursor :- ReadLapHistoryDataArray(buf, cursor);
    var tyreStintsHistoryData;
    tyreStintsHistoryData, cursor :- ReadTyreStintHistoryDataArray(buf, cursor);
    r := Ok(PacketSessionHistoryData(header, carIdxl, numLapsl, numTyreStintsl,
      bestLapTimeLapNuml, bestSector1LapNuml, bestSector2LapNuml, bestSector3LapNuml,
      lapHistoryData, tyreStintsHistoryData));
  }

  /** The decode succeeds exactly when the datagram has 1460 bytes. */
  lemma {:induction false} PacketSessionHistoryDataSucceeds(buf: Buffer)
    ensures PacketSessionHistoryDataOf(buf).Ok? <==> |buf| >= PacketSessionHistoryDataLength
  {
    RecordHeaderLayout(buf, true);
    LapHistoryDataBlocksSucceed(buf, 36);
    TyreStintHistoryDataBlocksSucceed(buf, 1436);
  }

  /** Where each field of a decoded record comes from: the record header,
      the scalars at their absolute offsets, and entry `i` of each array from
      block `i`, in wire order. */
  lemma PacketSessionHistoryDataLayout(buf: Buffer)
    requires PacketSessionHistoryDataOf(buf).Ok?
    ensures var p := PacketSessionHistoryDataOf(buf).value;
      p.header == RecordHeader(buf, true).value
      && p.carIdxl == buf[29]
      && p.numLapsl == buf[30]
      && p.numTyreStintsl == buf[31]
      && p.bestLapTimeLapNuml == buf[32]
      && p.bestSector1LapNuml == buf[33]
      && p.bestSector2LapNuml == buf[34]
      && p.bestSector3LapNuml == buf[35]
      && |p.lapHistoryData| == 100
      && (forall i :: 0 <= i < 100 ==> LapHistoryDataAt(buf, 36 + 14 * i) == Ok(p.lapHistoryData[i]))
      && |p.tyreStintsHistoryData| == 8
      && (forall i :: 0 <= i < 8 ==> TyreStintHistoryDataAt(buf, 1436 + 3 * i) == Ok(p.tyreStintsHistoryData[i]))
  {
    PacketSessionHistoryDataSucceeds(buf);
  }

  /** `numLapsl` is stored but bounds no loop: overwriting its byte changes
      that field of the record and nothing else. */
  lemma {:induction false} NumLapslIgnored(buf: Buffer, v: uint8)
    requires 30 < |buf|
    ensures PacketSessionHistoryDataOf(buf[30 := v]).Ok? <==> PacketSessionHistoryDataOf(buf).Ok?
    ensures PacketSessionHistoryDataOf(buf).Ok? ==> PacketSessionHistoryDataOf(buf[30 := v]).value == PacketSessionHistoryDataOf(buf).value.(numLapsl := v)
  {
    var b := buf[30 := v];
    assert |b| == |buf| && forall k :: 0 <= k < |buf| && k != 30 ==> b[k] == buf[k];
    PacketSessionHistoryDataSucceeds(buf);
    PacketSessionHistoryDataSucceeds(b);
    if PacketSessionHistoryDataOf(buf).Ok? {
      assert b[..25] == buf[..25];
      RecordHeaderLocal(b, buf, true);
      forall i | 0 <= i < 100
        ensures LapHistoryDataAt(b, 36 + 14 * i) == LapHistoryDataAt(buf, 36 + 14 * i)
      {
        var at := 36 + 14 * i;
        assert b[at..at + 14] == buf[at..at + 14];
        LapHistoryDataAtLocal(b, buf, at);
      }
      forall i | 0 <= i < 8
        ensures TyreStintHistoryDataAt(b, 1436 + 3 * i) == TyreStintHistoryDataAt(buf, 1436 + 3 * i)
      {
        var at := 1436 + 3 * i;
        assert b[at..at + 3] == buf[at..at + 3];
        TyreStintHistoryDataAtLocal(b, buf, at);
      }
      PacketSessionHistoryDataLayout(buf);
      PacketSessionHistoryDataLayout(b);
      assert PacketSessionHistoryDataOf(b).value.lapHistoryData == PacketSessionHistoryDataOf(buf).value.lapHistoryData;
      assert PacketSessionHistoryDataOf(b).value.tyreStintsHistoryData == PacketSessionHistoryDataOf(buf).value.tyreStintsHistoryData;
    }
  }

  /** `numTyreStintsl` is stored but bounds no loop: overwriting its byte changes
      that field of the record and nothing else. */
  lemma {:induction false} NumTyreStintslIgnored(buf: Buffer, v: uint8)
    requires 31 < |buf|
    ensures PacketSessionHistoryDataOf(buf[31 := v]).Ok? <==> PacketSessionHistoryDataOf(buf).Ok?
    ensures PacketSessionHistoryDataOf(buf).Ok? ==> PacketSessionHistoryDataOf(buf[31 := v]).value == PacketSessionHistoryDataOf(buf).value.(numTyreStintsl := v)
  {
    var b := buf[31 := v];
    assert |b| == |buf| && forall k :: 0 <= k < |buf| && k != 31 ==> b[k] == buf[k];
    PacketSessionHistoryDataSucceeds(buf);
    PacketSessionHistoryDataSucceeds(b);
    if PacketSessionHistoryDataOf(buf).Ok? {
      assert b[..25] == buf[..25];
      RecordHeaderLocal(b, buf, true);
      forall i | 0 <= i < 100
        ensures LapHistoryDataAt(b, 36 + 14 * i) == LapHistoryDataAt(buf, 36 + 14 * i)
      {
        var at := 36 + 14 * i;
        assert b[at..at + 14] == buf[at..at + 14];
        LapHistoryDataAtLocal(b, buf, at);
      }
      forall i | 0 <= i < 8
        ensures TyreStintHistoryDataAt(b, 1436 + 3 * i) == TyreStintHistoryDataAt(buf, 1436 + 3 * i)
      {
        var at := 1436 + 3 * i;
        assert b[at..at + 3] == buf[at..at + 3];
        TyreStintHistoryDataAtLocal(b, buf, at);
      }
      PacketSessionHistoryDataLayout(buf);
      PacketSessionHistoryDataLayout(b);
      assert PacketSessionHistoryDataOf(b).value.lapHistoryData == PacketSessionHistoryDataOf(buf).value.lapHistoryData;
      assert PacketSessionHistoryDataOf(b).value.tyreStintsHistoryData == PacketSessionHistoryDataOf(buf).value.tyreStintsHistoryData;
    }
  }
}
