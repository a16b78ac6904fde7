/** The final classification packet: the car count and 22 classification entries, which the constructor reads but never stores. */
module FinalClassificationPacket {
  import opened Bytes
  import opened PacketHeader

  /** The final classification of one car. */
  datatype FinalClassificationData = FinalClassificationData(
    finishingPosition: uint8,
    numberOfLapsCompleted: uint8,
    gridPosition: uint8,
    pointsScored: uint8,
    numberOFPitStops: uint8,
    resultStatus: uint8,
    bestLapTimeInMS: uint32,
    totalRaceTime: f64,
    penaltiesTime: uint8,
    numberOfPenalties: uint8,
    numberOfTyreStints: uint8,
    tyreStintsActual: seq<uint8>,
    tyreStintsVisual: seq<uint8>,
    tyreStintsEndLaps: seq<uint8>)

  const FinalClassificationDataSize: nat := 45

  /** The `FinalClassificationData` laid out from offset `at`: each field at its fixed
      position inside the 45-byte block, or a failure when the block
      overruns the buffer. */
  function FinalClassificationDataAt(buf: Buffer, at: nat): Result<FinalClassificationData>
  {
    if at + 45 <= |buf| then
      Ok(FinalClassificationData(buf[at], buf[at + 1], buf[at + 2], buf[at + 3], buf[at + 4],
        buf[at + 5], U32At(buf, at + 6), F64At(buf, at + 10), buf[at + 18], buf[at + 19],
        buf[at + 20], buf[at + 21..at + 29], buf[at + 29..at + 37], buf[at + 37..at + 45]))
    else Fail
  }

  /** The loop body that fills one `FinalClassificationData`: the cursor advances by each
      field's width, and the first read that throws ends the decode. */
  method ReadFinalClassificationData(buf: Buffer, at: nat) returns (r: Result<FinalClassificationData>, next: nat)
    ensures r == FinalClassificationDataAt(buf, at)
    ensures r.Ok? ==> next == at + FinalClassificationDataSize
  {
    next := at;
    var cursor := at;
    var finishingPosition :- ReadU8(buf, cursor);
    cursor := cursor + 1;
    var numberOfLapsCompleted :- ReadU8(buf, cursor);
    cursor := cursor + 1;
    var gridPosition :- ReadU8(buf, cursor);
    cursor := cursor + 1;
    var pointsScored :- ReadU8(buf, cursor);
    cursor := cursor + 1;
    var numberOFPitStops :- ReadU8(buf, cursor);
    cursor := cursor + 1;
    var resultStatus :- ReadU8(buf, cursor);
    cursor := cursor + 1;
    var bestLapTimeInMS :- ReadU32(buf, cursor);
    cursor := cursor + 4;
    var totalRaceTime :- ReadF64(buf, cursor);
    cursor := cursor + 8;
    var penaltiesTime :- ReadU8(buf, cursor);
    cursor := cursor + 1;
    var numberOfPenalties :- ReadU8(buf, cursor);
    cursor := cursor + 1;
    var numberOfTyreStints :- ReadU8(buf, cursor);
    cursor := cursor + 1;
    var tyreStintsActual;
    tyreStintsActual, cursor :- ReadBytes(buf, cursor, 8);
    var tyreStintsVisual;
    tyreStintsVisual, cursor :- ReadBytes(buf, cursor, 8);
    var tyreStintsEndLaps;
    tyreStintsEndLaps, cursor :- ReadBytes(buf, cursor, 8);
    r, next := Ok(FinalClassificationData(finishingPosition, numberOfLapsCompleted,
      gridPosition, pointsScored, numberOFPitStops, resultStatus, bestLapTimeInMS,
      totalRaceTime, penaltiesTime, numberOfPenalties, numberOfTyreStints, tyreStintsActual,
      tyreStintsVisual, tyreStintsEndLaps)), cursor;
  }

  /** A `FinalClassificationData` depends on its own 45 bytes only. */
  lemma FinalClassificationDataAtLocal(a: Buffer, b: Buffer, at: nat)
    requires at + FinalClassificationDataSize <= |a| && at + FinalClassificationDataSize <= |b|
    requires a[at..at + FinalClassificationDataSize] == b[at..at + FinalClassificationDataSize]
    ensures FinalClassificationDataAt(a, at) == FinalClassificationDataAt(b, at)
  {
    assert forall k :: at <= k < at + FinalClassificationDataSize ==> a[k] == a[at..at + FinalClassificationDataSize][k - at] == b[k];
    assert a[at + 21..at + 29] == b[at + 21..at + 29];
    assert a[at + 29..at + 37] == b[at + 29..at + 37];
    assert a[at + 37..at + 45] == b[at + 37..at + 45];
  }

  /** The 22 `FinalClassificationData` blocks the loop reads, 45 bytes apart from `at`. */
  function FinalClassificationDataBlocks(buf: Buffer, at: nat): seq<Result<FinalClassificationData>>
  {
    seq(22, i requires 0 <= i < 22 => FinalClassificationDataAt(buf, at + 45 * i))
  }

  /** Blocks that all decode fit in the buffer. */
  lemma FinalClassificationDataBlocksNeedValid(buf: Buffer, at: nat)
    requires Collect(FinalClassificationDataBlocks(buf, at)).Ok?
    ensures at + 45 * 22 <= |buf|
  {
    assert FinalClassificationDataBlocks(buf, at)[21].Ok?;
  }

  /** All 22 blocks decode exactly when they fit in the buffer. */
  lemma {:induction false} FinalClassificationDataBlocksSucceed(buf: Buffer, at: nat)
    ensures Collect(FinalClassificationDataBlocks(buf, at)).Ok? <==> at + 45 * 22 <= |buf|
  {
    if at + 45 * 22 <= |buf| {
      forall i | 0 <= i < 22 ensures FinalClassificationDataBlocks(buf, at)[i].Ok? {
        assert at + 45 * i + 45 <= |buf|;
      }
    }
    if Collect(FinalClassificationDataBlocks(buf, at)).Ok? {
      FinalClassificationDataBlocksNeedValid(buf, at);
    }
  }

  /** The 22-iteration loop: each block is read into a fresh `temp` that
      is never stored, so the array keeps its 22 null slots. */
  method ReadFinalClassificationDataArray(buf: Buffer, at: nat) returns (r: Result<seq<Option<FinalClassificationData>>>, next: nat)
    ensures r.Ok? <==> Collect(FinalClassificationDataBlocks(buf, at)).Ok?
    ensures r.Ok? ==> r.value == seq(22, _ => None) && next == at + 45 * 22
  {
    next := at;
    var cursor := at;
    var classificationData := new Option<FinalClassificationData>[22](_ => None);
    for i := 0 to 22
      invariant cursor == at + 45 * i
      invariant classificationData[..] == seq(22, _ => None)
      invariant forall k :: 0 <= k < i ==> FinalClassificationDataBlocks(buf, at)[k].Ok?
    {
      var temp, after := ReadFinalClassificationData(buf, cursor);
      if temp.Fail? {
        assert FinalClassificationDataBlocks(buf, at)[i].Fail?;
        return Fail, at;
      }
      cursor := after;
    }
    assert forall k :: 0 <= k < 22 ==> FinalClassificationDataBlocks(buf, at)[k].Ok?;
    r, next := Ok(classificationData[..]), cursor;
  }

  /** The fields of a decoded `PacketFinalClassificationData` object. */
  datatype PacketFinalClassificationData = PacketFinalClassificationData(
    header: Header,
    numCars: uint8,
    classificationData: seq<Option<FinalClassificationData>>)

  /** The shortest datagram the decoder accepts. */
  const PacketFinalClassificationDataLength: nat := 1020

  /** The record the bytes denote: the record header, then every field
      read at its absolute offset; any read that throws makes it a failure. */
  function PacketFinalClassificationDataOf(buf: Buffer): Result<PacketFinalClassificationData>
  {
    var header :- RecordHeader(buf, true);
    var numCars :- ReadU8(buf, 29);
    var _ :- Collect(FinalClassificationDataBlocks(buf, 30));
    Ok(PacketFinalClassificationData(header, numCars, seq(22, _ => None)))
  }

  /** The `PacketFinalClassificationData` constructor: `base(data)` and the header overwrite, then
      a cursor from offset 29 through every field and fixed-count loop. */
  method DecodeFinalClassificationData(buf: Buffer) returns (r: Result<PacketFinalClassificationData>)
    ensures r == PacketFinalClassificationDataOf(buf)
  {
    var header :- RecordHeader(buf, true);
    var cursor: nat := 29;
    var numCars :- ReadU8(buf, cursor);
    cursor := cursor + 1;
    var classificationData;
    classificationData, cursor :- ReadFinalClassificationDataArray(buf, cursor);
    r := Ok(PacketFinalClassificationData(header, numCars, classificationData));
  }

  /** The decode succeeds exactly when the datagram has 1020 bytes. */
  lemma {:induction false} PacketFinalClassificationDataSucceeds(buf: Buffer)
    ensures PacketFinalClassificationDataOf(buf).Ok? <==> |buf| >= PacketFinalClassificationDataLength
  {
    RecordHeaderLayout(buf, true);
    FinalClassificationDataBlocksSucceed(buf, 30);
  }

  /** Where each field of a decoded record comes from: the record header,
      the scalars at their absolute offsets, and entry `i` of each array from
      block `i`, in wire order. */
  lemma PacketFinalClassificationDataLayout(buf: Buffer)
    requires PacketFinalClassificationDataOf(buf).Ok?
    ensures var p := PacketFinalClassificationDataOf(buf).value;
      p.header == RecordHeader(buf, true).value
      && p.numCars == buf[29]
      && p.classificationData == seq(22, _ => None)
  {
    PacketFinalClassificationDataSucceeds(buf);
  }

  /** `numCars` is stored but bounds no loop: overwriting its byte changes
      that field of the record and nothing else. */
  lemma {:induction false} NumCarsIgnored(buf: Buffer, v: uint8)
    requires 29 < |buf|
    ensures PacketFinalClassificationDataOf(buf[29 := v]).Ok? <==> PacketFinalClassificationDataOf(buf).Ok?
    ensures PacketFinalClassificationDataOf(buf).Ok? ==> PacketFinalClassificationDataOf(buf[29 := v]).value == PacketFinalClassificationDataOf(buf).value.(numCars := v)
  {
    var b := buf[29 := v];
    assert |b| == |buf| && forall k :: 0 <= k < |buf| && k != 29 ==> b[k] == buf[k];
    PacketFinalClassificationDataSucceeds(buf);
    PacketFinalClassificationDataSucceeds(b);
    if PacketFinalClassificationDataOf(buf).Ok? {
      assert b[..25] == buf[..25];
      RecordHeaderLocal(b, buf, true);
      forall i | 0 <= i < 22
        ensures FinalClassificationDataAt(b, 30 + 45 * i) == FinalClassificationDataAt(buf, 30 + 45 * i)
      {
        var at := 30 + 45 * i;
        assert b[at..at + 45] == buf[at..at + 45];
        FinalClassificationDataAtLocal(b, buf, at);
      }
      PacketFinalClassificationDataLayout(buf);
      PacketFinalClassificationDataLayout(b);
    }
  }
}
