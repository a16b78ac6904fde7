/** The car telemetry packet: telemetry for all 22 cars and the player's multi-function display state. */
module CarTelemetryPacket {
  import opened Bytes
  import opened PacketHeader

  /** The telemetry of one car; the wheel arrays are in the order rear left, rear right, front left, front right. */
  datatype CarTelemetryData = CarTelemetryData(
    speed: uint16,
    throttle: f32,
    steer: f32,
    brake: f32,
    clutch: uint8,
    gear: int8,
    engineRPM: uint16,
    drs: uint8,
    revLightsPercent: uint8,
    revLightsBitValue: uint16,
    brakesTemperature: seq<uint16>,
    tyresSurfaceTemperature: seq<uint8>,
    tyresInnerTemperature: seq<uint8>,
    engineTemperature: uint16,
    tyresPressure: seq<f32>,
    surfaceType: seq<uint8>)

  const CarTelemetryDataSize: nat := 60

  /** The `CarTelemetryData` laid out from offset `at`: each field at its fixed
      position inside the 60-byte block, or a failure when the block
      overruns the buffer or a value check throws. */
  function CarTelemetryDataAt(buf: Buffer, at: nat): Result<CarTelemetryData>
  {
    if at + 60 <= |buf| && buf[at + 15] <= 127 then
      Ok(CarTelemetryData(U16At(buf, at), F32At(buf, at + 2), F32At(buf, at + 6),
        F32At(buf, at + 10), buf[at + 14], S8At(buf, at + 15), U16At(buf, at + 16),
        buf[at + 18], buf[at + 19], U16At(buf, at + 20), U16sAt(buf, at + 22, 4),
        buf[at + 30..at + 34], buf[at + 34..at + 38], U16At(buf, at + 38),
        F32sAt(buf, at + 40, 4), buf[at + 56..at + 60]))
    else Fail
  }

  /** The loop body that fills one `CarTelemetryData`: the cursor advances by each
      field's width, and the first read that throws ends the decode. */
  method ReadCarTelemetryData(buf: Buffer, at: nat) returns (r: Result<CarTelemetryData>, next: nat)
    ensures r == CarTelemetryDataAt(buf, at)
    ensures r.Ok? ==> next == at + CarTelemetryDataSize
  {
    next := at;
    var cursor := at;
    var speed :- ReadU16(buf, cursor);
    cursor := cursor + 2;
    var throttle :- ReadF32(buf, cursor);
    cursor := cursor + 4;
    var steer :- ReadF32(buf, cursor);
    cursor := cursor + 4;
    var brake :- ReadF32(buf, cursor);
    cursor := cursor + 4;
    var clutch :- ReadU8(buf, cursor);
    cursor := cursor + 1;
    var gear :- ReadS8(buf, cursor);
    cursor := cursor + 1;
    var engineRPM :- ReadU16(buf, cursor);
    cursor := cursor + 2;
    var drs :- ReadU8(buf, cursor);
    cursor := cursor + 1;
    var revLightsPercent :- ReadU8(buf, cursor);
    cursor := cursor + 1;
    var revLightsBitValue :- ReadU16(buf, cursor);
    cursor := cursor + 2;
    var brakesTemperature;
    brakesTemperature, cursor :- ReadU16s(buf, cursor, 4);
    var tyresSurfaceTemperature;
    tyresSurfaceTemperature, cursor :- ReadBytes(buf, cursor, 4);
    var tyresInnerTemperature;
    tyresInnerTemperature, cursor :- ReadBytes(buf, cursor, 4);
    var engineTemperature :- ReadU16(buf, cursor);
    cursor := cursor + 2;
    var tyresPressure;
    tyresPressure, cursor :- ReadF32s(buf, cursor, 4);
    var surfaceType;
    surfaceType, cursor :- ReadBytes(buf, cursor, 4);
    r, next := Ok(CarTelemetryData(speed, throttle, steer, brake, clutch, gear, engineRPM, drs,
      revLightsPercent, revLightsBitValue, brakesTemperature, tyresSurfaceTemperature,
      tyresInnerTemperature, engineTemperature, tyresPressure, surfaceType)), cursor;
  }

  /** A `CarTelemetryData` depends on its own 60 bytes only. */
  lemma CarTelemetryDataAtLocal(a: Buffer, b: Buffer, at: nat)
    requires at + CarTelemetryDataSize <= |a| && at + CarTelemetryDataSize <= |b|
    requires a[at..at + CarTelemetryDataSize] == b[at..at + CarTelemetryDataSize]
    ensures CarTelemetryDataAt(a, at) == CarTelemetryDataAt(b, at)
  {
    assert forall k :: at <= k < at + CarTelemetryDataSize ==> a[k] == a[at..at + CarTelemetryDataSize][k - at] == b[k];
    assert U16sAt(a, at + 22, 4) == U16sAt(b, at + 22, 4);
    assert a[at + 30..at + 34] == b[at + 30..at + 34];
    assert a[at + 34..at + 38] == b[at + 34..at + 38];
    assert F32sAt(a, at + 40, 4) == F32sAt(b, at + 40, 4);
    assert a[at + 56..at + 60] == b[at + 56..at + 60];
  }

  /** The 22 `CarTelemetryData` blocks the loop reads, 60 bytes apart from `at`. */
  function CarTelemetryDataBlocks(buf: Buffer, at: nat): seq<Result<CarTelemetryData>>
  {
    seq(22, i requires 0 <= i < 22 => CarTelemetryDataAt(buf, at + 60 * i))
  }

  /** The 22 blocks from `at` fit in the buffer and each of their signed
      bytes is at most 127. */
  predicate CarTelemetryDataBlocksValid(buf: Buffer, at: nat)
  {
    at + 60 * 22 <= |buf|
    && forall i :: 0 <= i < 22 ==>
         buf[at + 60 * i + 15] <= 127
  }

  /** Blocks that all decode fit in the buffer and hold no signed byte above 127. */
  lemma CarTelemetryDataBlocksNeedValid(buf: Buffer, at: nat)
    requires Collect(CarTelemetryDataBlocks(buf, at)).Ok?
    ensures CarTelemetryDataBlocksValid(buf, at)
  {
    assert CarTelemetryDataBlocks(buf, at)[21].Ok?;
    forall i | 0 <= i < 22
      ensures at + 60 * i + 15 < |buf| && buf[at + 60 * i + 15] <= 127
    {
      assert CarTelemetryDataBlocks(buf, at)[i].Ok?;
    }
  }

  /** All 22 blocks decode exactly when they fit in the buffer and no signed
      byte in them is above 127. */
  lemma {:induction false} CarTelemetryDataBlocksSucceed(buf: Buffer, at: nat)
    ensures Collect(CarTelemetryDataBlocks(buf, at)).Ok? <==> CarTelemetryDataBlocksValid(buf, at)
  {
    if CarTelemetryDataBlocksValid(buf, at) {
      forall i | 0 <= i < 22 ensures CarTelemetryDataBlocks(buf, at)[i].Ok? {
        assert at + 60 * i + 60 <= |buf|;
        assert buf[at + 60 * i + 15] <= 127;
      }
    }
    if Collect(CarTelemetryDataBlocks(buf, at)).Ok? {
      CarTelemetryDataBlocksNeedValid(buf, at);
    }
  }

  /** The 22-iteration loop: it stores block `i` in slot `i`, and ends
      the decode at the first block that throws. */
  method ReadCarTelemetryDataArray(buf: Buffer, at: nat) returns (r: Result<seq<CarTelemetryData>>, next: nat)
    ensures r == Collect(CarTelemetryDataBlocks(buf, at))
    ensures r.Ok? ==> next == at + 60 * 22
  {
    next := at;
    var cursor := at;
    var carTelemetryData := new CarTelemetryData[22];
    for i := 0 to 22
      invariant cursor == at + 60 * i
      invariant forall k :: 0 <= k < i ==> CarTelemetryDataBlocks(buf, at)[k] == Ok(carTelemetryData[k])
    {
      var temp, after := ReadCarTelemetryData(buf, cursor);
      if temp.Fail? {
        assert CarTelemetryDataBlocks(buf, at)[i].Fail?;
        return Fail, at;
      }
      carTelemetryData[i] := temp.value;
      cursor := after;
    }
    CollectAllOk(CarTelemetryDataBlocks(buf, at), carTelemetryData[..]);
    r, next := Ok(carTelemetryData[..]), cursor;
  }

  /** The fields of a decoded `PacketCarTelemetryData` object. */
  datatype PacketCarTelemetryData = PacketCarTelemetryData(
    header: Header,
    carTelemetryData: seq<CarTelemetryData>,
    mfdPanelIndex: uint8,
    mfdPanelIndexSecondaryPlayer: uint8,
    suggestedGear: int8)

  /** The shortest datagram the decoder accepts. */
  const PacketCarTelemetryDataLength: nat := 1352

  /** The record the bytes denote: the record header, then every field
      read at its absolute offset; any read that throws makes it a failure. */
  function PacketCarTelemetryDataOf(buf: Buffer): Result<PacketCarTelemetryData>
  {
    var header :- RecordHeader(buf, false);
    var carTelemetryData :- Collect(CarTelemetryDataBlocks(buf, 29));
    var mfdPanelIndex :- ReadU8(buf, 1349);
    var mfdPanelIndexSecondaryPlayer :- ReadU8(buf, 1350);
    var suggestedGear :- ReadS8(buf, 1351);
    Ok(PacketCarTelemetryData(header, carTelemetryData, mfdPanelIndex,
      mfdPanelIndexSecondaryPlayer, suggestedGear))
  }

  /** Every byte that goes through `Convert.ToSByte` is at most 127. */
  predicate PacketCarTelemetryDataSignedBytesValid(buf: Buffer)
    requires |buf| >= PacketCarTelemetryDataLength
  {
    CarTelemetryDataBlocksValid(buf, 29)
    && buf[1351] <= 127
  }

  /** The `PacketCarTelemetryData` constructor: `base(data)` and the header overwrite, then
      a cursor from offset 29 through every field and fixed-count loop. */
  method DecodeCarTelemetryData(buf: Buffer) returns (r: Result<PacketCarTelemetryData>)
    ensures r == PacketCarTelemetryDataOf(buf)
  {
    var header :- RecordHeader(buf, false);
    var cursor: nat := 29;
    var carTelemetryData;
    carTelemetryData, cursor :- ReadCarTelemetryDataArray(buf, cursor);
    var mfdPanelIndex :- ReadU8(buf, cursor);
    cursor := cursor + 1;
    var mfdPanelIndexSecondaryPlayer :- ReadU8(buf, cursor);
    cursor := cursor + 1;
    var suggestedGear :- ReadS8(buf, cursor);
    cursor := cursor + 1;
    r := Ok(PacketCarTelemetryData(header, carTelemetryData, mfdPanelIndex,
      mfdPanelIndexSecondaryPlayer, suggestedGear));
  }

  /** The decode succeeds exactly when the datagram has 1352 bytes and no
      signed field is above 127. */
  lemma {:induction false} PacketCarTelemetryDataSucceeds(buf: Buffer)
    ensures PacketCarTelemetryDataOf(buf).Ok? <==> |buf| >= PacketCarTelemetryDataLength && PacketCarTelemetryDataSignedBytesValid(buf)
  {
    RecordHeaderLayout(buf, false);
    CarTelemetryDataBlocksSucceed(buf, 29);
  }

  /** Where each field of a decoded record comes from: the record header,
      the scalars at their absolute offsets, and entry `i` of each array from
      block `i`, in wire order. */
  lemma PacketCarTelemetryDataLayout(buf: Buffer)
    requires PacketCarTelemetryDataOf(buf).Ok?
    ensures var p := PacketCarTelemetryDataOf(buf).value;
      p.header == RecordHeader(buf, false).value
      && |p.carTelemetryData| == 22
      && (forall i :: 0 <= i < 22 ==> CarTelemetryDataAt(buf, 29 + 60 * i) == Ok(p.carTelemetryData[i]))
      && p.mfdPanelIndex == buf[1349]
      && p.mfdPanelIndexSecondaryPlayer == buf[1350]
      && p.suggestedGear == S8At(buf, 1351)
  {
    PacketCarTelemetryDataSucceeds(buf);
  }

  /** A car in reverse reports gear -1, which arrives as the byte 255;
      `Convert.ToSByte` throws on any byte above 127, so one such car makes
      the whole datagram fail to decode. */
  lemma {:induction false} NegativeGearRejected(buf: Buffer, i: nat)
    requires i < MaxCarsOnTrack && 29 + 60 * i + 15 < |buf|
    requires buf[29 + 60 * i + 15] > 127
    ensures PacketCarTelemetryDataOf(buf).Fail?
  {
    PacketCarTelemetryDataSucceeds(buf);
    assert buf[29 + 60 * i + 15] > 127;
  }

  /** The same holds for the suggested gear at the end of the datagram. */
  lemma {:induction false} NegativeSuggestedGearRejected(buf: Buffer)
    requires 1351 < |buf| && buf[1351] > 127
    ensures PacketCarTelemetryDataOf(buf).Fail?
  {
    PacketCarTelemetryDataSucceeds(buf);
  }
}
