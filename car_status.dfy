/** The car status packet: the status of all 22 cars. */
module CarStatusPacket {
  import opened Bytes
  import opened PacketHeader

  /** The status of one car: assists, fuel, engine limits, tyres, flags and energy store. */
  datatype CarStatusData = CarStatusData(
    tractionControl: uint8,
    antiLockBrakes: uint8,
    fuelMix: uint8,
    frontBrakeBias: uint8,
    pitLimiterStatus: uint8,
    fuelInTank: f32,
    fuelCapacity: f32,
    fuelRemainingLaps: f32,
    maxRPM: uint16,
    idleRPM: uint16,
    maxGears: uint8,
    drsAllowed: uint8,
    drsActivationDistance: uint16,
    actualTyreCompound: uint8,
    visualTyreCompound: uint8,
    tyresAgeLaps: uint8,
    vehicleFiaFlags: int8,
    engingPowerICE: f32,
    enginePowerMGUK: f32,
    ersStoreEnergy: f32,
    ersDeployMode: uint8,
    ersHarvestedThisLapMGUK: f32,
    ersHarvestedThisLapMGUH: f32,
    ersDeployedThisLap: f32,
    networkPaused: uint8)

  const CarStatusDataSize: nat := 55

  /** The `CarStatusData` laid out from offset `at`: each field at its fixed
      position inside the 55-byte block, or a failure when the block
      overruns the buffer or a value check throws. */
  function CarStatusDataAt(buf: Buffer, at: nat): Result<CarStatusData>
  {
    if at + 55 <= |buf| && buf[at + 28] <= 127 then
      Ok(CarStatusData(buf[at], buf[at + 1], buf[at + 2], buf[at + 3], buf[at + 4],
        F32At(buf, at + 5), F32At(buf, at + 9), F32At(buf, at + 13), U16At(buf, at + 17),
        U16At(buf, at + 19), buf[at + 21], buf[at + 22], U16At(buf, at + 23), buf[at + 25],
        buf[at + 26], buf[at + 27], S8At(buf, at + 28), F32At(buf, at + 29),
        F32At(buf, at + 33), F32At(buf, at + 37), buf[at + 41], F32At(buf, at + 42),
        F32At(buf, at + 46), F32At(buf, at + 50), buf[at + 54]))
    else Fail
  }

  /** The loop body that fills one `CarStatusData`: the cursor advances by each
      field's width, and the first read that throws ends the decode. */
  method ReadCarStatusData(buf: Buffer, at: nat) returns (r: Result<CarStatusData>, next: nat)
    ensures r == CarStatusDataAt(buf, at)
    ensures r.Ok? ==> next == at + CarStatusDataSize
  {
    next := at;
    var cursor := at;
    var tractionControl :- ReadU8(buf, cursor);
    cursor := cursor + 1;
    var antiLockBrakes :- ReadU8(buf, cursor);
    cursor := cursor + 1;
    var fuelMix :- ReadU8(buf, cursor);
    cursor := cursor + 1;
    var frontBrakeBias :- ReadU8(buf, cursor);
    cursor := cursor + 1;
    var pitLimiterStatus :- ReadU8(buf, cursor);
    cursor := cursor + 1;
    var fuelInTank :- ReadF32(buf, cursor);
    cursor := cursor + 4;
    var fuelCapacity :- ReadF32(buf, cursor);
    cursor := cursor + 4;
    var fuelRemainingLaps :- ReadF32(buf, cursor);
    cursor := cursor + 4;
    var maxRPM :- ReadU16(buf, cursor);
    cursor := cursor + 2;
    var idleRPM :- ReadU16(buf, cursor);
    cursor := cursor + 2;
    var maxGears :- ReadU8(buf, cursor);
    cursor := cursor + 1;
    var drsAllowed :- ReadU8(buf, cursor);
    cursor := cursor + 1;
    var drsActivationDistance :- ReadU16(buf, cursor);
    cursor := cursor + 2;
    var actualTyreCompound :- ReadU8(buf, cursor);
    cursor := cursor + 1;
    var visualTyreCompound :- ReadU8(buf, cursor);
    cursor := cursor + 1;
    var tyresAgeLaps :- ReadU8(buf, cursor);
    cursor := cursor + 1;
    var vehicleFiaFlags :- ReadS8(buf, cursor);
    cursor := cursor + 1;
    var engingPowerICE :- ReadF32(buf, cursor);
    cursor := cursor + 4;
    var enginePowerMGUK :- ReadF32(buf, cursor);
    cursor := cursor + 4;
    var ersStoreEnergy :- ReadF32(buf, cursor);
    cursor := cursor + 4;
    var ersDeployMode :- ReadU8(buf, cursor);
    cursor := cursor + 1;
    var ersHarvestedThisLapMGUK :- ReadF32(buf, cursor);
    cursor := cursor + 4;
    var ersHarvestedThisLapMGUH :- ReadF32(buf, cursor);
    cursor := cursor + 4;
    var ersDeployedThisLap :- ReadF32(buf, cursor);
    cursor := cursor + 4;
    var networkPaused :- ReadU8(buf, cursor);
    cursor := cursor + 1;
    r, next := Ok(CarStatusData(tractionControl, antiLockBrakes, fuelMix, frontBrakeBias,
      pitLimiterStatus, fuelInTank, fuelCapacity, fuelRemainingLaps, maxRPM, idleRPM, maxGears,
      drsAllowed, drsActivationDistance, actualTyreCompound, visualTyreCompound, tyresAgeLaps,
      vehicleFiaFlags, engingPowerICE, enginePowerMGUK, ersStoreEnergy, ersDeployMode,
      ersHarvestedThisLapMGUK, ersHarvestedThisLapMGUH, ersDeployedThisLap, networkPaused)), cursor;
  }

  /** A `CarStatusData` depends on its own 55 bytes only. */
  lemma CarStatusDataAtLocal(a: Buffer, b: Buffer, at: nat)
    requires at + CarStatusDataSize <= |a| && at + CarStatusDataSize <= |b|
    requires a[at..at + CarStatusDataSize] == b[at..at + CarStatusDataSize]
    ensures CarStatusDataAt(a, at) == CarStatusDataAt(b, at)
  {
    assert forall k :: at <= k < at + CarStatusDataSize ==> a[k] == a[at..at + CarStatusDataSize][k - at] == b[k];
  }

  /** The 22 `CarStatusData` blocks the loop reads, 55 bytes apart from `at`. */
  function CarStatusDataBlocks(buf: Buffer, at: nat): seq<Result<CarStatusData>>
  {
    seq(22, i requires 0 <= i < 22 => CarStatusDataAt(buf, at + 55 * i))
  }

  /** The 22 blocks from `at` fit in the buffer and each of their signed
      bytes is at most 127. */
  predicate CarStatusDataBlocksValid(buf: Buffer, at: nat)
  {
    at + 55 * 22 <= |buf|
    && forall i :: 0 <= i < 22 ==>
         buf[at + 55 * i + 28] <= 127
  }

  /** Blocks that all decode fit in the buffer and hold no signed byte above 127. */
  lemma CarStatusDataBlocksNeedValid(buf: Buffer, at: nat)
    requires Collect(CarStatusDataBlocks(buf, at)).Ok?
    ensures CarStatusDataBlocksValid(buf, at)
  {
    assert CarStatusDataBlocks(buf, at)[21].Ok?;
    forall i | 0 <= i < 22
      ensures at + 55 * i + 28 < |buf| && buf[at + 55 * i + 28] <= 127
    {
      assert CarStatusDataBlocks(buf, at)[i].Ok?;
    }
  }

  /** All 22 blocks decode exactly when they fit in the buffer and no signed
      byte in them is above 127. */
  lemma {:induction false} CarStatusDataBlocksSucceed(buf: Buffer, at: nat)
    ensures Collect(CarStatusDataBlocks(buf, at)).Ok? <==> CarStatusDataBlocksValid(buf, at)
  {
    if CarStatusDataBlocksValid(buf, at) {
      forall i | 0 <= i < 22 ensures CarStatusDataBlocks(buf, at)[i].Ok? {
        assert at + 55 * i + 55 <= |buf|;
        assert buf[at + 55 * i + 28] <= 127;
      }
    }
    if Collect(CarStatusDataBlocks(buf, at)).Ok? {
      CarStatusDataBlocksNeedValid(buf, at);
    }
  }

  /** The 22-iteration loop: it stores block `i` in slot `i`, and ends
      the decode at the first block that throws. */
  method ReadCarStatusDataArray(buf: Buffer, at: nat) returns (r: Result<seq<CarStatusData>>, next: nat)
    ensures r == Collect(CarStatusDataBlocks(buf, at))
    ensures r.Ok? ==> next == at + 55 * 22
  {
    next := at;
    var cursor := at;
    var carStatusData := new CarStatusData[22];
    for i := 0 to 22
      invariant cursor == at + 55 * i
      invariant forall k :: 0 <= k < i ==> CarStatusDataBlocks(buf, at)[k] == Ok(carStatusData[k])
    {
      var temp, after := ReadCarStatusData(buf, cursor);
      if temp.Fail? {
        assert CarStatusDataBlocks(buf, at)[i].Fail?;
        return Fail, at;
      }
      carStatusData[i] := temp.value;
      cursor := after;
    }
    CollectAllOk(CarStatusDataBlocks(buf, at), carStatusData[..]);
    r, next := Ok(carStatusData[..]), cursor;
  }

  /** The fields of a decoded `PacketCarStatusData` object. */
  datatype PacketCarStatusData = PacketCarStatusData(
    header: Header,
    carStatusData: seq<CarStatusData>)

  /** The shortest datagram the decoder accepts. */
  const PacketCarStatusDataLength: nat := 1239

  /** The record the bytes denote: the record header, then every field
      read at its absolute offset; any read that throws makes it a failure. */
  function PacketCarStatusDataOf(buf: Buffer): Result<PacketCarStatusData>
  {
    var header :- RecordHeader(buf, true);
    var carStatusData :- Collect(CarStatusDataBlocks(buf, 29));
    Ok(PacketCarStatusData(header, carStatusData))
  }

  /** Every byte that goes through `Convert.ToSByte` is at most 127. */
  predicate PacketCarStatusDataSignedBytesValid(buf: Buffer)
    requires |buf| >= PacketCarStatusDataLength
  {
    CarStatusDataBlocksValid(buf, 29)
  }

  /** The `PacketCarStatusData` constructor: `base(data)` and the header overwrite, then
      a cursor from offset 29 through every field and fixed-count loop. */
  method DecodeCarStatusData(buf: Buffer) returns (r: Result<PacketCarStatusData>)
    ensures r == PacketCarStatusDataOf(buf)
  {
    var header :- RecordHeader(buf, true);
    var cursor: nat := 29;
    var carStatusData;
    carStatusData, cursor :- ReadCarStatusDataArray(buf, cursor);
    r := Ok(PacketCarStatusData(header, carStatusData));
  }

  /** The decode succeeds exactly when the datagram has 1239 bytes and no
      signed field is above 127. */
  lemma {:induction false} PacketCarStatusDataSucceeds(buf: Buffer)
    ensures PacketCarStatusDataOf(buf).Ok? <==> |buf| >= PacketCarStatusDataLength && PacketCarStatusDataSignedBytesValid(buf)
  {
    RecordHeaderLayout(buf, true);
    CarStatusDataBlocksSucceed(buf, 29);
  }

  /** Where each field of a decoded record comes from: the record header,
      the scalars at their absolute offsets, and entry `i` of each array from
      block `i`, in wire order. */
  lemma PacketCarStatusDataLayout(buf: Buffer)
    requires PacketCarStatusDataOf(buf).Ok?
    ensures var p := PacketCarStatusDataOf(buf).value;
      p.header == RecordHeader(buf, true).value
      && |p.carStatusData| == 22
      && (forall i :: 0 <= i < 22 ==> CarStatusDataAt(buf, 29 + 55 * i) == Ok(p.carStatusData[i]))
  {
    PacketCarStatusDataSucceeds(buf);
  }

  /** A car whose FIA flag is -1 (invalid or unknown) sends the byte 255,
      which `Convert.ToSByte` rejects, so the whole datagram fails. */
  lemma {:induction false} UnknownFiaFlagRejected(buf: Buffer, i: nat)
    requires i < MaxCarsOnTrack && 29 + 55 * i + 28 < |buf|
    requires buf[29 + 55 * i + 28] > 127
    ensures PacketCarStatusDataOf(buf).Fail?
  {
    PacketCarStatusDataSucceeds(buf);
    assert buf[29 + 55 * i + 28] > 127;
  }
}
