/** The motion packet: the motion of all 22 cars. */
module MotionPacket {
  import opened Bytes
  import opened PacketHeader

  /** The motion of one car: world position and velocity, the forward and right direction vectors as signed 16-bit values, g-forces and orientation. */
  datatype CarMotionData = CarMotionData(
    worldPositionX: f32,
    worldPositionY: f32,
    worldPositionZ: f32,
    worldVelocityX: f32,
    worldVelocityY: f32,
    worldVelocityZ: f32,
    worldForwardDirX: int16,
    worldForwardDirY: int16,
    worldForwardDirZ: int16,
    worldRightDirX: int16,
    worldRightDirY: int16,
    worldRightDirZ: int16,
    gForceLateral: f32,
    gForceLongitudinal: f32,
    gForceVertical: f32,
    yaw: f32,
    pitch: f32,
    roll: f32)

  const CarMotionDataSize: nat := 60

  /** The `CarMotionData` laid out from offset `at`: each field at its fixed
      position inside the 60-byte block, or a failure when the block
      overruns the buffer. */
  function CarMotionDataAt(buf: Buffer, at: nat): Result<CarMotionData>
  {
    if at + 60 <= |buf| then
      Ok(CarMotionData(F32At(buf, at), F32At(buf, at + 4), F32At(buf, at + 8),
        F32At(buf, at + 12), F32At(buf, at + 16), F32At(buf, at + 20), I16At(buf, at + 24),
        I16At(buf, at + 26), I16At(buf, at + 28), I16At(buf, at + 30), I16At(buf, at + 32),
        I16At(buf, at + 34), F32At(buf, at + 36), F32At(buf, at + 40), F32At(buf, at + 44),
        F32At(buf, at + 48), F32At(buf, at + 52), F32At(buf, at + 56)))
    else Fail
  }

  /** The loop body that fills one `CarMotionData`: the cursor advances by each
      field's width, and the first read that throws ends the decode. */
  method ReadCarMotionData(buf: Buffer, at: nat) returns (r: Result<CarMotionData>, next: nat)
    ensures r == CarMotionDataAt(buf, at)
    ensures r.Ok? ==> next == at + CarMotionDataSize
  {
    next := at;
    var cursor := at;
    var worldPositionX :- ReadF32(buf, cursor);
    cursor := cursor + 4;
    var worldPositionY :- ReadF32(buf, cursor);
    cursor := cursor + 4;
    var worldPositionZ :- ReadF32(buf, cursor);
    cursor := cursor + 4;
    var worldVelocityX :- ReadF32(buf, cursor);
    cursor := cursor + 4;
    var worldVelocityY :- ReadF32(buf, cursor);
    cursor := cursor + 4;
    var worldVelocityZ :- ReadF32(buf, cursor);
    cursor := cursor + 4;
    var worldForwardDirX :- ReadI16(buf, cursor);
    cursor := cursor + 2;
    var worldForwardDirY :- ReadI16(buf, cursor);
    cursor := cursor + 2;
    var worldForwardDirZ :- ReadI16(buf, cursor);
    cursor := cursor + 2;
    var worldRightDirX :- ReadI16(buf, cursor);
    cursor := cursor + 2;
    var worldRightDirY :- ReadI16(buf, cursor);
    cursor := cursor + 2;
    var worldRightDirZ :- ReadI16(buf, cursor);
    cursor := cursor + 2;
    var gForceLateral :- ReadF32(buf, cursor);
    cursor := cursor + 4;
    var gForceLongitudinal :- ReadF32(buf, cursor);
    cursor := cursor + 4;
    var gForceVertical :- ReadF32(buf, cursor);
    cursor := cursor + 4;
    var yaw :- ReadF32(buf, cursor);
    cursor := cursor + 4;
    var pitch :- ReadF32(buf, cursor);
    cursor := cursor + 4;
    var roll :- ReadF32(buf, cursor);
    cursor := cursor + 4;
    r, next := Ok(CarMotionData(worldPositionX, worldPositionY, worldPositionZ, worldVelocityX,
      worldVelocityY, worldVelocityZ, worldForwardDirX, worldForwardDirY, worldForwardDirZ,
      worldRightDirX, worldRightDirY, worldRightDirZ, gForceLateral, gForceLongitudinal,
      gForceVertical, yaw, pitch, roll)), cursor;
  }

  /** A `CarMotionData` depends on its own 60 bytes only. */
  lemma CarMotionDataAtLocal(a: Buffer, b: Buffer, at: nat)
    requires at + CarMotionDataSize <= |a| && at + CarMotionDataSize <= |b|
    requires a[at..at + CarMotionDataSize] == b[at..at + CarMotionDataSize]
    ensures CarMotionDataAt(a, at) == CarMotionDataAt(b, at)
  {
    assert forall k :: at <= k < at + CarMotionDataSize ==> a[k] == a[at..at + CarMotionDataSize][k - at] == b[k];
  }

  /** The 22 `CarMotionData` blocks the loop reads, 60 bytes apart from `at`. */
  function CarMotionDataBlocks(buf: Buffer, at: nat): seq<Result<CarMotionData>>
  {
    seq(22, i requires 0 <= i < 22 => CarMotionDataAt(buf, at + 60 * i))
  }

  /** Blocks that all decode fit in the buffer. */
  lemma CarMotionDataBlocksNeedValid(buf: Buffer, at: nat)
    requires Collect(CarMotionDataBlocks(buf, at)).Ok?
    ensures at + 60 * 22 <= |buf|
  {
    assert CarMotionDataBlocks(buf, at)[21].Ok?;
  }

  /** All 22 blocks decode exactly when they fit in the buffer. */
  lemma {:induction false} CarMotionDataBlocksSucceed(buf: Buffer, at: nat)
    ensures Collect(CarMotionDataBlocks(buf, at)).Ok? <==> at + 60 * 22 <= |buf|
  {
    if at + 60 * 22 <= |buf| {
      forall i | 0 <= i < 22 ensures CarMotionDataBlocks(buf, at)[i].Ok? {
        assert at + 60 * i + 60 <= |buf|;
      }
    }
    if Collect(CarMotionDataBlocks(buf, at)).Ok? {
      CarMotionDataBlocksNeedValid(buf, at);
    }
  }

  /** The 22-iteration loop: it stores block `i` in slot `i`, and ends
      the decode at the first block that throws. */
  method ReadCarMotionDataArray(buf: Buffer, at: nat) returns (r: Result<seq<CarMotionData>>, next: nat)
    ensures r == Collect(CarMotionDataBlocks(buf, at))
    ensures r.Ok? ==> next == at + 60 * 22
  {
    next := at;
    var cursor := at;
    var carMotionData := new CarMotionData[22];
    for i := 0 to 22
      invariant cursor == at + 60 * i
      invariant forall k :: 0 <= k < i ==> CarMotionDataBlocks(buf, at)[k] == Ok(carMotionData[k])
    {
      var temp, after := ReadCarMotionData(buf, cursor);
      if temp.Fail? {
        assert CarMotionDataBlocks(buf, at)[i].Fail?;
        return Fail, at;
      }
      carMotionData[i] := temp.value;
      cursor := after;
    }
    CollectAllOk(CarMotionDataBlocks(buf, at), carMotionData[..]);
    r, next := Ok(carMotionData[..]), cursor;
  }

  /** The fields of a decoded `PacketMotionData` object. */
  datatype PacketMotionData = PacketMotionData(
    header: Header,
    carMotionData: seq<CarMotionData>)

  /** The shortest datagram the decoder accepts. */
  const PacketMotionDataLength: nat := 1349

  /** The record the bytes denote: the record header, then every field
      read at its absolute offset; any read that throws makes it a failure. */
  function PacketMotionDataOf(buf: Buffer): Result<PacketMotionData>
  {
    var header :- RecordHeader(buf, true);
    var carMotionData :- Collect(CarMotionDataBlocks(buf, 29));
    Ok(PacketMotionData(header, carMotionData))
  }

  /** The `PacketMotionData` constructor: `base(data)` and the header overwrite, then
      a cursor from offset 29 through every field and fixed-count loop. */
  method DecodeMotionData(buf: Buffer) returns (r: Result<PacketMotionData>)
    ensures r == PacketMotionDataOf(buf)
  {
    var header :- RecordHeader(buf, true);
    var cursor: nat := 29;
    var carMotionData;
    carMotionData, cursor :- ReadCarMotionDataArray(buf, cursor);
    r := Ok(PacketMotionData(header, carMotionData));
  }

  /** The decode succeeds exactly when the datagram has 1349 bytes. */
  lemma {:induction false} PacketMotionDataSucceeds(buf: Buffer)
    ensures PacketMotionDataOf(buf).Ok? <==> |buf| >= PacketMotionDataLength
  {
    RecordHeaderLayout(buf, true);
    CarMotionDataBlocksSucceed(buf, 29);
  }

  /** Where each field of a decoded record comes from: the record header,
      the scalars at their absolute offsets, and entry `i` of each array from
      block `i`, in wire order. */
  lemma PacketMotionDataLayout(buf: Buffer)
    requires PacketMotionDataOf(buf).Ok?
    ensures var p := PacketMotionDataOf(buf).value;
      p.header == RecordHeader(buf, true).value
      && |p.carMotionData| == 22
      && (forall i :: 0 <= i < 22 ==> CarMotionDataAt(buf, 29 + 60 * i) == Ok(p.carMotionData[i]))
  {
    PacketMotionDataSucceeds(buf);
  }
}
