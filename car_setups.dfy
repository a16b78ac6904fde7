/** The car setups packet: the setup of all 22 cars. */
module CarSetupsPacket {
  import opened Bytes
  import opened PacketHeader

  /** The setup of one car. */
  datatype CarSetupData = CarSetupData(
    frontWing: uint8,
    rearWing: uint8,
    onThrottle: uint8,
    offThrottle: uint8,
    frontCamber: f32,
    rearCamber: f32,
    frontToe: f32,
    rearToe: f32,
    frontSuspension: uint8,
    rearSuspension: uint8,
    frontAntiRollBar: uint8,
    rearAntiRollBar: uint8,
    frontSuspensionHeight: uint8,
    rearSuspensionHeight: uint8,
    brakePressure: uint8,
    brakeBias: uint8,
    rearLeftTyrePressure: f32,
    rearRightTyrePressure: f32,
    frontLeftTyrePressure: f32,
    frontRightTyrePressure: f32,
    ballast: uint8,
    fuelLoad: f32)

  const CarSetupDataSize: nat := 49

  /** The `CarSetupData` laid out from offset `at`: each field at its fixed
      position inside the 49-byte block, or a failure when the block
      overruns the buffer. */
  function CarSetupDataAt(buf: Buffer, at: nat): Result<CarSetupData>
  {
    if at + 49 <= |buf| then
      Ok(CarSetupData(buf[at], buf[at + 1], buf[at + 2], buf[at + 3], F32At(buf, at + 4),
        F32At(buf, at + 8), F32At(buf, at + 12), F32At(buf, at + 16), buf[at + 20],
        buf[at + 21], buf[at + 22], buf[at + 23], buf[at + 24], buf[at + 25], buf[at + 26],
        buf[at + 27], F32At(buf, at + 28), F32At(buf, at + 32), F32At(buf, at + 36),
        F32At(buf, at + 40), buf[at + 44], F32At(buf, at + 45)))
    else Fail
  }

  /** The loop body that fills one `CarSetupData`: the cursor advances by each
      field's width, and the first read that throws ends the decode. */
  method ReadCarSetupData(buf: Buffer, at: nat) returns (r: Result<CarSetupData>, next: nat)
    ensures r == CarSetupDataAt(buf, at)
    ensures r.Ok? ==> next == at + CarSetupDataSize
  {
    next := at;
    var cursor := at;
    var frontWing :- ReadU8(buf, cursor);
    cursor := cursor + 1;
    var rearWing :- ReadU8(buf, cursor);
    cursor := cursor + 1;
    var onThrottle :- ReadU8(buf, cursor);
    cursor := cursor + 1;
    var offThrottle :- ReadU8(buf, cursor);
    cursor := cursor + 1;
    var frontCamber :- ReadF32(buf, cursor);
    cursor := cursor + 4;
    var rearCamber :- ReadF32(buf, cursor);
    cursor := cursor + 4;
    var frontToe :- ReadF32(buf, cursor);
    cursor := cursor + 4;
    var rearToe :- ReadF32(buf, cursor);
    cursor := cursor + 4;
    var frontSuspension :- ReadU8(buf, cursor);
    cursor := cursor + 1;
    var rearSuspension :- ReadU8(buf, cursor);
    cursor := cursor + 1;
    var frontAntiRollBar :- ReadU8(buf, cursor);
    cursor := cursor + 1;
    var rearAntiRollBar :- ReadU8(buf, cursor);
    cursor := cursor + 1;
    var frontSuspensionHeight :- ReadU8(buf, cursor);
    cursor := cursor + 1;
    var rearSuspensionHeight :- ReadU8(buf, cursor);
    cursor := cursor + 1;
    var brakePressure :- ReadU8(buf, cursor);
    cursor := cursor + 1;
    var brakeBias :- ReadU8(buf, cursor);
    cursor := cursor + 1;
    var rearLeftTyrePressure :- ReadF32(buf, cursor);
    cursor := cursor + 4;
    var rearRightTyrePressure :- ReadF32(buf, cursor);
    cursor := cursor + 4;
    var frontLeftTyrePressure :- ReadF32(buf, cursor);
    cursor := cursor + 4;
    var frontRightTyrePressure :- ReadF32(buf, cursor);
    cursor := cursor + 4;
    var ballast :- ReadU8(buf, cursor);
    cursor := cursor + 1;
    var fuelLoad :- ReadF32(buf, cursor);
    cursor := cursor + 4;
    r, next := Ok(CarSetupData(frontWing, rearWing, onThrottle, offThrottle, frontCamber,
      rearCamber, frontToe, rearToe, frontSuspension, rearSuspension, frontAntiRollBar,
      rearAntiRollBar, frontSuspensionHeight, rearSuspensionHeight, brakePressure, brakeBias,
      rearLeftTyrePressure, rearRightTyrePressure, frontLeftTyrePressure,
      frontRightTyrePressure, ballast, fuelLoad)), cursor;
  }

  /** A `CarSetupData` depends on its own 49 bytes only. */
  lemma CarSetupDataAtLocal(a: Buffer, b: Buffer, at: nat)
    requires at + CarSetupDataSize <= |a| && at + CarSetupDataSize <= |b|
    requires a[at..at + CarSetupDataSize] == b[at..at + CarSetupDataSize]
    ensures CarSetupDataAt(a, at) == CarSetupDataAt(b, at)
  {
    assert forall k :: at <= k < at + CarSetupDataSize ==> a[k] == a[at..at + CarSetupDataSize][k - at] == b[k];
  }

  /** The 22 `CarSetupData` blocks the loop reads, 49 bytes apart from `at`. */
  function CarSetupDataBlocks(buf: Buffer, at: nat): seq<Result<CarSetupData>>
  {
    seq(22, i requires 0 <= i < 22 => CarSetupDataAt(buf, at + 49 * i))
  }

  /** Blocks that all decode fit in the buffer. */
  lemma CarSetupDataBlocksNeedValid(buf: Buffer, at: nat)
    requires Collect(CarSetupDataBlocks(buf, at)).Ok?
    ensures at + 49 * 22 <= |buf|
  {
    assert CarSetupDataBlocks(buf, at)[21].Ok?;
  }

  /** All 22 blocks decode exactly when they fit in the buffer. */
  lemma {:induction false} CarSetupDataBlocksSucceed(buf: Buffer, at: nat)
    ensures Collect(CarSetupDataBlocks(buf, at)).Ok? <==> at + 49 * 22 <= |buf|
  {
    if at + 49 * 22 <= |buf| {
      forall i | 0 <= i < 22 ensures CarSetupDataBlocks(buf, at)[i].Ok? {
        assert at + 49 * i + 49 <= |buf|;
      }
    }
    if Collect(CarSetupDataBlocks(buf, at)).Ok? {
      CarSetupDataBlocksNeedValid(buf, at);
    }
  }

  /** The 22-iteration loop: it stores block `i` in slot `i`, and ends
      the decode at the first block that throws. */
  method ReadCarSetupDataArray(buf: Buffer, at: nat) returns (r: Result<seq<CarSetupData>>, next: nat)
    ensures r == Collect(CarSetupDataBlocks(buf, at))
    ensures r.Ok? ==> next == at + 49 * 22
  {
    next := at;
    var cursor := at;
    var carSetups := new CarSetupData[22];
    for i := 0 to 22
      invariant cursor == at + 49 * i
      invariant forall k :: 0 <= k < i ==> CarSetupDataBlocks(buf, at)[k] == Ok(carSetups[k])
    {
      var temp, after := ReadCarSetupData(buf, cursor);
      if temp.Fail? {
        assert CarSetupDataBlocks(buf, at)[i].Fail?;
        return Fail, at;
      }
      carSetups[i] := temp.value;
      cursor := after;
    }
    CollectAllOk(CarSetupDataBlocks(buf, at), carSetups[..]);
    r, next := Ok(carSetups[..]), cursor;
  }

  /** The fields of a decoded `PacketCarSetupData` object. */
  datatype PacketCarSetupData = PacketCarSetupData(
    header: Header,
    carSetups: seq<CarSetupData>)

  /** The shortest datagram the decoder accepts. */
  const PacketCarSetupDataLength: nat := 1107

  /** The record the bytes denote: the record header, then every field
      read at its absolute offset; any read that throws makes it a failure. */
  function PacketCarSetupDataOf(buf: Buffer): Result<PacketCarSetupData>
  {
    var header :- RecordHeader(buf, true);
    var carSetups :- Collect(CarSetupDataBlocks(buf, 29));
    Ok(PacketCarSetupData(header, carSetups))
  }

  /** The `PacketCarSetupData` constructor: `base(data)` and the header overwrite, then
      a cursor from offset 29 through every field and fixed-count loop. */
  method DecodeCarSetupData(buf: Buffer) returns (r: Result<PacketCarSetupData>)
    ensures r == PacketCarSetupDataOf(buf)
  {
    var header :- RecordHeader(buf, true);
    var cursor: nat := 29;
    var carSetups;
    carSetups, cursor :- ReadCarSetupDataArray(buf, cursor);
    r := Ok(PacketCarSetupData(header, carSetups));
  }

  /** The decode succeeds exactly when the datagram has 1107 bytes. */
  lemma {:induction false} PacketCarSetupDataSucceeds(buf: Buffer)
    ensures PacketCarSetupDataOf(buf).Ok? <==> |buf| >= PacketCarSetupDataLength
  {
    RecordHeaderLayout(buf, true);
    CarSetupDataBlocksSucceed(buf, 29);
  }

  /** Where each field of a decoded record comes from: the record header,
      the scalars at their absolute offsets, and entry `i` of each array from
      block `i`, in wire order. */
  lemma PacketCarSetupDataLayout(buf: Buffer)
    requires PacketCarSetupDataOf(buf).Ok?
    ensures var p := PacketCarSetupDataOf(buf).value;
      p.header == RecordHeader(buf, true).value
      && |p.carSetups| == 22
      && (forall i :: 0 <= i < 22 ==> CarSetupDataAt(buf, 29 + 49 * i) == Ok(p.carSetups[i]))
  {
    PacketCarSetupDataSucceeds(buf);
  }
}
