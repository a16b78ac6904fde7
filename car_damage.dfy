/** The car damage packet: the damage state of all 22 cars. */
module CarDamagePacket {
  import opened Bytes
  import opened PacketHeader

  /** The damage state of one car; the wheel arrays are in wheel order. */
  datatype CarDamageData = CarDamageData(
    tyresWear: seq<f32>,
    tyresDamage: seq<uint8>,
    brakesDamage: seq<uint8>,
    frontLeftWingDamage: uint8,
    frontRightWingDamage: uint8,
    rearWingDamage: uint8,
    floorDamage: uint8,
    diffuserDamage: uint8,
    sidepodDamage: uint8,
    drsFault: uint8,
    ersFault: uint8,
    gearBoxDamage: uint8,
    engineDamage: uint8,
    engineMGUHWear: uint8,
    engineESWear: uint8,
    engineCEWear: uint8,
    engineICEWear: uint8,
    engineMGUKWear: uint8,
    engineTCWear: uint8,
    engineBlown: uint8,
    engineSeized: uint8)

  const CarDamageDataSize: nat := 42

  /** The `CarDamageData` laid out from offset `at`: each field at its fixed
      position inside the 42-byte block, or a failure when the block
      overruns the buffer. */
  function CarDamageDataAt(buf: Buffer, at: nat): Result<CarDamageData>
  {
    if at + 42 <= |buf| then
      Ok(CarDamageData(F32sAt(buf, at, 4), buf[at + 16..at + 20], buf[at + 20..at + 24],
        buf[at + 24], buf[at + 25], buf[at + 26], buf[at + 27], buf[at + 28], buf[at + 29],
        buf[at + 30], buf[at + 31], buf[at + 32], buf[at + 33], buf[at + 34], buf[at + 35],
        buf[at + 36], buf[at + 37], buf[at + 38], buf[at + 39], buf[at + 40], buf[at + 41]))
    else Fail
  }

  /** The loop body that fills one `CarDamageData`: the cursor advances by each
      field's width, and the first read that throws ends the decode. */
  method ReadCarDamageData(buf: Buffer, at: nat) returns (r: Result<CarDamageData>, next: nat)
    ensures r == CarDamageDataAt(buf, at)
    ensures r.Ok? ==> next == at + CarDamageDataSize
  {
    next := at;
    var cursor := at;
    var tyresWear;
    tyresWear, cursor :- ReadF32s(buf, cursor, 4);
    var tyresDamage;
    tyresDamage, cursor :- ReadBytes(buf, cursor, 4);
    var brakesDamage;
    brakesDamage, cursor :- ReadBytes(buf, cursor, 4);
    var frontLeftWingDamage :- ReadU8(buf, cursor);
    cursor := cursor + 1;
    var frontRightWingDamage :- ReadU8(buf, cursor);
    cursor := cursor + 1;
    var rearWingDamage :- ReadU8(buf, cursor);
    cursor := cursor + 1;
    var floorDamage :- ReadU8(buf, cursor);
    cursor := cursor + 1;
    var diffuserDamage :- ReadU8(buf, cursor);
    cursor := cursor + 1;
    var sidepodDamage :- ReadU8(buf, cursor);
    cursor := cursor + 1;
    var drsFault :- ReadU8(buf, cursor);
    cursor := cursor + 1;
    var ersFault :- ReadU8(buf, cursor);
    cursor := cursor + 1;
    var gearBoxDamage :- ReadU8(buf, cursor);
    cursor := cursor + 1;
    var engineDamage :- ReadU8(buf, cursor);
    cursor := cursor + 1;
    var engineMGUHWear :- ReadU8(buf, cursor);
    cursor := cursor + 1;
    var engineESWear :- ReadU8(buf, cursor);
    cursor := cursor + 1;
    var engineCEWear :- ReadU8(buf, cursor);
    cursor := cursor + 1;
    var engineICEWear :- ReadU8(buf, cursor);
    cursor := cursor + 1;
    var engineMGUKWear :- ReadU8(buf, cursor);
    cursor := cursor + 1;
    var engineTCWear :- ReadU8(buf, cursor);
    cursor := cursor + 1;
    var engineBlown :- ReadU8(buf, cursor);
    cursor := cursor + 1;
    var engineSeized :- ReadU8(buf, cursor);
    cursor := cursor + 1;
    r, next := Ok(CarDamageData(tyresWear, tyresDamage, brakesDamage, frontLeftWingDamage,
      frontRightWingDamage, rearWingDamage, floorDamage, diffuserDamage, sidepodDamage,
      drsFault, ersFault, gearBoxDamage, engineDamage, engineMGUHWear, engineESWear,
      engineCEWear, engineICEWear, engineMGUKWear, engineTCWear, engineBlown, engineSeized)), cursor;
  }

  /** A `CarDamageData` depends on its own 42 bytes only. */
  lemma CarDamageDataAtLocal(a: Buffer, b: Buffer, at: nat)
    requires at + CarDamageDataSize <= |a| && at + CarDamageDataSize <= |b|
    requires a[at..at + CarDamageDataSize] == b[at..at + CarDamageDataSize]
    ensures CarDamageDataAt(a, at) == CarDamageDataAt(b, at)
  {
    assert forall k :: at <= k < at + CarDamageDataSize ==> a[k] == a[at..at + CarDamageDataSize][k - at] == b[k];
    assert F32sAt(a, at, 4) == F32sAt(b, at, 4);
    assert a[at + 16..at + 20] == b[at + 16..at + 20];
    assert a[at + 20..at + 24] == b[at + 20..at + 24];
  }

  /** The 22 `CarDamageData` blocks the loop reads, 42 bytes apart from `at`. */
  function CarDamageDataBlocks(buf: Buffer, at: nat): seq<Result<CarDamageData>>
  {
    seq(22, i requires 0 <= i < 22 => CarDamageDataAt(buf, at + 42 * i))
  }

  /** Blocks that all decode fit in the buffer. */
  lemma CarDamageDataBlocksNeedValid(buf: Buffer, at: nat)
    requires Collect(CarDamageDataBlocks(buf, at)).Ok?
    ensures at + 42 * 22 <= |buf|
  {
    assert CarDamageDataBlocks(buf, at)[21].Ok?;
  }

  /** All 22 blocks decode exactly when they fit in the buffer. */
  lemma {:induction false} CarDamageDataBlocksSucceed(buf: Buffer, at: nat)
    ensures Collect(CarDamageDataBlocks(buf, at)).Ok? <==> at + 42 * 22 <= |buf|
  {
    if at + 42 * 22 <= |buf| {
      forall i | 0 <= i < 22 ensures CarDamageDataBlocks(buf, at)[i].Ok? {
        assert at + 42 * i + 42 <= |buf|;
      }
    }
    if Collect(CarDamageDataBlocks(buf, at)).Ok? {
      CarDamageDataBlocksNeedValid(buf, at);
    }
  }

  /** The 22-iteration loop: it stores block `i` in slot `i`, and ends
      the decode at the first block that throws. */
  method ReadCarDamageDataArray(buf: Buffer, at: nat) returns (r: Result<seq<CarDamageData>>, next: nat)
    ensures r == Collect(CarDamageDataBlocks(buf, at))
    ensures r.Ok? ==> next == at + 42 * 22
  {
    next := at;
    var cursor := at;
    var carDamageData := new CarDamageData[22];
    for i := 0 to 22
      invariant cursor == at + 42 * i
      invariant forall k :: 0 <= k < i ==> CarDamageDataBlocks(buf, at)[k] == Ok(carDamageData[k])
    {
      var temp, after := ReadCarDamageData(buf, cursor);
      if temp.Fail? {
        assert CarDamageDataBlocks(buf, at)[i].Fail?;
        return Fail, at;
      }
      carDamageData[i] := temp.value;
      cursor := after;
    }
    CollectAllOk(CarDamageDataBlocks(buf, at), carDamageData[..]);
    r, next := Ok(carDamageData[..]), cursor;
  }

  /** The fields of a decoded `PacketCarDamageData` object. */
  datatype PacketCarDamageData = PacketCarDamageData(
    header: Header,
    carDamageData: seq<CarDamageData>)

  /** The shortest datagram the decoder accepts. */
  const PacketCarDamageDataLength: nat := 953

  /** The record the bytes denote: the record header, then every field
      read at its absolute offset; any read that throws makes it a failure. */
  function PacketCarDamageDataOf(buf: Buffer): Result<PacketCarDamageData>
  {
    var header :- RecordHeader(buf, true);
    var carDamageData :- Collect(CarDamageDataBlocks(buf, 29));
    Ok(PacketCarDamageData(header, carDamageData))
  }

  /** The `PacketCarDamageData` constructor: `base(data)` and the header overwrite, then
      a cursor from offset 29 through every field and fixed-count loop. */
  method DecodeCarDamageData(buf: Buffer) returns (r: Result<PacketCarDamageData>)
    ensures r == PacketCarDamageDataOf(buf)
  {
    var header :- RecordHeader(buf, true);
    var cursor: nat := 29;
    var carDamageData;
    carDamageData, cursor :- ReadCarDamageDataArray(buf, cursor);
    r := Ok(PacketCarDamageData(header, carDamageData));
  }

  /** The decode succeeds exactly when the datagram has 953 bytes. */
  lemma {:induction false} PacketCarDamageDataSucceeds(buf: Buffer)
    ensures PacketCarDamageDataOf(buf).Ok? <==> |buf| >= PacketCarDamageDataLength
  {
    RecordHeaderLayout(buf, true);
    CarDamageDataBlocksSucceed(buf, 29);
  }

  /** Where each field of a decoded record comes from: the record header,
      the scalars at their absolute offsets, and entry `i` of each array from
      block `i`, in wire order. */
  lemma PacketCarDamageDataLayout(buf: Buffer)
    requires PacketCarDamageDataOf(buf).Ok?
    ensures var p := PacketCarDamageDataOf(buf).value;
      p.header == RecordHeader(buf, true).value
      && |p.carDamageData| == 22
      && (forall i :: 0 <= i < 22 ==> CarDamageDataAt(buf, 29 + 42 * i) == Ok(p.carDamageData[i]))
  {
    PacketCarDamageDataSucceeds(buf);
  }
}
