/** The extra motion packet: player-car-only wheel arrays, in wheel order, and body motion scalars. */
module MotionExtraPacket {
  import opened Bytes
  import opened PacketHeader
  import opened Enums

  /** The fields of a decoded `PacketMotionExtraData` object. */
  datatype PacketMotionExtraData = PacketMotionExtraData(
    header: Header,
    suspensionPosition: seq<f32>,
    suspensionVelocity: seq<f32>,
    suspensionAcceleration: seq<f32>,
    wheelSpeed: seq<f32>,
    wheelSlipRatio: seq<f32>,
    wheelSlipAngle: seq<f32>,
    wheelLatForce: seq<f32>,
    wheelLongForce: seq<f32>,
    heightOfCOGAboveGround: f32,
    localVelocityX: f32,
    localVelocityY: f32,
    localVelocityZ: f32,
    angularVelocityX: f32,
    angularVelocityY: f32,
    angularVelocityZ: f32,
    angularAccelerationX: f32,
    angularAccelerationY: f32,
    angularAccelerationZ: f32,
    frontWheelsAngle: f32,
    wheelVertForce: seq<f32>)

  /** The shortest datagram the decoder accepts. */
  const PacketMotionExtraDataLength: nat := 217

  /** The record the bytes denote: the record header, then every field
      read at its absolute offset; any read that throws makes it a failure. */
  function PacketMotionExtraDataOf(buf: Buffer): Result<PacketMotionExtraData>
  {
    var header :- RecordHeader(buf, true);
    var suspensionPosition :- F32Array(buf, 29, 4);
    var suspensionVelocity :- F32Array(buf, 45, 4);
    var suspensionAcceleration :- F32Array(buf, 61, 4);
    var wheelSpeed :- F32Array(buf, 77, 4);
    var wheelSlipRatio :- F32Array(buf, 93, 4);
    var wheelSlipAngle :- F32Array(buf, 109, 4);
    var wheelLatForce :- F32Array(buf, 125, 4);
    var wheelLongForce :- F32Array(buf, 141, 4);
    var heightOfCOGAboveGround :- ReadF32(buf, 157);
    var localVelocityX :- ReadF32(buf, 161);
    var localVelocityY :- ReadF32(buf, 165);
    var localVelocityZ :- ReadF32(buf, 169);
    var angularVelocityX :- ReadF32(buf, 173);
    var angularVelocityY :- ReadF32(buf, 177);
    var angularVelocityZ :- ReadF32(buf, 181);
    var angularAccelerationX :- ReadF32(buf, 185);
    var angularAccelerationY :- ReadF32(buf, 189);
    var angularAccelerationZ :- ReadF32(buf, 193);
    var frontWheelsAngle :- ReadF32(buf, 197);
    var wheelVertForce :- F32Array(buf, 201, 4);
    Ok(PacketMotionExtraData(header, suspensionPosition, suspensionVelocity,
      suspensionAcceleration, wheelSpeed, wheelSlipRatio, wheelSlipAngle, wheelLatForce,
      wheelLongForce, heightOfCOGAboveGround, localVelocityX, localVelocityY, localVelocityZ,
      angularVelocityX, angularVelocityY, angularVelocityZ, angularAccelerationX,
      angularAccelerationY, angularAccelerationZ, frontWheelsAngle, wheelVertForce))
  }

  /** The `PacketMotionExtraData` constructor: `base(data)` and the header overwrite, then
      a cursor from offset 29 through every field and fixed-count loop. */
  method DecodeMotionExtraData(buf: Buffer) returns (r: Result<PacketMotionExtraData>)
    ensures r == PacketMotionExtraDataOf(buf)
  {
    PacketMotionExtraDataSucceeds(buf);
    var header :- RecordHeader(buf, true);
    var cursor: nat := 29;
    var suspensionPosition;
    suspensionPosition, cursor :- ReadF32s(buf, cursor, 4);
    var suspensionVelocity;
    suspensionVelocity, cursor :- ReadF32s(buf, cursor, 4);
    var suspensionAcceleration;
    suspensionAcceleration, cursor :- ReadF32s(buf, cursor, 4);
    var wheelSpeed;
    wheelSpeed, cursor :- ReadF32s(buf, cursor, 4);
    var wheelSlipRatio;
    wheelSlipRatio, cursor :- ReadF32s(buf, cursor, 4);
    var wheelSlipAngle;
    wheelSlipAngle, cursor :- ReadF32s(buf, cursor, 4);
    var wheelLatForce;
    wheelLatForce, cursor :- ReadF32s(buf, cursor, 4);
    var wheelLongForce;
    wheelLongForce, cursor :- ReadF32s(buf, cursor, 4);
    var heightOfCOGAboveGround :- ReadF32(buf, cursor);
    cursor := cursor + 4;
    var localVelocityX :- ReadF32(buf, cursor);
    cursor := cursor + 4;
    var localVelocityY :- ReadF32(buf, cursor);
    cursor := cursor + 4;
    var localVelocityZ :- ReadF32(buf, cursor);
    cursor := cursor + 4;
    var angularVelocityX :- ReadF32(buf, cursor);
    cursor := cursor + 4;
    var angularVelocityY :- ReadF32(buf, cursor);
    cursor := cursor + 4;
    var angularVelocityZ :- ReadF32(buf, cursor);
    cursor := cursor + 4;
    var angularAccelerationX :- ReadF32(buf, cursor);
    cursor := cursor + 4;
    var angularAccelerationY :- ReadF32(buf, cursor);
    cursor := cursor + 4;
    var angularAccelerationZ :- ReadF32(buf, cursor);
    cursor := cursor + 4;
    var frontWheelsAngle :- ReadF32(buf, cursor);
    cursor := cursor + 4;
    var wheelVertForce;
    wheelVertForce, cursor :- ReadF32s(buf, cursor, 4);
    r := Ok(PacketMotionExtraData(header, suspensionPosition, suspensionVelocity,
      suspensionAcceleration, wheelSpeed, wheelSlipRatio, wheelSlipAngle, wheelLatForce,
      wheelLongForce, heightOfCOGAboveGround, localVelocityX, localVelocityY, localVelocityZ,
      angularVelocityX, angularVelocityY, angularVelocityZ, angularAccelerationX,
      angularAccelerationY, angularAccelerationZ, frontWheelsAngle, wheelVertForce));
  }

  /** The decode succeeds exactly when the datagram has 217 bytes. */
  lemma {:induction false} PacketMotionExtraDataSucceeds(buf: Buffer)
    ensures PacketMotionExtraDataOf(buf).Ok? <==> |buf| >= PacketMotionExtraDataLength
  {
    RecordHeaderLayout(buf, true);
  }

  /** Where each field of a decoded record comes from: the record header,
      the scalars at their absolute offsets, and entry `i` of each array from
      block `i`, in wire order. */
  lemma PacketMotionExtraDataLayout(buf: Buffer)
    requires PacketMotionExtraDataOf(buf).Ok?
    ensures var p := PacketMotionExtraDataOf(buf).value;
      p.header == RecordHeader(buf, true).value
      && p.suspensionPosition == F32Array(buf, 29, 4).value
      && p.suspensionVelocity == F32Array(buf, 45, 4).value
      && p.suspensionAcceleration == F32Array(buf, 61, 4).value
      && p.wheelSpeed == F32Array(buf, 77, 4).value
      && p.wheelSlipRatio == F32Array(buf, 93, 4).value
      && p.wheelSlipAngle == F32Array(buf, 109, 4).value
      && p.wheelLatForce == F32Array(buf, 125, 4).value
      && p.wheelLongForce == F32Array(buf, 141, 4).value
      && p.heightOfCOGAboveGround == F32At(buf, 157)
      && p.localVelocityX == F32At(buf, 161)
      && p.localVelocityY == F32At(buf, 165)
      && p.localVelocityZ == F32At(buf, 169)
      && p.angularVelocityX == F32At(buf, 173)
      && p.angularVelocityY == F32At(buf, 177)
      && p.angularVelocityZ == F32At(buf, 181)
      && p.angularAccelerationX == F32At(buf, 185)
      && p.angularAccelerationY == F32At(buf, 189)
      && p.angularAccelerationZ == F32At(buf, 193)
      && p.frontWheelsAngle == F32At(buf, 197)
      && p.wheelVertForce == F32Array(buf, 201, 4).value
  {
    PacketMotionExtraDataSucceeds(buf);
  }

  /** Each wheel array holds one value per wheel, in `Tyre` order: the
      value for wheel `t` is the float at position `t.Ordinal()` of its
      16-byte run. */
  lemma {:induction false} WheelArraysInTyreOrder(buf: Buffer, t: Tyre)
    requires PacketMotionExtraDataOf(buf).Ok?
    ensures var p := PacketMotionExtraDataOf(buf).value; var k := t.Ordinal();
      |p.suspensionPosition| == 4 && p.suspensionPosition[k] == F32At(buf, 29 + 4 * k)
      && |p.suspensionVelocity| == 4 && p.suspensionVelocity[k] == F32At(buf, 45 + 4 * k)
      && |p.suspensionAcceleration| == 4 && p.suspensionAcceleration[k] == F32At(buf, 61 + 4 * k)
      && |p.wheelSpeed| == 4 && p.wheelSpeed[k] == F32At(buf, 77 + 4 * k)
      && |p.wheelSlipRatio| == 4 && p.wheelSlipRatio[k] == F32At(buf, 93 + 4 * k)
      && |p.wheelSlipAngle| == 4 && p.wheelSlipAngle[k] == F32At(buf, 109 + 4 * k)
      && |p.wheelLatForce| == 4 && p.wheelLatForce[k] == F32At(buf, 125 + 4 * k)
      && |p.wheelLongForce| == 4 && p.wheelLongForce[k] == F32At(buf, 141 + 4 * k)
      && |p.wheelVertForce| == 4 && p.wheelVertForce[k] == F32At(buf, 201 + 4 * k)
  {
    PacketMotionExtraDataLayout(buf);
  }
}
