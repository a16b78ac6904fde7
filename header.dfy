/** The packet header shared by every packet kind: the layout read by the
    `Packet(byte[])` constructor, the older one-byte-shifted layout of
    `getHeaderData`, and the overwrite every record constructor performs with
    the second after running the first. */
module PacketHeader {
  import opened Bytes
  import opened Enums

  /** Payload decoding starts here; bytes 25..28 are never read. */
  const HeaderByteSize: nat := 29
  const MaxCarsOnTrack: nat := 22
  const WheelCount: nat := 4
  const TyreStintTotal: nat := 8

  /** The header fields of a packet object. */
  datatype Header = Header(
    packetFormat: uint16,
    gameYear: uint8,
    gameMajorVersion: uint8,
    gameMinorVersion: uint8,
    packetVersion: uint8,
    packetId: uint8,
    sessionUID: uint64,
    sessionTime: f32,
    frameIdentifier: uint32,
    overallFrameIdentifier: uint32,
    playerCarIndex: uint8,
    secondaryPlayerCarIndex: uint8,
    packetType: PacketType)

  /** The `Packet(byte[])` constructor: reads at fixed offsets and
      fails on the first read past the end. `overallFrameIdentifier` and
      `packetType` keep their defaults. */
  function ReadPacketHeader(buf: Buffer): (r: Result<Header>)
    ensures r.Ok? <==> |buf| >= 25
    ensures r.Ok? ==>
      var h := r.value;
      h.packetFormat == U16At(buf, 0) && h.gameYear == buf[2]
      && h.gameMajorVersion == buf[3] && h.gameMinorVersion == buf[4]
      && h.packetVersion == buf[5] && h.packetId == buf[6]
      && h.sessionUID == U64At(buf, 7) && h.sessionTime == F32At(buf, 15)
      && h.frameIdentifier == U32At(buf, 19)
      && h.playerCarIndex == buf[23] && h.secondaryPlayerCarIndex == buf[24]
      && h.overallFrameIdentifier == 0 && h.packetType == DefaultPacketType
  {
    var format :- ReadU16(buf, 0);
    var year :- ReadU8(buf, 2);
    var major :- ReadU8(buf, 3);
    var minor :- ReadU8(buf, 4);
    var version :- ReadU8(buf, 5);
    var id :- ReadU8(buf, 6);
    var uid :- ReadU64(buf, 7);
    var time :- ReadF32(buf, 15);
    var frame :- ReadU32(buf, 19);
    var player :- ReadU8(buf, 23);
    var secondary :- ReadU8(buf, 24);
    Ok(Header(format, year, major, minor, version, id, uid, time, frame, 0,
              player, secondary, DefaultPacketType))
  }

  /** `getHeaderData`: the object initializer over the older layout, with
      no game year, or null (here `None`) when a read fails. */
  function GetHeaderData(data: Buffer): (r: Option<Header>)
    ensures r.Some? <==> |data| >= 24
    ensures r.Some? ==>
      var h := r.value;
      h.packetFormat == U16At(data, 0) && h.gameYear == 0
      && h.gameMajorVersion == data[2] && h.gameMinorVersion == data[3]
      && h.packetVersion == data[4] && h.packetId == data[5]
      && h.sessionUID == U64At(data, 6) && h.sessionTime == F32At(data, 14)
      && h.frameIdentifier == U32At(data, 18)
      && h.playerCarIndex == data[22] && h.secondaryPlayerCarIndex == data[23]
      && h.overallFrameIdentifier == 0 && h.packetType == DefaultPacketType
  {
    if |data| < 24 then None
    else
      Some(Header(U16At(data, 0), 0, data[2], data[3], data[4], data[5],
                  U64At(data, 6), F32At(data, 14), U32At(data, 18), 0,
                  data[22], data[23], DefaultPacketType))
  }

  /** The assignments a record constructor makes from `getHeaderData`'s
      result: every header field except `gameYear` and
      `overallFrameIdentifier`; the car telemetry constructor also leaves out
      `packetType` (`copiesType` false). */
  function Overwrite(base: Header, older: Header, copiesType: bool): (h: Header)
    ensures h.gameYear == base.gameYear
    ensures h.overallFrameIdentifier == base.overallFrameIdentifier
    ensures h.packetType == (if copiesType then older.packetType else base.packetType)
    ensures h.(gameYear := older.gameYear, overallFrameIdentifier := older.overallFrameIdentifier,
               packetType := older.packetType) == older
  {
    older.(gameYear := base.gameYear,
           overallFrameIdentifier := base.overallFrameIdentifier,
           packetType := if copiesType then older.packetType else base.packetType)
  }

  /** `data.Take(n)`: the first `n` bytes, or all of them if there are fewer. */
  function Take(data: Buffer, n: nat): (t: Buffer)
    ensures |t| == if |data| < n then |data| else n
    ensures t == data[..|t|]
  {
    if |data| < n then data else data[..n]
  }

  /** The header of a decoded record: `base(data)`, then the overwrite from
      `getHeaderData(data.Take(HEADER_BYTE_SIZE))`; a null result would be
      dereferenced and throw. */
  function RecordHeader(buf: Buffer, copiesType: bool): Result<Header>
  {
    var base :- ReadPacketHeader(buf);
    match GetHeaderData(Take(buf, HeaderByteSize))
    case None => Fail
    case Some(older) => Ok(Overwrite(base, older, copiesType))
  }

  /** What a decoded record's header holds: it exists exactly when the
      buffer has the 25 bytes `Packet(byte[])` reads (then `getHeaderData`
      never returns null), and it carries the older layout's fields, so its
      `packetId` is byte 5, while `gameYear` is still byte 2. */
  lemma RecordHeaderLayout(buf: Buffer, copiesType: bool)
    ensures RecordHeader(buf, copiesType).Ok? <==> |buf| >= 25
    ensures RecordHeader(buf, copiesType).Ok? ==>
      var h := RecordHeader(buf, copiesType).value;
      h.packetFormat == U16At(buf, 0) && h.gameYear == buf[2]
      && h.gameMajorVersion == buf[2] && h.gameMinorVersion == buf[3]
      && h.packetVersion == buf[4] && h.packetId == buf[5]
      && h.sessionUID == U64At(buf, 6) && h.sessionTime == F32At(buf, 14)
      && h.frameIdentifier == U32At(buf, 18)
      && h.playerCarIndex == buf[22] && h.secondaryPlayerCarIndex == buf[23]
      && h.overallFrameIdentifier == 0 && h.packetType == DefaultPacketType
  {
    if |buf| >= 25 {
      var t := Take(buf, HeaderByteSize);
      assert t[..24] == buf[..24];
      assert forall k :: 0 <= k < 24 ==> t[k] == buf[k];
    }
  }

  /** A record's header depends on the first 25 bytes only. */
  lemma RecordHeaderLocal(a: Buffer, b: Buffer, copiesType: bool)
    requires |a| >= 25 && |b| >= 25 && a[..25] == b[..25]
    ensures RecordHeader(a, copiesType) == RecordHeader(b, copiesType)
  {
    RecordHeaderLayout(a, copiesType);
    RecordHeaderLayout(b, copiesType);
    assert forall k :: 0 <= k < 25 ==> a[k] == a[..25][k] == b[k];
  }

  /** The kind the receive loop dispatches on and the kind a decoded record
      reports come from different bytes: here a lap data datagram (byte 6 is
      2) whose record says packet id 0. */
  lemma RecordIdDiffersFromDispatchId()
    ensures var buf: Buffer := seq(25, k => if k == 6 then 2 else 0);
      ReadPacketHeader(buf).Ok? && ReadPacketHeader(buf).value.packetId == 2
      && RecordHeader(buf, true).Ok? && RecordHeader(buf, true).value.packetId == 0
  {
    var buf: Buffer := seq(25, k => if k == 6 then 2 else 0);
    RecordHeaderLayout(buf, true);
  }
}
