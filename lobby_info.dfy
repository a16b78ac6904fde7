/** The lobby info packet. Its constructor has no try block, and its loop
    runs `HEADER_BYTE_SIZE` (29) times over an array of `MAX_CARS_ON_TRACK`
    (22) slots, so every datagram ends in an exception: a short one at a
    read, any other one at the store into slot 22. */
module LobbyInfoPacket {
  import opened Bytes
  import opened PacketHeader

  /** One lobby player; `name` holds the 48 cursor positions the name loop passes, not text from the datagram. */
  datatype LobbyInfoData = LobbyInfoData(
    aiControlled: uint8,
    teamId: uint8,
    nationality: uint8,
    platform: uint8,
    name: seq<char16>,
    carNumber: uint8,
    readyStatus: uint8)

  const LobbyInfoDataSize: nat := 54

  /** The `LobbyInfoData` laid out from offset `at`: each field at its fixed
      position inside the 54-byte block, or a failure when the block
      overruns the buffer or a value check throws. */
  function LobbyInfoDataAt(buf: Buffer, at: nat): Result<LobbyInfoData>
  {
    if at + 54 <= |buf| && at + 52 <= 0x1_0000 then
      Ok(LobbyInfoData(buf[at], buf[at + 1], buf[at + 2], buf[at + 3],
        CursorChars(at + 4, 48).value, buf[at + 52], buf[at + 53]))
    else Fail
  }

  /** The loop body that fills one `LobbyInfoData`: the cursor advances by each
      field's width, and the first read that throws ends the decode. */
  method ReadLobbyInfoData(buf: Buffer, at: nat) returns (r: Result<LobbyInfoData>, next: nat)
    ensures r == LobbyInfoDataAt(buf, at)
    ensures r.Ok? ==> next == at + LobbyInfoDataSize
  {
    next := at;
    var cursor := at;
    var aiControlled :- ReadU8(buf, cursor);
    cursor := cursor + 1;
    var teamId :- ReadU8(buf, cursor);
    cursor := cursor + 1;
    var nationality :- ReadU8(buf, cursor);
    cursor := cursor + 1;
    var platform :- ReadU8(buf, cursor);
    cursor := cursor + 1;
    var name;
    name, cursor :- ReadCursorChars(cursor, 48);
    var carNumber :- ReadU8(buf, cursor);
    cursor := cursor + 1;
    var readyStatus :- ReadU8(buf, cursor);
    cursor := cursor + 1;
    r, next := Ok(LobbyInfoData(aiControlled, teamId, nationality, platform, name, carNumber,
      readyStatus)), cursor;
  }

  /** A `LobbyInfoData` depends on its own 54 bytes only. */
  lemma LobbyInfoDataAtLocal(a: Buffer, b: Buffer, at: nat)
    requires at + LobbyInfoDataSize <= |a| && at + LobbyInfoDataSize <= |b|
    requires a[at..at + LobbyInfoDataSize] == b[at..at + LobbyInfoDataSize]
    ensures LobbyInfoDataAt(a, at) == LobbyInfoDataAt(b, at)
  {
    assert forall k :: at <= k < at + LobbyInfoDataSize ==> a[k] == a[at..at + LobbyInfoDataSize][k - at] == b[k];
  }

  /** The loop's iteration count and the array it stores into. */
  const LobbyLoopCount: nat := HeaderByteSize
  const LobbySlots: nat := MaxCarsOnTrack

  /** The `LobbyInfoData` block each iteration reads, 54 bytes apart from
      offset 30. */
  function LobbyInfoDataBlocks(buf: Buffer): seq<Result<LobbyInfoData>>
  {
    seq(LobbyLoopCount, i requires 0 <= i < LobbyLoopCount => LobbyInfoDataAt(buf, 30 + 54 * i))
  }

  /** The private fields a completed constructor would leave. */
  datatype PacketLobbyInfoData = PacketLobbyInfoData(
    header: Header,
    numPlayers: uint8,
    lobbyPlayers: seq<LobbyInfoData>)

  /** The outcome of the constructor: the header, the player count, the
      blocks of slots 0..21 and block 22 are read in turn, and when all of
      them succeed, storing block 22 overruns the array. */
  function PacketLobbyInfoDataOf(buf: Buffer): (r: Result<PacketLobbyInfoData>)
    ensures r.Fail?
  {
    var header :- RecordHeader(buf, true);
    var numPlayers :- ReadU8(buf, 29);
    var stored :- Collect(LobbyInfoDataBlocks(buf)[..LobbySlots]);
    var overflow :- LobbyInfoDataBlocks(buf)[LobbySlots];
    Fail
  }

  /** The `PacketLobbyInfoData` constructor: the loop reads each entry with
      a cursor and stores it, and the store past the last slot throws. */
  method DecodeLobbyInfoData(buf: Buffer) returns (r: Result<PacketLobbyInfoData>)
    ensures r == PacketLobbyInfoDataOf(buf)
  {
    var header :- RecordHeader(buf, true);
    var cursor: nat := 29;
    var numPlayers :- ReadU8(buf, cursor);
    cursor := cursor + 1;
    var lobbyPlayers := new LobbyInfoData[LobbySlots];
    for i := 0 to LobbyLoopCount
      invariant i <= LobbySlots
      invariant cursor == 30 + 54 * i
      invariant forall k :: 0 <= k < i ==> LobbyInfoDataBlocks(buf)[k] == Ok(lobbyPlayers[k])
    {
      var entry, next := ReadLobbyInfoData(buf, cursor);
      if entry.Fail? {
        assert LobbyInfoDataBlocks(buf)[i].Fail?;
        if i < LobbySlots {
          assert LobbyInfoDataBlocks(buf)[..LobbySlots][i].Fail?;
        }
        return Fail;
      }
      if i >= lobbyPlayers.Length {
        return Fail;
      }
      lobbyPlayers[i] := entry.value;
      cursor := next;
    }
    // The loop never runs to completion: iteration 22 always leaves it, so
    // the constructor never returns a record.
    assert false;
  }

  /** On a long enough datagram every read succeeds, so the exception is the
      store into slot 22 and not a short buffer. */
  lemma {:induction false} LobbyStoreOverrun(buf: Buffer)
    requires |buf| >= 30 + 54 * (LobbySlots + 1)
    ensures RecordHeader(buf, true).Ok? && ReadU8(buf, 29).Ok?
    ensures Collect(LobbyInfoDataBlocks(buf)[..LobbySlots]).Ok?
    ensures LobbyInfoDataBlocks(buf)[LobbySlots].Ok?
  {
    RecordHeaderLayout(buf, true);
    forall i | 0 <= i <= LobbySlots
      ensures LobbyInfoDataBlocks(buf)[i].Ok?
    {
      assert 30 + 54 * i + 54 <= 30 + 54 * (LobbySlots + 1);
    }
  }
}
