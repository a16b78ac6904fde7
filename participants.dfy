/** The participants packet: the active car count and 22 participant entries. */
module ParticipantsPacket {
  import opened Bytes
  import opened PacketHeader

  /** One participant; `name` holds the 48 cursor positions the name loop passes, not text from the datagram. */
  datatype ParticipantData = ParticipantData(
    aiControlled: uint8,
    driverId: uint8,
    networkId: uint8,
    teamId: uint8,
    myTeam: uint8,
    raceNumber: uint8,
    nationality: uint8,
    name: seq<char16>,
    yourTelemetry: uint8,
    showOnlineNames: uint8,
    platform: uint8)

  const ParticipantDataSize: nat := 58

  /** The `ParticipantData` laid out from offset `at`: each field at its fixed
      position inside the 58-byte block, or a failure when the block
      overruns the buffer or a value check throws. */
  function ParticipantDataAt(buf: Buffer, at: nat): Result<ParticipantData>
  {
    if at + 58 <= |buf| && at + 55 <= 0x1_0000 then
      Ok(ParticipantData(buf[at], buf[at + 1], buf[at + 2], buf[at + 3], buf[at + 4],
        buf[at + 5], buf[at + 6], CursorChars(at + 7, 48).value, buf[at + 55], buf[at + 56],
        buf[at + 57]))
    else Fail
  }

  /** The loop body that fills one `ParticipantData`: the cursor advances by each
      field's width, and the first read that throws ends the decode. */
  method ReadParticipantData(buf: Buffer, at: nat) returns (r: Result<ParticipantData>, next: nat)
    ensures r == ParticipantDataAt(buf, at)
    ensures r.Ok? ==> next == at + ParticipantDataSize
  {
    next := at;
    var cursor := at;
    var aiControlled :- ReadU8(buf, cursor);
    cursor := cursor + 1;
    var driverId :- ReadU8(buf, cursor);
    cursor := cursor + 1;
    var networkId :- ReadU8(buf, cursor);
    cursor := cursor + 1;
    var teamId :- ReadU8(buf, cursor);
    cursor := cursor + 1;
    var myTeam :- ReadU8(buf, cursor);
    cursor := cursor + 1;
    var raceNumber :- ReadU8(buf, cursor);
    cursor := cursor + 1;
    var nationality :- ReadU8(buf, cursor);
    cursor := cursor + 1;
    var name;
    name, cursor :- ReadCursorChars(cursor, 48);
    var yourTelemetry :- ReadU8(buf, cursor);
    cursor := cursor + 1;
    var showOnlineNames :- ReadU8(buf, cursor);
    cursor := cursor + 1;
    var platform :- ReadU8(buf, cursor);
    cursor := cursor + 1;
    r, next := Ok(ParticipantData(aiControlled, driverId, networkId, teamId, myTeam,
      raceNumber, nationality, name, yourTelemetry, showOnlineNames, platform)), cursor;
  }

  /** A `ParticipantData` depends on its own 58 bytes only. */
  lemma ParticipantDataAtLocal(a: Buffer, b: Buffer, at: nat)
    requires at + ParticipantDataSize <= |a| && at + ParticipantDataSize <= |b|
    requires a[at..at + ParticipantDataSize] == b[at..at + ParticipantDataSize]
    ensures ParticipantDataAt(a, at) == ParticipantDataAt(b, at)
  {
    assert forall k :: at <= k < at + ParticipantDataSize ==> a[k] == a[at..at + ParticipantDataSize][k - at] == b[k];
  }

  /** The 22 `ParticipantData` blocks the loop reads, 58 bytes apart from `at`. */
  function ParticipantDataBlocks(buf: Buffer, at: nat): seq<Result<ParticipantData>>
  {
    seq(22, i requires 0 <= i < 22 => ParticipantDataAt(buf, at + 58 * i))
  }

  /** Blocks that all decode fit in the buffer. */
  lemma ParticipantDataBlocksNeedValid(buf: Buffer, at: nat)
    requires Collect(ParticipantDataBlocks(buf, at)).Ok?
    ensures at + 58 * 22 <= |buf|
  {
    assert ParticipantDataBlocks(buf, at)[21].Ok?;
  }

  /** All 22 blocks decode exactly when they fit in the buffer. */
  lemma {:induction false} ParticipantDataBlocksSucceed(buf: Buffer, at: nat)
    requires at + 58 * 22 <= 0x1_0000
    ensures Collect(ParticipantDataBlocks(buf, at)).Ok? <==> at + 58 * 22 <= |buf|
  {
    if at + 58 * 22 <= |buf| {
      forall i | 0 <= i < 22 ensures ParticipantDataBlocks(buf, at)[i].Ok? {
        assert at + 58 * i + 58 <= |buf|;
      }
    }
    if Collect(ParticipantDataBlocks(buf, at)).Ok? {
      ParticipantDataBlocksNeedValid(buf, at);
    }
  }

  /** The 22-iteration loop: it stores block `i` in slot `i`, and ends
      the decode at the first block that throws. */
  method ReadParticipantDataArray(buf: Buffer, at: nat) returns (r: Result<seq<ParticipantData>>, next: nat)
    ensures r == Collect(ParticipantDataBlocks(buf, at))
    ensures r.Ok? ==> next == at + 58 * 22
  {
    next := at;
    var cursor := at;
    var participants := new ParticipantData[22];
    for i := 0 to 22
      invariant cursor == at + 58 * i
      invariant forall k :: 0 <= k < i ==> ParticipantDataBlocks(buf, at)[k] == Ok(participants[k])
    {
      var temp, after := ReadParticipantData(buf, cursor);
      if temp.Fail? {
        assert ParticipantDataBlocks(buf, at)[i].Fail?;
        return Fail, at;
      }
      participants[i] := temp.value;
      cursor := after;
    }
    CollectAllOk(ParticipantDataBlocks(buf, at), participants[..]);
    r, next := Ok(participants[..]), cursor;
  }

  /** The fields of a decoded `PacketParticipantsData` object. */
  datatype PacketParticipantsData = PacketParticipantsData(
    header: Header,
    numActiveCars: uint8,
    participants: seq<ParticipantData>)

  /** The shortest datagram the decoder accepts. */
  const PacketParticipantsDataLength: nat := 1306

  /** The record the bytes denote: the record header, then every field
      read at its absolute offset; any read that throws makes it a failure. */
  function PacketParticipantsDataOf(buf: Buffer): Result<PacketParticipantsData>
  {
    var header :- RecordHeader(buf, true);
    var numActiveCars :- ReadU8(buf, 29);
    var participants :- Collect(ParticipantDataBlocks(buf, 30));
    Ok(PacketParticipantsData(header, numActiveCars, participants))
  }

  /** The `PacketParticipantsData` constructor: `base(data)` and the header overwrite, then
      a cursor from offset 29 through every field and fixed-count loop. */
  method DecodeParticipantsData(buf: Buffer) returns (r: Result<PacketParticipantsData>)
    ensures r == PacketParticipantsDataOf(buf)
  {
    var header :- RecordHeader(buf, true);
    var cursor: nat := 29;
    var numActiveCars :- ReadU8(buf, cursor);
    cursor := cursor + 1;
    var participants;
    participants, cursor :- ReadParticipantDataArray(buf, cursor);
    r := Ok(PacketParticipantsData(header, numActiveCars, participants));
  }

  /** The decode succeeds exactly when the datagram has 1306 bytes. */
  lemma {:induction false} PacketParticipantsDataSucceeds(buf: Buffer)
    ensures PacketParticipantsDataOf(buf).Ok? <==> |buf| >= PacketParticipantsDataLength
  {
    RecordHeaderLayout(buf, true);
    ParticipantDataBlocksSucceed(buf, 30);
  }

  /** Where each field of a decoded record comes from: the record header,
      the scalars at their absolute offsets, and entry `i` of each array from
      block `i`, in wire order. */
  lemma PacketParticipantsDataLayout(buf: Buffer)
    requires PacketParticipantsDataOf(buf).Ok?
    ensures var p := PacketParticipantsDataOf(buf).value;
      p.header == RecordHeader(buf, true).value
      && p.numActiveCars == buf[29]
      && |p.participants| == 22
      && (forall i :: 0 <= i < 22 ==> ParticipantDataAt(buf, 30 + 58 * i) == Ok(p.participants[i]))
  {
    PacketParticipantsDataSucceeds(buf);
  }

  /** `numActiveCars` is stored but bounds no loop: overwriting its byte changes
      that field of the record and nothing else. */
  lemma {:induction false} NumActiveCarsIgnored(buf: Buffer, v: uint8)
    requires 29 < |buf|
    ensures PacketParticipantsDataOf(buf[29 := v]).Ok? <==> PacketParticipantsDataOf(buf).Ok?
    ensures PacketParticipantsDataOf(buf).Ok? ==> PacketParticipantsDataOf(buf[29 := v]).value == PacketParticipantsDataOf(buf).value.(numActiveCars := v)
  {
    var b := buf[29 := v];
    assert |b| == |buf| && forall k :: 0 <= k < |buf| && k != 29 ==> b[k] == buf[k];
    PacketParticipantsDataSucceeds(buf);
    PacketParticipantsDataSucceeds(b);
    if PacketParticipantsDataOf(buf).Ok? {
      assert b[..25] == buf[..25];
      RecordHeaderLocal(b, buf, true);
      forall i | 0 <= i < 22
        ensures ParticipantDataAt(b, 30 + 58 * i) == ParticipantDataAt(buf, 30 + 58 * i)
      {
        var at := 30 + 58 * i;
        assert b[at..at + 58] == buf[at..at + 58];
        ParticipantDataAtLocal(b, buf, at);
      }
      PacketParticipantsDataLayout(buf);
      PacketParticipantsDataLayout(b);
      assert PacketParticipantsDataOf(b).value.participants == PacketParticipantsDataOf(buf).value.participants;
    }
  }

  /** The name loop stores `Convert.ToChar(byteIndex)`, the cursor itself:
      character `x` of participant `i`'s name is the code unit of its own
      offset, 37 + 58 i + x, whatever bytes the datagram carries there. */
  lemma {:induction false} NamesAreCursorPositions(buf: Buffer, i: nat, x: nat)
    requires PacketParticipantsDataOf(buf).Ok?
    requires i < MaxCarsOnTrack && x < 48
    ensures |PacketParticipantsDataOf(buf).value.participants[i].name| == 48
    ensures PacketParticipantsDataOf(buf).value.participants[i].name[x] as int == 37 + 58 * i + x
  {
    PacketParticipantsDataLayout(buf);
    var p := PacketParticipantsDataOf(buf).value;
    assert ParticipantDataAt(buf, 30 + 58 * i) == Ok(p.participants[i]);
  }

  /** So two datagrams that decode give the same names, however their name
      bytes differ. */
  lemma {:induction false} NamesIgnoreContents(a: Buffer, b: Buffer, i: nat)
    requires PacketParticipantsDataOf(a).Ok? && PacketParticipantsDataOf(b).Ok?
    requires i < MaxCarsOnTrack
    ensures PacketParticipantsDataOf(a).value.participants[i].name
         == PacketParticipantsDataOf(b).value.participants[i].name
  {
    forall x | 0 <= x < 48
      ensures PacketParticipantsDataOf(a).value.participants[i].name[x]
           == PacketParticipantsDataOf(b).value.participants[i].name[x]
    {
      NamesAreCursorPositions(a, i, x);
      NamesAreCursorPositions(b, i, x);
    }
    NamesAreCursorPositions(a, i, 0);
    NamesAreCursorPositions(b, i, 0);
  }
}
