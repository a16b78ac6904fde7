/** The tyre sets packet: one car's 20 tyre sets, decoded into a local array that shadows the public field. */
module TyreSetsPacket {
  import opened Bytes
  import opened PacketHeader

  /** One tyre set available to a car. */
  datatype TyreSetData = TyreSetData(
    actualTyreCompound: uint8,
    visualTyreCompound: uint8,
    wear: uint8,
    available: uint8,
    recommendedSession: uint8,
    lifeSpan: uint8,
    usableLife: uint8,
    lapDeltaTime: int16,
    fitted: uint8)

  const TyreSetDataSize: nat := 10

  /** The `TyreSetData` laid out from offset `at`: each field at its fixed
      position inside the 10-byte block, or a failure when the block
      overruns the buffer. */
  function TyreSetDataAt(buf: Buffer, at: nat): Result<TyreSetData>
  {
    if at + 10 <= |buf| then
      Ok(TyreSetData(buf[at], buf[at + 1], buf[at + 2], buf[at + 3], buf[at + 4], buf[at + 5],
        buf[at + 6], I16At(buf, at + 7), buf[at + 9]))
    else Fail
  }

  /** The loop body that fills one `TyreSetData`: the cursor advances by each
      field's width, and the first read that throws ends the decode. */
  method ReadTyreSetData(buf: Buffer, at: nat) returns (r: Result<TyreSetData>, next: nat)
    ensures r == TyreSetDataAt(buf, at)
    ensures r.Ok? ==> next == at + TyreSetDataSize
  {
    next := at;
    var cursor := at;
    var actualTyreCompound :- ReadU8(buf, cursor);
    cursor := cursor + 1;
    var visualTyreCompound :- ReadU8(buf, cursor);
    cursor := cursor + 1;
    var wear :- ReadU8(buf, cursor);
    cursor := cursor + 1;
    var available :- ReadU8(buf, cursor);
    cursor := cursor + 1;
    var recommendedSession :- ReadU8(buf, cursor);
    cursor := cursor + 1;
    var lifeSpan :- ReadU8(buf, cursor);
    cursor := cursor + 1;
    var usableLife :- ReadU8(buf, cursor);
    cursor := cursor + 1;
    var lapDeltaTime :- ReadI16(buf, cursor);
    cursor := cursor + 2;
    var fitted :- ReadU8(buf, cursor);
    cursor := cursor + 1;
    r, next := Ok(TyreSetData(actualTyreCompound, visualTyreCompound, wear, available,
      recommendedSession, lifeSpan, usableLife, lapDeltaTime, fitted)), cursor;
  }

  /** A `TyreSetData` depends on its own 10 bytes only. */
  lemma TyreSetDataAtLocal(a: Buffer, b: Buffer, at: nat)
    requires at + TyreSetDataSize <= |a| && at + TyreSetDataSize <= |b|
    requires a[at..at + TyreSetDataSize] == b[at..at + TyreSetDataSize]
    ensures TyreSetDataAt(a, at) == TyreSetDataAt(b, at)
  {
    assert forall k :: at <= k < at + TyreSetDataSize ==> a[k] == a[at..at + TyreSetDataSize][k - at] == b[k];
  }

  /** The 20 `TyreSetData` blocks the loop reads, 10 bytes apart from `at`. */
  function TyreSetDataBlocks(buf: Buffer, at: nat): seq<Result<TyreSetData>>
  {
    seq(20, i requires 0 <= i < 20 => TyreSetDataAt(buf, at + 10 * i))
  }

  /** Blocks that all decode fit in the buffer. */
  lemma TyreSetDataBlocksNeedValid(buf: Buffer, at: nat)
    requires Collect(TyreSetDataBlocks(buf, at)).Ok?
    ensures at + 10 * 20 <= |buf|
  {
    assert TyreSetDataBlocks(buf, at)[19].Ok?;
  }

  /** All 20 blocks decode exactly when they fit in the buffer. */
  lemma {:induction false} TyreSetDataBlocksSucceed(buf: Buffer, at: nat)
    ensures Collect(TyreSetDataBlocks(buf, at)).Ok? <==> at + 10 * 20 <= |buf|
  {
    if at + 10 * 20 <= |buf| {
      forall i | 0 <= i < 20 ensures TyreSetDataBlocks(buf, at)[i].Ok? {
        assert at + 10 * i + 10 <= |buf|;
      }
    }
    if Collect(TyreSetDataBlocks(buf, at)).Ok? {
      TyreSetDataBlocksNeedValid(buf, at);
    }
  }

  /** The 20-iteration loop: it stores block `i` in slot `i` of a local array, and ends
      the decode at the first block that throws. */
  method ReadTyreSetDataArray(buf: Buffer, at: nat) returns (r: Result<seq<TyreSetData>>, next: nat)
    ensures r == Collect(TyreSetDataBlocks(buf, at))
    ensures r.Ok? ==> next == at + 10 * 20
  {
    next := at;
    var cursor := at;
    var tyreSetData := new TyreSetData[20];
    for i := 0 to 20
      invariant cursor == at + 10 * i
      invariant forall k :: 0 <= k < i ==> TyreSetDataBlocks(buf, at)[k] == Ok(tyreSetData[k])
    {
      var temp, after := ReadTyreSetData(buf, cursor);
      if temp.Fail? {
        assert TyreSetDataBlocks(buf, at)[i].Fail?;
        return Fail, at;
      }
      tyreSetData[i] := temp.value;
      cursor := after;
    }
    CollectAllOk(TyreSetDataBlocks(buf, at), tyreSetData[..]);
    r, next := Ok(tyreSetData[..]), cursor;
  }

  /** The fields of a decoded `PacketTyreSetData` object. */
  datatype PacketTyreSetData = PacketTyreSetData(
    header: Header,
    carIndex: uint8,
    tyreSetData: Option<seq<TyreSetData>>,
    fittedIndex: uint8)

  /** The shortest datagram the decoder accepts. */
  const PacketTyreSetDataLength: nat := 231

  /** The record the bytes denote: the record header, then every field
      read at its absolute offset; any read that throws makes it a failure. */
  function PacketTyreSetDataOf(buf: Buffer): Result<PacketTyreSetData>
  {
    var header :- RecordHeader(buf, true);
    var carIndex :- ReadU8(buf, 29);
    var _ :- Collect(TyreSetDataBlocks(buf, 30));
    var fittedIndex :- ReadU8(buf, 230);
    Ok(PacketTyreSetData(header, carIndex, None, fittedIndex))
  }

  /** The `PacketTyreSetData` constructor: `base(data)` and the header overwrite, then
      a cursor from offset 29 through every field and fixed-count loop. */
  method DecodeTyreSetData(buf: Buffer) returns (r: Result<PacketTyreSetData>)
    ensures r == PacketTyreSetDataOf(buf)
  {
    var header :- RecordHeader(buf, true);
    var cursor: nat := 29;
    var carIndex :- ReadU8(buf, cursor);
    cursor := cursor + 1;
    var tyreSetDataLocal;
    tyreSetDataLocal, cursor :- ReadTyreSetDataArray(buf, cursor);
    var fittedIndex :- ReadU8(buf, cursor);
    cursor := cursor + 1;
    r := Ok(PacketTyreSetData(header, carIndex, None, fittedIndex));
  }

  /** The decode succeeds exactly when the datagram has 231 bytes. */
  lemma {:induction false} PacketTyreSetDataSucceeds(buf: Buffer)
    ensures PacketTyreSetDataOf(buf).Ok? <==> |buf| >= PacketTyreSetDataLength
  {
    RecordHeaderLayout(buf, true);
    TyreSetDataBlocksSucceed(buf, 30);
  }

  /** Where each field of a decoded record comes from: the record header,
      the scalars at their absolute offsets, and entry `i` of each array from
      block `i`, in wire order. */
  lemma PacketTyreSetDataLayout(buf: Buffer)
    requires PacketTyreSetDataOf(buf).Ok?
    ensures var p := PacketTyreSetDataOf(buf).value;
      p.header == RecordHeader(buf, true).value
      && p.carIndex == buf[29]
      && p.tyreSetData == None
      && p.fittedIndex == buf[230]
  {
    PacketTyreSetDataSucceeds(buf);
  }
}
