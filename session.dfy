/** The session packet: track, weather, marshal zones, forecast and session settings. */
module SessionPacket {
  import opened Bytes
  import opened PacketHeader

  /** One marshal zone: where it starts and the flag shown in it. */
  datatype MarshalZone = MarshalZone(
    zoneStart: f32,
    zoneFlag: int8)

  const MarshalZoneSize: nat := 5

  /** The `MarshalZone` laid out from offset `at`: each field at its fixed
      position inside the 5-byte block, or a failure when the block
      overruns the buffer or a value check throws. */
  function MarshalZoneAt(buf: Buffer, at: nat): Result<MarshalZone>
  {
    if at + 5 <= |buf| && buf[at + 4] <= 127 then
      Ok(MarshalZone(F32At(buf, at), S8At(buf, at + 4)))
    else Fail
  }

  /** The loop body that fills one `MarshalZone`: the cursor advances by each
      field's width, and the first read that throws ends the decode. */
  method ReadMarshalZone(buf: Buffer, at: nat) returns (r: Result<MarshalZone>, next: nat)
    ensures r == MarshalZoneAt(buf, at)
    ensures r.Ok? ==> next == at + MarshalZoneSize
  {
    next := at;
    var cursor := at;
    var zoneStart :- ReadF32(buf, cursor);
    cursor := cursor + 4;
    var zoneFlag :- ReadS8(buf, cursor);
    cursor := cursor + 1;
    r, next := Ok(MarshalZone(zoneStart, zoneFlag)), cursor;
  }

  /** A `MarshalZone` depends on its own 5 bytes only. */
  lemma MarshalZoneAtLocal(a: Buffer, b: Buffer, at: nat)
    requires at + MarshalZoneSize <= |a| && at + MarshalZoneSize <= |b|
    requires a[at..at + MarshalZoneSize] == b[at..at + MarshalZoneSize]
    ensures MarshalZoneAt(a, at) == MarshalZoneAt(b, at)
  {
    assert forall k :: at <= k < at + MarshalZoneSize ==> a[k] == a[at..at + MarshalZoneSize][k - at] == b[k];
  }

  /** One weather forecast sample. */
  datatype WeatherForecastSample = WeatherForecastSample(
    sessionType: uint8,
    timeOffset: uint8,
    weather: uint8,
    trackTemperature: int8,
    trackTemperatureChange: int8,
    airTemperature: int8,
    airTemperatureChange: int8,
    rainPercentage: uint8)

  const WeatherForecastSampleSize: nat := 8

  /** The `WeatherForecastSample` laid out from offset `at`: each field at its fixed
      position inside the 8-byte block, or a failure when the block
      overruns the buffer or a value check throws. */
  function WeatherForecastSampleAt(buf: Buffer, at: nat): Result<WeatherForecastSample>
  {
    if at + 8 <= |buf| && buf[at + 3] <= 127 && buf[at + 4] <= 127 && buf[at + 5] <= 127 && buf[at + 6] <= 127 then
      Ok(WeatherForecastSample(buf[at], buf[at + 1], buf[at + 2], S8At(buf, at + 3),
        S8At(buf, at + 4), S8At(buf, at + 5), S8At(buf, at + 6), buf[at + 7]))
    else Fail
  }

  /** The loop body that fills one `WeatherForecastSample`: the cursor advances by each
      field's width, and the first read that throws ends the decode. */
  method ReadWeatherForecastSample(buf: Buffer, at: nat) returns (r: Result<WeatherForecastSample>, next: nat)
    ensures r == WeatherForecastSampleAt(buf, at)
    ensures r.Ok? ==> next == at + WeatherForecastSampleSize
  {
    next := at;
    var cursor := at;
    var sessionType :- ReadU8(buf, cursor);
    cursor := cursor + 1;
    var timeOffset :- ReadU8(buf, cursor);
    cursor := cursor + 1;
    var weather :- ReadU8(buf, cursor);
    cursor := cursor + 1;
    var trackTemperature :- ReadS8(buf, cursor);
    cursor := cursor + 1;
    var trackTemperatureChange :- ReadS8(buf, cursor);
    cursor := cursor + 1;
    var airTemperature :- ReadS8(buf, cursor);
    cursor := cursor + 1;
    var airTemperatureChange :- ReadS8(buf, cursor);
    cursor := cursor + 1;
    var rainPercentage :- ReadU8(buf, cursor);
    cursor := cursor + 1;
    r, next := Ok(WeatherForecastSample(sessionType, timeOffset, weather, trackTemperature,
      trackTemperatureChange, airTemperature, airTemperatureChange, rainPercentage)), cursor;
  }

  /** A `WeatherForecastSample` depends on its own 8 bytes only. */
  lemma WeatherForecastSampleAtLocal(a: Buffer, b: Buffer, at: nat)
    requires at + WeatherForecastSampleSize <= |a| && at + WeatherForecastSampleSize <= |b|
    requires a[at..at + WeatherForecastSampleSize] == b[at..at + WeatherForecastSampleSize]
    ensures WeatherForecastSampleAt(a, at) == WeatherForecastSampleAt(b, at)
  {
    assert forall k :: at <= k < at + WeatherForecastSampleSize ==> a[k] == a[at..at + WeatherForecastSampleSize][k - at] == b[k];
  }

  /** The 21 `MarshalZone` blocks the loop reads, 5 bytes apart from `at`. */
  function MarshalZoneBlocks(buf: Buffer, at: nat): seq<Result<MarshalZone>>
  {
    seq(21, i requires 0 <= i < 21 => MarshalZoneAt(buf, at + 5 * i))
  }

  /** The 21 blocks from `at` fit in the buffer and each of their signed
      bytes is at most 127. */
  predicate MarshalZoneBlocksValid(buf: Buffer, at: nat)
  {
    at + 5 * 21 <= |buf|
    && forall i :: 0 <= i < 21 ==>
         buf[at + 5 * i + 4] <= 127
  }

  /** Blocks that all decode fit in the buffer and hold no signed byte above 127. */
  lemma MarshalZoneBlocksNeedValid(buf: Buffer, at: nat)
    requires Collect(MarshalZoneBlocks(buf, at)).Ok?
    ensures MarshalZoneBlocksValid(buf, at)
  {
    assert MarshalZoneBlocks(buf, at)[20].Ok?;
    forall i | 0 <= i < 21
      ensures at + 5 * i + 4 < |buf| && buf[at + 5 * i + 4] <= 127
    {
      assert MarshalZoneBlocks(buf, at)[i].Ok?;
    }
  }

  /** All 21 blocks decode exactly when they fit in the buffer and no signed
      byte in them is above 127. */
  lemma {:induction false} MarshalZoneBlocksSucceed(buf: Buffer, at: nat)
    ensures Collect(MarshalZoneBlocks(buf, at)).Ok? <==> MarshalZoneBlocksValid(buf, at)
  {
    if MarshalZoneBlocksValid(buf, at) {
      forall i | 0 <= i < 21 ensures MarshalZoneBlocks(buf, at)[i].Ok? {
        assert at + 5 * i + 5 <= |buf|;
        assert buf[at + 5 * i + 4] <= 127;
      }
    }
    if Collect(MarshalZoneBlocks(buf, at)).Ok? {
      MarshalZoneBlocksNeedValid(buf, at);
    }
  }

  /** The 21-iteration loop: it stores block `i` in slot `i`, and ends
      the decode at the first block that throws. */
  method ReadMarshalZoneArray(buf: Buffer, at: nat) returns (r: Result<seq<MarshalZone>>, next: nat)
    ensures r == Collect(MarshalZoneBlocks(buf, at))
    ensures r.Ok? ==> next == at + 5 * 21
  {
    next := at;
    var cursor := at;
    var marshalZones := new MarshalZone[21];
    for i := 0 to 21
      invariant cursor == at + 5 * i
      invariant forall k :: 0 <= k < i ==> MarshalZoneBlocks(buf, at)[k] == Ok(marshalZones[k])
    {
      var temp, after := ReadMarshalZone(buf, cursor);
      if temp.Fail? {
        assert MarshalZoneBlocks(buf, at)[i].Fail?;
        return Fail, at;
      }
      marshalZones[i] := temp.value;
      cursor := after;
    }
    CollectAllOk(MarshalZoneBlocks(buf, at), marshalZones[..]);
    r, next := Ok(marshalZones[..]), cursor;
  }

  /** The 56 `WeatherForecastSample` blocks the loop reads, 8 bytes apart from `at`. */
  function WeatherForecastSampleBlocks(buf: Buffer, at: nat): seq<Result<WeatherForecastSample>>
  {
    seq(56, i requires 0 <= i < 56 => WeatherForecastSampleAt(buf, at + 8 * i))
  }

  /** The 56 blocks from `at` fit in the buffer and each of their signed
      bytes is at most 127. */
  predicate WeatherForecastSampleBlocksValid(buf: Buffer, at: nat)
  {
    at + 8 * 56 <= |buf|
    && forall i :: 0 <= i < 56 ==>
         buf[at + 8 * i + 3] <= 127 && buf[at + 8 * i + 4] <= 127 && buf[at + 8 * i + 5] <= 127 && buf[at + 8 * i + 6] <= 127
  }

  /** Blocks that all decode fit in the buffer and hold no signed byte above 127. */
  lemma WeatherForecastSampleBlocksNeedValid(buf: Buffer, at: nat)
    requires Collect(WeatherForecastSampleBlocks(buf, at)).Ok?
    ensures WeatherForecastSampleBlocksValid(buf, at)
  {
    assert WeatherForecastSampleBlocks(buf, at)[55].Ok?;
    forall i | 0 <= i < 56
      ensures at + 8 * i + 3 < |buf| && buf[at + 8 * i + 3] <= 127 && at + 8 * i + 4 < |buf| && buf[at + 8 * i + 4] <= 127 && at + 8 * i + 5 < |buf| && buf[at + 8 * i + 5] <= 127 && at + 8 * i + 6 < |buf| && buf[at + 8 * i + 6] <= 127
    {
      assert WeatherForecastSampleBlocks(buf, at)[i].Ok?;
    }
  }

  /** All 56 blocks decode exactly when they fit in the buffer and no signed
      byte in them is above 127. */
  lemma {:induction false} WeatherForecastSampleBlocksSucceed(buf: Buffer, at: nat)
    ensures Collect(WeatherForecastSampleBlocks(buf, at)).Ok? <==> WeatherForecastSampleBlocksValid(buf, at)
  {
    if WeatherForecastSampleBlocksValid(buf, at) {
      forall i | 0 <= i < 56 ensures WeatherForecastSampleBlocks(buf, at)[i].Ok? {
        assert at + 8 * i + 8 <= |buf|;
        assert buf[at + 8 * i + 3] <= 127;
        assert buf[at + 8 * i + 4] <= 127;
        assert buf[at + 8 * i + 5] <= 127;
        assert buf[at + 8 * i + 6] <= 127;
      }
    }
    if Collect(WeatherForecastSampleBlocks(buf, at)).Ok? {
      WeatherForecastSampleBlocksNeedValid(buf, at);
    }
  }

  /** The 56-iteration loop: it stores block `i` in slot `i`, and ends
      the decode at the first block that throws. */
  method ReadWeatherForecastSampleArray(buf: Buffer, at: nat) returns (r: Result<seq<WeatherForecastSample>>, next: nat)
    ensures r == Collect(WeatherForecastSampleBlocks(buf, at))
    ensures r.Ok? ==> next == at + 8 * 56
  {
    next := at;
    var cursor := at;
    var weatherForecastSamples := new WeatherForecastSample[56];
    for i := 0 to 56
      invariant cursor == at + 8 * i
      invariant forall k :: 0 <= k < i ==> WeatherForecastSampleBlocks(buf, at)[k] == Ok(weatherForecastSamples[k])
    {
      var temp, after := ReadWeatherForecastSample(buf, cursor);
      if temp.Fail? {
        assert WeatherForecastSampleBlocks(buf, at)[i].Fail?;
        return Fail, at;
      }
      weatherForecastSamples[i] := temp.value;
      cursor := after;
    }
    CollectAllOk(WeatherForecastSampleBlocks(buf, at), weatherForecastSamples[..]);
    r, next := Ok(weatherForecastSamples[..]), cursor;
  }

  /** The fields of a decoded `PacketSessionData` object. */
  datatype PacketSessionData = PacketSessionData(
    header: Header,
    weather: uint8,
    trackTemperature: int8,
    airTemperature: int8,
    totalLaps: uint8,
    trackLength: uint16,
    sessionType: uint8,
    trackId: int8,
    formula: uint8,
    sessionTimeLeft: uint16,
    sessionDuration: uint16,
    pitSpeedLimit: uint8,
    gamePaused: uint8,
    isSpectating: uint8,
    spectatorCarIndex: uint8,
    sliProNativeSupport: uint8,
    numMarshalZones: uint8,
    marshalZones: seq<MarshalZone>,
    safetyCarStatus: uint8,
    networkGame: uint8,
    numWeatherForecastSamples: uint8,
    weatherForecastSamples: seq<WeatherForecastSample>,
    forecastAccuracy: uint8,
    aiDifficulty: uint8,
    seasonLinkIdentifier: uint32,
    weekendLinkIdentifier: uint32,
    sessionLinkIdentifier: uint32,
    pitStopWindowIdealLap: uint8,
    pitStopWindowLatestLap: uint8,
    pitStopRejoinPosition: uint8,
    steeringAssist: uint8,
    brakingAssist: uint8,
    gearboxAssist: uint8,
    pitAssist: uint8,
    pitReleaseAssist: uint8,
    ERSAssist: uint8,
    DRSAssist: uint8,
    dynamicRacingLine: uint8,
    dynamicRacingLineType: uint8,
    gameMode: uint8,
    ruleSet: uint8,
    timeOfDay: uint32,
    sessionLength: uint8,
    speedUnitsLeadPlayer: uint8,
    temperatureUnitsLeadPlayer: uint8,
    speedUnitsSecondaryPlayer: uint8,
    temperatureUnitsSecondaryPlayer: uint8,
    numSafetyCarPeriods: uint8,
    numVirtualSafetyCarPeriods: uint8,
    numRedFlagPeriods: uint8)

  /** The shortest datagram the decoder accepts. */
  const PacketSessionDataLength: nat := 644

  /** The record the bytes denote: the record header, then every field
      read at its absolute offset; any read that throws makes it a failure. */
  function PacketSessionDataOf(buf: Buffer): Result<PacketSessionData>
  {
    var header :- RecordHeader(buf, true);
    var weather :- ReadU8(buf, 29);
    var trackTemperature :- ReadS8(buf, 30);
    var airTemperature :- ReadS8(buf, 31);
    var totalLaps :- ReadU8(buf, 32);
    var trackLength :- ReadU16(buf, 33);
    var sessionType :- ReadU8(buf, 35);
    var trackId :- ReadS8(buf, 36);
    var formula :- ReadU8(buf, 37);
    var sessionTimeLeft :- ReadU16(buf, 38);
    var sessionDuration :- ReadU16(buf, 40);
    var pitSpeedLimit :- ReadU8(buf, 42);
    var gamePaused :- ReadU8(buf, 43);
    var isSpectating :- ReadU8(buf, 44);
    var spectatorCarIndex :- ReadU8(buf, 45);
    var sliProNativeSupport :- ReadU8(buf, 46);
    var numMarshalZones :- ReadU8(buf, 47);
    var marshalZones :- Collect(MarshalZoneBlocks(buf, 48));
    var safetyCarStatus :- ReadU8(buf, 153);
    var networkGame :- ReadU8(buf, 154);
    var numWeatherForecastSamples :- ReadU8(buf, 155);
    var weatherForecastSamples :- Collect(WeatherForecastSampleBlocks(buf, 156));
    var forecastAccuracy :- ReadU8(buf, 604);
    var aiDifficulty :- ReadU8(buf, 605);
    var seasonLinkIdentifier :- ReadU32(buf, 606);
    var weekendLinkIdentifier :- ReadU32(buf, 610);
    var sessionLinkIdentifier :- ReadU32(buf, 614);
    var pitStopWindowIdealLap :- ReadU8(buf, 618);
    var pitStopWindowLatestLap :- ReadU8(buf, 619);
    var pitStopRejoinPosition :- ReadU8(buf, 620);
    var steeringAssist :- ReadU8(buf, 621);
    var brakingAssist :- ReadU8(buf, 622);
    var gearboxAssist :- ReadU8(buf, 623);
    var pitAssist :- ReadU8(buf, 624);
    var pitReleaseAssist :- ReadU8(buf, 625);
    var ERSAssist :- ReadU8(buf, 626);
    var DRSAssist :- ReadU8(buf, 627);
    var dynamicRacingLine :- ReadU8(buf, 628);
    var dynamicRacingLineType :- ReadU8(buf, 629);
    var gameMode :- ReadU8(buf, 630);
    var ruleSet :- ReadU8(buf, 631);
    var timeOfDay :- ReadU32(buf, 632);
    var sessionLength :- ReadU8(buf, 636);
    var speedUnitsLeadPlayer :- ReadU8(buf, 637);
    var temperatureUnitsLeadPlayer :- ReadU8(buf, 638);
    var speedUnitsSecondaryPlayer :- ReadU8(buf, 639);
    var temperatureUnitsSecondaryPlayer :- ReadU8(buf, 640);
    var numSafetyCarPeriods :- ReadU8(buf, 641);
    var numVirtualSafetyCarPeriods :- ReadU8(buf, 642);
    var numRedFlagPeriods :- ReadU8(buf, 643);
    Ok(PacketSessionData(header, weather, trackTemperature, airTemperature, totalLaps,
      trackLength, sessionType, trackId, formula, sessionTimeLeft, sessionDuration,
      pitSpeedLimit, gamePaused, isSpectating, spectatorCarIndex, sliProNativeSupport,
      numMarshalZones, marshalZones, safetyCarStatus, networkGame, numWeatherForecastSamples,
      weatherForecastSamples, forecastAccuracy, aiDifficulty, seasonLinkIdentifier,
      weekendLinkIdentifier, sessionLinkIdentifier, pitStopWindowIdealLap,
      pitStopWindowLatestLap, pitStopRejoinPosition, steeringAssist, brakingAssist,
      gearboxAssist, pitAssist, pitReleaseAssist, ERSAssist, DRSAssist, dynamicRacingLine,
      dynamicRacingLineType, gameMode, ruleSet, timeOfDay, sessionLength, speedUnitsLeadPlayer,
      temperatureUnitsLeadPlayer, speedUnitsSecondaryPlayer, temperatureUnitsSecondaryPlayer,
      numSafetyCarPeriods, numVirtualSafetyCarPeriods, numRedFlagPeriods))
  }

  /** Every byte that goes through `Convert.ToSByte` is at most 127. */
  predicate PacketSessionDataSignedBytesValid(buf: Buffer)
    requires |buf| >= PacketSessionDataLength
  {
    buf[30] <= 127
    && buf[31] <= 127
    && buf[36] <= 127
    && MarshalZoneBlocksValid(buf, 48)
    && WeatherForecastSampleBlocksValid(buf, 156)
  }

  /** The `PacketSessionData` constructor: `base(data)` and the header overwrite, then
      a cursor from offset 29 through every field and fixed-count loop. */
  method DecodeSessionData(buf: Buffer) returns (r: Result<PacketSessionData>)
    ensures r == PacketSessionDataOf(buf)
  {
    var header :- RecordHeader(buf, true);
    var cursor: nat := 29;
    var weather :- ReadU8(buf, cursor);
    cursor := cursor + 1;
    var trackTemperature :- ReadS8(buf, cursor);
    cursor := cursor + 1;
    var airTemperature :- ReadS8(buf, cursor);
    cursor := cursor + 1;
    var totalLaps :- ReadU8(buf, cursor);
    cursor := cursor + 1;
    var trackLength :- ReadU16(buf, cursor);
    cursor := cursor + 2;
    var sessionType :- ReadU8(buf, cursor);
    cursor := cursor + 1;
    var trackId :- ReadS8(buf, cursor);
    cursor := cursor + 1;
    var formula :- ReadU8(buf, cursor);
    cursor := cursor + 1;
    var sessionTimeLeft :- ReadU16(buf, cursor);
    cursor := cursor + 2;
    var sessionDuration :- ReadU16(buf, cursor);
    cursor := cursor + 2;
    var pitSpeedLimit :- ReadU8(buf, cursor);
    cursor := cursor + 1;
    var gamePaused :- ReadU8(buf, cursor);
    cursor := cursor + 1;
    var isSpectating :- ReadU8(buf, cursor);
    cursor := cursor + 1;
    var spectatorCarIndex :- ReadU8(buf, cursor);
    cursor := cursor + 1;
    var sliProNativeSupport :- ReadU8(buf, cursor);
    cursor := cursor + 1;
    var numMarshalZones :- ReadU8(buf, cursor);
    cursor := cursor + 1;
    var marshalZones;
    marshalZones, cursor :- ReadMarshalZoneArray(buf, cursor);
    var safetyCarStatus :- ReadU8(buf, cursor);
    cursor := cursor + 1;
    var networkGame :- ReadU8(buf, cursor);
    cursor := cursor + 1;
    var numWeatherForecastSamples :- ReadU8(buf, cursor);
    cursor := cursor + 1;
    var weatherForecastSamples;
    weatherForecastSamples, cursor :- ReadWeatherForecastSampleArray(buf, cursor);
    var forecastAccuracy :- ReadU8(buf, cursor);
    cursor := cursor + 1;
    var aiDifficulty :- ReadU8(buf, cursor);
    cursor := cursor + 1;
    var seasonLinkIdentifier :- ReadU32(buf, cursor);
    cursor := cursor + 4;
    var weekendLinkIdentifier :- ReadU32(buf, cursor);
    cursor := cursor + 4;
    var sessionLinkIdentifier :- ReadU32(buf, cursor);
    cursor := cursor + 4;
    var pitStopWindowIdealLap :- ReadU8(buf, cursor);
    cursor := cursor + 1;
    var pitStopWindowLatestLap :- ReadU8(buf, cursor);
    cursor := cursor + 1;
    var pitStopRejoinPosition :- ReadU8(buf, cursor);
    cursor := cursor + 1;
    var steeringAssist :- ReadU8(buf, cursor);
    cursor := cursor + 1;
    var brakingAssist :- ReadU8(buf, cursor);
    cursor := cursor + 1;
    var gearboxAssist :- ReadU8(buf, cursor);
    cursor := cursor + 1;
    var pitAssist :- ReadU8(buf, cursor);
    cursor := cursor + 1;
    var pitReleaseAssist :- ReadU8(buf, cursor);
    cursor := cursor + 1;
    var ERSAssist :- ReadU8(buf, cursor);
    cursor := cursor + 1;
    var DRSAssist :- ReadU8(buf, cursor);
    cursor := cursor + 1;
    var dynamicRacingLine :- ReadU8(buf, cursor);
    cursor := cursor + 1;
    var dynamicRacingLineType :- ReadU8(buf, cursor);
    cursor := cursor + 1;
    var gameMode :- ReadU8(buf, cursor);
    cursor := cursor + 1;
    var ruleSet :- ReadU8(buf, cursor);
    cursor := cursor + 1;
    var timeOfDay :- ReadU32(buf, cursor);
    cursor := cursor + 4;
    var sessionLength :- ReadU8(buf, cursor);
    cursor := cursor + 1;
    var speedUnitsLeadPlayer :- ReadU8(buf, cursor);
    cursor := cursor + 1;
    var temperatureUnitsLeadPlayer :- ReadU8(buf, cursor);
    cursor := cursor + 1;
    var speedUnitsSecondaryPlayer :- ReadU8(buf, cursor);
    cursor := cursor + 1;
    var temperatureUnitsSecondaryPlayer :- ReadU8(buf, cursor);
    cursor := cursor + 1;
    var numSafetyCarPeriods :- ReadU8(buf, cursor);
    cursor := cursor + 1;
    var numVirtualSafetyCarPeriods :- ReadU8(buf, cursor);
    cursor := cursor + 1;
    var numRedFlagPeriods :- ReadU8(buf, cursor);
    cursor := cursor + 1;
    r := Ok(PacketSessionData(header, weather, trackTemperature, airTemperature, totalLaps,
      trackLength, sessionType, trackId, formula, sessionTimeLeft, sessionDuration,
      pitSpeedLimit, gamePaused, isSpectating, spectatorCarIndex, sliProNativeSupport,
      numMarshalZones, marshalZones, safetyCarStatus, networkGame, numWeatherForecastSamples,
      weatherForecastSamples, forecastAccuracy, aiDifficulty, seasonLinkIdentifier,
      weekendLinkIdentifier, sessionLinkIdentifier, pitStopWindowIdealLap,
      pitStopWindowLatestLap, pitStopRejoinPosition, steeringAssist, brakingAssist,
      gearboxAssist, pitAssist, pitReleaseAssist, ERSAssist, DRSAssist, dynamicRacingLine,
      dynamicRacingLineType, gameMode, ruleSet, timeOfDay, sessionLength, speedUnitsLeadPlayer,
      temperatureUnitsLeadPlayer, speedUnitsSecondaryPlayer, temperatureUnitsSecondaryPlayer,
      numSafetyCarPeriods, numVirtualSafetyCarPeriods, numRedFlagPeriods));
  }

  /** The decode succeeds exactly when the datagram has 644 bytes and no
      signed field is above 127. */
  lemma {:induction false} PacketSessionDataSucceeds(buf: Buffer)
    ensures PacketSessionDataOf(buf).Ok? <==> |buf| >= PacketSessionDataLength && PacketSessionDataSignedBytesValid(buf)
  {
    RecordHeaderLayout(buf, true);
    MarshalZoneBlocksSucceed(buf, 48);
    WeatherForecastSampleBlocksSucceed(buf, 156);
  }

  /** Where each field of a decoded record comes from: the record header,
      the scalars at their absolute offsets, and entry `i` of each array from
      block `i`, in wire order. */
  lemma PacketSessionDataLayout(buf: Buffer)
    requires PacketSessionDataOf(buf).Ok?
    ensures var p := PacketSessionDataOf(buf).value;
      p.header == RecordHeader(buf, true).value
      && p.weather == buf[29]
      && p.trackTemperature == S8At(buf, 30)
      && p.airTemperature == S8At(buf, 31)
      && p.totalLaps == buf[32]
      && p.trackLength == U16At(buf, 33)
      && p.sessionType == buf[35]
      && p.trackId == S8At(buf, 36)
      && p.formula == buf[37]
      && p.sessionTimeLeft == U16At(buf, 38)
      && p.sessionDuration == U16At(buf, 40)
      && p.pitSpeedLimit == buf[42]
      && p.gamePaused == buf[43]
      && p.isSpectating == buf[44]
      && p.spectatorCarIndex == buf[45]
      && p.sliProNativeSupport == buf[46]
      && p.numMarshalZones == buf[47]
      && |p.marshalZones| == 21
      && (forall i :: 0 <= i < 21 ==> MarshalZoneAt(buf, 48 + 5 * i) == Ok(p.marshalZones[i]))
      && p.safetyCarStatus == buf[153]
      && p.networkGame == buf[154]
      && p.numWeatherForecastSamples == buf[155]
      && |p.weatherForecastSamples| == 56
      && (forall i :: 0 <= i < 56 ==> WeatherForecastSampleAt(buf, 156 + 8 * i) == Ok(p.weatherForecastSamples[i]))
      && p.forecastAccuracy == buf[604]
      && p.aiDifficulty == buf[605]
      && p.seasonLinkIdentifier == U32At(buf, 606)
      && p.weekendLinkIdentifier == U32At(buf, 610)
      && p.sessionLinkIdentifier == U32At(buf, 614)
      && p.pitStopWindowIdealLap == buf[618]
      && p.pitStopWindowLatestLap == buf[619]
      && p.pitStopRejoinPosition == buf[620]
      && p.steeringAssist == buf[621]
      && p.brakingAssist == buf[622]
      && p.gearboxAssist == buf[623]
      && p.pitAssist == buf[624]
      && p.pitReleaseAssist == buf[625]
      && p.ERSAssist == buf[626]
      && p.DRSAssist == buf[627]
      && p.dynamicRacingLine == buf[628]
      && p.dynamicRacingLineType == buf[629]
      && p.gameMode == buf[630]
      && p.ruleSet == buf[631]
      && p.timeOfDay == U32At(buf, 632)
      && p.sessionLength == buf[636]
      && p.speedUnitsLeadPlayer == buf[637]
      && p.temperatureUnitsLeadPlayer == buf[638]
      && p.speedUnitsSecondaryPlayer == buf[639]
      && p.temperatureUnitsSecondaryPlayer == buf[640]
      && p.numSafetyCarPeriods == buf[641]
      && p.numVirtualSafetyCarPeriods == buf[642]
      && p.numRedFlagPeriods == buf[643]
  {
    PacketSessionDataSucceeds(buf);
  }

  /** `numMarshalZones` is stored but bounds no loop: overwriting its byte changes
      that field of the record and nothing else. */
  lemma {:induction false} NumMarshalZonesIgnored(buf: Buffer, v: uint8)
    requires 47 < |buf|
    ensures PacketSessionDataOf(buf[47 := v]).Ok? <==> PacketSessionDataOf(buf).Ok?
    ensures PacketSessionDataOf(buf).Ok? ==> PacketSessionDataOf(buf[47 := v]).value == PacketSessionDataOf(buf).value.(numMarshalZones := v)
  {
    var b := buf[47 := v];
    assert |b| == |buf| && forall k :: 0 <= k < |buf| && k != 47 ==> b[k] == buf[k];
    PacketSessionDataSucceeds(buf);
    PacketSessionDataSucceeds(b);
    if |buf| >= PacketSessionDataLength {
      assert PacketSessionDataSignedBytesValid(b) == PacketSessionDataSignedBytesValid(buf);
    }
    if PacketSessionDataOf(buf).Ok? {
      assert b[..25] == buf[..25];
      RecordHeaderLocal(b, buf, true);
      forall i | 0 <= i < 21
        ensures MarshalZoneAt(b, 48 + 5 * i) == MarshalZoneAt(buf, 48 + 5 * i)
      {
        var at := 48 + 5 * i;
        assert b[at..at + 5] == buf[at..at + 5];
        MarshalZoneAtLocal(b, buf, at);
      }
      forall i | 0 <= i < 56
        ensures WeatherForecastSampleAt(b, 156 + 8 * i) == WeatherForecastSampleAt(buf, 156 + 8 * i)
      {
        var at := 156 + 8 * i;
        assert b[at..at + 8] == buf[at..at + 8];
        WeatherForecastSampleAtLocal(b, buf, at);
      }
      PacketSessionDataLayout(buf);
      PacketSessionDataLayout(b);
      assert PacketSessionDataOf(b).value.marshalZones == PacketSessionDataOf(buf).value.marshalZones;
      assert PacketSessionDataOf(b).value.weatherForecastSamples == PacketSessionDataOf(buf).value.weatherForecastSamples;
    }
  }

  /** `numWeatherForecastSamples` is stored but bounds no loop: overwriting its byte changes
      that field of the record and nothing else. */
  lemma {:induction false} NumWeatherForecastSamplesIgnored(buf: Buffer, v: uint8)
    requires 155 < |buf|
    ensures PacketSessionDataOf(buf[155 := v]).Ok? <==> PacketSessionDataOf(buf).Ok?
    ensures PacketSessionDataOf(buf).Ok? ==> PacketSessionDataOf(buf[155 := v]).value == PacketSessionDataOf(buf).value.(numWeatherForecastSamples := v)
  {
    var b := buf[155 := v];
    assert |b| == |buf| && forall k :: 0 <= k < |buf| && k != 155 ==> b[k] == buf[k];
    PacketSessionDataSucceeds(buf);
    PacketSessionDataSucceeds(b);
    if |buf| >= PacketSessionDataLength {
      assert PacketSessionDataSignedBytesValid(b) == PacketSessionDataSignedBytesValid(buf);
    }
    if PacketSessionDataOf(buf).Ok? {
      assert b[..25] == buf[..25];
      RecordHeaderLocal(b, buf, true);
      forall i | 0 <= i < 21
        ensures MarshalZoneAt(b, 48 + 5 * i) == MarshalZoneAt(buf, 48 + 5 * i)
      {
        var at := 48 + 5 * i;
        assert b[at..at + 5] == buf[at..at + 5];
        MarshalZoneAtLocal(b, buf, at);
      }
      forall i | 0 <= i < 56
        ensures WeatherForecastSampleAt(b, 156 + 8 * i) == WeatherForecastSampleAt(buf, 156 + 8 * i)
      {
        var at := 156 + 8 * i;
        assert b[at..at + 8] == buf[at..at + 8];
        WeatherForecastSampleAtLocal(b, buf, at);
      }
      PacketSessionDataLayout(buf);
      PacketSessionDataLayout(b);
      assert PacketSessionDataOf(b).value.marshalZones == PacketSessionDataOf(buf).value.marshalZones;
      assert PacketSessionDataOf(b).value.weatherForecastSamples == PacketSessionDataOf(buf).value.weatherForecastSamples;
    }
  }

  /** An unknown track is reported as track id -1, the byte 255, which
      `Convert.ToSByte` rejects, so the whole datagram fails. */
  lemma {:induction false} UnknownTrackRejected(buf: Buffer)
    requires 36 < |buf| && buf[36] > 127
    ensures PacketSessionDataOf(buf).Fail?
  {
    PacketSessionDataSucceeds(buf);
  }

  /** Likewise a marshal zone whose flag is -1 (invalid or unknown). */
  lemma {:induction false} UnknownZoneFlagRejected(buf: Buffer, i: nat)
    requires i < 21 && 48 + 5 * i + 4 < |buf|
    requires buf[48 + 5 * i + 4] > 127
    ensures PacketSessionDataOf(buf).Fail?
  {
    PacketSessionDataSucceeds(buf);
    assert buf[48 + 5 * i + 4] > 127;
  }
}
