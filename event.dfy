/** The event packet: a four-letter code, then a payload whose layout the
    code selects. The constructor parses inside a try block whose handler
    only logs, so a read past the end or an unknown code leaves a partly
    filled record rather than a failure. */
module EventPacket {
  import opened Bytes
  import opened Enums
  import opened PacketHeader

  /** The details object attached for each code. `SpeedTrapEvent.speed` is a
      float assigned from one byte, so it holds that byte's value exactly and
      is kept as the byte. The overtake details are never attached, so they
      have no variant here. */
  datatype EventDetails =
    | SessionStartEvent
    | SessionEndEvent
    | FastestLapEvent(vehicleIndex: uint8, lapTime: f32)
    | RetirementEvent(vehicleIndex: uint8)
    | DRSEnabledEvent
    | DRSDisabledEvent
    | TeamMateInPitsEvent(vehicleIndex: uint8)
    | ChequeredFlagEvent
    | RaceWinnerEvent(vehicleIndex: uint8)
    | PenaltyEvent(penaltyType: uint8, infringementType: uint8, vehicleIndex: uint8,
                   otherVehicleIndex: uint8, time: uint8, lapNum: uint8, placesGained: uint8)
    | SpeedTrapEvent(vehicleIndex: uint8, speed: uint8, isOverallFastestInSession: uint8,
                     isDriverFastestInSession: uint8, fastestVehicleIndexInSession: uint8)
    | StartLightsEvent(numLights: uint8)
    | LightsOutEvent
    | DriveThroughPenaltyServedEvent(vehicleIndex: uint8)
    | StopGoPenaltyServedEvent(vehicleIndex: uint8)
    | FlashbackEvent(flashbackFrameIdentifier: uint32, flashbackSessionTime: f32)
    | ButtonsEvent(buttonStatus: uint32)
  {
    /** The code whose switch case creates details of this kind. */
    function Code(): (c: EventCode)
      ensures c != OVTK
    {
      match this
      case SessionStartEvent => SSTA
      case SessionEndEvent => SEND
      case FastestLapEvent(_, _) => FTLP
      case RetirementEvent(_) => RTMT
      case DRSEnabledEvent => DRSE
      case DRSDisabledEvent => DRSD
      case TeamMateInPitsEvent(_) => TMPT
      case ChequeredFlagEvent => CHQF
      case RaceWinnerEvent(_) => RCWN
      case PenaltyEvent(_, _, _, _, _, _, _) => PENA
      case SpeedTrapEvent(_, _, _, _, _) => SPTP
      case StartLightsEvent(_) => STLG
      case LightsOutEvent => LGOT
      case DriveThroughPenaltyServedEvent(_) => DTSV
      case StopGoPenaltyServedEvent(_) => SGSV
      case FlashbackEvent(_, _) => FLBK
      case ButtonsEvent(_) => BUTN
    }
  }

  /** The public fields of a decoded `PacketEventData` object; a null
      `eventDetails` is `None`. */
  datatype PacketEventData = PacketEventData(
    header: Header,
    eventType: EventCode,
    eventName: EventName,
    eventDetails: Option<EventDetails>)

  /** The event code occupies bytes 29..32; the payload starts after it. */
  const EventCodeOffset: nat := 29
  const PayloadOffset: nat := 33

  /** How many payload bytes each switch case reads. */
  function PayloadSize(c: EventCode): nat
  {
    match c
    case FTLP => 5
    case RTMT => 1
    case TMPT => 1
    case RCWN => 1
    case PENA => 7
    case SPTP => 5
    case STLG => 1
    case DTSV => 1
    case SGSV => 1
    case FLBK => 8
    case BUTN => 4
    case OVTK => 2
    case _ => 0
  }

  /** The switch case for code `c`: the details it builds from the payload
      at offset 33, `Ok(None)` for the overtake case, which reads its two
      bytes and attaches nothing, or a failure when a read throws. */
  function EventDetailsAt(buf: Buffer, c: EventCode): Result<Option<EventDetails>>
  {
    match c
    case SSTA => Ok(Some(SessionStartEvent))
    case SEND => Ok(Some(SessionEndEvent))
    case FTLP =>
      var vehicleIndex :- ReadU8(buf, 33);
      var lapTime :- ReadF32(buf, 34);
      Ok(Some(FastestLapEvent(vehicleIndex, lapTime)))
    case RTMT =>
      var vehicleIndex :- ReadU8(buf, 33);
      Ok(Some(RetirementEvent(vehicleIndex)))
    case DRSE => Ok(Some(DRSEnabledEvent))
    case DRSD => Ok(Some(DRSDisabledEvent))
    case TMPT =>
      var vehicleIndex :- ReadU8(buf, 33);
      Ok(Some(TeamMateInPitsEvent(vehicleIndex)))
    case CHQF => Ok(Some(ChequeredFlagEvent))
    case RCWN =>
      var vehicleIndex :- ReadU8(buf, 33);
      Ok(Some(RaceWinnerEvent(vehicleIndex)))
    case PENA =>
      var penaltyType :- ReadU8(buf, 33);
      var infringementType :- ReadU8(buf, 34);
      var vehicleIndex :- ReadU8(buf, 35);
      var otherVehicleIndex :- ReadU8(buf, 36);
      var time :- ReadU8(buf, 37);
      var lapNum :- ReadU8(buf, 38);
      var placesGained :- ReadU8(buf, 39);
      Ok(Some(PenaltyEvent(penaltyType, infringementType, vehicleIndex, otherVehicleIndex,
                           time, lapNum, placesGained)))
    case SPTP =>
      var vehicleIndex :- ReadU8(buf, 33);
      var speed :- ReadU8(buf, 34);
      var isOverall :- ReadU8(buf, 35);
      var isDriver :- ReadU8(buf, 36);
      var fastest :- ReadU8(buf, 37);
      Ok(Some(SpeedTrapEvent(vehicleIndex, speed, isOverall, isDriver, fastest)))
    case STLG =>
      var numLights :- ReadU8(buf, 33);
      Ok(Some(StartLightsEvent(numLights)))
    case LGOT => Ok(Some(LightsOutEvent))
    case DTSV =>
      var vehicleIndex :- ReadU8(buf, 33);
      Ok(Some(DriveThroughPenaltyServedEvent(vehicleIndex)))
    case SGSV =>
      var vehicleIndex :- ReadU8(buf, 33);
      Ok(Some(StopGoPenaltyServedEvent(vehicleIndex)))
    case FLBK =>
      var frame :- ReadU32(buf, 33);
      var time :- ReadF32(buf, 37);
      Ok(Some(FlashbackEvent(frame, time)))
    case BUTN =>
      var status :- ReadU32(buf, 33);
      Ok(Some(ButtonsEvent(status)))
    case OVTK =>
      var _ :- ReadU8(buf, 33);
      var _ :- ReadU8(buf, 34);
      Ok(None)
  }

  /** The record the bytes denote. `base(data)` runs outside the try block,
      so a datagram too short for it is a failure. Inside it, a short code
      or an unknown one leaves the defaults; a known code is stored at once,
      and its name and details only once the whole payload has been read. */
  function PacketEventDataOf(buf: Buffer): Result<PacketEventData>
  {
    var header :- RecordHeader(buf, true);
    var unset := PacketEventData(header, DefaultEventCode, DefaultEventName, None);
    if |buf| < 33 then Ok(unset)
    else
      match ByteArrayToEventCode(buf[29..33])
      case Fail => Ok(unset)
      case Ok(c) =>
        match EventDetailsAt(buf, c)
        case Ok(Some(d)) => Ok(unset.(eventType := c, eventName := NameOf(c), eventDetails := Some(d)))
        case _ => Ok(unset.(eventType := c))
  }

  /** One switch case, reading with a cursor from offset 33. */
  method ReadEventDetails(buf: Buffer, c: EventCode) returns (r: Result<Option<EventDetails>>)
    ensures r == EventDetailsAt(buf, c)
  {
    var cursor: nat := PayloadOffset;
    match c {
      case SSTA => r := Ok(Some(SessionStartEvent));
      case SEND => r := Ok(Some(SessionEndEvent));
      case FTLP =>
        var vehicleIndex :- ReadU8(buf, cursor);
        cursor := cursor + 1;
        var lapTime :- ReadF32(buf, cursor);
        r := Ok(Some(FastestLapEvent(vehicleIndex, lapTime)));
      case RTMT =>
        var vehicleIndex :- ReadU8(buf, cursor);
        r := Ok(Some(RetirementEvent(vehicleIndex)));
      case DRSE => r := Ok(Some(DRSEnabledEvent));
      case DRSD => r := Ok(Some(DRSDisabledEvent));
      case TMPT =>
        var vehicleIndex :- ReadU8(buf, cursor);
        r := Ok(Some(TeamMateInPitsEvent(vehicleIndex)));
      case CHQF => r := Ok(Some(ChequeredFlagEvent));
      case RCWN =>
        var vehicleIndex :- ReadU8(buf, cursor);
        r := Ok(Some(RaceWinnerEvent(vehicleIndex)));
      case PENA =>
        var penaltyType :- ReadU8(buf, cursor);
        cursor := cursor + 1;
        var infringementType :- ReadU8(buf, cursor);
        cursor := cursor + 1;
        var vehicleIndex :- ReadU8(buf, cursor);
        cursor := cursor + 1;
        var otherVehicleIndex :- ReadU8(buf, cursor);
        cursor := cursor + 1;
        var time :- ReadU8(buf, cursor);
        cursor := cursor + 1;
        var lapNum :- ReadU8(buf, cursor);
        cursor := cursor + 1;
        var placesGained :- ReadU8(buf, cursor);
        r := Ok(Some(PenaltyEvent(penaltyType, infringementType, vehicleIndex,
                                  otherVehicleIndex, time, lapNum, placesGained)));
      case SPTP =>
        var vehicleIndex :- ReadU8(buf, cursor);
        cursor := cursor + 1;
        var speed :- ReadU8(buf, cursor);
        cursor := cursor + 1;
        var isOverall :- ReadU8(buf, cursor);
        cursor := cursor + 1;
        var isDriver :- ReadU8(buf, cursor);
        cursor := cursor + 1;
        var fastest :- ReadU8(buf, cursor);
        r := Ok(Some(SpeedTrapEvent(vehicleIndex, speed, isOverall, isDriver, fastest)));
      case STLG =>
        var numLights :- ReadU8(buf, cursor);
        r := Ok(Some(StartLightsEvent(numLights)));
      case LGOT => r := Ok(Some(LightsOutEvent));
      case DTSV =>
        var vehicleIndex :- ReadU8(buf, cursor);
        r := Ok(Some(DriveThroughPenaltyServedEvent(vehicleIndex)));
      case SGSV =>
        var vehicleIndex :- ReadU8(buf, cursor);
        r := Ok(Some(StopGoPenaltyServedEvent(vehicleIndex)));
      case FLBK =>
        var frame :- ReadU32(buf, cursor);
        cursor := cursor + 4;
        var time :- ReadF32(buf, cursor);
        r := Ok(Some(FlashbackEvent(frame, time)));
      case BUTN =>
        var status :- ReadU32(buf, cursor);
        r := Ok(Some(ButtonsEvent(status)));
      case OVTK =>
        var overtaking :- ReadU8(buf, cursor);
        cursor := cursor + 1;
        var overtaken :- ReadU8(buf, cursor);
        r := Ok(None);
    }
  }

  /** The `PacketEventData` constructor: the fields start at their defaults
      and are assigned in source order; leaving the try block early keeps
      whatever was assigned so far. */
  method DecodeEventData(buf: Buffer) returns (r: Result<PacketEventData>)
    ensures r == PacketEventDataOf(buf)
  {
    var header :- RecordHeader(buf, true);
    var eventType := DefaultEventCode;
    var eventName := DefaultEventName;
    var eventDetails: Option<EventDetails> := None;
    if |buf| >= 33 {
      var eventStringCode := new uint8[4];
      eventStringCode[0] := buf[29];
      eventStringCode[1] := buf[30];
      eventStringCode[2] := buf[31];
      eventStringCode[3] := buf[32];
      assert eventStringCode[..] == buf[29..33];
      var code := ByteArrayToEventCode(eventStringCode[..]);
      if code.Ok? {
        eventType := code.value;
        var details := ReadEventDetails(buf, eventType);
        if details.Ok? && details.value.Some? {
          eventDetails := details.value;
          eventName := NameOf(eventType);
        }
      }
    }
    r := Ok(PacketEventData(header, eventType, eventName, eventDetails));
  }

  /** A switch case throws exactly when its payload runs past the end. */
  lemma EventDetailsSucceeds(buf: Buffer, c: EventCode)
    requires |buf| >= 33
    ensures EventDetailsAt(buf, c).Ok? <==> 33 + PayloadSize(c) <= |buf|
  {
    match c
    case FTLP => ReaderFailures(buf, 33); ReaderFailures(buf, 34);
    case PENA => ReaderFailures(buf, 39);
    case SPTP => ReaderFailures(buf, 37);
    case FLBK => ReaderFailures(buf, 33); ReaderFailures(buf, 37);
    case BUTN => ReaderFailures(buf, 33);
    case OVTK => ReaderFailures(buf, 34);
    case _ => ReaderFailures(buf, 33);
  }

  /** Every switch case but the overtake one yields details of its own code. */
  lemma EventDetailsKind(buf: Buffer, c: EventCode)
    requires EventDetailsAt(buf, c).Ok?
    ensures EventDetailsAt(buf, c).value.Some? <==> c != OVTK
    ensures c != OVTK ==> EventDetailsAt(buf, c).value.value.Code() == c
  {
  }

  /** What a decoded event record holds. It exists exactly when the 25-byte
      base header is there. With no complete known code, every event field
      keeps its default. With a known code `c`, `eventType` is `c`, and the
      details are attached, with name `NameOf(c)` and kind `c`, exactly when
      `c` is not the overtake code and its payload fits; otherwise the name
      stays the default and there are no details. */
  lemma {:induction false} EventDecodeOutcome(buf: Buffer)
    ensures PacketEventDataOf(buf).Ok? <==> |buf| >= 25
    ensures PacketEventDataOf(buf).Ok? ==>
      var p := PacketEventDataOf(buf).value;
      p.header == RecordHeader(buf, true).value
      && (if |buf| < 33 || ByteArrayToEventCode(buf[29..33]).Fail? then
            p.eventType == DefaultEventCode && p.eventName == DefaultEventName
            && p.eventDetails == None
          else
            var c := ByteArrayToEventCode(buf[29..33]).value;
            p.eventType == c
            && (p.eventDetails.Some? <==> c != OVTK && 33 + PayloadSize(c) <= |buf|)
            && (p.eventDetails.Some? ==> p.eventName == NameOf(c) && p.eventDetails.value.Code() == c)
            && (p.eventDetails.None? ==> p.eventName == DefaultEventName))
  {
    RecordHeaderLayout(buf, true);
    if |buf| >= 33 && ByteArrayToEventCode(buf[29..33]).Ok? {
      var c := ByteArrayToEventCode(buf[29..33]).value;
      EventDetailsSucceeds(buf, c);
      if EventDetailsAt(buf, c).Ok? {
        EventDetailsKind(buf, c);
      }
    }
  }

  /** A sender's datagram round-trips: the code written as its four letters
      at offset 29, with a payload that fits, decodes to that code, its
      name, and details of its kind. */
  lemma {:induction false} KnownCodeDecoded(buf: Buffer, c: EventCode)
    requires c != OVTK && 33 + PayloadSize(c) <= |buf|
    requires buf[29..33] == CodeBytes(c)
    ensures PacketEventDataOf(buf).Ok?
    ensures PacketEventDataOf(buf).value.eventType == c
    ensures PacketEventDataOf(buf).value.eventName == NameOf(c)
    ensures PacketEventDataOf(buf).value.eventDetails.Some?
    ensures PacketEventDataOf(buf).value.eventDetails.value.Code() == c
  {
    EventCodeRoundTrip(c);
    EventDecodeOutcome(buf);
  }

  /** Four bytes that spell no code decode like a session start in type and
      name, and only the missing details tell the two apart. */
  lemma {:induction false} UnknownCodeKeepsDefaults(buf: Buffer)
    requires |buf| >= 33
    requires forall c: EventCode :: buf[29..33] != CodeBytes(c)
    ensures PacketEventDataOf(buf).Ok?
    ensures PacketEventDataOf(buf).value.eventType == SSTA
    ensures PacketEventDataOf(buf).value.eventName == SessionStart
    ensures PacketEventDataOf(buf).value.eventDetails == None
  {
    EventDecodeOutcome(buf);
    if ByteArrayToEventCode(buf[29..33]).Ok? {
      EventCodeExact(buf[29..33], ByteArrayToEventCode(buf[29..33]).value);
    }
  }

  /** A truncated payload leaves a record whose type and name disagree: a
      fastest-lap code with no payload gives type `FTLP` but name
      `SessionStart`. */
  lemma TruncatedPayloadMismatch()
    ensures var buf: Buffer := seq(29, _ => 0) + CodeBytes(FTLP);
      PacketEventDataOf(buf) == Ok(PacketEventData(RecordHeader(buf, true).value, FTLP,
                                                   SessionStart, None))
  {
    var buf: Buffer := seq(29, _ => 0) + CodeBytes(FTLP);
    assert buf[29..33] == CodeBytes(FTLP);
    EventCodeRoundTrip(FTLP);
    RecordHeaderLayout(buf, true);
  }
}
