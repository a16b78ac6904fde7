/** The closed sets the decoders and the dispatch rely on: packet kinds,
    wheel order, and the event codes with their readable names. */
module Enums {
  import opened Bytes

  /** The packet kinds, with the ids the header's packet-id byte carries. */
  datatype PacketType =
    | Motion | Session | LapData | Event | Participants | CarSetups
    | CarTelemetery | CarStatus | FinalClassification | LobbyInfo
    | CarDamage | SessionHistory | TyreSets | MotionExtra
  {
    function Id(): (id: uint8)
      ensures id < 14
    {
      match this
      case Motion => 0
      case Session => 1
      case LapData => 2
      case Event => 3
      case Participants => 4
      case CarSetups => 5
      case CarTelemetery => 6
      case CarStatus => 7
      case FinalClassification => 8
      case LobbyInfo => 9
      case CarDamage => 10
      case SessionHistory => 11
      case TyreSets => 12
      case MotionExtra => 13
    }
  }

  /** The cast `(PacketType)id` followed by a switch over the named members:
      the kind whose id it is, or none for an id that names no member. */
  function PacketTypeOf(id: uint8): (t: Option<PacketType>)
    ensures t.Some? <==> id < 14
    ensures t.Some? ==> t.value.Id() == id
  {
    match id
    case 0 => Some(Motion)
    case 1 => Some(Session)
    case 2 => Some(LapData)
    case 3 => Some(Event)
    case 4 => Some(Participants)
    case 5 => Some(CarSetups)
    case 6 => Some(CarTelemetery)
    case 7 => Some(CarStatus)
    case 8 => Some(FinalClassification)
    case 9 => Some(LobbyInfo)
    case 10 => Some(CarDamage)
    case 11 => Some(SessionHistory)
    case 12 => Some(TyreSets)
    case 13 => Some(MotionExtra)
    case _ => None
  }

  /** Ids and kinds are in one-to-one correspondence: every kind's id maps
      back to that kind, and distinct kinds have distinct ids. */
  lemma PacketTypeRoundTrip(t: PacketType, u: PacketType)
    ensures PacketTypeOf(t.Id()) == Some(t)
    ensures t.Id() == u.Id() ==> t == u
  {
    assert PacketTypeOf(t.Id()).value.Id() == t.Id();
    match t
    case Motion =>
    case Session =>
    case LapData =>
    case Event =>
    case Participants =>
    case CarSetups =>
    case CarTelemetery =>
    case CarStatus =>
    case FinalClassification =>
    case LobbyInfo =>
    case CarDamage =>
    case SessionHistory =>
    case TyreSets =>
    case MotionExtra =>
  }

  /** The default value of a `PacketType` field: the member with id 0. */
  const DefaultPacketType: PacketType := Motion

  /** The wheel order of every four-element wheel array. */
  datatype Tyre = RearLeft | RearRight | FrontLeft | FrontRight
  {
    function Ordinal(): (k: nat)
      ensures k < 4
    {
      match this
      case RearLeft => 0
      case RearRight => 1
      case FrontLeft => 2
      case FrontRight => 3
    }
  }

  /** The wheel stored at index `k` of a wheel array. */
  function TyreAt(k: nat): (t: Tyre)
    requires k < 4
    ensures t.Ordinal() == k
  {
    [RearLeft, RearRight, FrontLeft, FrontRight][k]
  }

  /** The four-letter event string codes, in declaration order. */
  datatype EventCode =
    | SSTA | SEND | FTLP | RTMT | DRSE | DRSD | TMPT | CHQF | RCWN
    | PENA | SPTP | STLG | LGOT | DTSV | SGSV | FLBK | BUTN | OVTK
  {
    /** The implicit ordinal of the member. */
    function Ordinal(): (k: nat)
      ensures k < 18
    {
      match this
      case SSTA => 0  case SEND => 1  case FTLP => 2  case RTMT => 3
      case DRSE => 4  case DRSD => 5  case TMPT => 6  case CHQF => 7
      case RCWN => 8  case PENA => 9  case SPTP => 10 case STLG => 11
      case LGOT => 12 case DTSV => 13 case SGSV => 14 case FLBK => 15
      case BUTN => 16 case OVTK => 17
    }

    /** The member's identifier, the string `Enum.TryParse` matches. */
    function Name(): string
    {
      match this
      case SSTA => "SSTA" case SEND => "SEND" case FTLP => "FTLP"
      case RTMT => "RTMT" case DRSE => "DRSE" case DRSD => "DRSD"
      case TMPT => "TMPT" case CHQF => "CHQF" case RCWN => "RCWN"
      case PENA => "PENA" case SPTP => "SPTP" case STLG => "STLG"
      case LGOT => "LGOT" case DTSV => "DTSV" case SGSV => "SGSV"
      case FLBK => "FLBK" case BUTN => "BUTN" case OVTK => "OVTK"
    }
  }

  /** The default value of an `EventCode` field: the member with ordinal 0. */
  const DefaultEventCode: EventCode := SSTA

  /** The readable event names, in the same order as the codes. */
  datatype EventName =
    | SessionStart | SessionEnd | FastestLap | Retirement | DRSEnabled
    | DRSDisabled | TeammateInPits | ChequeredFlag | RaceWinner | Penalty
    | SpeedTrapTriggered | StartLights | LightsOut | DriveThroughPenaltyServed
    | StopGoPenaltyServed | Flashback | Button | Overtake
  {
    function Ordinal(): (k: nat)
      ensures k < 18
    {
      match this
      case SessionStart => 0 case SessionEnd => 1 case FastestLap => 2
      case Retirement => 3 case DRSEnabled => 4 case DRSDisabled => 5
      case TeammateInPits => 6 case ChequeredFlag => 7 case RaceWinner => 8
      case Penalty => 9 case SpeedTrapTriggered => 10 case StartLights => 11
      case LightsOut => 12 case DriveThroughPenaltyServed => 13
      case StopGoPenaltyServed => 14 case Flashback => 15 case Button => 16
      case Overtake => 17
    }
  }

  /** The default value of an `EventName` field. */
  const DefaultEventName: EventName := SessionStart

  /** The name the event decoder assigns for a code. */
  function NameOf(c: EventCode): (n: EventName)
    ensures n.Ordinal() == c.Ordinal()
  {
    match c
    case SSTA => SessionStart case SEND => SessionEnd case FTLP => FastestLap
    case RTMT => Retirement case DRSE => DRSEnabled case DRSD => DRSDisabled
    case TMPT => TeammateInPits case CHQF => ChequeredFlag case RCWN => RaceWinner
    case PENA => Penalty case SPTP => SpeedTrapTriggered case STLG => StartLights
    case LGOT => LightsOut case DTSV => DriveThroughPenaltyServed
    case SGSV => StopGoPenaltyServed case FLBK => Flashback case BUTN => Button
    case OVTK => Overtake
  }

  /** Ordinals identify codes: the 18 members have 18 distinct ordinals. */
  lemma CodeOrdinalInjective(c: EventCode, d: EventCode)
    requires c.Ordinal() == d.Ordinal()
    ensures c == d
  {
  }

  /** Every code's identifier is four upper-case ASCII letters, and two codes
      with the same identifier are the same code. */
  lemma CodeNames(c: EventCode, d: EventCode)
    ensures |c.Name()| == 4
    ensures forall k :: 0 <= k < 4 ==> 'A' <= c.Name()[k] <= 'Z'
    ensures c.Name() == d.Name() ==> c == d
  {
  }

  /** `Encoding.ASCII.GetString` for one byte: bytes outside 7-bit ASCII
      decode to the replacement character '?'. */
  function AsciiChar(b: uint8): (ch: char)
    ensures b < 128 ==> ch as int == b as int
    ensures b >= 128 ==> ch == '?'
  {
    if b < 128 then (b as int) as char else '?'
  }

  function AsciiString(a: seq<uint8>): (s: string)
    ensures |s| == |a|
    ensures forall k :: 0 <= k < |a| ==> s[k] == AsciiChar(a[k])
  {
    seq(|a|, k requires 0 <= k < |a| => AsciiChar(a[k]))
  }

  /** The code whose identifier is `s`, matched exactly and case-sensitively
      (the member-name half of `Enum.TryParse`). */
  function CodeNamed(s: string): (c: Option<EventCode>)
    ensures c.Some? ==> c.value.Name() == s
    ensures c.None? ==> forall e: EventCode :: e.Name() != s
  {
    match s
    case "SSTA" => Some(SSTA) case "SEND" => Some(SEND) case "FTLP" => Some(FTLP)
    case "RTMT" => Some(RTMT) case "DRSE" => Some(DRSE) case "DRSD" => Some(DRSD)
    case "TMPT" => Some(TMPT) case "CHQF" => Some(CHQF) case "RCWN" => Some(RCWN)
    case "PENA" => Some(PENA) case "SPTP" => Some(SPTP) case "STLG" => Some(STLG)
    case "LGOT" => Some(LGOT) case "DTSV" => Some(DTSV) case "SGSV" => Some(SGSV)
    case "FLBK" => Some(FLBK) case "BUTN" => Some(BUTN) case "OVTK" => Some(OVTK)
    case _ => None
  }

  /** `ByteArrayToEventCode`: an argument error for an array that is not four
      bytes long, the code the ASCII string names, or an argument error when
      it names none. */
  function ByteArrayToEventCode(a: seq<uint8>): (r: Result<EventCode>)
    ensures r.Ok? ==> |a| == 4 && AsciiString(a) == r.value.Name()
  {
    if |a| != 4 then Fail
    else
      match CodeNamed(AsciiString(a))
      case Some(c) => Ok(c)
      case None => Fail
  }

  /** The four bytes a sender writes for a code. */
  function CodeBytes(c: EventCode): (a: seq<uint8>)
    ensures |a| == 4
  {
    var n := c.Name();
    CodeNames(c, c);
    [n[0] as int as uint8, n[1] as int as uint8, n[2] as int as uint8, n[3] as int as uint8]
  }

  /** Encoding a code and decoding it gives the code back. */
  lemma {:induction false} EventCodeRoundTrip(c: EventCode)
    ensures ByteArrayToEventCode(CodeBytes(c)) == Ok(c)
  {
    var a := CodeBytes(c);
    CodeNames(c, c);
    assert AsciiString(a) == c.Name();
  }

  /** Decoding by member name is injective and exact: the only four bytes
      that decode to a code are that code's identifier, so no byte of 128 or
      more, no lower-case letter and no other name is accepted. */
  lemma {:induction false} EventCodeExact(a: seq<uint8>, c: EventCode)
    requires ByteArrayToEventCode(a) == Ok(c)
    ensures a == CodeBytes(c)
  {
    CodeNames(c, c);
    var s := AsciiString(a);
    assert s == c.Name();
    forall k | 0 <= k < 4
      ensures a[k] == CodeBytes(c)[k]
    {
      assert s[k] == AsciiChar(a[k]);
      assert s[k] != '?';
    }
  }
}
