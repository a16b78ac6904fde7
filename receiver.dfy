/** The receiver: its receive loop takes one datagram at a time, reads the
    packet header, dispatches on the header's packet id, decodes the record
    of that kind and hands it to the handler subscribed for that kind.
    Datagrams and stop requests arrive as one input sequence, in the order
    the loop meets them. */
module Receiver {
  import opened Bytes
  import opened Enums
  import opened PacketHeader
  import MotionPacket
  import SessionPacket
  import LapDataPacket
  import EventPacket
  import ParticipantsPacket
  import CarSetupsPacket
  import CarTelemetryPacket
  import CarStatusPacket
  import FinalClassificationPacket
  import LobbyInfoPacket
  import CarDamagePacket
  import SessionHistoryPacket
  import TyreSetsPacket
  import MotionExtraPacket

  /** A decoded record, as carried by the event arguments of its kind. */
  datatype Record =
    | MotionRecord(motion: MotionPacket.PacketMotionData)
    | SessionRecord(session: SessionPacket.PacketSessionData)
    | LapDataRecord(lapData: LapDataPacket.PacketLapData)
    | EventRecord(event: EventPacket.PacketEventData)
    | ParticipantsRecord(participants: ParticipantsPacket.PacketParticipantsData)
    | CarSetupsRecord(carSetups: CarSetupsPacket.PacketCarSetupData)
    | CarTelemetryRecord(carTelemetry: CarTelemetryPacket.PacketCarTelemetryData)
    | CarStatusRecord(carStatus: CarStatusPacket.PacketCarStatusData)
    | FinalClassificationRecord(finalClassification: FinalClassificationPacket.PacketFinalClassificationData)
    | LobbyInfoRecord(lobbyInfo: LobbyInfoPacket.PacketLobbyInfoData)
    | CarDamageRecord(carDamage: CarDamagePacket.PacketCarDamageData)
    | SessionHistoryRecord(sessionHistory: SessionHistoryPacket.PacketSessionHistoryData)
    | TyreSetsRecord(tyreSets: TyreSetsPacket.PacketTyreSetData)
    | MotionExtraRecord(motionExtra: MotionExtraPacket.PacketMotionExtraData)

  /** The constructor the switch case for `kind` runs on the datagram. */
  function DecodeRecord(kind: PacketType, buf: Buffer): Result<Record>
  {
    match kind
    case Motion =>
      var p :- MotionPacket.PacketMotionDataOf(buf); Ok(MotionRecord(p))
    case Session =>
      var p :- SessionPacket.PacketSessionDataOf(buf); Ok(SessionRecord(p))
    case LapData =>
      var p :- LapDataPacket.PacketLapDataOf(buf); Ok(LapDataRecord(p))
    case Event =>
      var p :- EventPacket.PacketEventDataOf(buf); Ok(EventRecord(p))
    case Participants =>
      var p :- ParticipantsPacket.PacketParticipantsDataOf(buf); Ok(ParticipantsRecord(p))
    case CarSetups =>
      var p :- CarSetupsPacket.PacketCarSetupDataOf(buf); Ok(CarSetupsRecord(p))
    case CarTelemetery =>
      var p :- CarTelemetryPacket.PacketCarTelemetryDataOf(buf); Ok(CarTelemetryRecord(p))
    case CarStatus =>
      var p :- CarStatusPacket.PacketCarStatusDataOf(buf); Ok(CarStatusRecord(p))
    case FinalClassification =>
      var p :- FinalClassificationPacket.PacketFinalClassificationDataOf(buf);
      Ok(FinalClassificationRecord(p))
    case LobbyInfo =>
      (match LobbyInfoPacket.PacketLobbyInfoDataOf(buf)
       case Ok(p) => Ok(LobbyInfoRecord(p))
       case Fail => Fail)
    case CarDamage =>
      var p :- CarDamagePacket.PacketCarDamageDataOf(buf); Ok(CarDamageRecord(p))
    case SessionHistory =>
      var p :- SessionHistoryPacket.PacketSessionHistoryDataOf(buf); Ok(SessionHistoryRecord(p))
    case TyreSets =>
      var p :- TyreSetsPacket.PacketTyreSetDataOf(buf); Ok(TyreSetsRecord(p))
    case MotionExtra =>
      var p :- MotionExtraPacket.PacketMotionExtraDataOf(buf); Ok(MotionExtraRecord(p))
  }

  /** The switch case's first statement: `new PacketX(udpPacketBytes)`. */
  method DecodeDatagram(kind: PacketType, buf: Buffer) returns (r: Result<Record>)
    ensures r == DecodeRecord(kind, buf)
  {
    match kind {
      case Motion =>
        var p :- MotionPacket.DecodeMotionData(buf); r := Ok(MotionRecord(p));
      case Session =>
        var p :- SessionPacket.DecodeSessionData(buf); r := Ok(SessionRecord(p));
      case LapData =>
        var p :- LapDataPacket.DecodeLapData(buf); r := Ok(LapDataRecord(p));
      case Event =>
        var p :- EventPacket.DecodeEventData(buf); r := Ok(EventRecord(p));
      case Participants =>
        var p :- ParticipantsPacket.DecodeParticipantsData(buf); r := Ok(ParticipantsRecord(p));
      case CarSetups =>
        var p :- CarSetupsPacket.DecodeCarSetupData(buf); r := Ok(CarSetupsRecord(p));
      case CarTelemetery =>
        var p :- CarTelemetryPacket.DecodeCarTelemetryData(buf); r := Ok(CarTelemetryRecord(p));
      case CarStatus =>
        var p :- CarStatusPacket.DecodeCarStatusData(buf); r := Ok(CarStatusRecord(p));
      case FinalClassification =>
        var p :- FinalClassificationPacket.DecodeFinalClassificationData(buf);
        r := Ok(FinalClassificationRecord(p));
      case LobbyInfo =>
        var lobby := LobbyInfoPacket.DecodeLobbyInfoData(buf);
        match lobby {
          case Ok(p) => r := Ok(LobbyInfoRecord(p));
          case Fail => r := Fail;
        }
      case CarDamage =>
        var p :- CarDamagePacket.DecodeCarDamageData(buf); r := Ok(CarDamageRecord(p));
      case SessionHistory =>
        var p :- SessionHistoryPacket.DecodeSessionHistoryData(buf); r := Ok(SessionHistoryRecord(p));
      case TyreSets =>
        var p :- TyreSetsPacket.DecodeTyreSetData(buf); r := Ok(TyreSetsRecord(p));
      case MotionExtra =>
        var p :- MotionExtraPacket.DecodeMotionExtraData(buf); r := Ok(MotionExtraRecord(p));
    }
  }

  /** What one pass of the loop body does with a datagram. */
  datatype Outcome =
    /** Decoded and handed to the handler subscribed for its kind. */
    | Raised(record: Record)
    /** Decoded, but `?.Invoke` found no handler for its kind. */
    | NoSubscriber(kind: PacketType)
    /** The record constructor threw; the case's handler logs it. */
    | DecodeFailed(kind: PacketType)
    /** The id names no packet kind; the default branch logs it. */
    | UnknownId(id: uint8)
    /** `new Packet(...)` threw outside every switch case: the handler
        around the whole loop logs it and the loop is over. */
    | HeaderFailed

  /** The switch's cases as a table: the record constructor run for each
      packet kind. The receiver's table is `DecodeRecord`. */
  type Decoder = (PacketType, Buffer) -> Result<Record>

  /** One pass of the loop body over a datagram, given the switch's table and
      the kinds that have a handler: the header read throws below 25 bytes,
      and the switch looks at the packet id in byte 6. */
  function Handle(decode: Decoder, subscribed: set<PacketType>, buf: Buffer): Outcome
  {
    if |buf| < 25 then HeaderFailed
    else
      match PacketTypeOf(buf[6])
      case None => UnknownId(buf[6])
      case Some(kind) =>
        match decode(kind, buf)
        case Fail => DecodeFailed(kind)
        case Ok(record) => if kind in subscribed then Raised(record) else NoSubscriber(kind)
  }

  /** What the loop meets next: a datagram returned by `Receive`, or the
      cancellation requested by `StopReceiving`, seen at the loop head. */
  datatype Input = Datagram(bytes: Buffer) | StopRequest

  /** Why the loop ended. */
  datatype LoopEnd = InputsExhausted | Cancelled | HeaderCrash

  datatype Trace = Trace(outcomes: seq<Outcome>, end: LoopEnd)

  /** The receive loop over `inputs`, started uncancelled: one outcome per
      datagram, in order, until a stop request is seen at the loop head, a
      header read throws, or the inputs run out. */
  function Run(decode: Decoder, subscribed: set<PacketType>, inputs: seq<Input>): Trace
    decreases |inputs|
  {
    if inputs == [] then Trace([], InputsExhausted)
    else
      match inputs[0]
      case StopRequest => Trace([], Cancelled)
      case Datagram(b) =>
        var o := Handle(decode, subscribed, b);
        if o.HeaderFailed? then Trace([o], HeaderCrash)
        else
          var rest := Run(decode, subscribed, inputs[1..]);
          Trace([o] + rest.outcomes, rest.end)
  }

  /** A run that first produced `outcomes` and then went on as `t`. */
  function After(outcomes: seq<Outcome>, t: Trace): (r: Trace)
    ensures r.end == t.end && |r.outcomes| == |outcomes| + |t.outcomes|
  {
    Trace(outcomes + t.outcomes, t.end)
  }

  /** The run from input `i` on, one step unfolded. */
  lemma RunFrom(decode: Decoder, subscribed: set<PacketType>, inputs: seq<Input>, i: nat)
    requires i < |inputs|
    ensures Run(decode, subscribed, inputs[i..]) ==
      match inputs[i]
      case StopRequest => Trace([], Cancelled)
      case Datagram(b) =>
        var o := Handle(decode, subscribed, b);
        if o.HeaderFailed? then Trace([o], HeaderCrash)
        else After([o], Run(decode, subscribed, inputs[i + 1..]))
  {
    assert inputs[i..][0] == inputs[i] && inputs[i..][1..] == inputs[i + 1..];
  }

  lemma AfterAppend(outcomes: seq<Outcome>, o: Outcome, t: Trace)
    ensures After(outcomes, After([o], t)) == After(outcomes + [o], t)
  {
    assert outcomes + ([o] + t.outcomes) == outcomes + [o] + t.outcomes;
  }

  /** The shape of a run: outcome `k` comes from input `k`, which is a
      datagram; only the last datagram handled can be shorter than the
      25-byte header, and the run crashed exactly when it is; a cancelled
      run stopped at a stop request, and a run that ran out of inputs
      handled every one of them. */
  lemma {:induction false} RunShape(decode: Decoder, subscribed: set<PacketType>, inputs: seq<Input>)
    ensures var t := Run(decode, subscribed, inputs);
      |t.outcomes| <= |inputs|
      && (forall k :: 0 <= k < |t.outcomes| ==> inputs[k].Datagram?)
      && (forall k :: 0 <= k < |t.outcomes| - 1 ==> |inputs[k].bytes| >= 25)
      && (t.end == HeaderCrash <==> 0 < |t.outcomes| && |inputs[|t.outcomes| - 1].bytes| < 25)
      && (t.end == Cancelled ==> |t.outcomes| < |inputs| && inputs[|t.outcomes|].StopRequest?)
      && (t.end == InputsExhausted ==> |t.outcomes| == |inputs|)
    decreases |inputs|
  {
    if inputs != [] && inputs[0].Datagram? && |inputs[0].bytes| >= 25 {
      var rest := inputs[1..];
      RunShape(decode, subscribed, rest);
      var t := Run(decode, subscribed, inputs);
      var r := Run(decode, subscribed, rest);
      assert t.outcomes == [Handle(decode, subscribed, inputs[0].bytes)] + r.outcomes;
      forall k | 1 <= k <= |inputs| - 1
        ensures inputs[k] == rest[k - 1]
      {
      }
    }
  }

  /** Outcome `k` of a run is the loop body applied to datagram `k`. */
  lemma {:induction false} RunOutcome(decode: Decoder, subscribed: set<PacketType>, inputs: seq<Input>, k: nat)
    requires k < |Run(decode, subscribed, inputs).outcomes|
    ensures k < |inputs| && inputs[k].Datagram?
    ensures Run(decode, subscribed, inputs).outcomes[k] == Handle(decode, subscribed, inputs[k].bytes)
    decreases k
  {
    RunShape(decode, subscribed, inputs);
    if k > 0 {
      var rest := inputs[1..];
      RunOutcome(decode, subscribed, rest, k - 1);
      assert rest[k - 1] == inputs[k];
    }
  }

  /** A datagram goes to a handler only when its id names a subscribed kind
      and the record constructor of that kind returns. */
  lemma {:induction false} RaisedOnlySubscribed(decode: Decoder, subscribed: set<PacketType>, inputs: seq<Input>, k: nat)
    requires k < |Run(decode, subscribed, inputs).outcomes|
    requires Run(decode, subscribed, inputs).outcomes[k].Raised?
    ensures k < |inputs| && inputs[k].Datagram? && |inputs[k].bytes| >= 25
    ensures var b := inputs[k].bytes;
      PacketTypeOf(b[6]).Some? && PacketTypeOf(b[6]).value in subscribed
      && decode(PacketTypeOf(b[6]).value, b) == Ok(Run(decode, subscribed, inputs).outcomes[k].record)
  {
    RunOutcome(decode, subscribed, inputs, k);
  }

  /** Nothing after a stop request is looked at. */
  lemma {:induction false} StopHidesRest(decode: Decoder, subscribed: set<PacketType>, before: seq<Input>, after: seq<Input>)
    ensures Run(decode, subscribed, before + [StopRequest] + after)
         == Run(decode, subscribed, before + [StopRequest])
    decreases |before|
  {
    var xs := before + [StopRequest] + after;
    var ys := before + [StopRequest];
    if before == [] {
      assert xs[0] == StopRequest && ys[0] == StopRequest;
    } else {
      assert xs[0] == ys[0] == before[0];
      assert xs[1..] == before[1..] + [StopRequest] + after;
      assert ys[1..] == before[1..] + [StopRequest];
      StopHidesRest(decode, subscribed, before[1..], after);
    }
  }

  /** A run over datagrams that all carry a full header and no stop request
      handles every one of them. */
  lemma RunHandlesAll(decode: Decoder, subscribed: set<PacketType>, inputs: seq<Input>)
    requires forall k :: 0 <= k < |inputs| ==> inputs[k].Datagram? && |inputs[k].bytes| >= 25
    ensures Run(decode, subscribed, inputs).end == InputsExhausted
    ensures |Run(decode, subscribed, inputs).outcomes| == |inputs|
  {
    RunShape(decode, subscribed, inputs);
  }

  /** With the receiver's switch, a lobby info datagram is never handed to a
      handler: its record constructor always throws. */
  lemma HandleLobbyInfo(subscribed: set<PacketType>, buf: Buffer)
    requires |buf| >= 25 && buf[6] == LobbyInfo.Id()
    ensures Handle(DecodeRecord, subscribed, buf) == DecodeFailed(LobbyInfo)
  {
  }

  /** With the receiver's switch, every event datagram with a full header
      decodes, so a subscribed handler always receives it. */
  lemma HandleEvent(subscribed: set<PacketType>, buf: Buffer)
    requires |buf| >= 25 && buf[6] == Event.Id()
    ensures EventPacket.PacketEventDataOf(buf).Ok?
    ensures Handle(DecodeRecord, subscribed, buf)
         == if Event in subscribed then Raised(EventRecord(EventPacket.PacketEventDataOf(buf).value))
            else NoSubscriber(Event)
  {
    EventPacket.EventDecodeOutcome(buf);
  }

  /** Over a whole run with the receiver's switch, a lobby info datagram
      with a full header ends as a decode failure. */
  lemma LobbyInfoNeverRaised(subscribed: set<PacketType>, inputs: seq<Input>, k: nat)
    requires k < |Run(DecodeRecord, subscribed, inputs).outcomes|
    ensures k < |inputs| && inputs[k].Datagram?
    ensures |inputs[k].bytes| >= 25 && inputs[k].bytes[6] == LobbyInfo.Id() ==>
      Run(DecodeRecord, subscribed, inputs).outcomes[k] == DecodeFailed(LobbyInfo)
  {
    RunOutcome(DecodeRecord, subscribed, inputs, k);
    if |inputs[k].bytes| >= 25 && inputs[k].bytes[6] == LobbyInfo.Id() {
      HandleLobbyInfo(subscribed, inputs[k].bytes);
    }
  }

  /** The records handed to handlers, in the order they were raised. */
  function Delivered(outcomes: seq<Outcome>): (rs: seq<Record>)
    ensures |rs| <= |outcomes|
    ensures forall r :: r in rs ==> Raised(r) in outcomes
  {
    if outcomes == [] then []
    else
      var last := outcomes[|outcomes| - 1];
      var front := Delivered(outcomes[..|outcomes| - 1]);
      assert forall r :: Raised(r) in outcomes[..|outcomes| - 1] ==> Raised(r) in outcomes;
      front + (if last.Raised? then [last.record] else [])
  }

  lemma DeliveredAppend(outcomes: seq<Outcome>, o: Outcome)
    ensures Delivered(outcomes + [o]) == Delivered(outcomes) + Delivered([o])
  {
    assert (outcomes + [o])[..|outcomes|] == outcomes;
  }

  /** The receiver object: its switch, the handlers attached to its events,
      its cancellation flag, and the records it has handed to handlers. */
  class TelemetryReceiver {
    const decode: Decoder
    var subscribed: set<PacketType>
    var cancelled: bool
    var delivered: seq<Record>

    /** A new receiver: the switch of `DecodeRecord`, no handler attached,
        not cancelled. */
    constructor ()
      ensures decode == DecodeRecord
      ensures subscribed == {} && !cancelled && delivered == []
    {
      decode := DecodeRecord;
      subscribed := {};
      cancelled := false;
      delivered := [];
    }

    /** Attaching a handler to the event of one kind (`+=`). */
    method Subscribe(kind: PacketType)
      modifies this
      ensures subscribed == old(subscribed) + {kind}
      ensures cancelled == old(cancelled) && delivered == old(delivered)
    {
      subscribed := subscribed + {kind};
    }

    /** `StopReceiving`: requests cancellation; the loop sees it at its head. */
    method StopReceiving()
      modifies this
      ensures cancelled
      ensures subscribed == old(subscribed) && delivered == old(delivered)
    {
      cancelled := true;
    }

    /** One pass of the loop body: the header, the dispatch on its packet id,
        the record constructor, and the hand-off to a subscribed handler. */
    method ProcessDatagram(buf: Buffer) returns (o: Outcome)
      modifies this
      ensures o == Handle(decode, subscribed, buf)
      ensures delivered == old(delivered) + Delivered([o])
      ensures subscribed == old(subscribed) && cancelled == old(cancelled)
    {
      var header := ReadPacketHeader(buf);
      if header.Fail? {
        return HeaderFailed;
      }
      var kind := PacketTypeOf(header.value.packetId);
      if kind.None? {
        return UnknownId(header.value.packetId);
      }
      var record := decode(kind.value, buf);
      if record.Fail? {
        return DecodeFailed(kind.value);
      }
      if kind.value in subscribed {
        delivered := delivered + [record.value];
        return Raised(record.value);
      }
      return NoSubscriber(kind.value);
    }

    /** The receive loop: `while (!cancelled)`, take the next input; a stop
        request sets the flag, a datagram goes through the loop body, and a
        header failure leaves the loop. */
    method ReceiveLoop(inputs: seq<Input>) returns (outcomes: seq<Outcome>)
      modifies this
      ensures outcomes == (if old(cancelled) then [] else Run(decode, old(subscribed), inputs).outcomes)
      ensures delivered == old(delivered) + Delivered(outcomes)
      ensures subscribed == old(subscribed)
      ensures cancelled == (old(cancelled) || Run(decode, old(subscribed), inputs).end == Cancelled)
    {
      outcomes := [];
      if cancelled {
        return;
      }
      var sub := subscribed;
      ghost var whole := Run(decode, sub, inputs);
      var i := 0;
      var crashed := false;
      while i < |inputs| && !cancelled && !crashed
        invariant 0 <= i <= |inputs|
        invariant subscribed == sub
        invariant delivered == old(delivered) + Delivered(outcomes)
        invariant !cancelled && !crashed ==> whole == After(outcomes, Run(decode, sub, inputs[i..]))
        invariant crashed ==> !cancelled && whole == Trace(outcomes, HeaderCrash)
        invariant cancelled ==> whole == Trace(outcomes, Cancelled)
        decreases |inputs| - i
      {
        RunFrom(decode, sub, inputs, i);
        match inputs[i] {
          case StopRequest =>
            StopReceiving();
          case Datagram(b) =>
            var o := ProcessDatagram(b);
            DeliveredAppend(outcomes, o);
            AfterAppend(outcomes, o, Run(decode, sub, inputs[i + 1..]));
            outcomes := outcomes + [o];
            if o.HeaderFailed? {
              crashed := true;
            }
        }
        i := i + 1;
      }
    }
  }
}
