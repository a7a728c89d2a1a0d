/**
 * The device's view of one connection: which turn is open, which response
 * belongs to it, and what may still be passed on to the conversation actor.
 * Every function here is one region of the code run under the protocol lock.
 */
module ClientTransport {
  import opened WireTypes
  import Codec = PcmCodec

  /** What the network does with one outgoing message. */
  datatype NetReply = Taken | Full | Down

  datatype ControlKind = Hello | TurnStart | TurnCommit | TurnCancel | ResponseCancel

  datatype Control = Control(kind: ControlKind, ids: WireIds, tokenValid: bool)

  /** One message handed to the socket, in order. */
  datatype Uplink =
    | Ctl(kind: ControlKind, ids: WireIds)
    | Audio(ids: WireIds, flags: u16, sequence: nat, pcm: seq<byte>)

  /** What the transport passes to the actor. */
  datatype Inbound =
    | HelloAck(ids: WireIds)
    | Heartbeat(ids: WireIds)
    | ResponseStart(ids: WireIds)
    | TextDelta(ids: WireIds, text: string)
    | AudioStart(ids: WireIds)
    | Cancelled(ids: WireIds)
    | Done(ids: WireIds)
    | Error(ids: WireIds, code: string, text: string)
    | Pcm(ids: WireIds, flags: u16, sequence: nat, audio: seq<byte>)

  /** Events that carry part of a response. */
  predicate IsData(e: Inbound) {
    e.ResponseStart? || e.TextDelta? || e.AudioStart? || e.Pcm?
  }

  /**
   * A text message after JSON parsing.  A payload field of the wrong JSON type
   * is represented by a value its check rejects (the empty string, rate 0);
   * `exact` says the payload has exactly the members its type asks for.
   */
  datatype Body =
    | HelloAckBody(inputRate: nat, outputRate: nat, frameMs: nat)
    | ResponseStartBody(responseId: string)
    | CancelledBody(reason: string)
    | ErrorBody(code: string, message: string)
    | TextDeltaBody(responseId: string, text: string)
    | AudioStartBody(responseId: string, rate: nat)
    | DoneBody(responseId: string)
    | OtherBody

  datatype TextMessage =
    | Malformed
    | Envelope(deviceMatches: bool, ids: WireIds, exact: bool, body: Body)

  predicate Sized(s: string, max: nat) { 1 <= |s| <= max }

  datatype Transport = Transport(
    uuid: Codec.Uuid,
    connected: bool,
    session: nat, sessionEpoch: nat,
    turn: WireIds, response: WireIds, responseId: string,
    upSeq: nat, downSeq: nat,
    active: bool, committed: bool, uplinkEnded: bool,
    audioStarted: bool, audioEnded: bool,
    responseDone: bool, cancelSent: bool, discard: bool,
    sent: seq<Uplink>)

  function Fresh(uuid: Codec.Uuid): Transport {
    Transport(uuid, false, 0, 0, ZERO_IDS, ZERO_IDS, "", 0, 0,
              false, false, false, false, false, false, false, false, [])
  }

  // ---------------------------------------------------------------------
  // Outgoing
  // ---------------------------------------------------------------------

  datatype SendResult = Accepted | Refused | Undelivered

  predicate TurnStartAllowed(t: Transport, ids: WireIds) {
    && ValidIds(ids) && !t.active
    && ids.session == t.session && ids.epoch >= t.sessionEpoch
    && (t.turn.epoch == 0 || ids.epoch > t.turn.epoch)
  }

  predicate ResponseCancelAllowed(t: Transport, ids: WireIds) {
    && SameTurn(ids, t.turn)
    && (ids.stream == t.turn.stream || ids.stream == t.response.stream)
    && (t.active || (t.responseDone && ValidIds(t.response) && ids == t.response))
  }

  /** The protocol check made before a control message is built. */
  predicate Allowed(t: Transport, c: Control) {
    match c.kind
    case Hello => c.ids == ZERO_IDS && c.tokenValid
    case TurnStart => TurnStartAllowed(t, c.ids)
    case TurnCommit => t.active && !t.committed && t.uplinkEnded && c.ids == t.turn
    case TurnCancel => t.active && !t.cancelSent && c.ids == t.turn
    case ResponseCancel => ResponseCancelAllowed(t, c.ids)
  }

  predicate IsCancel(k: ControlKind) { k == TurnCancel || k == ResponseCancel }

  /** A full send buffer refuses everything but a cancellation. */
  predicate Routed(t: Transport, cancellation: bool, net: NetReply) {
    t.connected && (net == Taken || (net == Full && cancellation))
  }

  function AfterControl(t: Transport, c: Control): Transport {
    match c.kind
    case TurnStart =>
      t.(turn := c.ids, response := ZERO_IDS, responseId := "", active := true,
         committed := false, uplinkEnded := false, audioStarted := false, audioEnded := false,
         responseDone := false, cancelSent := false, discard := false, upSeq := 0, downSeq := 0)
    case TurnCommit => t.(committed := true)
    case TurnCancel => t.(cancelSent := true)
    case ResponseCancel => t.(cancelSent := true)
    case Hello => t
  }

  function Send(t: Transport, c: Control, net: NetReply): (Transport, SendResult) {
    if !Allowed(t, c) then (t, Refused)
    else if c.kind == ResponseCancel && t.cancelSent then (t, Accepted)
    else if !Routed(t, IsCancel(c.kind), net) then (t, Undelivered)
    else (AfterControl(t.(sent := t.sent + [Ctl(c.kind, c.ids)]), c), Accepted)
  }

  datatype SendOutcome = Ok | Backpressure | Rejected

  predicate PcmAllowed(t: Transport, ids: WireIds, flags: u16, sequence: nat, pcm: seq<byte>) {
    && t.connected && 0 < |pcm| <= INPUT_FRAME_BYTES && |pcm| % 2 == 0
    && !ReservedFlags(flags) && t.active && !t.committed && !t.uplinkEnded
    && ids == t.turn && sequence == t.upSeq && sequence != U32_MAX
    && (sequence == 0) == StartFlag(flags)
  }

  function SendPcm(t: Transport, ids: WireIds, flags: u16, sequence: nat, pcm: seq<byte>,
                   net: NetReply): (Transport, SendOutcome) {
    if !PcmAllowed(t, ids, flags, sequence, pcm) || net == Down then (t, Rejected)
    else if net == Full then (t, Backpressure)
    else
      (t.(upSeq := t.upSeq + 1, uplinkEnded := EndFlag(flags),
          sent := t.sent + [Audio(ids, flags, sequence, pcm)]), Ok)
  }

  // ---------------------------------------------------------------------
  // Incoming
  // ---------------------------------------------------------------------

  datatype Verdict = Emit(event: Inbound) | Ignore | Violation

  predicate IsStale(t: Transport, i: WireIds) {
    && i.session == t.session && i.epoch != 0
    && ((t.turn.epoch != 0 && i.epoch < t.turn.epoch)
        || (ValidIds(t.response) && i == t.response && !t.active))
  }

  predicate Discarding(t: Transport, i: WireIds) {
    ValidIds(t.response) && i == t.response && (t.cancelSent || t.discard)
  }

  function OnHelloAck(t: Transport, m: TextMessage): (Transport, Verdict)
    requires m.Envelope? && m.body.HelloAckBody?
  {
    var i := m.ids;
    if !m.exact || t.session != 0 || i.session == 0 || i.turn != 0 || i.stream != 0 || i.epoch == 0
      || m.body.inputRate != INPUT_RATE || m.body.outputRate != OUTPUT_RATE || m.body.frameMs != 20
    then (t, Violation)
    else (t.(session := i.session, sessionEpoch := i.epoch), Emit(HelloAck(i)))
  }

  function OnResponseStart(t: Transport, m: TextMessage): (Transport, Verdict)
    requires m.Envelope? && m.body.ResponseStartBody?
  {
    if !m.exact then (t, Violation)
    else if IsStale(t, m.ids) then (t, Ignore)
    else if !t.active || !t.committed || ValidIds(t.response) || !SameTurn(m.ids, t.turn)
      || m.ids.stream == 0 || !Sized(m.body.responseId, 128)
    then (t, Violation)
    else
      var t' := t.(responseId := m.body.responseId, response := m.ids, downSeq := 0,
                   audioStarted := false, audioEnded := false, responseDone := false,
                   discard := t.cancelSent);
      if t.cancelSent then (t', Ignore) else (t', Emit(ResponseStart(m.ids)))
  }

  function OnCancelled(t: Transport, m: TextMessage): (Transport, Verdict)
    requires m.Envelope? && m.body.CancelledBody?
  {
    var streamMatches :=
      if ValidIds(t.response) then m.ids.stream == t.response.stream else m.ids.stream != 0;
    if !m.exact || !Sized(m.body.reason, 64)
      || (!t.active && !t.responseDone) || !t.cancelSent || !SameTurn(m.ids, t.turn) || !streamMatches
    then (t, Violation)
    else (t.(active := false, responseDone := false, cancelSent := false, discard := false),
          Emit(Cancelled(m.ids)))
  }

  function OnError(t: Transport, m: TextMessage): (Transport, Verdict)
    requires m.Envelope? && m.body.ErrorBody?
  {
    var sessionError := m.ids == WireIds(t.session, 0, 0, t.sessionEpoch);
    var turnError := t.active && SameTurn(m.ids, t.turn) && m.ids.stream != 0;
    if !m.exact then (t, Violation)
    else if IsStale(t, m.ids) then (t, Ignore)
    else if !Sized(m.body.code, 64) || !Sized(m.body.message, 512) || (!sessionError && !turnError)
    then (t, Violation)
    else (if turnError then t.(active := false) else t,
          Emit(Error(m.ids, m.body.code, m.body.message)))
  }

  /** Everything that must name the open response: text, audio start, done and unknown types. */
  function OnResponsePart(t: Transport, m: TextMessage): (Transport, Verdict)
    requires m.Envelope?
  {
    if IsStale(t, m.ids) then (t, Ignore)
    else if !t.active || !ValidIds(t.response) || m.ids != t.response then (t, Violation)
    else match m.body
      case TextDeltaBody(id, text) =>
        if !m.exact then (t, Violation)
        else if Discarding(t, m.ids) then (t, Ignore)
        else if !Sized(id, 128) || id != t.responseId || !Sized(text, 4096) then (t, Violation)
        else (t, Emit(TextDelta(m.ids, text)))
      case AudioStartBody(id, rate) =>
        if !m.exact then (t, Violation)
        else if Discarding(t, m.ids) then (t, Ignore)
        else if !Sized(id, 128) || id != t.responseId || t.audioStarted || rate != OUTPUT_RATE
        then (t, Violation)
        else (t.(audioStarted := true), Emit(AudioStart(m.ids)))
      case DoneBody(id) =>
        if !m.exact || !Sized(id, 128) || id != t.responseId
          || (t.audioStarted && !t.audioEnded && !Discarding(t, m.ids))
        then (t, Violation)
        else (t.(active := false, responseDone := true,
                 discard := if t.cancelSent then t.discard else false),
              Emit(Done(m.ids)))
      case _ => (t, Violation)
  }

  /** A violation also takes the connection down. */
  function Settle(r: (Transport, Verdict)): (Transport, Verdict) {
    if r.1.Violation? then (r.0.(connected := false), Violation) else r
  }

  function OnText(t: Transport, m: TextMessage): (Transport, Verdict) {
    Settle(
      if m.Malformed? || !m.deviceMatches then (t, Violation)
      else match m.body
        case HelloAckBody(_, _, _) => OnHelloAck(t, m)
        case ResponseStartBody(_) => OnResponseStart(t, m)
        case CancelledBody(_) => OnCancelled(t, m)
        case ErrorBody(_, _) => OnError(t, m)
        case _ => OnResponsePart(t, m))
  }

  predicate PcmInPlace(t: Transport, i: WireIds, flags: u16, sequence: nat) {
    && t.audioStarted && !t.audioEnded
    && sequence == t.downSeq && t.downSeq != U32_MAX
    && i == t.response
    && (t.downSeq == 0) == StartFlag(flags)
  }

  /** What the actor is told about a gap in the answer's audio. */
  function BrokenDownlink(i: WireIds): Inbound {
    Error(i, "downlink_discontinuity", "downlink PCM is discontinuous")
  }

  /** A downlink frame after its header was read. */
  function OnPcm(t: Transport, i: WireIds, flags: u16, sequence: nat, audio: seq<byte>)
    : (Transport, Verdict)
  {
    if IsStale(t, i) || Discarding(t, i) then (t, Ignore)
    else if !PcmInPlace(t, i, flags, sequence) then (t, Violation)
    else if DiscontinuityFlag(flags) then
      (t.(discard := true), Emit(BrokenDownlink(i)))
    else
      (t.(downSeq := t.downSeq + 1, audioEnded := EndFlag(flags)),
       Emit(Pcm(i, flags, sequence, audio)))
  }

  function OnBinary(t: Transport, bytes: seq<byte>): (Transport, Verdict) {
    Settle(
      if !Codec.DeviceReads(bytes, t.uuid) then (t, Violation)
      else OnPcm(t, Codec.DeviceIds(bytes), Codec.U16(bytes[6..8]), Codec.U32(bytes[20..24]), bytes[64..]))
  }

  /** What the network thread does next. */
  datatype NetEvent =
    | Opened
    | Text(message: TextMessage)
    | Binary(bytes: seq<byte>)
    | Ping
    | Broken

  const TRANSPORT_ERROR := Error(ZERO_IDS, "transport", "")

  /** One network event: the new state and what is pushed towards the actor. */
  function OnNet(t: Transport, n: NetEvent): (Transport, Option<Inbound>) {
    match n
    case Opened => (t.(connected := true), None)
    case Ping => (t, Some(Heartbeat(ZERO_IDS)))
    case Broken => (t.(connected := false), Some(TRANSPORT_ERROR))
    case Text(_) => Delivered(OnText(t, n.message))
    case Binary(_) => Delivered(OnBinary(t, n.bytes))
  }

  function Delivered(r: (Transport, Verdict)): (Transport, Option<Inbound>) {
    (r.0, match r.1
          case Emit(e) => Some(e)
          case Ignore => None
          case Violation => Some(TRANSPORT_ERROR))
  }
}
