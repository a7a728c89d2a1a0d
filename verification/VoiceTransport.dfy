/** The transport as the device keeps it: one object whose fields both threads update. */
module VoiceTransport {
  import opened WireTypes
  import opened ClientTransport
  import Codec = PcmCodec

  class Impl {
    const uuid: Codec.Uuid
    var connected: bool
    var session: nat
    var sessionEpoch: nat
    var turn: WireIds
    var response: WireIds
    var responseId: string
    var upSeq: nat
    var downSeq: nat
    var active: bool
    var committed: bool
    var uplinkEnded: bool
    var audioStarted: bool
    var audioEnded: bool
    var responseDone: bool
    var cancelSent: bool
    var discard: bool
    var sent: seq<Uplink>

    ghost function View(): (t: Transport)
      reads this
    {
      Transport(uuid, connected, session, sessionEpoch, turn, response, responseId, upSeq, downSeq,
                active, committed, uplinkEnded, audioStarted, audioEnded,
                responseDone, cancelSent, discard, sent)
    }

    constructor (uuid: Codec.Uuid)
      ensures View() == Fresh(uuid)
    {
      this.uuid := uuid;
      connected, session, sessionEpoch, upSeq, downSeq := false, 0, 0, 0, 0;
      turn, response, responseId, sent := ZERO_IDS, ZERO_IDS, "", [];
      active, committed, uplinkEnded := false, false, false;
      audioStarted, audioEnded, responseDone, cancelSent, discard := false, false, false, false, false;
    }

    /** Hands one text message to the socket; a full buffer lets only a cancellation through. */
    method SendText(message: Uplink, cancellation: bool, net: NetReply) returns (ok: bool)
      modifies this`sent
      ensures ok == Routed(old(View()), cancellation, net)
      ensures sent == if ok then old(sent) + [message] else old(sent)
    {
      if !connected {
        return false;
      }
      if net == Down || (net == Full && !cancellation) {
        return false;
      }
      sent := sent + [message];
      return true;
    }

    /** The checks made before a control message is built. */
    predicate Permits(c: Control)
      reads this
      ensures Permits(c) == Allowed(View(), c)
    {
      match c.kind
      case Hello => c.ids == ZERO_IDS && c.tokenValid
      case TurnStart =>
        !(!ValidIds(c.ids) || active || c.ids.session != session || c.ids.epoch < sessionEpoch
          || (turn.epoch != 0 && c.ids.epoch <= turn.epoch))
      case TurnCommit =>
        !(!active || committed || !uplinkEnded || c.ids.stream != turn.stream || !SameTurn(c.ids, turn))
      case TurnCancel => !(!active || cancelSent || c.ids != turn)
      case ResponseCancel =>
        if !SameTurn(c.ids, turn) || (c.ids.stream != turn.stream && c.ids.stream != response.stream)
        then false
        else !(!active && (!responseDone || !ValidIds(response) || c.ids != response))
    }

    method SendControl(c: Control, net: NetReply) returns (ok: bool)
      modifies this
      ensures var (t, r) := Send(old(View()), c, net);
              View() == t && (ok <==> r == Accepted)
    {
      if !Permits(c) {
        return false;
      }
      if c.kind == ResponseCancel && cancelSent {
        return true;
      }
      ok := SendText(Ctl(c.kind, c.ids), c.kind == TurnCancel || c.kind == ResponseCancel, net);
      if ok {
        Remember(c);
      }
    }

    /** The state change that goes with a control message the socket has taken. */
    method Remember(c: Control)
      modifies this
      ensures View() == AfterControl(old(View()), c)
    {
      if c.kind == TurnStart {
        OpenTurn(c.ids);
      } else if c.kind == TurnCommit {
        committed := true;
      } else if c.kind == TurnCancel || c.kind == ResponseCancel {
        cancelSent := true;
      }
    }

    method OpenTurn(ids: WireIds)
      modifies `turn, `response, `responseId, `upSeq, `downSeq, `active, `committed, `uplinkEnded
      modifies `audioStarted, `audioEnded, `responseDone, `cancelSent, `discard
      ensures turn == ids && response == ZERO_IDS && responseId == "" && upSeq == 0 && downSeq == 0
      ensures active && !committed && !uplinkEnded && !audioStarted && !audioEnded
      ensures !responseDone && !cancelSent && !discard
    {
      turn := ids;
      response := ZERO_IDS;
      responseId := "";
      active := true;
      committed := false;
      uplinkEnded := false;
      audioStarted := false;
      audioEnded := false;
      responseDone := false;
      cancelSent := false;
      discard := false;
      upSeq := 0;
      downSeq := 0;
    }

    method SendPcm64(ids: WireIds, flags: u16, sequence: nat, pcm: seq<byte>, net: NetReply)
      returns (outcome: SendOutcome)
      modifies this
      ensures var (t, r) := SendPcm(old(View()), ids, flags, sequence, pcm, net);
              View() == t && outcome == r
    {
      if !connected || |pcm| == 0 || |pcm| > INPUT_FRAME_BYTES || |pcm| % 2 != 0
        || ReservedFlags(flags) || !active || committed || uplinkEnded
        || !SameTurn(ids, turn) || ids.stream != turn.stream || sequence != upSeq
        || sequence == U32_MAX || (sequence == 0) != StartFlag(flags) {
        return Rejected;
      }
      if net == Full { return Backpressure; }
      if net == Down { return Rejected; }
      sent := sent + [Audio(ids, flags, sequence, pcm)];
      upSeq := upSeq + 1;
      uplinkEnded := EndFlag(flags);
      return Ok;
    }

    /** Parses and applies one text message; a violation takes the connection down. */
    method HandleText(m: TextMessage) returns (v: Verdict)
      modifies this
      ensures var (t, r) := OnText(old(View()), m); View() == t && v == r
    {
      if m.Malformed? || !m.deviceMatches {
        v := Violation;
      } else {
        match m.body {
          case HelloAckBody(_, _, _) => v := HandleHelloAck(m);
          case ResponseStartBody(_) => v := HandleResponseStart(m);
          case CancelledBody(_) => v := HandleCancelled(m);
          case ErrorBody(_, _) => v := HandleError(m);
          case _ => v := HandleResponsePart(m);
        }
      }
      if v.Violation? {
        connected := false;
      }
    }

    predicate StaleIds(i: WireIds)
      reads this
      ensures StaleIds(i) == IsStale(View(), i)
    {
      if i.session != session || i.epoch == 0 then false
      else if turn.epoch != 0 && i.epoch < turn.epoch then true
      else ValidIds(response) && i == response && !active
    }

    predicate DiscardingIds(i: WireIds)
      reads this
      ensures DiscardingIds(i) == Discarding(View(), i)
    {
      ValidIds(response) && i == response && (cancelSent || discard)
    }

    method HandleHelloAck(m: TextMessage) returns (v: Verdict)
      requires m.Envelope? && m.body.HelloAckBody?
      modifies this
      ensures var (t, r) := OnHelloAck(old(View()), m); View() == t && v == r
    {
      if !m.exact { return Violation; }
      if session != 0 || m.ids.session == 0 || m.ids.turn != 0 || m.ids.stream != 0 || m.ids.epoch == 0 {
        return Violation;
      }
      if m.body.inputRate != 16000 || m.body.outputRate != 24000 || m.body.frameMs != 20 {
        return Violation;
      }
      session, sessionEpoch := m.ids.session, m.ids.epoch;
      return Emit(ClientTransport.HelloAck(m.ids));
    }

    method HandleResponseStart(m: TextMessage) returns (v: Verdict)
      requires m.Envelope? && m.body.ResponseStartBody?
      modifies this
      ensures var (t, r) := OnResponseStart(old(View()), m); View() == t && v == r
    {
      if !m.exact { return Violation; }
      if StaleIds(m.ids) { return Ignore; }
      if !active || !committed || ValidIds(response) || !SameTurn(m.ids, turn) || m.ids.stream == 0 {
        return Violation;
      }
      if !Sized(m.body.responseId, 128) { return Violation; }
      OpenResponse(m.ids, m.body.responseId);
      if cancelSent {
        return Ignore;
      }
      return Emit(ClientTransport.ResponseStart(m.ids));
    }

    /** A response that opens after its turn was cancelled is discarded from its first byte. */
    method OpenResponse(ids: WireIds, id: string)
      modifies `response, `responseId, `downSeq, `audioStarted, `audioEnded, `responseDone, `discard
      ensures response == ids && responseId == id && downSeq == 0
      ensures !audioStarted && !audioEnded && !responseDone && discard == cancelSent
    {
      responseId := id;
      response := ids;
      downSeq := 0;
      audioStarted, audioEnded, responseDone := false, false, false;
      discard := cancelSent;
    }

    method HandleCancelled(m: TextMessage) returns (v: Verdict)
      requires m.Envelope? && m.body.CancelledBody?
      modifies this
      ensures var (t, r) := OnCancelled(old(View()), m); View() == t && v == r
    {
      if !m.exact || !Sized(m.body.reason, 64) { return Violation; }
      var streamMatches := if ValidIds(response) then m.ids.stream == response.stream else m.ids.stream != 0;
      if (!active && !responseDone) || !cancelSent || !SameTurn(m.ids, turn) || !streamMatches {
        return Violation;
      }
      active, responseDone, cancelSent, discard := false, false, false, false;
      return Emit(ClientTransport.Cancelled(m.ids));
    }

    method HandleError(m: TextMessage) returns (v: Verdict)
      requires m.Envelope? && m.body.ErrorBody?
      modifies this
      ensures var (t, r) := OnError(old(View()), m); View() == t && v == r
    {
      if !m.exact { return Violation; }
      if StaleIds(m.ids) { return Ignore; }
      if !Sized(m.body.code, 64) || !Sized(m.body.message, 512) { return Violation; }
      var sessionError := m.ids.session == session && m.ids.turn == 0
        && m.ids.stream == 0 && m.ids.epoch == sessionEpoch;
      var turnError := active && SameTurn(m.ids, turn) && m.ids.stream != 0;
      if !sessionError && !turnError { return Violation; }
      if turnError { active := false; }
      return Emit(ClientTransport.Error(m.ids, m.body.code, m.body.message));
    }

    method HandleResponsePart(m: TextMessage) returns (v: Verdict)
      requires m.Envelope?
      modifies this
      ensures var (t, r) := OnResponsePart(old(View()), m); View() == t && v == r
    {
      if StaleIds(m.ids) { return Ignore; }
      if !active || !ValidIds(response) || m.ids != response { return Violation; }
      match m.body {
        case TextDeltaBody(id, text) =>
          if !m.exact { return Violation; }
          if DiscardingIds(m.ids) { return Ignore; }
          if !Sized(id, 128) || id != responseId || !Sized(text, 4096) { return Violation; }
          return Emit(ClientTransport.TextDelta(m.ids, text));
        case AudioStartBody(id, rate) =>
          if !m.exact { return Violation; }
          if DiscardingIds(m.ids) { return Ignore; }
          if !Sized(id, 128) || id != responseId || audioStarted || rate != 24000 { return Violation; }
          audioStarted := true;
          return Emit(ClientTransport.AudioStart(m.ids));
        case DoneBody(id) =>
          if !m.exact || !Sized(id, 128) || id != responseId
            || (audioStarted && !audioEnded && !DiscardingIds(m.ids)) { return Violation; }
          active := false;
          responseDone := true;
          if !cancelSent { discard := false; }
          return Emit(ClientTransport.Done(m.ids));
        case _ =>
          return Violation;
      }
    }

    /** Reads one downlink frame and applies it. */
    method HandleBinary(bytes: seq<byte>) returns (v: Verdict)
      modifies this
      ensures var (t, r) := OnBinary(old(View()), bytes); View() == t && v == r
    {
      if !Codec.DeviceReads(bytes, uuid) {
        v := Violation;
      } else {
        v := HandlePcm(Codec.DeviceIds(bytes), Codec.U16(bytes[6..8]), Codec.U32(bytes[20..24]), bytes[64..]);
      }
      if v.Violation? {
        connected := false;
      }
    }

    method HandlePcm(ids: WireIds, flags: u16, sequence: nat, audio: seq<byte>) returns (v: Verdict)
      modifies this
      ensures var (t, r) := OnPcm(old(View()), ids, flags, sequence, audio); View() == t && v == r
    {
      if StaleIds(ids) || DiscardingIds(ids) { return Ignore; }
      if !audioStarted || audioEnded || sequence != downSeq || downSeq == U32_MAX
        || ids != response || (downSeq == 0) != StartFlag(flags) {
        return Violation;
      }
      if DiscontinuityFlag(flags) {
        discard := true;
        return Emit(ClientTransport.Error(ids, "downlink_discontinuity", "downlink PCM is discontinuous"));
      }
      downSeq := downSeq + 1;
      audioEnded := EndFlag(flags);
      return Emit(ClientTransport.Pcm(ids, flags, sequence, audio));
    }
  }
}
