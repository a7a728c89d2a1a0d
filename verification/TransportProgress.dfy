/** What the device's transport does take: proper messages pass, and the connection survives them. */
module TransportProgress {
  import opened WireTypes
  import opened ClientTransport
  import opened TransportProofs
  import Codec = PcmCodec

  // ---------------------------------------------------------------------
  // What a server that keeps the protocol may say
  // ---------------------------------------------------------------------

  /** An envelope for this device with exactly the members its type asks for. */
  predicate Fair(m: TextMessage) { m.Envelope? && m.deviceMatches && m.exact }

  /** A piece of the open response, or its end. */
  predicate PartOf(t: Transport, n: NetEvent) {
    && ValidIds(t.response)
    && match n
       case Text(m) =>
         && Fair(m) && m.ids == t.response
         && (match m.body
             case TextDeltaBody(id, text) => id == t.responseId && Sized(id, 128) && Sized(text, 4096)
             case AudioStartBody(id, rate) => id == t.responseId && Sized(id, 128) && rate == OUTPUT_RATE
             case DoneBody(id) => id == t.responseId && Sized(id, 128)
             case _ => false)
       case Binary(bytes) => Codec.DeviceReads(bytes, t.uuid) && Codec.DeviceIds(bytes) == t.response
       case _ => false
  }

  /** The start of the response to the committed turn. */
  predicate Opening(t: Transport, n: NetEvent) {
    && n.Text? && Fair(n.message) && n.message.body.ResponseStartBody?
    && t.active && t.committed && !ValidIds(t.response)
    && SameTurn(n.message.ids, t.turn) && n.message.ids.stream != 0 && Sized(n.message.body.responseId, 128)
  }

  /** Something of an earlier turn that was still on its way. */
  predicate Late(t: Transport, n: NetEvent) {
    match n
    case Text(m) =>
      && Fair(m) && m.ids.session == t.session && m.ids.epoch != 0 && m.ids.epoch < t.turn.epoch
      && !m.body.HelloAckBody? && !m.body.CancelledBody?
    case Binary(bytes) =>
      && Codec.DeviceReads(bytes, t.uuid)
      && var i := Codec.DeviceIds(bytes); i.session == t.session && i.epoch != 0 && i.epoch < t.turn.epoch
    case _ => false
  }

  /** The acknowledgement of a cancel: it names the response once there is one. */
  predicate Acknowledges(t: Transport, n: NetEvent) {
    && n.Text? && Fair(n.message) && n.message.body.CancelledBody? && Sized(n.message.body.reason, 64)
    && SameTurn(n.message.ids, t.turn)
    && (if ValidIds(t.response) then n.message.ids == t.response else n.message.ids.stream != 0)
  }

  // ---------------------------------------------------------------------
  // Late messages do no harm
  // ---------------------------------------------------------------------

  /** What is left of an earlier turn is dropped without a trace. */
  lemma LateIsHarmless(t: Transport, n: NetEvent)
    requires Late(t, n)
    ensures OnNet(t, n) == (t, None)
  {
    hide Codec.DeviceReads, Codec.DeviceIds, Codec.U16, Codec.U32;
  }

  // ---------------------------------------------------------------------
  // A cancel is answered
  // ---------------------------------------------------------------------

  /** A cancel is out and the turn, or its finished response, still there. */
  ghost predicate Cancelling(t: Transport) {
    Sound(t) && t.connected && t.cancelSent && (t.active || t.responseDone)
  }

  /** What may happen before the acknowledgement: the rest of the response, old messages, pings, other sends. */
  predicate Meanwhile(t: Transport, op: Op) {
    match op
    case DoSend(c, _) => c.kind != TurnStart
    case DoSendPcm(_, _, _, _, _) => true
    case DoNet(n) => n.Ping? || n.Opened? || PartOf(t, n) || Opening(t, n) || Late(t, n)
  }

  predicate AllMeanwhile(t: Transport, ops: seq<Op>)
    decreases |ops|
  {
    ops == [] || (Meanwhile(t, ops[0]) && AllMeanwhile(Step(t, ops[0]).0, ops[1..]))
  }

  lemma PartWhileCancelling(t: Transport, n: NetEvent)
    requires Cancelling(t) && PartOf(t, n)
    ensures var (u, e) := OnNet(t, n);
            && u.connected && u.cancelSent && (u.active || u.responseDone) && u.turn == t.turn
            && (e.Some? ==> e.value.Done?)
  {
    hide Codec.DeviceReads, Codec.DeviceIds, Codec.U16, Codec.U32;
  }

  lemma OpeningWhileCancelling(t: Transport, n: NetEvent)
    requires Cancelling(t) && Opening(t, n)
    ensures var (u, e) := OnNet(t, n);
            && u.connected && u.cancelSent && u.active && u.turn == t.turn && u.response == n.message.ids && e == None
  {
  }

  lemma SendWhileCancelling(t: Transport, op: Op)
    requires Cancelling(t) && !op.DoNet? && Meanwhile(t, op)
    ensures var u := Step(t, op).0;
            u.connected && u.cancelSent && (u.active || u.responseDone) && u.turn == t.turn
  {
  }

  lemma StepCancelling(t: Transport, op: Op)
    requires Cancelling(t) && Meanwhile(t, op)
    ensures var (u, e) := Step(t, op);
            Cancelling(u) && u.turn == t.turn && (e.Some? ==> e.value.Done? || e.value.Heartbeat?)
  {
    SoundStep(t, op);
    match op {
      case DoNet(n) =>
        if PartOf(t, n) {
          PartWhileCancelling(t, n);
        } else if Opening(t, n) {
          OpeningWhileCancelling(t, n);
        } else if Late(t, n) {
          LateIsHarmless(t, n);
        }
        hide OnText, OnBinary, PartOf, Opening, Late, Sound;
      case _ =>
        SendWhileCancelling(t, op);
        hide Sound;
    }
  }

  lemma {:induction false} RunCancelling(t: Transport, ops: seq<Op>)
    requires Cancelling(t) && AllMeanwhile(t, ops)
    ensures var (u, es) := Run(t, ops);
            && Cancelling(u) && u.turn == t.turn
            && forall i :: 0 <= i < |es| ==> es[i].Done? || es[i].Heartbeat?
    decreases |ops|
  {
    hide Cancelling, Meanwhile, Step;
    if ops != [] {
      StepCancelling(t, ops[0]);
      RunCancelling(Step(t, ops[0]).0, ops[1..]);
    }
  }

  lemma AckTaken(t: Transport, n: NetEvent)
    requires Cancelling(t) && Acknowledges(t, n)
    ensures var (u, e) := OnNet(t, n);
            && e == Some(Cancelled(n.message.ids)) && u.connected && !u.active && !u.cancelSent && u.turn == t.turn
            && TurnStartAllowed(u, WireIds(t.turn.session, t.turn.turn + 1, t.turn.stream + 1, t.turn.epoch + 1))
  {
  }

  lemma CancelGoesOut(t: Transport, c: Control, net: NetReply)
    requires Sound(t) && t.connected && IsCancel(c.kind) && Send(t, c, net).1 == Accepted
    ensures Cancelling(Send(t, c, net).0) && Send(t, c, net).0.turn == t.turn
  {
    SoundSend(t, c, net);
    hide Sound;
  }

  /**
   * An accepted cancel, whatever of the response still follows it, ends with its
   * acknowledgement: that is passed on, the link stays up, and the next turn may start.
   */
  lemma CancelIsAcknowledged(uuid: Codec.Uuid, before: seq<Op>, c: Control, net: NetReply, ops: seq<Op>, n: NetEvent)
    requires IsCancel(c.kind)
    requires var t := Run(Fresh(uuid), before).0; t.connected && Send(t, c, net).1 == Accepted
    requires var k := Send(Run(Fresh(uuid), before).0, c, net).0;
             AllMeanwhile(k, ops) && Acknowledges(Run(k, ops).0, n)
    ensures var t := Run(Fresh(uuid), before).0;
            var (u, es) := Run(Send(t, c, net).0, ops);
            var (v, e) := OnNet(u, n);
            && u.connected && (forall i :: 0 <= i < |es| ==> es[i].Done? || es[i].Heartbeat?)
            && e == Some(Cancelled(n.message.ids)) && v.connected && !v.active && !v.cancelSent
            && TurnStartAllowed(v, WireIds(t.turn.session, t.turn.turn + 1, t.turn.stream + 1, t.turn.epoch + 1))
  {
    SoundRun(Fresh(uuid), before);
    var t := Run(Fresh(uuid), before).0;
    hide Run, AllMeanwhile, Acknowledges;
    CancelGoesOut(t, c, net);
    RunCancelling(Send(t, c, net).0, ops);
    AckTaken(Run(Send(t, c, net).0, ops).0, n);
  }

  /** The device's cancels are accepted while there is something to cancel, even when the send buffer is full. */
  lemma CancelIsAccepted(uuid: Codec.Uuid, before: seq<Op>, net: NetReply)
    requires net != Down
    ensures var t := Run(Fresh(uuid), before).0;
            t.connected ==>
              && (t.active && !t.cancelSent ==> Send(t, Control(TurnCancel, t.turn, false), net).1 == Accepted)
              && (ValidIds(t.response) && (t.active || t.responseDone) ==>
                    Send(t, Control(ResponseCancel, t.response, false), net).1 == Accepted)
  {
    SoundRun(Fresh(uuid), before);
    hide Run;
  }

  // ---------------------------------------------------------------------
  // Greetings and errors
  // ---------------------------------------------------------------------

  /** The first proper greeting on an open connection opens the session. */
  lemma GreetingIsTaken(t: Transport, m: TextMessage)
    requires Sound(t) && t.connected && t.session == 0 && Fair(m)
    requires m.body == HelloAckBody(INPUT_RATE, OUTPUT_RATE, 20)
    requires m.ids.session != 0 && m.ids.epoch != 0 && m.ids.turn == 0 && m.ids.stream == 0
    ensures var (u, e) := OnNet(t, Text(m));
            && e == Some(HelloAck(m.ids)) && u == t.(session := m.ids.session, sessionEpoch := m.ids.epoch)
            && (t.turn == ZERO_IDS ==> TurnStartAllowed(u, WireIds(m.ids.session, 1, 1, m.ids.epoch)))
  {
  }

  /** A proper error of the open turn ends it; the link stays up. */
  lemma TurnErrorIsTaken(t: Transport, m: TextMessage)
    requires Sound(t) && t.connected && t.active && Fair(m) && m.body.ErrorBody?
    requires Sized(m.body.code, 64) && Sized(m.body.message, 512)
    requires SameTurn(m.ids, t.turn) && m.ids.stream != 0
    ensures OnNet(t, Text(m)) == (t.(active := false), Some(Error(m.ids, m.body.code, m.body.message)))
  {
  }

  /** What the server sends when it rejects a message that belongs to no turn. */
  predicate SessionError(t: Transport, m: TextMessage) {
    && Fair(m) && m.body.ErrorBody? && Sized(m.body.code, 64) && Sized(m.body.message, 512)
    && t.session != 0 && m.ids == WireIds(t.session, 0, 0, t.sessionEpoch)
  }

  /**
   * In every run an error of the session does no harm to the link; but it is
   * passed on only until the second turn, whose epoch makes it look late.
   */
  lemma SessionErrorIsHeardUntilTheSecondTurn(uuid: Codec.Uuid, ops: seq<Op>, m: TextMessage)
    requires var t := Run(Fresh(uuid), ops).0; t.connected && SessionError(t, m)
    ensures var t := Run(Fresh(uuid), ops).0;
            OnNet(t, Text(m)) ==
            (t, if t.turn.epoch <= t.sessionEpoch then Some(Error(m.ids, m.body.code, m.body.message)) else None)
  {
    SoundRun(Fresh(uuid), ops);
    hide Run;
  }

  /** A frame in its place that says the server's audio broke is reported, and the rest of the response is dropped. */
  lemma BrokenAudioIsReported(t: Transport, flags: u16, audio: seq<byte>)
    requires t.active && ValidIds(t.response) && SameTurn(t.response, t.turn) && t.audioStarted && !t.audioEnded
    requires !t.cancelSent && !t.discard && t.downSeq != U32_MAX
    requires DiscontinuityFlag(flags) && (t.downSeq == 0 <==> StartFlag(flags))
    ensures OnPcm(t, t.response, flags, t.downSeq, audio) == (t.(discard := true), Emit(BrokenDownlink(t.response)))
    ensures forall f: u16, sequence: nat, pcm: seq<byte> ::
              OnPcm(t.(discard := true), t.response, f, sequence, pcm) == (t.(discard := true), Ignore)
  {
  }

  /** What still arrives of the latest response after it ended. */
  predicate Remains(t: Transport, n: NetEvent) {
    match n
    case Text(m) => Fair(m) && m.ids == t.response && !m.body.HelloAckBody? && !m.body.CancelledBody?
    case Binary(bytes) => Codec.DeviceReads(bytes, t.uuid) && Codec.DeviceIds(bytes) == t.response
    case _ => false
  }

  /** In every run what is left of a response that ended, in whatever way, is dropped without a trace. */
  lemma EndedResponseIsHarmless(uuid: Codec.Uuid, ops: seq<Op>, n: NetEvent)
    requires var t := Run(Fresh(uuid), ops).0; !t.active && ValidIds(t.response) && Remains(t, n)
    ensures var t := Run(Fresh(uuid), ops).0; OnNet(t, n) == (t, None)
  {
    SoundRun(Fresh(uuid), ops);
    hide Run;
    DroppedRest(Run(Fresh(uuid), ops).0, n);
  }

  lemma DroppedRest(t: Transport, n: NetEvent)
    requires Sound(t) && !t.active && ValidIds(t.response) && Remains(t, n)
    ensures OnNet(t, n) == (t, None)
  {
    hide Codec.DeviceReads, Codec.DeviceIds, Codec.U16, Codec.U32;
  }

  // ---------------------------------------------------------------------
  // One cancel for each turn
  // ---------------------------------------------------------------------

  /** Cancels sent for the turn of an epoch. */
  function Cancels(sent: seq<Uplink>, epoch: nat): nat {
    if sent == [] then 0
    else
      var m := sent[|sent| - 1];
      Cancels(sent[..|sent| - 1], epoch) + if m.Ctl? && IsCancel(m.kind) && m.ids.epoch == epoch then 1 else 0
  }

  lemma CancelsMore(sent: seq<Uplink>, m: Uplink, epoch: nat)
    ensures Cancels(sent + [m], epoch) ==
            Cancels(sent, epoch) + if m.Ctl? && IsCancel(m.kind) && m.ids.epoch == epoch then 1 else 0
  {
    assert (sent + [m])[..|sent|] == sent;
  }

  /** The turn can still be cancelled. */
  predicate Uncancelled(t: Transport) { (t.active || t.responseDone) && !t.cancelSent }

  ghost predicate Once(t: Transport) {
    && (forall e: nat :: Cancels(t.sent, e) <= (if e > t.turn.epoch then 0 else 1))
    && (Uncancelled(t) ==> Cancels(t.sent, t.turn.epoch) == 0)
  }

  lemma SendOnce(t: Transport, c: Control, net: NetReply)
    requires Sound(t) && Once(t)
    ensures Once(Send(t, c, net).0)
  {
    forall e: nat ensures Cancels(t.sent + [Ctl(c.kind, c.ids)], e) ==
                          Cancels(t.sent, e) + if IsCancel(c.kind) && c.ids.epoch == e then 1 else 0 {
      CancelsMore(t.sent, Ctl(c.kind, c.ids), e);
    }
    hide Cancels;
  }

  lemma SpeakOnce(t: Transport, ids: WireIds, flags: u16, sequence: nat, pcm: seq<byte>, net: NetReply)
    requires Once(t)
    ensures Once(SendPcm(t, ids, flags, sequence, pcm, net).0)
  {
    var m, u := Audio(ids, flags, sequence, pcm), SendPcm(t, ids, flags, sequence, pcm, net).0;
    assert u == t || (u.sent == t.sent + [m] && u.turn == t.turn && Uncancelled(u) == Uncancelled(t)) by {
      hide PcmAllowed;
    }
    hide SendPcm, Cancels, Uncancelled;
    if u != t {
      forall e: nat ensures Cancels(u.sent, e) == Cancels(t.sent, e) {
        CancelsMore(t.sent, m, e);
      }
    }
  }

  /** The network sends nothing and cannot take a cancel back. */
  predicate Keeps(t: Transport, u: Transport) {
    u.sent == t.sent && u.turn == t.turn && (Uncancelled(u) ==> Uncancelled(t))
  }

  lemma TextKeeps(t: Transport, m: TextMessage)
    requires Sound(t)
    ensures Keeps(t, OnText(t, m).0)
  {
    assert forall u: Transport, c: bool :: Keeps(t, u) ==> Keeps(t, u.(connected := c));
    if m.Envelope? {
      PartKeeps(t, m);
      if m.body.HelloAckBody? { assert Keeps(t, OnHelloAck(t, m).0); }
      if m.body.CancelledBody? { assert Keeps(t, OnCancelled(t, m).0); }
      if m.body.ResponseStartBody? { assert Keeps(t, OnResponseStart(t, m).0); }
      if m.body.ErrorBody? { assert Keeps(t, OnError(t, m).0); }
    }
    hide Keeps, OnHelloAck, OnCancelled, OnResponseStart, OnError, OnResponsePart;
    assert Keeps(t, t) by { SelfKeeps(t); }
  }

  lemma SelfKeeps(t: Transport)
    ensures Keeps(t, t)
  {
  }

  lemma PartKeeps(t: Transport, m: TextMessage)
    requires Sound(t) && m.Envelope?
    ensures Keeps(t, OnResponsePart(t, m).0)
  {
  }

  lemma NetKeeps(t: Transport, n: NetEvent)
    requires Sound(t)
    ensures Keeps(t, OnNet(t, n).0)
  {
    hide OnText, Codec.DeviceReads, Codec.DeviceIds, Codec.U16, Codec.U32;
    if n.Text? { TextKeeps(t, n.message); }
  }

  lemma {:induction false} RunOnce(t: Transport, ops: seq<Op>)
    requires Sound(t) && Once(t)
    ensures Once(Run(t, ops).0)
    decreases |ops|
  {
    if ops != [] {
      SoundStep(t, ops[0]);
      match ops[0] {
        case DoSend(c, net) => SendOnce(t, c, net);
        case DoSendPcm(ids, flags, sequence, pcm, net) => SpeakOnce(t, ids, flags, sequence, pcm, net);
        case DoNet(n) =>
          NetKeeps(t, n);
          hide OnNet, Cancels;
      }
      hide Once, Step, Sound;
      RunOnce(Step(t, ops[0]).0, ops[1..]);
    }
  }

  /** However often a turn and its response are cancelled, the server is told once. */
  lemma EachTurnIsCancelledOnce(uuid: Codec.Uuid, ops: seq<Op>, epoch: nat)
    ensures Cancels(Run(Fresh(uuid), ops).0.sent, epoch) <= 1
  {
    RunOnce(Fresh(uuid), ops);
    hide Run, Cancels;
  }
}
