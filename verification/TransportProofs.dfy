/** What holds over every run of the device's transport, whatever the server sends. */
module TransportProofs {
  import opened WireTypes
  import opened ClientTransport
  import Codec = PcmCodec

  ghost predicate Sound(t: Transport) {
    && (t.session == 0 <==> t.sessionEpoch == 0)
    && (t.turn == ZERO_IDS || (ValidIds(t.turn) && t.turn.session == t.session && t.turn.epoch >= t.sessionEpoch))
    && (t.response == ZERO_IDS || (ValidIds(t.response) && SameTurn(t.response, t.turn) && t.committed))
    && (t.active ==> ValidIds(t.turn) && !t.responseDone)
    && (t.audioStarted ==> ValidIds(t.response))
    && (t.responseDone ==> ValidIds(t.response))
    && (t.downSeq != 0 ==> t.audioStarted)
    && (t.committed ==> t.uplinkEnded)
    && (t.uplinkEnded ==> t.upSeq != 0)
  }

  /** One locked region: the actor sends, or the network thread handles an event. */
  datatype Op =
    | DoSend(control: Control, net: NetReply)
    | DoSendPcm(ids: WireIds, flags: u16, sequence: nat, pcm: seq<byte>, reply: NetReply)
    | DoNet(event: NetEvent)

  function Step(t: Transport, op: Op): (Transport, Option<Inbound>) {
    match op
    case DoSend(c, net) => (Send(t, c, net).0, None)
    case DoSendPcm(ids, flags, sequence, pcm, net) =>
      (SendPcm(t, ids, flags, sequence, pcm, net).0, None)
    case DoNet(n) => OnNet(t, n)
  }

  function Run(t: Transport, ops: seq<Op>): (Transport, seq<Inbound>)
    decreases ops
  {
    if ops == [] then (t, [])
    else
      var (t1, e) := Step(t, ops[0]);
      var (t2, rest) := Run(t1, ops[1..]);
      (t2, (if e.Some? then [e.value] else []) + rest)
  }

  lemma SoundSend(t: Transport, c: Control, net: NetReply)
    requires Sound(t)
    ensures Sound(Send(t, c, net).0)
  {
  }

  lemma SoundStart(t: Transport, m: TextMessage)
    requires Sound(t) && m.Envelope? && m.body.ResponseStartBody?
    ensures Sound(OnResponseStart(t, m).0)
  {
  }

  lemma SoundPart(t: Transport, m: TextMessage)
    requires Sound(t) && m.Envelope?
    ensures Sound(OnResponsePart(t, m).0)
  {
  }

  lemma SoundOther(t: Transport, m: TextMessage)
    requires Sound(t) && m.Envelope?
    ensures m.body.HelloAckBody? ==> Sound(OnHelloAck(t, m).0)
    ensures m.body.CancelledBody? ==> Sound(OnCancelled(t, m).0)
    ensures m.body.ErrorBody? ==> Sound(OnError(t, m).0)
  {
  }

  lemma SoundText(t: Transport, m: TextMessage)
    requires Sound(t)
    ensures Sound(OnText(t, m).0)
  {
    hide OnHelloAck, OnResponseStart, OnCancelled, OnError, OnResponsePart;
    assert forall c :: Sound(t.(connected := c));
    hide Sound;
    if m.Envelope? {
      SoundOther(t, m);
      SoundPart(t, m);
      if m.body.ResponseStartBody? {
        SoundStart(t, m);
      }
    }
  }

  lemma SoundPcm(t: Transport, i: WireIds, flags: u16, sequence: nat, audio: seq<byte>)
    requires Sound(t)
    ensures Sound(OnPcm(t, i, flags, sequence, audio).0)
  {
  }

  lemma SoundNet(t: Transport, n: NetEvent)
    requires Sound(t)
    ensures Sound(OnNet(t, n).0)
  {
    hide OnText, OnPcm, Codec.U32, Codec.U16;
    match n
    case Text(m) => SoundText(t, m);
    case Binary(b) =>
      if Codec.DeviceReads(b, t.uuid) {
        SoundPcm(t, Codec.DeviceIds(b), Codec.U16(b[6..8]), Codec.U32(b[20..24]), b[64..]);
      }
    case _ =>
  }

  lemma SoundStep(t: Transport, op: Op)
    requires Sound(t)
    ensures Sound(Step(t, op).0)
  {
    match op
    case DoSend(c, net) => SoundSend(t, c, net);
    case DoSendPcm(_, _, _, _, _) =>
    case DoNet(n) => SoundNet(t, n);
  }

  lemma {:induction false} SoundRun(t: Transport, ops: seq<Op>)
    requires Sound(t)
    ensures Sound(Run(t, ops).0)
    decreases ops
  {
    if ops != [] {
      SoundStep(t, ops[0]);
      SoundRun(Step(t, ops[0]).0, ops[1..]);
    }
  }

  // ---------------------------------------------------------------------
  // After a cancel, silence
  // ---------------------------------------------------------------------

  /** Turn `x` is cancelled, over, or superseded. */
  ghost predicate Silenced(t: Transport, x: WireIds) {
    && x.session != 0 && x.epoch != 0 && x.session == t.session
    && (x.epoch < t.turn.epoch || (SameTurn(t.turn, x) && (t.cancelSent || !t.active)))
  }

  ghost predicate NotFor(v: Verdict, x: WireIds) {
    v.Emit? && IsData(v.event) ==> !SameTurn(v.event.ids, x)
  }

  lemma SilentStart(t: Transport, m: TextMessage, x: WireIds)
    requires Sound(t) && Silenced(t, x) && m.Envelope? && m.body.ResponseStartBody?
    ensures Silenced(OnResponseStart(t, m).0, x) && NotFor(OnResponseStart(t, m).1, x)
  {
  }

  lemma SilentPart(t: Transport, m: TextMessage, x: WireIds)
    requires Sound(t) && Silenced(t, x) && m.Envelope?
    ensures Silenced(OnResponsePart(t, m).0, x) && NotFor(OnResponsePart(t, m).1, x)
  {
  }

  lemma SilentOther(t: Transport, m: TextMessage, x: WireIds)
    requires Sound(t) && Silenced(t, x) && m.Envelope?
    ensures m.body.HelloAckBody? ==> Silenced(OnHelloAck(t, m).0, x) && NotFor(OnHelloAck(t, m).1, x)
    ensures m.body.CancelledBody? ==> Silenced(OnCancelled(t, m).0, x) && NotFor(OnCancelled(t, m).1, x)
    ensures m.body.ErrorBody? ==> Silenced(OnError(t, m).0, x) && NotFor(OnError(t, m).1, x)
  {
  }

  lemma SilentPcm(t: Transport, i: WireIds, flags: u16, sequence: nat, audio: seq<byte>, x: WireIds)
    requires Sound(t) && Silenced(t, x)
    ensures var r := OnPcm(t, i, flags, sequence, audio); Silenced(r.0, x) && NotFor(r.1, x)
  {
  }

  lemma SilentText(t: Transport, m: TextMessage, x: WireIds)
    requires Sound(t) && Silenced(t, x)
    ensures Silenced(OnText(t, m).0, x) && NotFor(OnText(t, m).1, x)
  {
    hide OnHelloAck, OnResponseStart, OnCancelled, OnError, OnResponsePart;
    if m.Envelope? {
      SilentOther(t, m, x);
      SilentPart(t, m, x);
      if m.body.ResponseStartBody? {
        SilentStart(t, m, x);
      }
    }
  }

  lemma SilentNet(t: Transport, n: NetEvent, x: WireIds)
    requires Sound(t) && Silenced(t, x)
    ensures Silenced(OnNet(t, n).0, x)
    ensures var e := OnNet(t, n).1;
            e.Some? && IsData(e.value) ==> !SameTurn(e.value.ids, x)
  {
    hide OnText, OnPcm, Codec.U32, Codec.U16;
    match n
    case Text(m) => SilentText(t, m, x);
    case Binary(b) =>
      if Codec.DeviceReads(b, t.uuid) {
        SilentPcm(t, Codec.DeviceIds(b), Codec.U16(b[6..8]), Codec.U32(b[20..24]), b[64..], x);
      }
    case _ =>
  }

  lemma SilentSend(t: Transport, c: Control, net: NetReply, x: WireIds)
    requires Sound(t) && Silenced(t, x)
    ensures Silenced(Send(t, c, net).0, x)
  {
  }

  lemma SilentStep(t: Transport, op: Op, x: WireIds)
    requires Sound(t) && Silenced(t, x)
    ensures Silenced(Step(t, op).0, x)
    ensures var e := Step(t, op).1;
            e.Some? && IsData(e.value) ==> !SameTurn(e.value.ids, x)
  {
    match op
    case DoSend(c, net) => SilentSend(t, c, net, x);
    case DoSendPcm(_, _, _, _, _) =>
    case DoNet(n) => SilentNet(t, n, x);
  }

  lemma {:induction false} SilentRun(t: Transport, ops: seq<Op>, x: WireIds)
    requires Sound(t) && Silenced(t, x)
    ensures forall e :: e in Run(t, ops).1 && IsData(e) ==> !SameTurn(e.ids, x)
    decreases ops
  {
    if ops != [] {
      SilentStep(t, ops[0], x);
      SoundStep(t, ops[0]);
      SilentRun(Step(t, ops[0]).0, ops[1..], x);
    }
  }

  /**
   * Once the transport has accepted a cancel of a turn, nothing of that turn's
   * response reaches the actor for the rest of the connection: not the start,
   * not text, not audio.  The server may send anything, and its done, error and
   * cancelled messages may cross the cancel in any way.
   */
  lemma CancelSilencesTurn(uuid: Codec.Uuid, before: seq<Op>, c: Control, net: NetReply, after: seq<Op>)
    requires IsCancel(c.kind)
    requires Send(Run(Fresh(uuid), before).0, c, net).1 == Accepted
    ensures var t := Send(Run(Fresh(uuid), before).0, c, net).0;
            forall e :: e in Run(t, after).1 && IsData(e) ==> !SameTurn(e.ids, c.ids)
  {
    SoundRun(Fresh(uuid), before);
    var t := Run(Fresh(uuid), before).0;
    SoundSend(t, c, net);
    SilentRun(Send(t, c, net).0, after, c.ids);
  }

  // ---------------------------------------------------------------------
  // The audio passed on has no gap
  // ---------------------------------------------------------------------

  /** The audio frames of one epoch among the events passed on. */
  function AudioOf(events: seq<Inbound>, epoch: nat): seq<Inbound> {
    if events == [] then []
    else
      var rest := AudioOf(events[..|events| - 1], epoch);
      var e := events[|events| - 1];
      if e.Pcm? && e.ids.epoch == epoch then rest + [e] else rest
  }

  /** Frames numbered from zero, START on the first only, nothing after END. */
  ghost predicate Gapless(frames: seq<Inbound>) {
    forall k :: 0 <= k < |frames| ==>
      && frames[k].Pcm? && frames[k].sequence == k
      && (StartFlag(frames[k].flags) <==> k == 0)
      && (EndFlag(frames[k].flags) ==> k == |frames| - 1)
  }

  ghost predicate Logged(t: Transport, log: seq<Inbound>) {
    && (forall e :: e in log && e.Pcm? ==> 0 < e.ids.epoch <= t.turn.epoch)
    && (forall epoch {:trigger AudioOf(log, epoch)} :: Gapless(AudioOf(log, epoch)))
    && |AudioOf(log, t.turn.epoch)| == (if t.turn.epoch == 0 then 0 else t.downSeq)
    && (t.downSeq != 0 ==>
        t.turn.epoch != 0 && EndFlag(AudioOf(log, t.turn.epoch)[t.downSeq - 1].flags) == t.audioEnded)
  }

  lemma {:induction false} NoAudioYet(log: seq<Inbound>, epoch: nat)
    requires forall e :: e in log && e.Pcm? ==> e.ids.epoch != epoch
    ensures AudioOf(log, epoch) == []
  {
    if log != [] {
      NoAudioYet(log[..|log| - 1], epoch);
    }
  }

  lemma LoggedNoAudio(t: Transport, t': Transport, log: seq<Inbound>, e: Inbound)
    requires Logged(t, log) && !e.Pcm?
    requires t'.turn == t.turn && t'.downSeq == t.downSeq
    requires t'.downSeq != 0 ==> t'.audioEnded == t.audioEnded
    ensures Logged(t', log + [e])
  {
    assert (log + [e])[..|log + [e]| - 1] == log;
    forall epoch
      ensures AudioOf(log + [e], epoch) == AudioOf(log, epoch)
    {
    }
  }

  lemma LoggedAudio(t: Transport, t': Transport, log: seq<Inbound>, e: Inbound)
    requires Logged(t, log) && Sound(t) && e.Pcm?
    requires e.ids.epoch == t.turn.epoch != 0 && e.sequence == t.downSeq && !t.audioEnded
    requires StartFlag(e.flags) <==> t.downSeq == 0
    requires t'.turn == t.turn && t'.downSeq == t.downSeq + 1 && t'.audioEnded == EndFlag(e.flags)
    ensures Logged(t', log + [e])
  {
    assert (log + [e])[..|log + [e]| - 1] == log;
    var before := AudioOf(log, t.turn.epoch);
    assert AudioOf(log + [e], t.turn.epoch) == before + [e];
    assert Gapless(before);
    forall epoch | epoch != t.turn.epoch
      ensures AudioOf(log + [e], epoch) == AudioOf(log, epoch)
    {
    }
    assert Gapless(before + [e]);
  }

  lemma LoggedSend(t: Transport, c: Control, net: NetReply, log: seq<Inbound>)
    requires Sound(t) && Logged(t, log)
    ensures Logged(Send(t, c, net).0, log)
  {
    var t' := Send(t, c, net).0;
    if t'.turn != t.turn {
      NoAudioYet(log, t'.turn.epoch);
    }
  }

  lemma LoggedStep(t: Transport, op: Op, log: seq<Inbound>)
    requires Sound(t) && Logged(t, log)
    ensures var (t', e) := Step(t, op);
            Logged(t', log + (if e.Some? then [e.value] else []))
  {
    hide OnNet, Send, SendPcm;
    var (t', e) := Step(t, op);
    assert log + [] == log;
    match op
    case DoSend(c, net) => LoggedSend(t, c, net, log);
    case DoSendPcm(ids, flags, sequence, pcm, net) => LoggedSendPcm(t, ids, flags, sequence, pcm, net, log);
    case DoNet(n) =>
      NetKeeps(t, n);
      if e.None? {
        assert Logged(t', log);
      } else if e.value.Pcm? {
        LoggedAudio(t, t', log, e.value);
      } else {
        LoggedNoAudio(t, t', log, e.value);
      }
  }

  lemma LoggedSendPcm(t: Transport, ids: WireIds, flags: u16, sequence: nat, pcm: seq<byte>,
                      net: NetReply, log: seq<Inbound>)
    requires Logged(t, log)
    ensures Logged(SendPcm(t, ids, flags, sequence, pcm, net).0, log)
  {
  }

  /** A network event moves the audio count only by passing on the next frame. */
  lemma NetKeeps(t: Transport, n: NetEvent)
    requires Sound(t)
    ensures var (t', e) := OnNet(t, n);
            && t'.turn == t.turn
            && (if e.Some? && e.value.Pcm? then
                  && t.turn.epoch != 0 && e.value.ids.epoch == t.turn.epoch
                  && e.value.sequence == t.downSeq && !t.audioEnded
                  && (StartFlag(e.value.flags) <==> t.downSeq == 0)
                  && t'.downSeq == t.downSeq + 1 && t'.audioEnded == EndFlag(e.value.flags)
                else
                  t'.downSeq == t.downSeq && (t'.downSeq != 0 ==> t'.audioEnded == t.audioEnded))
  {
    hide Codec.U32, Codec.U16;
    match n
    case Text(m) => TextKeeps(t, m);
    case _ =>
  }

  ghost predicate KeepsCount(t: Transport, r: (Transport, Verdict)) {
    && r.0.turn == t.turn && r.0.downSeq == t.downSeq
    && (t.downSeq != 0 ==> r.0.audioEnded == t.audioEnded)
    && (r.1.Emit? ==> !r.1.event.Pcm?)
  }

  lemma PartKeeps(t: Transport, m: TextMessage)
    requires m.Envelope?
    ensures KeepsCount(t, OnResponsePart(t, m))
  {
  }

  lemma OtherKeeps(t: Transport, m: TextMessage)
    requires Sound(t) && m.Envelope?
    ensures m.body.ResponseStartBody? ==> KeepsCount(t, OnResponseStart(t, m))
    ensures m.body.HelloAckBody? ==> KeepsCount(t, OnHelloAck(t, m))
    ensures m.body.CancelledBody? ==> KeepsCount(t, OnCancelled(t, m))
    ensures m.body.ErrorBody? ==> KeepsCount(t, OnError(t, m))
  {
  }

  lemma TextKeeps(t: Transport, m: TextMessage)
    requires Sound(t)
    ensures KeepsCount(t, OnText(t, m))
  {
    hide OnHelloAck, OnResponseStart, OnCancelled, OnError, OnResponsePart;
    if m.Envelope? {
      PartKeeps(t, m);
      OtherKeeps(t, m);
    }
  }

  lemma {:induction false} LoggedRun(t: Transport, ops: seq<Op>, log: seq<Inbound>)
    requires Sound(t) && Logged(t, log)
    ensures Logged(Run(t, ops).0, log + Run(t, ops).1)
    decreases ops
  {
    hide Step, Logged, Sound;
    if ops == [] {
      assert log + [] == log;
    } else {
      LoggedStep(t, ops[0], log);
      SoundStep(t, ops[0]);
      var (t1, e) := Step(t, ops[0]);
      var log1 := log + (if e.Some? then [e.value] else []);
      LoggedRun(t1, ops[1..], log1);
      assert log1 + Run(t1, ops[1..]).1 == log + Run(t, ops).1;
    }
  }

  /**
   * The audio of every turn reaches the actor without a gap, a repeat or a
   * reordering, whatever frames the server sends.
   */
  lemma AudioIsGapless(uuid: Codec.Uuid, ops: seq<Op>, epoch: nat)
    ensures Gapless(AudioOf(Run(Fresh(uuid), ops).1, epoch))
  {
    hide Step;
    LoggedRun(Fresh(uuid), ops, []);
    assert [] + Run(Fresh(uuid), ops).1 == Run(Fresh(uuid), ops).1;
  }
}
