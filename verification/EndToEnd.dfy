/** A completed answer of the server, message by message through the device's transport. */
module EndToEnd {
  import opened WireTypes
  import Codec = PcmCodec
  import S = SessionActor
  import D = Downlink
  import P = DownlinkProofs
  import Source = DownlinkSource
  import V = SessionDelivery
  import T = ClientTransport
  import R = TransportProofs

  /** The header sendDownlinkPCM builds. */
  function FrameHeader(f: D.Frame, ids: WireIds, uuid: Codec.Uuid, timestamp: u64): Codec.Header
    requires Fits32(ids) && f.sequence < U32_MAX && |f.payload| <= OUTPUT_FRAME_BYTES
  {
    Codec.Header(1, Codec.DOWNLINK, Flags(f.start, f.end), 1, 1, OUTPUT_RATE, |f.payload|, f.sequence, timestamp,
                 ids.epoch, uuid, ids.session, ids.turn, ids.stream)
  }

  /** `n` is how `m` reaches the device, whatever the time on its stamp. */
  ghost predicate Arrives(m: D.Wire, ids: WireIds, uuid: Codec.Uuid, n: T.NetEvent)
    requires Fits32(ids)
  {
    match m
    case ResponseStart(id) => n == T.Text(T.Envelope(true, ids, true, T.ResponseStartBody(id)))
    case TextDelta(id, text) => n == T.Text(T.Envelope(true, ids, true, T.TextDeltaBody(id, text)))
    case AudioStart(id, rate) => rate >= 0 && n == T.Text(T.Envelope(true, ids, true, T.AudioStartBody(id, rate)))
    case Done(id) => n == T.Text(T.Envelope(true, ids, true, T.DoneBody(id)))
    case Audio(f) =>
      && n.Binary? && f.sequence < U32_MAX && |f.payload| <= OUTPUT_FRAME_BYTES
      && |n.bytes| == Codec.HEADER_BYTES + |f.payload| && n.bytes[64..] == f.payload
      && exists timestamp :: Codec.LaidOut(FrameHeader(f, ids, uuid, timestamp), n.bytes[..64])
  }

  /** What the actor must be told. */
  function Heard(m: D.Wire, ids: WireIds): T.Inbound {
    match m
    case ResponseStart(_) => T.ResponseStart(ids)
    case TextDelta(_, text) => T.TextDelta(ids, text)
    case AudioStart(_, _) => T.AudioStart(ids)
    case Done(_) => T.Done(ids)
    case Audio(f) => T.Pcm(ids, Flags(f.start, f.end), f.sequence, f.payload)
  }

  /** Texts and response ids are within the device's limits. */
  predicate Brief(m: D.Wire) {
    (m.TextDelta? ==> T.Sized(m.text, 4096)) && (m.ResponseStart? ==> T.Sized(m.responseId, 128))
  }

  /** The device waits for the answer to its committed turn and has not cancelled it. */
  ghost predicate Waiting(t: T.Transport, ids: WireIds, uuid: Codec.Uuid) {
    && t.uuid == uuid && t.connected && t.active && t.committed && !t.cancelSent
    && ValidIds(ids) && SameTurn(ids, t.turn) && !ValidIds(t.response)
  }

  /** The device stands where the answer stands. */
  ghost predicate Hearing(t: T.Transport, s: P.Stage, ids: WireIds, uuid: Codec.Uuid) {
    && t.uuid == uuid && t.connected && !t.cancelSent && !t.discard
    && ValidIds(ids) && SameTurn(ids, t.turn) && t.response == ids && t.responseId == s.id && T.Sized(s.id, 128)
    && t.active == !s.done && t.responseDone == s.done
    && t.audioStarted == s.audio && t.audioEnded == s.ended && t.downSeq == s.frames
  }

  lemma StartHeard(t: T.Transport, id: string, ids: WireIds, uuid: Codec.Uuid)
    requires Waiting(t, ids, uuid) && T.Sized(id, 128)
    ensures var (u, e) := T.OnNet(t, T.Text(T.Envelope(true, ids, true, T.ResponseStartBody(id))));
            e == Some(T.ResponseStart(ids)) && Hearing(u, P.Opened(id), ids, uuid)
  {
  }

  lemma ControlHeard(t: T.Transport, s: P.Stage, m: D.Wire, ids: WireIds, uuid: Codec.Uuid, n: T.NetEvent)
    requires Hearing(t, s, ids, uuid) && P.Fits(s, m) && Brief(m) && !m.Audio? && Fits32(ids)
    requires Arrives(m, ids, uuid, n)
    ensures var (u, e) := T.OnNet(t, n); e == Some(Heard(m, ids)) && Hearing(u, P.Next(s, m), ids, uuid)
  {
  }

  /** The device's reader finds the fields the server wrote. */
  lemma FrameRead(f: D.Frame, ids: WireIds, uuid: Codec.Uuid, timestamp: u64, bytes: seq<byte>)
    requires Fits32(ids) && ValidIds(ids) && uuid != Codec.NIL_UUID && f.sequence < U32_MAX
    requires 0 < |f.payload| <= OUTPUT_FRAME_BYTES && |f.payload| % BYTES_PER_SAMPLE == 0
    requires |bytes| == Codec.HEADER_BYTES + |f.payload|
    requires Codec.LaidOut(FrameHeader(f, ids, uuid, timestamp), bytes[..64])
    ensures Codec.DeviceReads(bytes, uuid) && Codec.DeviceIds(bytes) == ids
    ensures Codec.U16(bytes[6..8]) == Flags(f.start, f.end) && Codec.U32(bytes[20..24]) == f.sequence
  {
    hide Codec.LaidOut, Codec.U16, Codec.U32;
    Codec.DeviceReadsServerFrame(FrameHeader(f, ids, uuid, timestamp), bytes);
  }

  lemma PcmHeard(t: T.Transport, s: P.Stage, f: D.Frame, ids: WireIds, uuid: Codec.Uuid)
    requires Hearing(t, s, ids, uuid) && P.Fits(s, D.Audio(f)) && f.sequence < U32_MAX
    ensures T.OnPcm(t, ids, Flags(f.start, f.end), f.sequence, f.payload) ==
            (t.(downSeq := t.downSeq + 1, audioEnded := f.end), T.Emit(Heard(D.Audio(f), ids)))
    ensures Hearing(t.(downSeq := t.downSeq + 1, audioEnded := f.end), P.Next(s, D.Audio(f)), ids, uuid)
  {
  }

  lemma FrameHeard(t: T.Transport, s: P.Stage, f: D.Frame, ids: WireIds, uuid: Codec.Uuid, n: T.NetEvent)
    requires Hearing(t, s, ids, uuid) && P.Fits(s, D.Audio(f)) && Fits32(ids) && uuid != Codec.NIL_UUID
    requires Arrives(D.Audio(f), ids, uuid, n)
    ensures var (u, e) := T.OnNet(t, n);
            e == Some(Heard(D.Audio(f), ids)) && Hearing(u, P.Next(s, D.Audio(f)), ids, uuid)
  {
    var timestamp :| Codec.LaidOut(FrameHeader(f, ids, uuid, timestamp), n.bytes[..64]);
    FrameRead(f, ids, uuid, timestamp, n.bytes);
    PcmHeard(t, s, f, ids, uuid);
    hide Codec.LaidOut, Codec.DeviceReads, Codec.DeviceIds, Codec.U16, Codec.U32, T.OnPcm, P.Fits, Hearing;
  }

  // ---------------------------------------------------------------------
  // The answer among everything else that happens
  // ---------------------------------------------------------------------

  /** What may come between: the actor's calls other than cancels, pings, a late open. */
  predicate Background(op: R.Op) {
    match op
    case DoSend(c, _) => !T.IsCancel(c.kind)
    case DoSendPcm(_, _, _, _, _) => true
    case DoNet(n) => n.Ping? || n.Opened?
  }

  /** The regions the transport runs: the messages in order, with anything of that kind before each. */
  ghost predicate Carries(ops: seq<R.Op>, ms: seq<D.Wire>, ids: WireIds, uuid: Codec.Uuid)
    requires Fits32(ids)
    decreases |ops|
  {
    if ms == [] then ops == []
    else
      && ops != []
      && (|| (Background(ops[0]) && Carries(ops[1..], ms, ids, uuid))
          || (ops[0].DoNet? && Arrives(ms[0], ids, uuid, ops[0].event) && Carries(ops[1..], ms[1..], ids, uuid)))
  }

  /** What the actor is told, heartbeats aside. */
  function Answers(es: seq<T.Inbound>): seq<T.Inbound> {
    if es == [] then [] else (if es[0].Heartbeat? then [] else [es[0]]) + Answers(es[1..])
  }

  ghost predicate AllHeard(es: seq<T.Inbound>, ms: seq<D.Wire>, ids: WireIds) {
    |Answers(es)| == |ms| && forall i :: 0 <= i < |ms| ==> Answers(es)[i] == Heard(ms[i], ids)
  }

  lemma BackgroundWaits(t: T.Transport, op: R.Op, ids: WireIds, uuid: Codec.Uuid)
    requires Waiting(t, ids, uuid) && Background(op)
    ensures var (u, e) := R.Step(t, op); Waiting(u, ids, uuid) && (e.Some? ==> e.value.Heartbeat?)
  {
  }

  lemma BackgroundHears(t: T.Transport, s: P.Stage, op: R.Op, ids: WireIds, uuid: Codec.Uuid)
    requires Hearing(t, s, ids, uuid) && !s.done && Background(op)
    ensures var (u, e) := R.Step(t, op); Hearing(u, s, ids, uuid) && (e.Some? ==> e.value.Heartbeat?)
  {
  }

  lemma HeardNext(e: T.Inbound, rest: seq<T.Inbound>, ms: seq<D.Wire>, ids: WireIds)
    requires ms != [] && e == Heard(ms[0], ids) && AllHeard(rest, ms[1..], ids)
    ensures AllHeard([e] + rest, ms, ids)
  {
    var es := [e] + rest;
    assert es[1..] == rest && Answers(es) == [e] + Answers(rest);
    forall i | 0 <= i < |ms| ensures Answers(es)[i] == Heard(ms[i], ids) {
      if i > 0 { assert Answers(es)[i] == Answers(rest)[i - 1] && ms[i] == ms[1..][i - 1]; }
    }
  }

  lemma HeardBeat(e: Option<T.Inbound>, rest: seq<T.Inbound>)
    requires e.Some? ==> e.value.Heartbeat?
    ensures Answers((if e.Some? then [e.value] else []) + rest) == Answers(rest)
  {
    if e.Some? {
      assert ([e.value] + rest)[1..] == rest;
    } else {
      assert [] + rest == rest;
    }
  }

  lemma MessageHeard(t: T.Transport, s: P.Stage, m: D.Wire, ids: WireIds, uuid: Codec.Uuid, n: T.NetEvent)
    requires Hearing(t, s, ids, uuid) && P.Fits(s, m) && Brief(m) && Fits32(ids) && uuid != Codec.NIL_UUID
    requires Arrives(m, ids, uuid, n)
    ensures var (u, e) := T.OnNet(t, n); e == Some(Heard(m, ids)) && Hearing(u, P.Next(s, m), ids, uuid)
  {
    if m.Audio? {
      FrameHeard(t, s, m.frame, ids, uuid, n);
    } else {
      ControlHeard(t, s, m, ids, uuid, n);
    }
  }

  lemma FitsOpen(s: P.Stage, m: D.Wire)
    requires P.Fits(s, m)
    ensures !s.done
  {
  }

  lemma {:induction false} RestHeard(
    t: T.Transport, s: P.Stage, ms: seq<D.Wire>, ids: WireIds, uuid: Codec.Uuid, ops: seq<R.Op>)
    requires Hearing(t, s, ids, uuid) && P.AllFit(s, ms) && Fits32(ids) && uuid != Codec.NIL_UUID
    requires Carries(ops, ms, ids, uuid) && forall i :: 0 <= i < |ms| ==> Brief(ms[i])
    ensures var (u, es) := R.Run(t, ops); Hearing(u, P.NextAll(s, ms), ids, uuid) && AllHeard(es, ms, ids)
    decreases |ops|
  {
    hide Hearing, Arrives, P.Fits, P.Next, Brief, R.Step, T.OnNet, Background, Heard;
    if ms != [] {
      var (u, e) := R.Step(t, ops[0]);
      FitsOpen(s, ms[0]);
      if Background(ops[0]) && Carries(ops[1..], ms, ids, uuid) {
        BackgroundHears(t, s, ops[0], ids, uuid);
        RestHeard(u, s, ms, ids, uuid, ops[1..]);
        HeardBeat(e, R.Run(u, ops[1..]).1);
      } else {
        MessageHeard(t, s, ms[0], ids, uuid, ops[0].event);
        NetStep(t, ops[0].event);
        RestHeard(u, P.Next(s, ms[0]), ms[1..], ids, uuid, ops[1..]);
        HeardNext(e.value, R.Run(u, ops[1..]).1, ms, ids);
      }
    }
  }

  lemma NetStep(t: T.Transport, n: T.NetEvent)
    ensures R.Step(t, R.DoNet(n)) == T.OnNet(t, n)
  {
  }

  /** The audio bytes among delivered events. */
  function AudioIn(es: seq<T.Inbound>): seq<byte> {
    if es == [] then [] else (if es[0].Pcm? then es[0].audio else []) + AudioIn(es[1..])
  }

  lemma {:induction false} AudioInAnswers(es: seq<T.Inbound>)
    ensures AudioIn(Answers(es)) == AudioIn(es)
  {
    if es != [] {
      AudioInAnswers(es[1..]);
      if !es[0].Heartbeat? {
        assert Answers(es)[1..] == Answers(es[1..]);
      } else {
        assert Answers(es) == Answers(es[1..]);
      }
    }
  }

  lemma {:induction false} AudioMore(es: seq<T.Inbound>, e: T.Inbound)
    ensures AudioIn(es + [e]) == AudioIn(es) + if e.Pcm? then e.audio else []
  {
    var last := if e.Pcm? then e.audio else [];
    if es == [] {
      assert es + [e] == [e] && [e][1..] == [];
      assert AudioIn([e]) == last + AudioIn([]) == last;
    } else {
      var first := if es[0].Pcm? then es[0].audio else [];
      var rest := es[1..] + [e];
      assert (es + [e])[1..] == rest && (es + [e])[0] == es[0];
      assert AudioIn(es + [e]) == first + AudioIn(rest) && AudioIn(es) == first + AudioIn(es[1..]);
      hide AudioIn;
      AudioMore(es[1..], e);
      assert (first + AudioIn(es[1..])) + last == first + (AudioIn(es[1..]) + last);
    }
  }

  /** One message more on both sides. */
  lemma HeardMore(ms: seq<D.Wire>, m: D.Wire, ids: WireIds, es: seq<T.Inbound>)
    requires AudioIn(es) == P.Payloads(P.FramesIn(ms))
    ensures AudioIn(es + [Heard(m, ids)]) == P.Payloads(P.FramesIn(ms + [m]))
  {
    AudioMore(es, Heard(m, ids));
    P.FramesAppend(ms, m);
    if m.Audio? {
      P.PayloadAppend(P.FramesIn(ms), m.frame);
    }
    hide AudioIn, P.Payloads, P.FramesIn;
    assert P.FramesIn(ms) + [] == P.FramesIn(ms);
  }

  lemma {:induction false} HeardAudio(ms: seq<D.Wire>, ids: WireIds, es: seq<T.Inbound>)
    requires |es| == |ms| && forall i :: 0 <= i < |ms| ==> es[i] == Heard(ms[i], ids)
    ensures AudioIn(es) == P.Payloads(P.FramesIn(ms))
    decreases |ms|
  {
    if ms != [] {
      hide Heard, AudioIn, P.Payloads, P.FramesIn;
      var n := |ms| - 1;
      HeardAudio(ms[..n], ids, es[..n]);
      assert ms == ms[..n] + [ms[n]] && es == es[..n] + [Heard(ms[n], ids)];
      HeardMore(ms[..n], ms[n], ids, es[..n]);
    }
  }

  /** The texts among delivered events. */
  function TextsTold(es: seq<T.Inbound>): seq<string> {
    if es == [] then [] else (if es[0].TextDelta? then [es[0].text] else []) + TextsTold(es[1..])
  }

  lemma {:induction false} TextsInAnswers(es: seq<T.Inbound>)
    ensures TextsTold(Answers(es)) == TextsTold(es)
  {
    if es != [] {
      TextsInAnswers(es[1..]);
      if !es[0].Heartbeat? {
        assert Answers(es)[1..] == Answers(es[1..]);
      } else {
        assert Answers(es) == Answers(es[1..]);
      }
    }
  }

  lemma {:induction false} TextsToldMore(es: seq<T.Inbound>, e: T.Inbound)
    ensures TextsTold(es + [e]) == if e.TextDelta? then TextsTold(es) + [e.text] else TextsTold(es)
  {
    var last := if e.TextDelta? then [e.text] else [];
    if es == [] {
      assert es + [e] == [e] && [e][1..] == [];
      assert TextsTold([e]) == last + TextsTold([]) == last;
    } else {
      var first, rest := if es[0].TextDelta? then [es[0].text] else [], es[1..] + [e];
      assert (es + [e])[1..] == rest && (es + [e])[0] == es[0];
      assert TextsTold(es + [e]) == first + TextsTold(rest) && TextsTold(es) == first + TextsTold(es[1..]);
      hide TextsTold;
      TextsToldMore(es[1..], e);
      assert (first + TextsTold(es[1..])) + last == first + (TextsTold(es[1..]) + last);
      assert TextsTold(es) + [] == TextsTold(es);
    }
  }

  lemma {:induction false} HeardTexts(ms: seq<D.Wire>, ids: WireIds, es: seq<T.Inbound>)
    requires |es| == |ms| && forall i :: 0 <= i < |ms| ==> es[i] == Heard(ms[i], ids)
    ensures TextsTold(es) == Source.TextsIn(ms)
    decreases |ms|
  {
    if ms != [] {
      var n := |ms| - 1;
      HeardTexts(ms[..n], ids, es[..n]);
      assert ms == ms[..n] + [ms[n]] && es == es[..n] + [Heard(ms[n], ids)];
      TextsToldMore(es[..n], Heard(ms[n], ids));
      Source.TextsAppend(ms[..n], ms[n]);
      hide TextsTold, Source.TextsIn;
    }
  }

  /** Every message was passed on: the texts of the response, and its audio with its silence. */
  ghost predicate HeardWhole(r: D.Response, ids: WireIds, u: T.Transport, es: seq<T.Inbound>) {
    && u.connected && u.responseDone && !u.active && AllHeard(es, r.messages, ids)
    && TextsTold(es) == Source.TextsIn(r.messages)
    && AudioIn(es) == r.provided + (if r.silenced then [0, 0] else [])
    && (r.silenced ==> r.provided != [] && |r.provided| % OUTPUT_FRAME_BYTES == 0)
  }

  /** The messages reach a device that waits for them, within its limits. */
  ghost predicate Reaches(r: D.Response, ids: WireIds, uuid: Codec.Uuid, t: T.Transport, ops: seq<R.Op>) {
    && Fits32(ids) && uuid != Codec.NIL_UUID && Waiting(t, ids, uuid) && Carries(ops, r.messages, ids, uuid)
    && (forall i :: 0 <= i < |r.messages| ==> Brief(r.messages[i]))
  }

  lemma {:induction false} AllMessagesHeard(
    ms: seq<D.Wire>, s: P.Stage, ids: WireIds, uuid: Codec.Uuid, t: T.Transport, ops: seq<R.Op>)
    requires P.Reaches(ms, s) && Waiting(t, ids, uuid) && Fits32(ids) && uuid != Codec.NIL_UUID
    requires Carries(ops, ms, ids, uuid) && forall i :: 0 <= i < |ms| ==> Brief(ms[i])
    ensures var (u, es) := R.Run(t, ops); Hearing(u, s, ids, uuid) && AllHeard(es, ms, ids)
    decreases |ops|
  {
    var (u, e) := R.Step(t, ops[0]);
    if Background(ops[0]) && Carries(ops[1..], ms, ids, uuid) {
      BackgroundWaits(t, ops[0], ids, uuid);
      hide R.Step, T.OnNet, Waiting, Hearing, Arrives, Brief, P.Reaches, Background, Heard;
      AllMessagesHeard(ms, s, ids, uuid, u, ops[1..]);
      HeardBeat(e, R.Run(u, ops[1..]).1);
    } else {
      assert Brief(ms[0]);
      StartHeard(t, s.id, ids, uuid);
      assert P.AllFit(P.Opened(s.id), ms[1..]);
      hide R.Step, T.OnNet, Waiting, Hearing, Arrives, Brief, P.Fits, P.Next, Background, Heard;
      NetStep(t, ops[0].event);
      RestHeard(u, P.Opened(s.id), ms[1..], ids, uuid, ops[1..]);
      HeardNext(e.value, R.Run(u, ops[1..]).1, ms, ids);
    }
  }

  /** Pings and the actor's other calls between the messages change nothing of it. */
  lemma AnswerHeard(r: D.Response, ids: WireIds, uuid: Codec.Uuid, t: T.Transport, ops: seq<R.Op>)
    requires P.Complete(r) && Reaches(r, ids, uuid, t, ops)
    ensures HeardWhole(r, ids, R.Run(t, ops).0, R.Run(t, ops).1)
  {
    var fs := P.FramesIn(r.messages);
    var s := P.Stage(r.messages[0].responseId, r.provided != [], |fs|, r.provided != [], true);
    AllMessagesHeard(r.messages, s, ids, uuid, t, ops);
    hide Reaches, R.Run, P.Reaches, P.Numbered, P.Spaced, P.FramesIn, P.Payloads, AudioIn, Heard;
    hide Source.TextsIn, TextsTold;
    HeardAudio(r.messages, ids, Answers(R.Run(t, ops).1));
    HeardTexts(r.messages, ids, Answers(R.Run(t, ops).1));
    TextsInAnswers(R.Run(t, ops).1);
    AudioInAnswers(R.Run(t, ops).1);
  }

  /** The forwarder read a part of what the session wrote, from the front and in order. */
  ghost predicate ReadsSession(session: nat, ops: seq<D.Op>, before: seq<S.Op>) {
    D.EventsRead(D.Initial(session), ops) <= S.Run(S.NEW_SESSION, before).out
  }

  lemma ReadingIsOrdered(session: nat, ops: seq<D.Op>, before: seq<S.Op>)
    requires ReadsSession(session, ops, before)
    ensures S.Ordered(D.EventsRead(D.Initial(session), ops))
  {
    S.StreamIsOrdered(before);
    var out, read := S.Run(S.NEW_SESSION, before).out, D.EventsRead(D.Initial(session), ops);
    hide S.Run, D.EventsRead, S.Ordered;
    P.OrderedPrefix(out, |read|);
    assert out[..|read|] == read;
  }

  /** The provider's bytes, then nothing, or one silent sample behind a positive multiple of a frame. */
  predicate HasAll(audio: seq<byte>, pcm: seq<byte>) {
    audio == pcm || (audio == pcm + [0, 0] && pcm != [] && |pcm| % OUTPUT_FRAME_BYTES == 0)
  }

  /**
   * For any provider and any interleaving: an answer the forwarder completed is
   * taken message by message by a device that waits for it; the bytes and texts
   * delivered are those of the events read for its epoch.
   */
  lemma SessionAnswerReachesTheDevice(
    session: nat, before: seq<S.Op>, ops: seq<D.Op>, k: nat, uuid: Codec.Uuid, t: T.Transport, net: seq<R.Op>)
    requires ReadsSession(session, ops, before)
    requires k < |D.Run(D.Initial(session), ops).completed|
    requires var r := D.Run(D.Initial(session), ops).completed[k]; Reaches(r, r.ids, uuid, t, net)
    ensures var r, read := D.Run(D.Initial(session), ops).completed[k], D.EventsRead(D.Initial(session), ops);
            var (u, es) := R.Run(t, net);
            && HeardWhole(r, r.ids, u, es) && HasAll(AudioIn(es), Source.PcmOf(read, r.ids.epoch))
            && TextsTold(es) == Source.TextsOf(read, r.ids.epoch) && V.DoneIn(read, r.ids.epoch)
  {
    ReadingIsOrdered(session, ops, before);
    P.CompletedAnswersAreWhole(session, ops);
    Source.CompletedAnswersHoldTheirSource(session, ops);
    var r := D.Run(D.Initial(session), ops).completed[k];
    assert P.Complete(r);
    hide D.Run, D.EventsRead, Source.PcmOf, Source.TextsOf, Source.TextsIn, TextsTold, Reaches, P.Complete, V.DoneIn;
    AnswerHeard(r, r.ids, uuid, t, net);
    assert r.provided + [] == r.provided;
  }

  /**
   * End to end: when the provider answers each commit with one response, the
   * bytes and texts the device gets for a completed answer are all that the
   * provider queued for that commit, in order and nothing else, the audio then
   * followed by nothing or one silent sample.
   */
  lemma ProviderAnswerReachesTheDevice(
    session: nat, before: seq<S.Op>, ops: seq<D.Op>, k: nat, uuid: Codec.Uuid, t: T.Transport, net: seq<R.Op>)
    requires ReadsSession(session, ops, before)
    requires V.Delivers(None, S.NEW_SESSION, before) && V.OneAnswer(S.Enqueued(before))
    requires k < |D.Run(D.Initial(session), ops).completed|
    requires var r := D.Run(D.Initial(session), ops).completed[k]; Reaches(r, r.ids, uuid, t, net)
    ensures var r := D.Run(D.Initial(session), ops).completed[k];
            var (u, es) := R.Run(t, net);
            && HeardWhole(r, r.ids, u, es)
            && HasAll(AudioIn(es), Source.ProviderAudio(S.Enqueued(before), r.ids.epoch))
            && TextsTold(es) == Source.ProviderTexts(S.Enqueued(before), r.ids.epoch)
  {
    SessionAnswerReachesTheDevice(session, before, ops, k, uuid, t, net);
    var r := D.Run(D.Initial(session), ops).completed[k];
    Source.ReadIsProvided(before, D.EventsRead(D.Initial(session), ops), r.ids.epoch);
  }
}
