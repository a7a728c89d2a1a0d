/** What the device sends passes the server's checks and reaches the provider whole. */
module UplinkProofs {
  import opened WireTypes
  import opened ServerUplink
  import T = ClientTransport
  import R = TransportProofs
  import Codec = PcmCodec
  import S = SessionActor

  // ---------------------------------------------------------------------
  // What the device's transport lets through
  // ---------------------------------------------------------------------

  /** Where the uplink stands after some messages. */
  datatype Scan = Scan(turn: WireIds, count: nat, ended: bool, committed: bool)

  const NO_TURN := Scan(ZERO_IDS, 0, false, false)

  function After(s: Scan, m: T.Uplink): Scan {
    match m
    case Ctl(kind, ids) =>
      if kind == T.TurnStart then Scan(ids, 0, false, false)
      else if kind == T.TurnCommit then s.(committed := true)
      else s
    case Audio(_, flags, _, _) => s.(count := s.count + 1, ended := EndFlag(flags))
  }

  function AfterAll(s: Scan, ms: seq<T.Uplink>): Scan
    decreases |ms|
  {
    if ms == [] then s else AfterAll(After(s, ms[0]), ms[1..])
  }

  /** The message is in its place: START first, in sequence, nothing behind END, one commit behind END. */
  predicate InPlace(s: Scan, m: T.Uplink) {
    match m
    case Audio(ids, flags, sequence, pcm) =>
      && ids == s.turn && ValidIds(ids) && sequence == s.count && sequence < U32_MAX
      && StartFlag(flags) == (s.count == 0) && !ReservedFlags(flags)
      && !s.ended && !s.committed && 0 < |pcm| <= INPUT_FRAME_BYTES && |pcm| % 2 == 0
    case Ctl(kind, ids) =>
      kind == T.TurnCommit ==> ids == s.turn && s.ended && s.count != 0 && !s.committed
  }

  predicate AllInPlace(s: Scan, ms: seq<T.Uplink>)
    decreases |ms|
  {
    ms == [] || (InPlace(s, ms[0]) && AllInPlace(After(s, ms[0]), ms[1..]))
  }

  lemma {:induction false} PlaceAppend(s: Scan, ms: seq<T.Uplink>, m: T.Uplink)
    ensures AfterAll(s, ms + [m]) == After(AfterAll(s, ms), m)
    ensures AllInPlace(s, ms + [m]) <==> AllInPlace(s, ms) && InPlace(AfterAll(s, ms), m)
    decreases |ms|
  {
    if ms == [] {
      assert ms + [m] == [m] && [m][1..] == [];
    } else {
      assert (ms + [m])[1..] == ms[1..] + [m];
      PlaceAppend(After(s, ms[0]), ms[1..], m);
    }
  }

  lemma {:induction false} PlaceSplit(s: Scan, ms: seq<T.Uplink>, k: nat)
    requires k <= |ms| && AllInPlace(s, ms)
    ensures AllInPlace(AfterAll(s, ms[..k]), ms[k..])
    decreases k
  {
    if k != 0 {
      PlaceSplit(After(s, ms[0]), ms[1..], k - 1);
      assert ms[..k][1..] == ms[1..][..k - 1] && ms[1..][k - 1..] == ms[k..];
    } else {
      assert ms[0..] == ms && ms[..0] == [];
    }
  }

  /** The transport's own marks agree with what it has sent. */
  ghost predicate Tracked(t: T.Transport) {
    && AllInPlace(NO_TURN, t.sent)
    && AfterAll(NO_TURN, t.sent) == Scan(t.turn, t.upSeq, t.uplinkEnded, t.committed)
  }

  lemma SendTracked(t: T.Transport, c: T.Control, net: T.NetReply)
    requires Tracked(t) && R.Sound(t)
    ensures Tracked(T.Send(t, c, net).0)
  {
    hide AllInPlace, AfterAll;
    PlaceAppend(NO_TURN, t.sent, T.Ctl(c.kind, c.ids));
  }

  lemma PcmTracked(t: T.Transport, ids: WireIds, flags: u16, sequence: nat, pcm: seq<byte>, net: T.NetReply)
    requires Tracked(t) && R.Sound(t) && t.upSeq <= U32_MAX
    ensures Tracked(T.SendPcm(t, ids, flags, sequence, pcm, net).0)
    ensures T.SendPcm(t, ids, flags, sequence, pcm, net).0.upSeq <= U32_MAX
  {
    hide AllInPlace, AfterAll;
    PlaceAppend(NO_TURN, t.sent, T.Audio(ids, flags, sequence, pcm));
  }

  /** Nothing the server sends touches the uplink. */
  ghost predicate UplinkSame(t: T.Transport, u: T.Transport) {
    u.sent == t.sent && u.turn == t.turn && u.upSeq == t.upSeq
    && u.uplinkEnded == t.uplinkEnded && u.committed == t.committed
  }

  lemma PartSame(t: T.Transport, m: T.TextMessage)
    requires m.Envelope?
    ensures UplinkSame(t, T.OnResponsePart(t, m).0)
  {
    hide T.IsStale, T.Discarding, T.Sized, ValidIds;
    var u := T.OnResponsePart(t, m).0;
    if u != t {
      if m.body.AudioStartBody? {
        assert u == t.(audioStarted := true);
      } else {
        assert u == t.(active := false, responseDone := true, discard := if t.cancelSent then t.discard else false);
      }
    }
  }

  lemma ErrorSame(t: T.Transport, m: T.TextMessage)
    requires m.Envelope? && m.body.ErrorBody?
    ensures UplinkSame(t, T.OnError(t, m).0)
  {
    hide T.IsStale, T.Sized, SameTurn;
    var u := T.OnError(t, m).0;
    if u != t { assert u == t.(active := false); }
  }

  lemma CancelledSame(t: T.Transport, m: T.TextMessage)
    requires m.Envelope? && m.body.CancelledBody?
    ensures UplinkSame(t, T.OnCancelled(t, m).0)
  {
    hide T.Sized, ValidIds, SameTurn;
    var u := T.OnCancelled(t, m).0;
    if u != t { assert u == t.(active := false, responseDone := false, cancelSent := false, discard := false); }
  }

  lemma StartSame(t: T.Transport, m: T.TextMessage)
    requires m.Envelope? && m.body.ResponseStartBody?
    ensures UplinkSame(t, T.OnResponseStart(t, m).0)
  {
    hide T.IsStale, T.Sized, ValidIds, SameTurn;
    var u := T.OnResponseStart(t, m).0;
    if u != t {
      assert u == t.(responseId := m.body.responseId, response := m.ids, downSeq := 0,
                     audioStarted := false, audioEnded := false, responseDone := false, discard := t.cancelSent);
    }
  }

  lemma HelloSame(t: T.Transport, m: T.TextMessage)
    requires m.Envelope? && m.body.HelloAckBody?
    ensures UplinkSame(t, T.OnHelloAck(t, m).0)
  {
    var u := T.OnHelloAck(t, m).0;
    if u != t { assert u == t.(session := m.ids.session, sessionEpoch := m.ids.epoch); }
  }

  lemma SettleSame(t: T.Transport, r: (T.Transport, T.Verdict))
    requires UplinkSame(t, r.0)
    ensures UplinkSame(t, T.Settle(r).0)
  {
  }

  lemma TextSame(t: T.Transport, m: T.TextMessage)
    ensures UplinkSame(t, T.OnText(t, m).0)
  {
    assert UplinkSame(t, t);
    hide UplinkSame, T.Settle, T.OnResponsePart, T.OnError, T.OnCancelled, T.OnResponseStart, T.OnHelloAck;
    if m.Malformed? || !m.deviceMatches {
      SettleSame(t, (t, T.Violation));
      return;
    }
    match m.body {
      case HelloAckBody(_, _, _) => HelloSame(t, m); SettleSame(t, T.OnHelloAck(t, m));
      case ResponseStartBody(_) => StartSame(t, m); SettleSame(t, T.OnResponseStart(t, m));
      case CancelledBody(_) => CancelledSame(t, m); SettleSame(t, T.OnCancelled(t, m));
      case ErrorBody(_, _) => ErrorSame(t, m); SettleSame(t, T.OnError(t, m));
      case _ => PartSame(t, m); SettleSame(t, T.OnResponsePart(t, m));
    }
  }

  /** What a frame changes. */
  lemma FrameEffect(t: T.Transport, i: WireIds, flags: u16, sequence: nat, audio: seq<byte>)
    ensures var u := T.OnPcm(t, i, flags, sequence, audio).0;
            u == t || u == t.(discard := true) || u == t.(downSeq := t.downSeq + 1, audioEnded := EndFlag(flags))
  {
    hide T.BrokenDownlink, T.IsStale, T.Discarding, T.PcmInPlace, StartFlag, EndFlag, DiscontinuityFlag;
  }

  lemma FrameSame(t: T.Transport, i: WireIds, flags: u16, sequence: nat, audio: seq<byte>)
    ensures UplinkSame(t, T.OnPcm(t, i, flags, sequence, audio).0)
  {
    FrameEffect(t, i, flags, sequence, audio);
    hide T.OnPcm, EndFlag;
  }

  lemma NetSame(t: T.Transport, n: T.NetEvent)
    ensures UplinkSame(t, T.OnNet(t, n).0)
  {
    hide T.OnText, T.OnPcm, Codec.U32, Codec.U16, Codec.DeviceIds;
    if n.Text? {
      TextSame(t, n.message);
    } else if n.Binary? {
      var b := n.bytes;
      if Codec.DeviceReads(b, t.uuid) {
        FrameSame(t, Codec.DeviceIds(b), Codec.U16(b[6..8]), Codec.U32(b[20..24]), b[64..]);
      }
    }
  }

  lemma {:induction false} RunTracked(t: T.Transport, ops: seq<R.Op>)
    requires Tracked(t) && R.Sound(t) && t.upSeq <= U32_MAX
    ensures Tracked(R.Run(t, ops).0)
    decreases |ops|
  {
    if ops != [] {
      var u := R.Step(t, ops[0]).0;
      R.SoundStep(t, ops[0]);
      hide Tracked, R.Sound, T.Send, T.SendPcm, T.OnNet;
      match ops[0] {
        case DoSend(c, net) => SendTracked(t, c, net); SendCount(t, c, net);
        case DoSendPcm(ids, flags, sequence, pcm, net) => PcmTracked(t, ids, flags, sequence, pcm, net);
        case DoNet(n) => NetSame(t, n); SameTracked(t, u);
      }
      RunTracked(u, ops[1..]);
    }
  }

  lemma ControlCount(t: T.Transport, c: T.Control)
    ensures T.AfterControl(t, c).upSeq == t.upSeq || T.AfterControl(t, c).upSeq == 0
  {
    match c.kind {
      case TurnStart => assert T.AfterControl(t, c).upSeq == 0;
      case TurnCommit => assert T.AfterControl(t, c) == t.(committed := true);
      case TurnCancel => assert T.AfterControl(t, c) == t.(cancelSent := true);
      case ResponseCancel => assert T.AfterControl(t, c) == t.(cancelSent := true);
      case Hello =>
    }
  }

  lemma SendCount(t: T.Transport, c: T.Control, net: T.NetReply)
    ensures T.Send(t, c, net).0.upSeq == t.upSeq || T.Send(t, c, net).0.upSeq == 0
  {
    var s := t.(sent := t.sent + [T.Ctl(c.kind, c.ids)]);
    ControlCount(s, c);
    assert s.upSeq == t.upSeq;
    hide T.Allowed, T.Routed, T.AfterControl;
    if T.Send(t, c, net).0 != t {
      assert T.Send(t, c, net).0 == T.AfterControl(s, c);
    }
  }

  lemma SameTracked(t: T.Transport, u: T.Transport)
    requires Tracked(t) && UplinkSame(t, u)
    ensures Tracked(u)
  {
  }

  // ---------------------------------------------------------------------
  // The server in step
  // ---------------------------------------------------------------------

  /** While the turn is active the server stands where the sender's scan stands, and has lost nothing. */
  ghost predicate InStep(t: Turn, s: Scan, uuid: Codec.Uuid) {
    && t.faults == 0 && t.uuid == uuid
    && WireIds(t.session, t.turn, t.uplink, t.epoch) == s.turn && ValidIds(s.turn)
    && (t.active ==>
          && t.expected == s.count && t.started == (s.count != 0)
          && t.ended == s.ended && t.committed == s.committed
          && |t.pending| < INPUT_FRAME_BYTES
          && (t.committed ==> t.started) && (t.started ==> t.received != [])
          && (if t.committed then t.appended == FramesOf(t.received)
              else t.appended == Whole(t.received) && t.pending == Rest(t.received)))
  }

  predicate NoStart(m: T.Uplink) { m.Ctl? ==> m.kind != T.TurnStart }

  predicate Continuous(m: T.Uplink) { m.Audio? ==> !DiscontinuityFlag(m.flags) }

  lemma PcmInStep(t: Turn, s: Scan, m: T.Uplink, uuid: Codec.Uuid, a: Answer)
    requires InStep(t, s, uuid) && m.Audio? && OnWire(m) && InPlace(s, m) && Continuous(m) && uuid != Codec.NIL_UUID
    ensures InStep(ServePcm(t, m, uuid, a), After(s, m), uuid)
    ensures t.active && ServePcm(t, m, uuid, a).active ==> ServePcm(t, m, uuid, a).received == t.received + m.pcm
  {
    if t.active {
      var h := Header(m, uuid, a.timestamp);
      assert InStream(t, h) && Framed(t, h.flags);
      CutAsYouGo(t.received, m.pcm);
      RestShort(t.received + m.pcm);
    }
  }

  lemma CommitInStep(t: Turn, s: Scan, ids: WireIds, uuid: Codec.Uuid, a: Answer)
    requires InStep(t, s, uuid) && InPlace(s, T.Ctl(T.TurnCommit, ids))
    ensures InStep(ServeCommit(t, ids, a), After(s, T.Ctl(T.TurnCommit, ids)), uuid)
    ensures ServeCommit(t, ids, a).received == t.received
  {
  }

  /** The audio bytes among some messages. */
  function Payloads(ms: seq<T.Uplink>): seq<byte>
    decreases |ms|
  {
    if ms == [] then [] else (if ms[0].Audio? then ms[0].pcm else []) + Payloads(ms[1..])
  }

  lemma ServeInStep(t: Turn, s: Scan, m: T.Uplink, uuid: Codec.Uuid, a: Answer)
    requires InStep(t, s, uuid) && OnWire(m) && InPlace(s, m) && NoStart(m) && Continuous(m) && uuid != Codec.NIL_UUID
    ensures InStep(Serve(t, m, uuid, a), After(s, m), uuid)
    ensures Serve(t, m, uuid, a).active ==>
              t.active && Serve(t, m, uuid, a).received == t.received + if m.Audio? then m.pcm else []
  {
    var u := if a.retired then Retire(t) else t;
    assert InStep(u, s, uuid);
    hide InStep, HandlePcm, HandleCommit;
    match m {
      case Audio(_, _, _, _) =>
        PcmInStep(u, s, m, uuid, a);
        StaysRetired(u, s, m, uuid, a);
      case Ctl(kind, ids) =>
        if kind == T.TurnCommit {
          CommitInStep(u, s, ids, uuid, a);
          StaysRetired(u, s, m, uuid, a);
        } else {
          RetireInStep(u, s, uuid);
        }
    }
  }

  lemma RetireInStep(t: Turn, s: Scan, uuid: Codec.Uuid)
    requires InStep(t, s, uuid)
    ensures InStep(Retire(t), s, uuid)
  {
  }

  lemma StaysRetired(t: Turn, s: Scan, m: T.Uplink, uuid: Codec.Uuid, a: Answer)
    requires InStep(t, s, uuid) && OnWire(m) && InPlace(s, m)
    ensures !t.active && m.Audio? ==> ServePcm(t, m, uuid, a) == t
    ensures !t.active && m.Ctl? && m.kind == T.TurnCommit ==> ServeCommit(t, m.ids, a) == t
  {
  }

  lemma {:induction false} ServeAllInStep(t: Turn, s: Scan, ms: seq<T.Uplink>, uuid: Codec.Uuid, answers: seq<Answer>)
    requires InStep(t, s, uuid) && AllInPlace(s, ms) && |answers| == |ms| && uuid != Codec.NIL_UUID
    requires forall i :: 0 <= i < |ms| ==> OnWire(ms[i]) && NoStart(ms[i]) && Continuous(ms[i])
    ensures var u := ServeAll(t, ms, uuid, answers);
            && InStep(u, AfterAll(s, ms), uuid)
            && (u.active ==> t.active && u.received == t.received + Payloads(ms))
    decreases |ms|
  {
    hide InStep, Serve, InPlace, After, OnWire, NoStart, Continuous;
    if ms == [] {
      assert t.received + [] == t.received;
    } else {
      var u := Serve(t, ms[0], uuid, answers[0]);
      var first, rest := if ms[0].Audio? then ms[0].pcm else [], Payloads(ms[1..]);
      ServeInStep(t, s, ms[0], uuid, answers[0]);
      ServeAllInStep(u, After(s, ms[0]), ms[1..], uuid, answers[1..]);
      assert Payloads(ms) == first + rest && ServeAll(t, ms, uuid, answers) == ServeAll(u, ms[1..], uuid, answers[1..]);
      hide ServeAll, Payloads;
      assert (t.received + first) + rest == t.received + (first + rest);
    }
  }

  /** Message `i` starts a turn and none starts before `j`; the turn's frames carry no discontinuity mark. */
  predicate OneTurn(sent: seq<T.Uplink>, i: nat, j: nat) {
    && i < j <= |sent| && sent[i].Ctl? && sent[i].kind == T.TurnStart && ValidIds(sent[i].ids)
    && forall k :: i < k < j ==> OnWire(sent[k]) && NoStart(sent[k]) && Continuous(sent[k])
  }

  /** What the server makes of those messages. */
  ghost predicate Served(uuid: Codec.Uuid, sent: seq<T.Uplink>, i: nat, j: nat, downlink: nat, answers: seq<Answer>)
    requires OneTurn(sent, i, j) && |answers| == j - i - 1
  {
    var ms := sent[i + 1..j];
    var t := ServeAll(Started(uuid, sent[i].ids, downlink), ms, uuid, answers);
    && t.faults == 0
    && (t.active ==> t.received == Payloads(ms))
    && (t.active && t.committed ==> t.appended == FramesOf(Payloads(ms)) && t.appended != [])
  }

  /**
   * Whatever the device's transport was asked to send: from an accepted
   * turn.start on, no frame or commit of that turn fails a check of the server,
   * and a commit that went through gave the provider exactly the frames of the
   * bytes sent, however they were packed.
   */
  lemma UplinkNeverFaults(uuid: Codec.Uuid, ops: seq<R.Op>, i: nat, j: nat, downlink: nat, answers: seq<Answer>)
    requires uuid != Codec.NIL_UUID
    requires OneTurn(R.Run(T.Fresh(uuid), ops).0.sent, i, j) && |answers| == j - i - 1
    ensures Served(uuid, R.Run(T.Fresh(uuid), ops).0.sent, i, j, downlink, answers)
  {
    var sent := R.Run(T.Fresh(uuid), ops).0.sent;
    RunTracked(T.Fresh(uuid), ops);
    hide R.Run;
    TurnNeverFaults(uuid, sent, i, j, downlink, answers);
  }

  /** The messages behind a turn.start, up to the next one, are in their place from there. */
  lemma PlaceFrom(sent: seq<T.Uplink>, i: nat, j: nat)
    requires AllInPlace(NO_TURN, sent) && i < j <= |sent| && sent[i].Ctl? && sent[i].kind == T.TurnStart
    ensures AllInPlace(Scan(sent[i].ids, 0, false, false), sent[i + 1..j])
  {
    PlaceSplit(NO_TURN, sent, i);
    var rest := sent[i..][1..];
    assert rest == sent[i + 1..];
    PlacePrefix(Scan(sent[i].ids, 0, false, false), rest, j - i - 1);
    assert rest[..j - i - 1] == sent[i + 1..j];
  }

  lemma TurnNeverFaults(uuid: Codec.Uuid, sent: seq<T.Uplink>, i: nat, j: nat, downlink: nat, answers: seq<Answer>)
    requires uuid != Codec.NIL_UUID && AllInPlace(NO_TURN, sent)
    requires OneTurn(sent, i, j) && |answers| == j - i - 1
    ensures Served(uuid, sent, i, j, downlink, answers)
  {
    PlaceFrom(sent, i, j);
    var now, ms, t0 := Scan(sent[i].ids, 0, false, false), sent[i + 1..j], Started(uuid, sent[i].ids, downlink);
    assert InStep(t0, now, uuid);
    hide AllInPlace, OnWire, NoStart, Continuous;
    forall k | 0 <= k < |ms| ensures OnWire(ms[k]) && NoStart(ms[k]) && Continuous(ms[k]) {
      assert ms[k] == sent[i + 1 + k];
    }
    ServeAllInStep(t0, now, ms, uuid, answers);
    var t := ServeAll(t0, ms, uuid, answers);
    assert InStep(t, AfterAll(now, ms), uuid);
    hide ServeAll, Payloads, FramesOf, After;
    assert [] + Payloads(ms) == Payloads(ms);
    FramesHoldUtterance(Payloads(ms));
    assert t.active && t.committed ==> t.started;
  }

  lemma {:induction false} PlacePrefix(s: Scan, ms: seq<T.Uplink>, k: nat)
    requires k <= |ms| && AllInPlace(s, ms)
    ensures AllInPlace(s, ms[..k])
    decreases k
  {
    if k != 0 {
      PlacePrefix(After(s, ms[0]), ms[1..], k - 1);
      assert ms[..k][1..] == ms[1..][..k - 1];
    }
  }

  // ---------------------------------------------------------------------
  // The two ends of that statement
  // ---------------------------------------------------------------------

  /** The frame the device writes for such a message is the frame the server parses. */
  lemma FrameParses(s: Scan, m: T.Uplink, uuid: Codec.Uuid, timestamp: u64, frame: seq<byte>)
    requires m.Audio? && OnWire(m) && InPlace(s, m) && uuid != Codec.NIL_UUID
    requires |frame| == Codec.HEADER_BYTES + |m.pcm| && frame[64..] == m.pcm
    requires Codec.LaidOut(Header(m, uuid, timestamp), frame[..64])
    ensures Codec.ParsePCMFrame(frame) == Success((Header(m, uuid, timestamp), m.pcm))
  {
    Codec.ServerReadsUplink(m.flags, m.sequence, timestamp, m.ids, uuid, m.pcm, frame);
  }

  /** The session actor takes frames one by one, each with the provider's consent. */
  function AppendAll(s: S.Session, epoch: nat, n: nat): S.Session
    decreases n
  {
    if n == 0 then s else AppendAll(S.ApplyAppend(s, epoch, S.Provider(true, false, false)).0, epoch, n - 1)
  }

  /**
   * Between its start and its commit a turn's frames are refused by the provider only, and so is
   * its commit once there is a frame.
   */
  lemma {:induction false} ListeningTakesFrames(s: S.Session, epoch: nat, n: nat, p: S.Provider)
    requires s.phase == S.Listening && s.epoch == epoch
    ensures S.ApplyAppend(s, epoch, p).1 == if p.ok then S.Accepted else S.ProviderError
    ensures AppendAll(s, epoch, n) == s.(frames := s.frames + n)
    ensures S.ApplyCommit(AppendAll(s, epoch, n), epoch, p).1 ==
            if s.frames + n == 0 then S.InvalidTransition else if p.ok then S.Accepted else S.ProviderError
    decreases n
  {
    if n != 0 {
      ListeningTakesFrames(S.ApplyAppend(s, epoch, S.Provider(true, false, false)).0, epoch, n - 1, p);
    }
  }
}
