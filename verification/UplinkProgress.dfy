/** A good utterance gets through: the device sends it, the server takes it, the provider has all of it. */
module UplinkProgress {
  import opened WireTypes
  import opened ServerUplink
  import opened UplinkProofs
  import T = ClientTransport
  import R = TransportProofs
  import G = TransportProgress
  import Codec = PcmCodec

  // ---------------------------------------------------------------------
  // The server with a session that says yes
  // ---------------------------------------------------------------------

  /** Nothing else ends the turn, and the provider session takes what it is given. */
  predicate Willing(a: Answer) { !a.retired && a.taken >= 1 && a.flushed && a.accepted }

  predicate NoCancel(m: T.Uplink) { m.Ctl? ==> !T.IsCancel(m.kind) }

  /** A packet completes at most one frame. */
  lemma OneFrameAtMost(pending: seq<byte>, pcm: seq<byte>)
    requires |pending| < INPUT_FRAME_BYTES && |pcm| <= INPUT_FRAME_BYTES
    ensures |Whole(pending + pcm)| <= 1
  {
    WholeAt(pending + pcm);
  }

  lemma PcmTaken(t: Turn, s: Scan, m: T.Uplink, uuid: Codec.Uuid, a: Answer)
    requires InStep(t, s, uuid) && t.active && m.Audio? && OnWire(m) && InPlace(s, m) && Continuous(m)
    requires uuid != Codec.NIL_UUID && Willing(a)
    ensures ServePcm(t, m, uuid, a).active
  {
    OneFrameAtMost(t.pending, m.pcm);
    var h := Header(m, uuid, a.timestamp);
    assert InStream(t, h) && Framed(t, h.flags);
  }

  lemma ServeStays(t: Turn, s: Scan, m: T.Uplink, uuid: Codec.Uuid, a: Answer)
    requires InStep(t, s, uuid) && t.active && OnWire(m) && InPlace(s, m) && NoStart(m) && Continuous(m) && NoCancel(m)
    requires uuid != Codec.NIL_UUID && Willing(a)
    ensures Serve(t, m, uuid, a).active
  {
    if m.Audio? {
      PcmTaken(t, s, m, uuid, a);
      hide InStep, ServePcm;
    } else {
      hide HandlePcm, Whole, Rest, FramesOf;
    }
  }

  lemma {:induction false} ServeAllStays(t: Turn, s: Scan, ms: seq<T.Uplink>, uuid: Codec.Uuid, answers: seq<Answer>)
    requires InStep(t, s, uuid) && t.active && AllInPlace(s, ms) && |answers| == |ms| && uuid != Codec.NIL_UUID
    requires forall i :: 0 <= i < |ms| ==> OnWire(ms[i]) && NoStart(ms[i]) && Continuous(ms[i]) && NoCancel(ms[i])
    requires forall i :: 0 <= i < |answers| ==> Willing(answers[i])
    ensures ServeAll(t, ms, uuid, answers).active
    decreases |ms|
  {
    hide InStep, Serve, InPlace, After, OnWire, NoStart, Continuous, NoCancel, Willing;
    if ms != [] {
      ServeStays(t, s, ms[0], uuid, answers[0]);
      ServeInStep(t, s, ms[0], uuid, answers[0]);
      ServeAllStays(Serve(t, ms[0], uuid, answers[0]), After(s, ms[0]), ms[1..], uuid, answers[1..]);
    }
  }

  lemma {:induction false} CommitSeen(s: Scan, ms: seq<T.Uplink>, k: nat)
    requires k < |ms| && ms[k].Ctl? && ms[k].kind == T.TurnCommit
    requires forall i :: 0 <= i < |ms| ==> NoStart(ms[i])
    ensures AfterAll(s, ms).committed
    decreases |ms|
  {
    if k == 0 {
      StaysCommitted(After(s, ms[0]), ms[1..]);
    } else {
      CommitSeen(After(s, ms[0]), ms[1..], k - 1);
    }
  }

  lemma {:induction false} StaysCommitted(s: Scan, ms: seq<T.Uplink>)
    requires s.committed && forall i :: 0 <= i < |ms| ==> NoStart(ms[i])
    ensures AfterAll(s, ms).committed
    decreases |ms|
  {
    if ms != [] {
      StaysCommitted(After(s, ms[0]), ms[1..]);
    }
  }

  /**
   * The turn the device opened stays active as long as nobody cancels it and
   * the provider session takes what it is given: every byte is received, and
   * the commit goes through with exactly their frames handed over.
   */
  lemma WillingSessionHearsAll(uuid: Codec.Uuid, ops: seq<R.Op>, i: nat, j: nat, downlink: nat, answers: seq<Answer>)
    requires var sent := R.Run(T.Fresh(uuid), ops).0.sent;
             OneTurn(sent, i, j) && |answers| == j - i - 1 && forall k :: i < k < j ==> NoCancel(sent[k])
    requires uuid != Codec.NIL_UUID && forall k :: 0 <= k < |answers| ==> Willing(answers[k])
    ensures var ms := R.Run(T.Fresh(uuid), ops).0.sent[i + 1..j];
            var t := ServeAll(Started(uuid, R.Run(T.Fresh(uuid), ops).0.sent[i].ids, downlink), ms, uuid, answers);
            && t.active && t.faults == 0 && t.received == Payloads(ms)
            && (T.Ctl(T.TurnCommit, R.Run(T.Fresh(uuid), ops).0.sent[i].ids) in ms ==>
                  t.committed && t.appended == FramesOf(Payloads(ms)))
  {
    var sent := R.Run(T.Fresh(uuid), ops).0.sent;
    RunTracked(T.Fresh(uuid), ops);
    hide R.Run;
    TurnHeard(uuid, sent, i, j, downlink, answers);
  }

  lemma TurnHeard(uuid: Codec.Uuid, sent: seq<T.Uplink>, i: nat, j: nat, downlink: nat, answers: seq<Answer>)
    requires uuid != Codec.NIL_UUID && AllInPlace(NO_TURN, sent)
    requires OneTurn(sent, i, j) && |answers| == j - i - 1 && forall k :: i < k < j ==> NoCancel(sent[k])
    requires forall k :: 0 <= k < |answers| ==> Willing(answers[k])
    ensures var ms := sent[i + 1..j];
            var t := ServeAll(Started(uuid, sent[i].ids, downlink), ms, uuid, answers);
            && t.active && t.faults == 0 && t.received == Payloads(ms)
            && (T.Ctl(T.TurnCommit, sent[i].ids) in ms ==> t.committed && t.appended == FramesOf(Payloads(ms)))
  {
    PlaceFrom(sent, i, j);
    var now, ms, t0 := Scan(sent[i].ids, 0, false, false), sent[i + 1..j], Started(uuid, sent[i].ids, downlink);
    assert InStep(t0, now, uuid);
    forall k | 0 <= k < |ms| ensures OnWire(ms[k]) && NoStart(ms[k]) && Continuous(ms[k]) && NoCancel(ms[k]) {
      assert ms[k] == sent[i + 1 + k];
    }
    hide AllInPlace, OnWire, Continuous, NoCancel, Willing;
    ServeAllStays(t0, now, ms, uuid, answers);
    ServeAllInStep(t0, now, ms, uuid, answers);
    assert [] + Payloads(ms) == Payloads(ms);
    if T.Ctl(T.TurnCommit, sent[i].ids) in ms {
      var k :| 0 <= k < |ms| && ms[k] == T.Ctl(T.TurnCommit, sent[i].ids);
      hide NoStart;
      CommitSeen(now, ms, k);
    }
    hide ServeAll, Payloads, FramesOf, NoStart;
  }

  // ---------------------------------------------------------------------
  // Turns that end early
  // ---------------------------------------------------------------------

  /** The provider session does not take what this message brings it. */
  predicate Refuses(t: Turn, m: T.Uplink, a: Answer) {
    match m
    case Audio(_, _, _, pcm) => a.taken < |Whole(t.pending + pcm)|
    case Ctl(kind, _) => kind == T.TurnCommit && (!a.accepted || (t.pending != [] && !a.flushed))
  }

  /** The device or the event forwarder ends the turn. */
  predicate Ends(t: Turn, m: T.Uplink, a: Answer) {
    a.retired || (m.Ctl? && T.IsCancel(m.kind) && m.ids.turn == t.turn && m.ids.epoch == t.epoch)
  }

  /** The turn is over and holds what it held. */
  predicate Silent(t: Turn, u: Turn) {
    !u.active && u.appended == t.appended && u.received == t.received && u.committed == t.committed
  }

  lemma RetiredPcm(t: Turn, m: T.Uplink, uuid: Codec.Uuid, a: Answer)
    requires !t.active && m.Audio? && OnWire(m)
    ensures Silent(t, ServePcm(t, m, uuid, a))
  {
    hide Header, OnWire, InStream, Framed, Whole, Rest;
  }

  lemma RetiredCommit(t: Turn, ids: WireIds, a: Answer)
    requires !t.active
    ensures Silent(t, ServeCommit(t, ids, a))
  {
  }

  lemma RetiredStep(t: Turn, m: T.Uplink, uuid: Codec.Uuid, a: Answer)
    requires !t.active && OnWire(m)
    ensures Silent(t, Serve(t, m, uuid, a))
  {
    var u := Retire(t);
    assert Silent(t, u);
    hide OnWire, ServePcm, ServeCommit;
    if m.Audio? {
      RetiredPcm(t, m, uuid, a);
      RetiredPcm(u, m, uuid, a);
    } else {
      RetiredCommit(t, m.ids, a);
      RetiredCommit(u, m.ids, a);
    }
  }

  lemma {:induction false} RetiredIsSilent(t: Turn, ms: seq<T.Uplink>, uuid: Codec.Uuid, answers: seq<Answer>)
    requires !t.active && |answers| == |ms| && forall i :: 0 <= i < |ms| ==> OnWire(ms[i])
    ensures Silent(t, ServeAll(t, ms, uuid, answers))
    decreases |ms|
  {
    if ms != [] {
      hide Serve, OnWire;
      RetiredStep(t, ms[0], uuid, answers[0]);
      RetiredIsSilent(Serve(t, ms[0], uuid, answers[0]), ms[1..], uuid, answers[1..]);
    }
  }

  lemma EndsNow(t: Turn, m: T.Uplink, uuid: Codec.Uuid, a: Answer)
    requires OnWire(m) && (Ends(t, m, a) || Refuses(t, m, a))
    ensures !Serve(t, m, uuid, a).active
  {
    if a.retired || !t.active {
      var u := if a.retired then Retire(t) else t;
      assert Serve(t, m, uuid, a) == Serve(u, m, uuid, a.(retired := false)) by { HiddenAnswer(t, m, uuid, a); }
      hide Serve, OnWire, Ends, Refuses;
      RetiredStep(u, m, uuid, a.(retired := false));
    } else {
      hide Header, InStream, Framed, Committable, FramesOf, Rest;
    }
  }

  /** Who retired the turn does not matter. */
  lemma HiddenAnswer(t: Turn, m: T.Uplink, uuid: Codec.Uuid, a: Answer)
    requires OnWire(m)
    ensures Serve(t, m, uuid, a) == Serve(if a.retired then Retire(t) else t, m, uuid, a.(retired := false))
  {
    hide OnWire, Header, HandlePcm, HandleCommit;
  }

  /**
   * A turn that is cancelled, retired or not taken by the provider session is
   * over: whatever the client sends behind that, nothing more is received, handed
   * to the session or committed.
   */
  lemma EndedTurnTakesNothing(
    t: Turn, m: T.Uplink, a: Answer, ms: seq<T.Uplink>, uuid: Codec.Uuid, answers: seq<Answer>)
    requires OnWire(m) && (Ends(t, m, a) || Refuses(t, m, a))
    requires |answers| == |ms| && forall i :: 0 <= i < |ms| ==> OnWire(ms[i])
    ensures var u := Serve(t, m, uuid, a); Silent(u, ServeAll(u, ms, uuid, answers))
  {
    hide Serve, OnWire, Ends, Refuses;
    EndsNow(t, m, uuid, a);
    RetiredIsSilent(Serve(t, m, uuid, a), ms, uuid, answers);
  }

  // ---------------------------------------------------------------------
  // The device sends an utterance
  // ---------------------------------------------------------------------

  predicate Packet(pcm: seq<byte>) { 0 < |pcm| <= INPUT_FRAME_BYTES && |pcm| % 2 == 0 }

  /** The messages of one utterance from packet `i` on. */
  function Said(ids: WireIds, pcms: seq<seq<byte>>, i: nat): (ms: seq<T.Uplink>)
    requires i <= |pcms|
    ensures |ms| == |pcms| - i + 1
    ensures Fits32(ids) && |pcms| < U32_MAX && (forall k :: 0 <= k < |pcms| ==> Packet(pcms[k])) ==>
              forall k :: 0 <= k < |ms| ==> OnWire(ms[k])
    decreases |pcms| - i
  {
    if i == |pcms| then [T.Ctl(T.TurnCommit, ids)]
    else [T.Audio(ids, Flags(i == 0, i + 1 == |pcms|), i, pcms[i])] + Said(ids, pcms, i + 1)
  }

  /** What the network may do meanwhile. */
  predicate Idle(t: T.Transport, op: R.Op) {
    op.DoNet? && (op.event.Ping? || op.event.Opened? || G.Late(t, op.event))
  }

  /** The packets go out one after the other and then the commit; the network takes them all. */
  predicate Utters(t: T.Transport, ops: seq<R.Op>, ids: WireIds, pcms: seq<seq<byte>>, i: nat)
    requires i <= |pcms|
    decreases |ops|
  {
    && ops != []
    && var u := R.Step(t, ops[0]).0;
       if Idle(t, ops[0]) then Utters(u, ops[1..], ids, pcms, i)
       else if i < |pcms| then
         ops[0] == R.DoSendPcm(ids, Flags(i == 0, i + 1 == |pcms|), i, pcms[i], T.Taken)
         && Utters(u, ops[1..], ids, pcms, i + 1)
       else ops == [R.DoSend(T.Control(T.TurnCommit, ids, false), T.Taken)]
  }

  /** Packet `i` is next. */
  predicate Speaking(t: T.Transport, ids: WireIds, n: nat, i: nat) {
    && t.connected && t.active && !t.committed && !t.cancelSent && t.turn == ids && !ValidIds(t.response)
    && t.upSeq == i && t.uplinkEnded == (i == n)
  }

  /** The device waits for the answer to its turn. */
  predicate Asked(t: T.Transport, ids: WireIds) {
    t.connected && t.active && t.committed && !t.cancelSent && t.turn == ids && !ValidIds(t.response)
  }

  lemma IdleSpeaks(t: T.Transport, op: R.Op, ids: WireIds, n: nat, i: nat)
    requires Speaking(t, ids, n, i) && Idle(t, op)
    ensures var u := R.Step(t, op).0; Speaking(u, ids, n, i) && u.sent == t.sent
  {
    if G.Late(t, op.event) {
      G.LateIsHarmless(t, op.event);
    }
    hide G.Late, T.OnText, T.OnBinary;
  }

  lemma PacketSpoken(t: T.Transport, ids: WireIds, pcms: seq<seq<byte>>, i: nat)
    requires Speaking(t, ids, |pcms|, i) && i < |pcms| < U32_MAX && Packet(pcms[i])
    ensures var flags := Flags(i == 0, i + 1 == |pcms|);
            var (u, r) := T.SendPcm(t, ids, flags, i, pcms[i], T.Taken);
            && r == T.Ok && Speaking(u, ids, |pcms|, i + 1)
            && u.sent == t.sent + [T.Audio(ids, flags, i, pcms[i])]
  {
  }

  lemma {:induction false} UtteranceSpoken(t: T.Transport, ops: seq<R.Op>, ids: WireIds, pcms: seq<seq<byte>>, i: nat)
    requires i <= |pcms| < U32_MAX && pcms != [] && forall k :: 0 <= k < |pcms| ==> Packet(pcms[k])
    requires Speaking(t, ids, |pcms|, i) && Utters(t, ops, ids, pcms, i)
    ensures var u := R.Run(t, ops).0; Asked(u, ids) && u.sent == t.sent + Said(ids, pcms, i)
    decreases |ops|
  {
    var u := R.Step(t, ops[0]).0;
    if Idle(t, ops[0]) {
      IdleSpeaks(t, ops[0], ids, |pcms|, i);
      hide Speaking, Idle, R.Step, Said, Packet;
      UtteranceSpoken(u, ops[1..], ids, pcms, i);
    } else if i < |pcms| {
      PacketSpoken(t, ids, pcms, i);
      assert u == T.SendPcm(t, ids, Flags(i == 0, i + 1 == |pcms|), i, pcms[i], T.Taken).0;
      hide Speaking, Idle, R.Step, Packet, T.SendPcm;
      UtteranceSpoken(u, ops[1..], ids, pcms, i + 1);
      var first, rest := [T.Audio(ids, Flags(i == 0, i + 1 == |pcms|), i, pcms[i])], Said(ids, pcms, i + 1);
      assert (t.sent + first) + rest == t.sent + (first + rest);
    } else {
      assert ops[1..] == [] && R.Run(u, []) == (u, []);
    }
  }

  /**
   * From every state in which the device's transport may start a turn: the
   * start, the packets in order and the commit are all accepted and sent, START
   * on the first, END on the last, and the transport then waits for the answer.
   */
  lemma UtteranceGoesOut(uuid: Codec.Uuid, before: seq<R.Op>, ops: seq<R.Op>, ids: WireIds, pcms: seq<seq<byte>>)
    requires var t := R.Run(T.Fresh(uuid), before).0; t.connected && T.TurnStartAllowed(t, ids)
    requires 0 < |pcms| < U32_MAX && forall k :: 0 <= k < |pcms| ==> Packet(pcms[k])
    requires var (k, r) := T.Send(R.Run(T.Fresh(uuid), before).0, T.Control(T.TurnStart, ids, false), T.Taken);
             Utters(k, ops, ids, pcms, 0)
    ensures var t := R.Run(T.Fresh(uuid), before).0;
            var (k, r) := T.Send(t, T.Control(T.TurnStart, ids, false), T.Taken);
            var u := R.Run(k, ops).0;
            && r == T.Accepted && Asked(u, ids)
            && u.sent == t.sent + [T.Ctl(T.TurnStart, ids)] + Said(ids, pcms, 0)
  {
    var t := R.Run(T.Fresh(uuid), before).0;
    var k := T.Send(t, T.Control(T.TurnStart, ids, false), T.Taken).0;
    hide R.Run, Utters, Said;
    assert Speaking(k, ids, |pcms|, 0) && k.sent == t.sent + [T.Ctl(T.TurnStart, ids)];
    hide T.Send, Speaking;
    UtteranceSpoken(k, ops, ids, pcms, 0);
  }

  // ---------------------------------------------------------------------
  // Both together
  // ---------------------------------------------------------------------

  lemma {:induction false} SaidPlace(ids: WireIds, pcms: seq<seq<byte>>, i: nat)
    requires i <= |pcms| < U32_MAX && pcms != [] && ValidIds(ids) && Fits32(ids)
    requires forall k :: 0 <= k < |pcms| ==> Packet(pcms[k])
    ensures AllInPlace(Scan(ids, i, i == |pcms|, false), Said(ids, pcms, i))
    ensures AfterAll(Scan(ids, i, i == |pcms|, false), Said(ids, pcms, i)).committed
    ensures Payloads(Said(ids, pcms, i)) == Flatten(pcms[i..])
    ensures forall k :: 0 <= k < |Said(ids, pcms, i)| ==>
              var m := Said(ids, pcms, i)[k]; OnWire(m) && NoStart(m) && Continuous(m) && NoCancel(m)
    decreases |pcms| - i
  {
    var s, ms := Scan(ids, i, i == |pcms|, false), Said(ids, pcms, i);
    if i == |pcms| {
      assert ms[1..] == [] && pcms[i..] == [];
    } else {
      SaidPlace(ids, pcms, i + 1);
      var first := T.Audio(ids, Flags(i == 0, i + 1 == |pcms|), i, pcms[i]);
      assert ms[0] == first && ms[1..] == Said(ids, pcms, i + 1) && pcms[i..][1..] == pcms[i + 1..];
      assert InPlace(s, first) && After(s, first) == Scan(ids, i + 1, i + 1 == |pcms|, false);
      assert OnWire(first) && NoStart(first) && Continuous(first) && NoCancel(first);
      hide InPlace, OnWire, NoStart, Continuous, NoCancel, Said, After;
      forall k | 0 <= k < |ms| ensures OnWire(ms[k]) && NoStart(ms[k]) && Continuous(ms[k]) && NoCancel(ms[k]) {
        if k > 0 { assert ms[k] == Said(ids, pcms, i + 1)[k - 1]; }
      }
    }
  }

  /** What the device so sends, a willing session gets as exactly its 640-byte frames, and the turn is committed. */
  lemma UtteranceReachesTheProvider(
    uuid: Codec.Uuid, ids: WireIds, pcms: seq<seq<byte>>, downlink: nat, answers: seq<Answer>)
    requires uuid != Codec.NIL_UUID && ValidIds(ids) && Fits32(ids)
    requires 0 < |pcms| < U32_MAX && forall k :: 0 <= k < |pcms| ==> Packet(pcms[k])
    requires |answers| == |pcms| + 1 && forall k :: 0 <= k < |answers| ==> Willing(answers[k])
    ensures var t := ServeAll(Started(uuid, ids, downlink), Said(ids, pcms, 0), uuid, answers);
            && t.active && t.committed && t.faults == 0 && t.received == Flatten(pcms)
            && t.appended == FramesOf(Flatten(pcms)) && t.appended != []
  {
    var s, ms, t0 := Scan(ids, 0, false, false), Said(ids, pcms, 0), Started(uuid, ids, downlink);
    SaidPlace(ids, pcms, 0);
    assert pcms[0..] == pcms && InStep(t0, s, uuid);
    hide AllInPlace, OnWire, NoStart, Continuous, NoCancel, Willing, Said, Payloads;
    ServeAllStays(t0, s, ms, uuid, answers);
    ServeAllInStep(t0, s, ms, uuid, answers);
    assert [] + Payloads(ms) == Payloads(ms);
    assert Flatten(pcms) != [] by { assert pcms[0] != []; assert Flatten(pcms) == pcms[0] + Flatten(pcms[1..]); }
    FramesHoldUtterance(Flatten(pcms));
    hide ServeAll, FramesOf, Flatten, AfterAll;
  }
}
