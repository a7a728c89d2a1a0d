/** How a turn is given up: speaking over an answer is heard, and every cancel that can reach the server is sent. */
module Interruptions {
  import opened WireTypes
  import opened ClientTransport
  import opened VoiceActor
  import B = BargeIn
  import C = CaptureProgress
  import I = ActorInvariant
  import P = TransportProofs
  import R = ActorResponse
  import S = ActorSafety
  import T = CaptureTimeline
  import U = BargeUpload

  // ---------------------------------------------------------------------
  // A cancel that can reach the server is sent
  // ---------------------------------------------------------------------

  /** The transport as the next call finds it when it holds the lock. */
  function AtLock(a: Actor): Transport
    requires a.link.Some?
  {
    Locked(a).link.value
  }

  /** The connection takes a cancellation then, and the turn has not ended by itself. */
  predicate Cancellable(a: Actor) {
    && a.link.Some? && AtLock(a).connected && NextSlot(a).reply != Down
    && (AtLock(a).active || (AtLock(a).responseDone && a.response != ZERO_IDS))
  }

  lemma {:induction false} SameArrivals(a: Actor, b: Actor, ns: seq<NetEvent>)
    requires b.link == a.link
    ensures ReceiveAll(b, ns).link == ReceiveAll(a, ns).link
    decreases |ns|
  {
    hide OnNet;
    if ns != [] { SameArrivals(Receive(a, ns[0]), Receive(b, ns[0]), ns[1..]); }
  }

  /** What the transport becomes is up to it and the network. */
  lemma SameLock(a: Actor, b: Actor)
    requires b.link == a.link && b.net == a.net
    ensures Locked(b).link == Locked(a).link && NextSlot(b) == NextSlot(a) && Locked(b).net == Locked(a).net
  {
    var net := if a.net == [] then [] else a.net[1..];
    B.ReceiveAllSame(a.(net := net), NextSlot(a).before);
    B.ReceiveAllSame(b.(net := net), NextSlot(b).before);
    SameArrivals(a.(net := net), b.(net := net), NextSlot(a).before);
  }

  lemma StandingAllows(t: Transport, q: Queue, turn: WireIds, response: WireIds, state: State, token: bool)
    requires P.Sound(t) && I.Within(t, q.items, turn, state) && R.Follows(t, q, response, state)
    requires state != CancelPending && ValidIds(turn)
    requires t.active || (t.responseDone && response != ZERO_IDS)
    ensures var (kind, ids) := R.CancelOf(turn, response);
            Allowed(t, Control(kind, ids, token)) && !t.cancelSent
  {
    hide R.Announced, R.TurnBroken, R.Finished, R.Unheard;
  }

  /** `b` stands where `a` does, whatever it has taken off its queue. */
  ghost predicate SameSides(a: Actor, b: Actor) { b.link == a.link && b.net == a.net && b.config == a.config }

  lemma CancelGoesOut(a: Actor, b: Actor, k: nat)
    requires S.Ok(a, k) && !I.Resting(a.state) && a.state != CancelPending && SameSides(a, b) && Cancellable(a)
    ensures var (kind, ids) := R.CancelOf(a.turn, a.response);
            var (c, r) := SendControl(b, kind, ids);
            r == Accepted && c.link.Some? && U.Log(c) == U.Log(a) + [Ctl(kind, ids)]
  {
    var (kind, ids) := R.CancelOf(a.turn, a.response);
    S.OpenTurn(a, k);
    S.LockedOk(a, k);
    SameLock(a, b);
    var l := Locked(a);
    S.InFacts(l, k);
    hide S.Ok, S.Live, S.In, S.Told, Locked, Allowed, P.Sound, I.Within, R.Follows;
    StandingAllows(l.link.value, l.queue, a.turn, a.response, a.state, a.config.tokenValid);
  }

  /** The turn is given up: its cancel is the next message on the wire. */
  ghost predicate GivenUp(a: Actor, b: Actor) {
    && b.link.Some? && b.state == CancelPending && b.turn == a.turn && b.finishAfterAck
    && var (kind, ids) := R.CancelOf(a.turn, a.response);
       U.Log(b) == U.Log(a) + [Ctl(kind, ids)]
  }

  /** As `a`, but for what the actor took or heard in between. */
  ghost predicate Alike(a: Actor, b: Actor) { SameSides(a, b) && b.turn == a.turn && b.response == a.response }

  lemma AbortIsSent(a: Actor, b: Actor, k: nat)
    requires S.Ok(a, k) && !I.Resting(a.state) && a.state != CancelPending && Cancellable(a) && Alike(a, b)
    ensures GivenUp(a, AbortCurrent(b))
  {
    hide S.Ok, Cancellable, SendControl;
    var b1 := Call(b, DropPlayback).(barge := NO_BARGE, finishAfterAck := true);
    CancelGoesOut(a, b1, k);
    var (kind, ids) := R.CancelOf(a.turn, a.response);
    B.SendSame(b1, kind, ids);
  }

  /** The turn is given up, with its cancel if that can be sent, and otherwise with the connection. */
  ghost predicate Aborts(a: Actor, b: Actor) {
    (Cancellable(a) ==> GivenUp(a, b)) && (b.state == CancelPending || b.link.None?)
  }

  lemma AbortsAlike(a: Actor, b: Actor, k: nat)
    requires S.Ok(a, k) && !I.Resting(a.state) && a.state != CancelPending && Alike(a, b)
    ensures Aborts(a, AbortCurrent(b))
  {
    AbortEnds(b);
    hide S.Ok, Cancellable, AbortCurrent, GivenUp;
    if Cancellable(a) { AbortIsSent(a, b, k); }
  }

  lemma AbortEnds(a: Actor)
    ensures var b := AbortCurrent(a); b.state == CancelPending || b.link.None?
  {
    hide SendControl;
  }

  /** A deadline of the state, and nothing that comes before it. */
  predicate Expires(a: Actor, c: Clock) {
    c.stateExpired && !c.heartbeatExpired && !(a.state == DrainingPlayback && c.playbackDone)
  }

  /** No deadline takes the iteration. */
  predicate InTime(a: Actor, c: Clock) {
    !c.stateExpired && !c.heartbeatExpired && !(a.state == DrainingPlayback && c.playbackDone)
  }

  /** The player does not take the packet. */
  predicate PlayerRefuses(a: Actor) { a.audio == [] || !a.audio[0] }

  /** The event makes the actor give up its turn: the answer's audio has a gap, or the player does not take it. */
  predicate BadEvent(a: Actor, e: Inbound) {
    || (e.Error? && e.code == "downlink_discontinuity" && e.ids.turn != 0)
    || (e.Pcm? && PlayerRefuses(a))
  }

  /** A touch, a deadline, a gap in the capture, a gap in the answer or a player that refuses it. */
  predicate GivesUp(s: System, op: Op) {
    match op
    case Poll(u) => s.pc.Draining? && u == Interrupt && B.Sounding(s.a.state)
    case Finish(c, f) =>
      s.pc == Checked && (Expires(s.a, c) || (InTime(s.a, c) && f.Some? && T.Breaks(s.a, f.value)))
    case Take => Step(s, Take) != s && BadEvent(s.a, s.a.queue.items[0])
    case _ => false
  }

  lemma PollGivesUp(s: System, u: UiAction)
    requires S.Safe(s) && !I.Resting(s.a.state) && s.a.state != CancelPending
    requires GivesUp(s, Poll(u))
    ensures Aborts(s.a, Step(s, Poll(u)).a)
  {
    hide S.Ok, Cancellable, AbortCurrent, GivenUp;
    AbortsAlike(s.a, s.a, S.Taken(s.pc));
  }

  lemma DeadlineGivesUp(a: Actor, c: Clock)
    requires !I.Resting(a.state) && a.state != CancelPending && a.turn.session != 0 && Expires(a, c)
    ensures AdvanceDeadlines(a, c) == (AbortCurrent(a), false)
  {
    hide AbortCurrent, LoseConnection, EndTurn, ResetListener;
  }

  lemma BreakGivesUp(a: Actor, c: Clock, f: Frame)
    requires !I.Resting(a.state) && a.state != CancelPending && a.turn.session != 0 && InTime(a, c) && T.Breaks(a, f)
    ensures var b := a.(nextCapture := f.sequence + 1, pre := [], hist := a.hist.(heard := []));
            AdvanceDeadlines(a, c) == (a, true) && OnFrame(a, f) == AbortCurrent(b)
  {
    hide AbortCurrent, LoseConnection, EndTurn, ResetListener, Dispatch;
  }

  lemma FinishGivesUp(s: System, c: Clock, f: Option<Frame>)
    requires S.Safe(s) && !I.Resting(s.a.state) && s.a.state != CancelPending
    requires GivesUp(s, Finish(c, f)) && !s.a.listenerFailed
    ensures Aborts(s.a, Step(s, Finish(c, f)).a)
  {
    hide S.Ok, Aborts, AbortCurrent, T.Breaks, AdvanceDeadlines, OnFrame, InTime, Step;
    var a, k := s.a, S.Taken(s.pc);
    SessionIsUp(a, k);
    if Expires(a, c) {
      DeadlineGivesUp(a, c);
      AbortsAlike(a, a, k);
      DeadlineStep(s, c, f);
    } else {
      var b := a.(nextCapture := f.value.sequence + 1, pre := [], hist := a.hist.(heard := []));
      BreakGivesUp(a, c, f.value);
      AbortsAlike(a, b, k);
      FrameStep(s, c, f.value);
    }
  }

  lemma DeadlineStep(s: System, c: Clock, f: Option<Frame>)
    requires s.pc == Checked
    ensures var b := AdvanceDeadlines(s.a, c);
            !b.1 && Aborts(s.a, b.0) ==> Aborts(s.a, Step(s, Finish(c, f)).a)
  {
    hide AdvanceDeadlines, OnFrame, Cancellable;
  }

  lemma FrameStep(s: System, c: Clock, f: Frame)
    requires s.pc == Checked && AdvanceDeadlines(s.a, c) == (s.a, true) && !s.a.listenerFailed
    ensures Step(s, Finish(c, Some(f))).a == OnFrame(s.a, f)
  {
    hide AdvanceDeadlines, OnFrame;
  }

  lemma SessionIsUp(a: Actor, k: nat)
    requires S.Ok(a, k) && !I.Resting(a.state)
    ensures a.turn.session != 0 && a.link.Some?
  {
    S.OpenTurn(a, k);
    hide I.Core, S.HistOk, S.Told;
    InSession(a);
  }

  lemma InSession(a: Actor)
    requires S.In(a)
    ensures a.turn.session != 0 && a.link.Some?
  {
  }

  lemma EventGivesUp(n: Actor, e: Inbound)
    requires BadEvent(n, e) && n.state != CancelPending && n.turn.session != 0
    ensures exists b :: Alike(n, b) && HandleEvent(n, e) == AbortCurrent(b)
  {
    if e.Error? {
      assert Alike(n, n) && HandleEvent(n, e) == AbortCurrent(n) by {
        hide AbortCurrent, LoseConnection, FinishTurn, CompleteCancel;
      }
    } else {
      var b := Ask(Call(n, QueueTts(e.audio, e.sequence))).0;
      assert Alike(n, b) && HandleEvent(n, e) == AbortCurrent(b) by {
        hide AbortCurrent;
      }
    }
  }

  lemma TakeGivesUp(s: System)
    requires S.Safe(s) && !I.Resting(s.a.state) && s.a.state != CancelPending
    requires GivesUp(s, Take)
    ensures Aborts(s.a, Step(s, Take).a)
  {
    var a, e, n := s.a, s.a.queue.items[0], S.Noted(s.a);
    SessionIsUp(a, s.pc.pops);
    assert Step(s, Take).a == HandleOne(a) == HandleEvent(n, e) && Alike(a, n) by {
      hide HandleEvent, S.Ok, Cancellable;
    }
    assert BadEvent(n, e);
    hide S.Ok, Cancellable, AbortCurrent, HandleEvent, HandleOne, Step, S.Noted, BadEvent, Aborts;
    EventGivesUp(n, e);
    var b :| Alike(n, b) && HandleEvent(n, e) == AbortCurrent(b);
    AbortsAlike(a, b, s.pc.pops);
  }

  // ---------------------------------------------------------------------
  // Backpressure
  // ---------------------------------------------------------------------

  lemma SameSend(a: Actor, b: Actor, f: Frame, end: bool)
    requires Alike(a, b) && b.upSeq == a.upSeq && a.link.Some?
    ensures var (c, r) := SendAudio(a, f, end);
            var (d, q) := SendAudio(b, f, end);
            q == r && Alike(c, d)
  {
    SameLock(a, b);
    B.SendAudioSame(a, f, end);
    B.SendAudioSame(b, f, end);
    hide Locked, SendPcm;
  }

  /** A frame that was pushed back leaves the turn as it was. */
  lemma PushedBackOk(a: Actor, f: Frame, end: bool, k: nat)
    requires S.Ok(a, k) && a.state == CapturingSpeech && SendAudio(a, f, end).1 == Backpressure
    ensures var b := SendAudio(a, f, end).0;
            && S.Ok(b, k) && b.state == CapturingSpeech && b.turn == a.turn && b.response == a.response
            && U.Log(b) == U.Log(a)
  {
    S.OpenTurn(a, k);
    S.SendAudioOk(a, f, end, k);
    U.AudioLog(a, f, end, k);
    assert U.Log(a) + [] == U.Log(a);
    StillUnended(a, f, end, k);
    hide SendAudio, S.Ok, S.Live, S.In, S.Told, S.Unended;
    S.CapturingOk(SendAudio(a, f, end).0, k);
  }

  lemma StillUnended(a: Actor, f: Frame, end: bool, k: nat)
    requires S.Live(a, k) && S.Unended(a) && SendAudio(a, f, end).1 == Backpressure
    ensures S.Unended(SendAudio(a, f, end).0)
  {
    S.LockedOk(a, k);
    hide Locked, S.Live;
    S.LiveLinked(a, k);
  }

  lemma PushedBack(a: Actor, b: Actor, f: Frame, end: bool, k: nat)
    requires S.Ok(a, k) && a.state == CapturingSpeech && a.link.Some? && Alike(a, b) && b.upSeq == a.upSeq
    requires SendAudio(a, f, end).1 == Backpressure && Cancellable(SendAudio(a, f, end).0)
    ensures var (c, ok) := SendAudioOrRecover(b, f, end); !ok && GivenUp(a, c)
  {
    var c, d := SendAudio(a, f, end).0, SendAudio(b, f, end).0;
    PushedBackOk(a, f, end, k);
    SameSend(a, b, f, end);
    U.Recovered(b, f, end);
    hide SendAudio, SendAudioOrRecover, Cancellable, S.Ok, AbortCurrent;
    AbortIsSent(c, d, k);
  }

  lemma FramePushedBack(s: System, c: Clock, f: Frame)
    requires S.Safe(s) && s.pc == Checked && s.a.state == CapturingSpeech && !s.a.listenerFailed
    requires InTime(s.a, c) && C.Expected(s.a, f)
    requires var (b, r) := SendAudio(s.a, f, C.Over(s.a, f)); r == Backpressure && Cancellable(b)
    ensures GivenUp(s.a, Step(s, Finish(c, Some(f))).a)
  {
    hide S.Ok, SendAudio, Cancellable, GivenUp, OnFrame, Step, AdvanceDeadlines, OnCapturing;
    var a, k := s.a, S.Taken(s.pc);
    SessionIsUp(a, k);
    InTimeGoesOn(a, c);
    FrameStep(s, c, f);
    CapturedFrame(a, f);
    var b := a.(nextCapture := f.sequence + 1, hist := a.hist.(heard := a.hist.heard + [f]));
    CapturingPushedBack(a, b, f, k);
  }

  lemma CapturingPushedBack(a: Actor, b: Actor, f: Frame, k: nat)
    requires S.Ok(a, k) && a.state == CapturingSpeech && a.link.Some? && Alike(a, b)
    requires b.upSeq == a.upSeq && b.barge == a.barge
    requires var (b, r) := SendAudio(a, f, C.Over(a, f)); r == Backpressure && Cancellable(b)
    ensures GivenUp(a, OnCapturing(b, f))
  {
    hide S.Ok, SendAudio, Cancellable, GivenUp, SendAudioOrRecover, SendCommit;
    PushedBack(a, b, f, C.Over(a, f), k);
    PushedBack(a, b.(barge := b.barge.(ended := false)), f, C.Over(a, f), k);
  }

  lemma CapturedFrame(a: Actor, f: Frame)
    requires C.Expected(a, f) && a.state == CapturingSpeech && a.turn.session != 0
    ensures var b := a.(nextCapture := f.sequence + 1, hist := a.hist.(heard := a.hist.heard + [f]));
            OnFrame(a, f) == OnCapturing(b, f)
  {
    hide OnCapturing, SavePreRoll;
  }

  lemma InTimeGoesOn(a: Actor, c: Clock)
    requires InTime(a, c) && a.turn.session != 0
    ensures AdvanceDeadlines(a, c) == (a, true)
  {
    hide LoseConnection, EndTurn, AbortCurrent, ResetListener;
  }

  /**
   * Whatever makes the actor give up an open turn, its cancel is sent: unless the
   * connection is down, or the turn has meanwhile ended by itself, the next
   * message on the wire is the cancel of the response the actor is in, or of the
   * turn if it has none, and the actor waits for the acknowledgement.  A cancel
   * that cannot be sent costs the connection.
   */
  lemma GivesUpWithACancel(config: Config, net: seq<Slot>, audio: seq<bool>, ops: seq<Op>, op: Op)
    requires var s := S.Device(config, net, audio, ops);
             && !I.Resting(s.a.state) && s.a.state != CancelPending && !s.a.listenerFailed && GivesUp(s, op)
    ensures var s := S.Device(config, net, audio, ops);
            var b := Step(s, op).a;
            && (Cancellable(s.a) ==> GivenUp(s.a, b))
            && (b.state == CancelPending || b.link.None?)
  {
    S.DeviceSafe(config, net, audio, ops);
    var s := S.Device(config, net, audio, ops);
    hide S.Device, S.Safe, Step, GivenUp, Cancellable;
    match op
    case Poll(u) => PollGivesUp(s, u);
    case Finish(c, f) => FinishGivesUp(s, c, f);
    case Take => TakeGivesUp(s);
    case _ =>
  }

  /** A frame the network pushes back costs the turn, not the connection. */
  lemma BackpressureGivesUpTheTurn(config: Config, net: seq<Slot>, audio: seq<bool>, ops: seq<Op>, c: Clock, f: Frame)
    requires var s := S.Device(config, net, audio, ops);
             && s.pc == Checked && s.a.state == CapturingSpeech && !s.a.listenerFailed
             && InTime(s.a, c) && C.Expected(s.a, f)
             && var (b, r) := SendAudio(s.a, f, C.Over(s.a, f)); r == Backpressure && Cancellable(b)
    ensures var s := S.Device(config, net, audio, ops); GivenUp(s.a, Step(s, Finish(c, Some(f))).a)
  {
    S.DeviceSafe(config, net, audio, ops);
    hide S.Device, S.Safe, Step, GivenUp, Cancellable, SendAudio, InTime, C.Expected, C.Over;
    FramePushedBack(S.Device(config, net, audio, ops), c, f);
  }
}
