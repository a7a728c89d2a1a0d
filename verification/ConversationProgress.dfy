/** How a conversation goes on: greeting, wake word, end of a turn, speaking again. */
module ConversationProgress {
  import opened WireTypes
  import opened ClientTransport
  import opened VoiceActor
  import A = AnswerProgress
  import B = BargeIn
  import C = CaptureProgress
  import I = ActorInvariant
  import K = Interruptions
  import L = ActorPlayer
  import P = TransportProofs
  import S = ActorSafety
  import T = CaptureTimeline
  import U = BargeUpload

  // ---------------------------------------------------------------------
  // Opening a session
  // ---------------------------------------------------------------------

  /** The first loop turn after the connection came up sends the hello. */
  lemma HelloGoesOut(config: Config, net: seq<Slot>, audio: seq<bool>, ops: seq<Op>, connect: bool, started: bool)
    requires var s := S.Device(config, net, audio, ops);
             && s.pc == Top && C.Smooth(s.a, 1) && !s.a.helloSent && s.a.config.tokenValid && !s.a.listenerFailed
    ensures var s := S.Device(config, net, audio, ops);
            var t := Step(s, Begin(connect, started));
            && t.pc == Draining(0) && t.a.helloSent && t.a.link.Some? && t.a.turn == s.a.turn
            && U.Log(t.a) == U.Log(s.a) + [Ctl(Hello, ZERO_IDS)]
  {
    hide S.Device;
    C.ControlTaken(S.Device(config, net, audio, ops).a, Hello, ZERO_IDS);
    hide SendControl, C.Smooth, LoseConnection;
  }

  /** The oldest event is taken. */
  predicate Takes(s: System) { Step(s, Take) != s }

  /** The greeting the transport took gives the actor its session, and the first turn of it may start. */
  lemma GreetingOpensTheSession(config: Config, net: seq<Slot>, audio: seq<bool>, ops: seq<Op>)
    requires var s := S.Device(config, net, audio, ops); Takes(s) && s.a.queue.items[0].HelloAck?
    ensures var s := S.Device(config, net, audio, ops);
            var b, t := Step(s, Take).a, s.a.link.value;
            && s.a.turn == ZERO_IDS && b.link == s.a.link && b.state == WaitingForWake
            && b.turn == WireIds(t.session, 1, 1, t.sessionEpoch) && TurnStartAllowed(t, b.turn)
  {
    S.DeviceSafe(config, net, audio, ops);
    var s := S.Device(config, net, audio, ops);
    S.StepSafe(s, Take);
    hide S.Device, S.Ok;
    A.NotedShape(s);
    var n, e := S.Noted(s.a), s.a.queue.items[0];
    GreetingFacts(s.a, s.pc.pops);
    Greeted(n, e);
    hide S.Noted, HandleEvent;
    var b := Step(s, Take).a;
    S.IdleAtRest(b, s.pc.pops + 1);
    hide Step;
  }

  lemma GreetingFacts(a: Actor, k: nat)
    requires S.Ok(a, k) && a.link.Some? && a.queue.items != [] && a.queue.items[0].HelloAck?
    ensures var t, e := a.link.value, a.queue.items[0];
            && a.turn == ZERO_IDS && a.state == WaitingForWake
            && e.ids.session == t.session != 0 && e.ids.epoch == t.sessionEpoch
  {
    hide I.Ordered, I.Counted, I.Between, I.Within, S.HistOk;
  }

  lemma Greeted(a: Actor, e: Inbound)
    requires e.HelloAck? && a.state == WaitingForWake
    ensures var b := HandleEvent(a, e);
            && b.turn == WireIds(e.ids.session, 1, 1, e.ids.epoch) && b.link == a.link && b.state == a.state
            && b.queue == a.queue
  {
  }

  // ---------------------------------------------------------------------
  // Listening
  // ---------------------------------------------------------------------

  /** A connection that can be attempted gives the actor a fresh transport; one that cannot leaves it without. */
  lemma ConnectingOpensALink(config: Config, net: seq<Slot>, audio: seq<bool>, ops: seq<Op>, started: bool)
    requires var s := S.Device(config, net, audio, ops);
             s.pc == Top && s.a.link.None? && !s.a.listenerFailed && A.Yes(s.a, 1)
    ensures var s := S.Device(config, net, audio, ops);
            var t := Step(s, Begin(true, started));
            && t.pc == Draining(0) && !t.a.helloSent
            && t.a.link == (if started then Some(Fresh(s.a.config.uuid)) else None)
  {
    hide S.Device, SendControl;
  }

  /** The wake word, or a touch noted earlier, makes a resting actor listen; what it heard is kept as pre-roll. */
  lemma WakeListens(config: Config, net: seq<Slot>, audio: seq<bool>, ops: seq<Op>, c: Clock, f: Frame)
    requires var s := S.Device(config, net, audio, ops);
             && s.pc == Checked && s.a.state == WaitingForWake && s.a.turn.session != 0 && !s.a.listenerFailed
             && !c.heartbeatExpired && C.Expected(s.a, f) && (f.wake || s.a.manualWake)
    ensures var s := S.Device(config, net, audio, ops);
            var t := Step(s, Finish(c, Some(f)));
            && t.a.state == WaitingForSpeech && t.a.turn == s.a.turn && t.a.link == s.a.link
            && t.a.pre == C.Ring(s.a.pre, f)
            && t.pc == (if A.Yes(s.a, 1) then Top else Stopped)
  {
    U.DeviceBarge(config, net, audio, ops);
    var s := S.Device(config, net, audio, ops);
    hide S.Device;
    B.OnlyProbesWhileSounding(s.a);
    hide B.BargeOk;
    C.RestingFrame(s.a, f);
    Wakes(C.Buffered(s.a, f), f);
    WakeInTime(s, c, f);
    hide OnFrame, Dispatch, C.Ring, Step, AdvanceDeadlines;
  }

  lemma Wakes(a: Actor, f: Frame)
    requires a.state == WaitingForWake && a.turn.session != 0 && (f.wake || a.manualWake)
    ensures var b := Dispatch(a, f);
            && b.state == WaitingForSpeech && b.turn == a.turn && b.link == a.link && b.pre == a.pre
            && b.listenerFailed == (a.listenerFailed || !A.Yes(a, 1))
  {
  }

  lemma WakeInTime(s: System, c: Clock, f: Frame)
    requires s.pc == Checked && s.a.state == WaitingForWake && s.a.turn.session != 0 && !c.heartbeatExpired
    requires !s.a.listenerFailed
    ensures Step(s, Finish(c, Some(f))) == At(OnFrame(s.a, f), Top)
  {
    hide OnFrame, LoseConnection, EndTurn, AbortCurrent;
  }

  /** A touch on a resting device is noted for the next frame. */
  lemma TouchIsNoted(config: Config, net: seq<Slot>, audio: seq<bool>, ops: seq<Op>)
    requires var s := S.Device(config, net, audio, ops);
             s.pc.Draining? && s.a.state == WaitingForWake && s.a.turn.session != 0 && !s.a.listenerFailed
    ensures var s := S.Device(config, net, audio, ops);
            var t := Step(s, Poll(Wake));
            t == System(s.a.(manualWake := true), Polled)
  {
    hide S.Device;
  }

  /** How many frames at the end of `fs` were near, behind `n` earlier ones. */
  function NearRun(n: nat, fs: seq<Frame>): nat {
    if fs == [] then n
    else if fs[|fs| - 1].nearVoice then NearRun(n, fs[..|fs| - 1]) + 1
    else 0
  }

  lemma {:induction false} NearRunOn(n: nat, fs: seq<Frame>, gs: seq<Frame>)
    ensures NearRun(n, fs + gs) == NearRun(NearRun(n, fs), gs)
    decreases |gs|
  {
    if gs == [] {
      assert fs + gs == fs;
    } else {
      var m := |gs| - 1;
      assert (fs + gs)[..|fs| + m] == fs + gs[..m] && (fs + gs)[|fs| + m] == gs[m];
      NearRunOn(n, fs, gs[..m]);
    }
  }

  /** Frames after an answer, none of which opens a turn. */
  predicate Pausing(s: System, ops: seq<Op>)
    decreases |ops|
  {
    ops == [] || (&& C.Gentle(s, ops[0])
                  && (C.Handed(s, ops[0]) != [] ==> !C.Opens(s.a, ops[0].frame.value))
                  && Pausing(Step(s, ops[0]), ops[1..]))
  }

  ghost predicate Following(a: Actor, turn: WireIds, link: Option<Transport>, n: nat) {
    a.state == WaitingForFollowUp && a.turn == turn && turn.session != 0 && a.link == link && a.followUpNear == n
    && a.barge.probe == Idle
  }

  lemma PauseFrame(s: System, op: Op, turn: WireIds, link: Option<Transport>, n: nat)
    requires C.Ready(s) && Following(s.a, turn, link, n) && C.Gentle(s, op) && C.Handed(s, op) != []
    requires !C.Opens(s.a, op.frame.value)
    ensures var t := Step(s, op);
            C.Ready(t) && Following(t.a, turn, link, if op.frame.value.nearVoice then n + 1 else 0)
  {
    hide C.Beats;
    C.FrameAtOnce(s, op.clock, op.frame.value);
    C.RestingFrame(s.a, op.frame.value);
    PauseDispatch(C.Buffered(s.a, op.frame.value), op.frame.value);
    hide Step, OnFrame, Dispatch, C.Ring;
  }

  lemma PauseDispatch(a: Actor, f: Frame)
    requires a.state == WaitingForFollowUp && a.turn.session != 0 && !C.Opens(a, f)
    ensures Dispatch(a, f) == a.(followUpNear := if f.nearVoice then a.followUpNear + 1 else 0)
  {
    hide StartTurn, ResetListener;
  }

  lemma StepPauses(s: System, op: Op, turn: WireIds, link: Option<Transport>, n: nat)
    requires C.Ready(s) && Following(s.a, turn, link, n) && C.Gentle(s, op)
    requires C.Handed(s, op) != [] ==> !C.Opens(s.a, op.frame.value)
    ensures var t := Step(s, op); C.Ready(t) && Following(t.a, turn, link, NearRun(n, C.Handed(s, op)))
  {
    C.OneHanded(s, op);
    hide C.Ready, Step, C.Gentle, C.Opens;
    if C.Handed(s, op) == [] {
      C.TickKeeps(s, op);
    } else {
      assert C.Handed(s, op) == [op.frame.value] && C.Handed(s, op)[..0] == [];
      hide C.Handed;
      PauseFrame(s, op, turn, link, n);
    }
  }

  lemma {:induction false} RunPauses(s: System, ops: seq<Op>, turn: WireIds, link: Option<Transport>, n: nat)
    requires C.Ready(s) && Following(s.a, turn, link, n) && Pausing(s, ops)
    ensures var t := Run(s, ops); C.Ready(t) && Following(t.a, turn, link, NearRun(n, C.Given(s, ops)))
    decreases |ops|
  {
    hide C.Ready, Step, C.Gentle, C.Opens, C.Handed, NearRun;
    if ops != [] {
      var t := Step(s, ops[0]);
      C.GivenOn(s, ops);
      StepPauses(s, ops[0], turn, link, n);
      RunPauses(t, ops[1..], turn, link, NearRun(n, C.Handed(s, ops[0])));
      NearRunOn(n, C.Handed(s, ops[0]), C.Given(t, ops[1..]));
    } else {
      NothingNear(n);
    }
  }

  lemma NothingNear(n: nat)
    ensures NearRun(n, []) == n
  {
  }

  /**
   * After an answer no wake word is needed: a frame opens the next turn exactly
   * when it is the twentieth in a row with the speaker near.
   */
  lemma SpeakingAgainOpensATurn(config: Config, net: seq<Slot>, audio: seq<bool>, ops: seq<Op>, more: seq<Op>, f: Frame)
    requires var s := S.Device(config, net, audio, ops);
             && C.Ready(s) && s.a.state == WaitingForFollowUp && s.a.turn.session != 0 && s.a.followUpNear == 0
             && Pausing(s, more)
    ensures var s := S.Device(config, net, audio, ops);
            var t := Run(s, more);
            && t.a.turn == s.a.turn && t.a.link == s.a.link && t.a.state == WaitingForFollowUp
            && (C.Opens(t.a, f) <==> NearRun(0, C.Given(s, more) + [f]) >= 20)
  {
    U.DeviceBarge(config, net, audio, ops);
    var s := S.Device(config, net, audio, ops);
    hide S.Device, C.Ready, Pausing, C.Given;
    B.OnlyProbesWhileSounding(s.a);
    hide B.BargeOk;
    RunPauses(s, more, s.a.turn, s.a.link, 0);
    var fs := C.Given(s, more);
    assert (fs + [f])[..|fs|] == fs;
    hide Run;
  }

  /** The frame calls the device: it wakes it, or opens a turn. */
  predicate Calls(a: Actor, f: Frame) {
    C.Opens(a, f) || (a.state == WaitingForWake && (f.wake || a.manualWake))
  }

  /** Frames that do not concern the device, and nothing else from outside. */
  predicate Uncalled(s: System, ops: seq<Op>)
    decreases |ops|
  {
    ops == [] || (&& C.Gentle(s, ops[0])
                  && (C.Handed(s, ops[0]) != [] ==> !Calls(s.a, ops[0].frame.value))
                  && Uncalled(Step(s, ops[0]), ops[1..]))
  }

  ghost predicate RestsAs(a: Actor, b: Actor) {
    b.state == a.state && b.turn == a.turn && b.link == a.link && b.barge.probe == Idle
  }

  lemma UncalledFrame(s: System, c: Clock, f: Frame)
    requires C.Ready(s) && s.pc == Checked && C.Calm(c) && C.Expected(s.a, f) && !Calls(s.a, f)
    requires I.Resting(s.a.state) && s.a.turn.session != 0 && s.a.barge.probe == Idle
    ensures var t := Step(s, Finish(c, Some(f))); C.Ready(t) && RestsAs(s.a, t.a)
  {
    hide C.Beats;
    C.FrameAtOnce(s, c, f);
    C.RestingFrame(s.a, f);
    UncalledDispatch(C.Buffered(s.a, f), f);
    hide Step, OnFrame, Dispatch, C.Ring;
  }

  lemma UncalledDispatch(a: Actor, f: Frame)
    requires I.Resting(a.state) && a.turn.session != 0 && !Calls(a, f)
    ensures var b := Dispatch(a, f); b == a.(followUpNear := b.followUpNear)
  {
    hide StartTurn, ResetListener;
  }

  lemma {:induction false} RunUncalled(s: System, ops: seq<Op>)
    requires C.Ready(s) && I.Resting(s.a.state) && s.a.turn.session != 0 && s.a.barge.probe == Idle && Uncalled(s, ops)
    ensures RestsAs(s.a, Run(s, ops).a)
    decreases |ops|
  {
    hide C.Ready, Step, C.Gentle, Calls;
    if ops != [] {
      var t := Step(s, ops[0]);
      if C.Handed(s, ops[0]) == [] {
        C.TickKeeps(s, ops[0]);
      } else {
        GentleFrame(s, ops[0]);
        UncalledFrame(s, ops[0].clock, ops[0].frame.value);
      }
      RunUncalled(t, ops[1..]);
    }
  }

  lemma GentleFrame(s: System, op: Op)
    requires C.Gentle(s, op) && C.Handed(s, op) != []
    ensures op.Finish? && op.frame.Some? && s.pc == Checked && C.Calm(op.clock) && C.Expected(s.a, op.frame.value)
  {
  }

  /** At rest nothing leaves the device and nothing changes, however much is heard, until a frame calls it. */
  lemma RestingSendsNothing(config: Config, net: seq<Slot>, audio: seq<bool>, ops: seq<Op>, more: seq<Op>)
    requires var s := S.Device(config, net, audio, ops);
             C.Ready(s) && I.Resting(s.a.state) && s.a.turn.session != 0 && Uncalled(s, more)
    ensures var s := S.Device(config, net, audio, ops);
            var b := Run(s, more).a;
            b.state == s.a.state && b.turn == s.a.turn && b.link == s.a.link
  {
    U.DeviceBarge(config, net, audio, ops);
    var s := S.Device(config, net, audio, ops);
    hide S.Device, C.Ready, Uncalled;
    B.OnlyProbesWhileSounding(s.a);
    hide B.BargeOk;
    RunUncalled(s, more);
    hide Run;
  }

  /** A gap in the capture ends the listening: the device waits for the wake word again. */
  lemma ABreakEndsListening(config: Config, net: seq<Slot>, audio: seq<bool>, ops: seq<Op>, c: Clock, f: Frame)
    requires var s := S.Device(config, net, audio, ops);
             && s.pc == Checked && I.Resting(s.a.state) && s.a.turn.session != 0 && !s.a.listenerFailed
             && K.InTime(s.a, c) && T.Breaks(s.a, f) && A.Yes(s.a, 1)
    ensures var s := S.Device(config, net, audio, ops);
            var b := Step(s, Finish(c, Some(f))).a;
            b.state == WaitingForWake && b.pre == [] && b.link == s.a.link && b.turn == s.a.turn
  {
    var s := S.Device(config, net, audio, ops);
    hide S.Device;
    K.InTimeGoesOn(s.a, c);
    K.FrameStep(s, c, f);
    BreakRests(s.a, f);
    hide Step, OnFrame, AdvanceDeadlines;
  }

  lemma BreakRests(a: Actor, f: Frame)
    requires I.Resting(a.state) && T.Breaks(a, f)
    ensures var b := OnFrame(a, f);
            b.state == WaitingForWake && b.pre == [] && b.link == a.link && b.turn == a.turn
  {
    var c := Restart(a.(nextCapture := f.sequence + 1, pre := []));
    var d := Call(c, DropPlayback).(state := WaitingForWake);
    L.ListenerOnly(d);
    hide AbortCurrent, Dispatch, ResetListener;
    assert OnFrame(a, f) == GiveUp(c) == ResetListener(d);
  }

  // ---------------------------------------------------------------------
  // The end of a turn
  // ---------------------------------------------------------------------

  function NextTurn(i: WireIds): WireIds { WireIds(i.session, i.turn + 1, i.stream + 1, i.epoch + 1) }

  /** The actor stands before its next turn, on the same connection, and may start it. */
  ghost predicate MovesOn(a: Actor, b: Actor) {
    && b.link == a.link && b.link.Some? && b.turn == NextTurn(a.turn) && b.response == ZERO_IDS
    && b.state == WaitingForFollowUp && b.followUpNear == 0 && TurnStartAllowed(b.link.value, b.turn)
  }

  /** The answer was played to its end: the conversation goes on with the next turn. */
  lemma PlayoutEndsTheTurn(config: Config, net: seq<Slot>, audio: seq<bool>, ops: seq<Op>, c: Clock, f: Option<Frame>)
    requires var s := S.Device(config, net, audio, ops);
             && s.pc == Checked && s.a.state == DrainingPlayback && !s.a.listenerFailed && A.Yes(s.a, 1)
             && c.playbackDone && !c.playbackFailed && !c.heartbeatExpired
    ensures var s := S.Device(config, net, audio, ops);
            var t := Step(s, Finish(c, f)); MovesOn(s.a, t.a) && t.pc == Top
  {
    S.DeviceSafe(config, net, audio, ops);
    var s := S.Device(config, net, audio, ops);
    S.StepSafe(s, Finish(c, f));
    hide S.Device, S.Ok;
    K.SessionIsUp(s.a, 0);
    PlayedOut(s, c, f);
    var t := Step(s, Finish(c, f));
    hide Step;
    S.IdleAtRest(t.a, S.Taken(t.pc));
  }

  lemma PlayedOut(s: System, c: Clock, f: Option<Frame>)
    requires s.pc == Checked && s.a.state == DrainingPlayback && !s.a.listenerFailed && A.Yes(s.a, 1)
    requires c.playbackDone && !c.playbackFailed && !c.heartbeatExpired && s.a.turn.session != 0
    ensures var t := Step(s, Finish(c, f)); var a := s.a; var b := t.a;
            && t.pc == Top && b.link == a.link && b.turn == NextTurn(a.turn) && b.response == ZERO_IDS
            && b.state == WaitingForFollowUp && b.followUpNear == 0
  {
    var e := EndTurn(s.a);
    assert AdvanceDeadlines(s.a, c) == (e, false) by { hide EndTurn, LoseConnection, AbortCurrent, ResetListener; }
    assert !e.listenerFailed && e.link == s.a.link && e.turn == NextTurn(s.a.turn) && e.response == ZERO_IDS
           && e.state == WaitingForFollowUp && e.followUpNear == 0;
    hide AdvanceDeadlines, EndTurn, OnFrame;
  }

  /** A player that failed stops the device. */
  lemma PlaybackFailureStops(config: Config, net: seq<Slot>, audio: seq<bool>, ops: seq<Op>, c: Clock, f: Option<Frame>)
    requires var s := S.Device(config, net, audio, ops);
             && s.pc == Checked && s.a.state == DrainingPlayback
             && c.playbackDone && c.playbackFailed && !c.heartbeatExpired
    ensures var s := S.Device(config, net, audio, ops);
            Step(s, Finish(c, f)) == System(s.a.(listenerFailed := true), Stopped)
  {
    S.DeviceSafe(config, net, audio, ops);
    var s := S.Device(config, net, audio, ops);
    hide S.Device, S.Ok;
    K.SessionIsUp(s.a, 0);
    hide LoseConnection, AbortCurrent, EndTurn, OnFrame;
  }

  /** A cancelled turn not followed by what was said over it: its acknowledgement ends it, and that is forgotten. */
  lemma AcknowledgementEndsTheTurn(config: Config, net: seq<Slot>, audio: seq<bool>, ops: seq<Op>)
    requires var s := S.Device(config, net, audio, ops); U.CancelEnds(s) && !U.WillSpeak(s.a)
    ensures var s := S.Device(config, net, audio, ops);
            var b := Step(s, Take).a; MovesOn(s.a, b) && (!s.a.finishAfterAck ==> b.pre == [])
  {
    S.DeviceSafe(config, net, audio, ops);
    U.DeviceBarge(config, net, audio, ops);
    var s := S.Device(config, net, audio, ops);
    S.StepSafe(s, Take);
    hide S.Device, S.Ok, B.BargeOk;
    A.NotedShape(s);
    K.SessionIsUp(s.a, s.pc.pops);
    var n, e := S.Noted(s.a), s.a.queue.items[0];
    hide S.Noted, HandleEvent;
    EndFinishes(n, e);
    var b := Step(s, Take).a;
    assert b.link == s.a.link && b.turn == NextTurn(s.a.turn);
    S.IdleAtRest(b, s.pc.pops + 1);
    hide Step;
  }

  lemma EndFinishes(a: Actor, e: Inbound)
    requires a.state == CancelPending && !U.WillSpeak(a) && a.turn.session != 0 && (e.Cancelled? || I.TurnError(e))
    ensures var b := HandleEvent(a, e);
            && b.link == a.link && b.turn == NextTurn(a.turn) && b.response == ZERO_IDS
            && b.state == WaitingForFollowUp && b.followUpNear == 0 && (!a.finishAfterAck ==> b.pre == [])
  {
    assert HandleEvent(a, e) == CompleteCancel(a) by {
      hide CompleteCancel, LoseConnection, AbortCurrent, FinishTurn, HandleDone;
    }
    hide HandleEvent;
    Finished(a);
    Finished(a.(pre := []));
    assert CompleteCancel(a) == FinishTurn(if a.finishAfterAck then a else a.(pre := [])) by {
      hide FinishTurn, StartTurn;
    }
    hide CompleteCancel, FinishTurn;
  }

  lemma Finished(a: Actor)
    ensures var b := FinishTurn(a);
            && b.link == a.link && b.turn == NextTurn(a.turn) && b.response == ZERO_IDS
            && b.state == WaitingForFollowUp && b.followUpNear == 0 && b.pre == a.pre
  {
  }

  /** An error of the turn ends it and nothing else, unless its cancel is out or the answer's audio has a gap. */
  lemma ErrorEndsTheTurn(config: Config, net: seq<Slot>, audio: seq<bool>, ops: seq<Op>)
    requires var s := S.Device(config, net, audio, ops);
             Takes(s) && I.TurnError(s.a.queue.items[0]) && s.a.state != CancelPending
    ensures var s := S.Device(config, net, audio, ops); MovesOn(s.a, Step(s, Take).a)
  {
    S.DeviceSafe(config, net, audio, ops);
    var s := S.Device(config, net, audio, ops);
    S.StepSafe(s, Take);
    hide S.Device, S.Ok;
    A.NotedShape(s);
    var n, e := S.Noted(s.a), s.a.queue.items[0];
    ErrorInTurn(s.a, s.pc.pops);
    hide S.Noted, HandleEvent;
    ErrorFinishes(n, e);
    var b := Step(s, Take).a;
    assert b.link == s.a.link && b.turn == NextTurn(s.a.turn);
    S.IdleAtRest(b, s.pc.pops + 1);
    hide Step;
  }

  lemma ErrorInTurn(a: Actor, k: nat)
    requires S.Ok(a, k) && a.link.Some? && a.queue.items != [] && k < EVENTS_PER_FRAME && I.TurnError(a.queue.items[0])
    ensures a.turn.session != 0
  {
    S.Oldest(a.link.value, a.queue, a.turn, a.response, a.state, k);
    hide I.Core, S.HistOk;
  }

  lemma ErrorFinishes(a: Actor, e: Inbound)
    requires I.TurnError(e) && a.state != CancelPending && a.turn.session != 0
    ensures var b := HandleEvent(a, e);
            && b.link == a.link && b.turn == NextTurn(a.turn) && b.response == ZERO_IDS
            && b.state == WaitingForFollowUp && b.followUpNear == 0
  {
    Finished(a);
    hide FinishTurn, LoseConnection, AbortCurrent, CompleteCancel;
  }

  // ---------------------------------------------------------------------
  // The end of the connection
  // ---------------------------------------------------------------------

  /** The handshake, the heartbeat or an acknowledgement is overdue. */
  predicate LateFor(a: Actor, c: Clock) {
    if a.turn.session == 0 then c.stateExpired
    else c.heartbeatExpired || (a.state == CancelPending && c.stateExpired)
  }

  /** The start of a turn, or a frame of it, cannot be sent. */
  predicate Unsendable(a: Actor, f: Frame) {
    && C.Expected(a, f) && a.turn.session != 0
    && ((C.Opens(a, f) && a.barge.probe == Idle && IssueStart(C.AtOpening(a, f)).1 != Accepted)
        || (a.state == CapturingSpeech && SendAudio(a, f, C.Over(a, f)).1 == Rejected))
  }

  /** The network or the server ended the session, or the player cannot start or end a stream. */
  predicate Fatal(a: Actor, e: Inbound) {
    || (e.Error? && (e.code == "transport" || e.ids.turn == 0))
    || (e.AudioStart? && a.state != CancelPending && !A.Yes(a, 1))
    || (e.Done? && a.state != CancelPending && A.Yes(a, 1) && !A.Yes(a, 2))
  }

  predicate Severs(s: System, op: Op) {
    && s.a.link.Some?
    && match op
       case Begin(_, _) =>
         s.pc == Top && !s.a.listenerFailed && s.a.link.value.connected && !s.a.helloSent
         && SendControl(s.a, Hello, ZERO_IDS).1 != Accepted
       case Finish(c, f) =>
         s.pc == Checked
         && (LateFor(s.a, c)
             || (f.Some? && K.InTime(s.a, c) && !s.a.listenerFailed && Unsendable(s.a, f.value)))
       case CheckOverflow => s.pc == Polled && s.a.queue.overflow
       case Take => Takes(s) && Fatal(s.a, s.a.queue.items[0])
       case _ => false
  }

  /** The device starts over: no connection, no session, nothing of a turn, and the player silent. */
  predicate StartsOver(b: Actor) {
    && b.link.None? && b.queue == EMPTY_QUEUE && b.turn == ZERO_IDS && b.response == ZERO_IDS
    && b.state == WaitingForWake && b.pre == [] && b.barge == NO_BARGE && !b.manualWake && !b.finishAfterAck
    && b.hist.calls != [] && b.hist.calls[|b.hist.calls| - 1] == DropPlayback
  }

  lemma Lost(a: Actor)
    ensures StartsOver(LoseConnection(a))
  {
  }

  /** What is overdue, lost, broken or cannot be sent ends the connection, and the device starts over. */
  lemma OverdueEndsTheConnection(config: Config, net: seq<Slot>, audio: seq<bool>, ops: seq<Op>, op: Op)
    requires var s := S.Device(config, net, audio, ops); Severs(s, op)
    ensures var s := S.Device(config, net, audio, ops); StartsOver(Step(s, op).a)
  {
    var s := S.Device(config, net, audio, ops);
    hide S.Device;
    match op
    case Begin(connect, started) =>
      Lost(SendControl(s.a, Hello, ZERO_IDS).0);
      hide SendControl, LoseConnection, StartsOver;
    case Finish(c, f) =>
      hide Step, AdvanceDeadlines, OnFrame, Unsendable, LateFor, K.InTime;
      if LateFor(s.a, c) {
        Overdue(s.a, c);
        Skips(s, c, f);
      } else {
        NeedsSession(s.a, f.value);
        K.InTimeGoesOn(s.a, c);
        K.FrameStep(s, c, f.value);
        Unsent(s.a, f.value);
      }
    case CheckOverflow => Lost(s.a); hide LoseConnection, StartsOver;
    case Take =>
      A.NotedShape(s);
      Broken(S.Noted(s.a), s.a.queue.items[0]);
      hide Step, S.Noted, HandleEvent, StartsOver;
    case _ =>
  }

  lemma NeedsSession(a: Actor, f: Frame)
    requires Unsendable(a, f)
    ensures a.turn.session != 0
  {
  }

  lemma Unsent(a: Actor, f: Frame)
    requires Unsendable(a, f) && a.link.Some?
    ensures StartsOver(OnFrame(a, f))
  {
    if a.state == CapturingSpeech {
      FrameUnsent(a, f);
    } else {
      var b := C.AtOpening(a, f);
      C.OpeningFrame(a, f);
      Lost(IssueStart(b).0);
      Lost(b);
      hide IssueStart, LoseConnection, UploadBuffered, StartsOver, C.AtOpening, OnFrame;
    }
  }

  lemma FrameUnsent(a: Actor, f: Frame)
    requires C.Expected(a, f) && a.state == CapturingSpeech && a.turn.session != 0 && a.link.Some?
    requires SendAudio(a, f, C.Over(a, f)).1 == Rejected
    ensures StartsOver(OnFrame(a, f))
  {
    var b := a.(nextCapture := f.sequence + 1, hist := a.hist.(heard := a.hist.heard + [f]));
    K.CapturedFrame(a, f);
    hide OnFrame, SendAudio, StartsOver;
    RejectedEnds(a, b, f, C.Over(a, f));
    RejectedEnds(a, b.(barge := b.barge.(ended := false)), f, C.Over(a, f));
    hide SendAudioOrRecover;
  }

  lemma RejectedEnds(a: Actor, b: Actor, f: Frame, end: bool)
    requires K.Alike(a, b) && b.upSeq == a.upSeq && a.link.Some? && SendAudio(a, f, end).1 == Rejected
    ensures var (c, ok) := SendAudioOrRecover(b, f, end); !ok && StartsOver(c)
  {
    K.SameSend(a, b, f, end);
    U.Recovered(b, f, end);
    Lost(SendAudio(b, f, end).0);
    hide SendAudio, SendAudioOrRecover, LoseConnection, StartsOver;
  }

  lemma Overdue(a: Actor, c: Clock)
    requires a.link.Some? && LateFor(a, c)
    ensures StartsOver(AdvanceDeadlines(a, c).0) && !AdvanceDeadlines(a, c).1
  {
    Lost(a);
    hide LoseConnection, StartsOver, EndTurn, AbortCurrent, ResetListener;
  }

  lemma Broken(a: Actor, e: Inbound)
    requires Fatal(a, e)
    ensures StartsOver(HandleEvent(a, e))
  {
    if e.Error? {
      Lost(a);
      hide LoseConnection, StartsOver, FinishTurn, AbortCurrent, CompleteCancel;
    } else if e.AudioStart? {
      Lost(Ask(Call(a, BeginPlayback)).0);
      S.AudioStartEffect(a, e);
      hide LoseConnection, StartsOver, HandleEvent;
    } else {
      L.HandlesDone(a, e);
      hide HandleEvent;
      Lost(Call(Ask(Ask(a).0).0, EndPlayback));
      hide LoseConnection, StartsOver;
    }
  }

  /** A frame whose iteration a deadline took goes unheard. */
  lemma Skips(s: System, c: Clock, f: Option<Frame>)
    requires s.pc == Checked && !AdvanceDeadlines(s.a, c).1
    ensures var a, b := AdvanceDeadlines(s.a, c).0, Step(s, Finish(c, f)).a;
            b == a.(nextCapture := b.nextCapture, hist := b.hist) && b.hist.calls == a.hist.calls
  {
    hide AdvanceDeadlines, OnFrame;
  }

  /** Nobody speaks: the device waits for the wake word again, in the same session. */
  lemma SilenceEndsListening(config: Config, net: seq<Slot>, audio: seq<bool>, ops: seq<Op>, c: Clock, f: Option<Frame>)
    requires var s := S.Device(config, net, audio, ops);
             && s.pc == Checked && (s.a.state == WaitingForSpeech || s.a.state == WaitingForFollowUp)
             && c.stateExpired && !c.heartbeatExpired
    ensures var s := S.Device(config, net, audio, ops);
            var b := Step(s, Finish(c, f)).a;
            b.state == WaitingForWake && b.pre == [] && b.link == s.a.link && b.turn == s.a.turn
  {
    S.DeviceSafe(config, net, audio, ops);
    var s := S.Device(config, net, audio, ops);
    hide S.Device, S.Ok, Step, AdvanceDeadlines;
    ListeningInSession(s.a, S.Taken(s.pc));
    Silence(s.a, c);
    Skips(s, c, f);
  }

  lemma Silence(a: Actor, c: Clock)
    requires (a.state == WaitingForSpeech || a.state == WaitingForFollowUp) && a.turn.session != 0
    requires c.stateExpired && !c.heartbeatExpired
    ensures var (b, current) := AdvanceDeadlines(a, c);
            !current && b.state == WaitingForWake && b.pre == [] && b.link == a.link && b.turn == a.turn
  {
    var d := a.(state := WaitingForWake, pre := []);
    L.ListenerOnly(d);
    hide LoseConnection, EndTurn, AbortCurrent, ResetListener;
    assert AdvanceDeadlines(a, c) == (ResetListener(d), false);
  }

  lemma ListeningInSession(a: Actor, k: nat)
    requires S.Ok(a, k) && I.Resting(a.state) && a.state != WaitingForWake
    ensures a.turn.session != 0
  {
    hide I.Ordered, I.Counted, P.Sound, S.HistOk;
  }
}
