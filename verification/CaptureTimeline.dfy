/** The capture thread, its queue and the actor together: a gap the actor finds was flagged already. */
module CaptureTimeline {
  import opened WireTypes
  import opened ClientTransport
  import opened VoiceActor
  import C = CaptureQueue
  import B = BargeIn

  // ---------------------------------------------------------------------
  // Only a frame moves the actor's expectation
  // ---------------------------------------------------------------------

  ghost predicate Same(a: Actor, b: Actor) { b.nextCapture == a.nextCapture && b.hist.heard == a.hist.heard }

  lemma AbortSame(a: Actor)
    ensures Same(a, AbortCurrent(a))
  {
    hide SendControl;
    var hasResponse := a.response.session != 0;
    B.SendSame(Call(a, DropPlayback).(barge := NO_BARGE, finishAfterAck := true),
               if hasResponse then ResponseCancel else TurnCancel,
               if hasResponse then a.response else a.turn);
  }

  lemma SpeakSame(a: Actor, f: Frame, end: bool)
    ensures Same(a, SendAudioOrRecover(a, f, end).0)
  {
    hide SendAudio, AbortCurrent;
    B.SendAudioSame(a, f, end);
    AbortSame(SendAudio(a, f, end).0);
  }

  lemma {:induction false} UploadSame(a: Actor, frames: seq<Frame>, i: nat, ended: bool)
    requires i <= |frames|
    ensures Same(a, Upload(a, frames, i, ended).0)
    decreases |frames| - i
  {
    hide SendAudioOrRecover;
    if i < |frames| {
      SpeakSame(a, frames[i], ended && i + 1 == |frames|);
      UploadSame(SendAudioOrRecover(a, frames[i], ended && i + 1 == |frames|).0, frames, i + 1, ended);
    }
  }

  lemma CommitSame(a: Actor)
    ensures Same(a, SendCommit(a))
  {
    hide SendControl;
    B.SendSame(a, TurnCommit, a.turn);
  }

  lemma StartSame(a: Actor, ended: bool)
    ensures Same(a, StartTurn(a, ended))
  {
    IssueSame(a);
    LoseSame(a);
    LoseSame(IssueStart(a).0);
    hide IssueStart, UploadBuffered, LoseConnection;
    BufferedSame(IssueStart(a).0.(upSeq := 0, state := CapturingSpeech), ended);
  }

  lemma LoseSame(a: Actor)
    ensures Same(a, LoseConnection(a))
  {
  }

  lemma IssueSame(a: Actor)
    ensures Same(a, IssueStart(a).0)
  {
    hide SendControl;
    B.SendSame(a, TurnStart, a.turn);
  }

  lemma BufferedSame(a: Actor, ended: bool)
    ensures Same(a, UploadBuffered(a, ended))
  {
    LoseSame(a);
    hide Upload, SendCommit, LoseConnection;
    UploadSame(a, a.pre, 0, ended);
    CommitSame(Upload(a, a.pre, 0, ended).0.(pre := []));
  }

  lemma CompleteSame(a: Actor)
    ensures Same(a, CompleteCancel(a))
  {
    hide StartTurn;
    var d := Call(a, DropPlayback);
    StartSame(AdvanceTurn(d.(barge := a.barge.(admitted := false, ended := false), finishAfterAck := false)),
              a.barge.ended);
  }

  lemma FinishSame(a: Actor)
    ensures Same(a, FinishTurn(a)) && Same(a, LoseConnection(a))
  {
    LoseSame(a);
    hide LoseConnection;
  }

  lemma ErrorSame(a: Actor, e: Inbound)
    requires e.Error?
    ensures Same(a, HandleError(a, e))
  {
    hide CompleteCancel, AbortCurrent, FinishTurn, LoseConnection;
    CompleteSame(a);
    AbortSame(a);
    FinishSame(a);
  }

  lemma PartSame(a: Actor, c: PlayerCall)
    ensures var b := Ask(Call(a, c)).0;
            Same(a, AbortCurrent(b)) && Same(a, LoseConnection(b))
  {
    hide AbortCurrent, LoseConnection;
    AbortSame(Ask(Call(a, c)).0);
    LoseSame(Ask(Call(a, c)).0);
  }

  lemma DoneSame(a: Actor)
    ensures Same(a, HandleDone(a))
  {
    hide LoseConnection;
    var (a1, playing) := Ask(a);
    LoseSame(Call(if playing then Ask(a1).0 else a1, EndPlayback));
  }

  lemma EventSame(a: Actor, e: Inbound)
    ensures Same(a, HandleEvent(a, e))
  {
    hide HandleError, HandleDone, CompleteCancel, AbortCurrent, FinishTurn, LoseConnection;
    CompleteSame(a);
    FinishSame(a);
    PartSame(a, if e.Pcm? then QueueTts(e.audio, e.sequence) else BeginPlayback);
    DoneSame(a);
    if e.Error? {
      ErrorSame(a, e);
    }
  }

  lemma TakeSame(a: Actor)
    requires a.queue.items != []
    ensures Same(a, HandleOne(a))
  {
    hide HandleEvent;
    var e := a.queue.items[0];
    var a1 := a.(queue := Pop(a.queue));
    EventSame(a1, e);
    EventSame(a1.(hist := a1.hist.(acted := a1.hist.acted + [Acted(e, a.turn, a.state, a.queue.good)])), e);
  }

  lemma ConfirmSame(a: Actor)
    ensures Same(a, ConfirmBarge(a))
  {
    hide SendControl;
    var d := Call(a, DropPlayback);
    var a1 := d.(barge := a.barge.(probe := Idle, probeFrames := 0, cooldown := 0,
                                   admitted := true, ended := false, silence := 0, overflow := false),
                 finishAfterAck := false,
                 hist := d.hist.(atConfirm := a.pre, since := []));
    B.SendSame(a1, ResponseCancel, a.response);
  }

  lemma BargeSame(a: Actor, f: Frame)
    ensures Same(a, HandleBarge(a, f))
  {
    ProbeSame(a, f);
    hide ConfirmBarge, Confirms, BargeVoice, ProbeIdle, ProbeReference, ProbeClear, ProbeVerify;
    ConfirmSame(ProbeVerify(a, f));
  }

  lemma ProbeSame(a: Actor, f: Frame)
    ensures Same(a, ProbeIdle(a, f)) && Same(a, ProbeReference(a, f))
    ensures Same(a, ProbeClear(a, f)) && Same(a, ProbeVerify(a, f))
  {
    assert Same(a, BeginProbe(a));
    hide BeginProbe, BargeVoice, RejectBargeProbe;
    assert RejectBargeProbe(a) == a.(barge := RejectBargeProbe(a).barge) by { RejectSame(a); }
  }

  lemma RejectSame(a: Actor)
    ensures RejectBargeProbe(a) == a.(barge := RejectBargeProbe(a).barge)
  {
  }

  lemma CapturingSame(a: Actor, f: Frame)
    ensures Same(a, OnCapturing(a, f))
  {
    hide SendAudioOrRecover, SendCommit;
    var b := a.(barge := a.barge.(ended := false));
    SpeakSame(a, f, true);
    SpeakSame(b, f, true);
    SpeakSame(a, f, false);
    CommitSame(SendAudioOrRecover(a, f, true).0);
    CommitSame(SendAudioOrRecover(b, f, true).0);
  }

  /** What Dispatch and the deadlines do without calling the network. */
  lemma PlainSame(a: Actor, f: Frame)
    ensures Same(a, a) && Same(a, a.(followUpNear := 0)) && Same(a, a.(followUpNear := a.followUpNear + 1))
    ensures Same(a, ResetListener(a)) && Same(a, BeginListening(a)) && Same(a, BeginListening(a.(manualWake := false)))
    ensures Same(a, TrackBargeUtterance(a, f))
  {
  }

  lemma ExpiredSame(a: Actor)
    ensures Same(a, ResetListener(a.(state := WaitingForWake, pre := []))) && Same(a, a.(listenerFailed := true))
    ensures Same(a, ResetListener(Call(a, DropPlayback).(state := WaitingForWake)))
    ensures Same(a, EndTurn(a)) && Same(a, ResetBargeTurn(a).(finishAfterAck := true))
    ensures Same(a, a)
  {
  }

  lemma SameThen(a: Actor, b: Actor, c: Actor)
    requires Same(a, b) && Same(b, c)
    ensures Same(a, c)
  {
  }

  lemma WaitingSame(a: Actor, f: Frame)
    requires a.turn.session != 0 && a.state == WaitingForFollowUp
    ensures Same(a, Dispatch(a, f))
  {
    var n := a.(followUpNear := a.followUpNear + 1);
    PlainSame(a, f);
    hide Same, StartTurn;
    StartSame(n, false);
    SameThen(a, n, StartTurn(n, false));
    if !f.nearVoice {
      assert Dispatch(a, f) == a.(followUpNear := 0);
    } else if a.followUpNear + 1 >= FOLLOW_UP_NEAR_FRAMES {
      assert Dispatch(a, f) == StartTurn(n, false);
    } else {
      assert Dispatch(a, f) == n;
    }
  }

  lemma DispatchSame(a: Actor, f: Frame)
    ensures Same(a, Dispatch(a, f))
  {
    if a.turn.session != 0 && a.state == WaitingForFollowUp {
      WaitingSame(a, f);
      return;
    }
    PlainSame(a, f);
    hide Same, StartTurn, OnCapturing, HandleBarge, ResetListener, BeginListening, TrackBargeUtterance;
    StartSame(a, false);
    CapturingSame(a, f);
    BargeSame(a, f);
  }

  lemma BufferHears(a: Actor, f: Frame)
    ensures var b := Buffer(Thaw(a, f), f); b.nextCapture == a.nextCapture && b.hist.heard == a.hist.heard + [f]
  {
    hide SavePreRoll;
    var t := Thaw(a, f);
    var a1 := t.(hist := t.hist.(heard := t.hist.heard + [f]));
    B.SaveEffect(a1, f);
    B.SaveEffect(a1.(hist := a1.hist.(since := a1.hist.since + [f])), f);
  }

  lemma GiveUpSame(a: Actor)
    ensures Same(a, GiveUp(a))
  {
    ExpiredSame(a);
    hide Same, AbortCurrent, ResetListener, ResetBargeTurn;
    AbortSame(a);
  }

  lemma BreakRestarts(a: Actor)
    ensures OnBreak(a).nextCapture == a.nextCapture && OnBreak(a).hist.heard == []
  {
    GiveUpSame(Restart(a.(pre := [])));
    hide GiveUp;
  }

  /** The frame does not follow the one before it. */
  predicate Breaks(a: Actor, f: Frame) { f.discontinuity || f.sequence != a.nextCapture }

  /** Every frame the actor is given moves its expectation just behind it; a gap starts the timeline anew. */
  lemma FrameMoves(a: Actor, f: Frame)
    ensures var b := OnFrame(a, f);
            && b.nextCapture == f.sequence + 1
            && b.hist.heard == if Breaks(a, f) then [] else a.hist.heard + [f]
  {
    hide Dispatch, OnBreak, Buffer, Thaw;
    var a1 := a.(nextCapture := f.sequence + 1);
    BufferHears(a1, f);
    DispatchSame(Buffer(Thaw(a1, f), f), f);
    BreakRestarts(a1);
  }

  lemma DeadlinesSame(a: Actor, c: Clock)
    ensures Same(a, AdvanceDeadlines(a, c).0)
  {
    ExpiredSame(a);
    hide Same, AbortCurrent, ResetListener, LoseConnection, EndTurn;
    AbortSame(a);
    FinishSame(a);
  }

  /** An operation other than handing over a frame leaves the expectation alone. */
  lemma StepSame(s: System, op: Op)
    requires op.Finish? ==> op.frame.None?
    ensures Same(s.a, Step(s, op).a)
  {
    hide HandleOne, SendControl, AbortCurrent, AdvanceDeadlines, OnNet;
    match op {
      case Network(n) =>
      case Begin(connect, started) =>
        var a1 := if connect && s.a.link.None? then StartConnect(s.a, started) else s.a;
        B.SendSame(a1, Hello, ZERO_IDS);
      case Take =>
        if s.a.queue.items != [] { TakeSame(s.a); }
      case Poll(u) => AbortSame(s.a);
      case CheckOverflow =>
      case Finish(clock, frame) => DeadlinesSame(s.a, clock);
    }
  }

  // ---------------------------------------------------------------------
  // What was heard was captured without a gap
  // ---------------------------------------------------------------------

  ghost predicate Consecutive(fs: seq<Frame>) {
    forall i :: 0 < i < |fs| ==> fs[i].sequence == fs[i - 1].sequence + 1
  }

  /** The frames heard follow one another, and the next one expected follows them. */
  ghost predicate Steady(a: Actor) {
    var fs := a.hist.heard;
    Consecutive(fs) && (fs != [] ==> fs[|fs| - 1].sequence + 1 == a.nextCapture)
  }

  lemma FrameSteady(a: Actor, f: Frame)
    requires Steady(a)
    ensures Steady(OnFrame(a, f)) && Steady(Skip(a, f))
  {
    FrameMoves(a, f);
    hide OnFrame;
  }

  lemma FinishSteady(s: System, clock: Clock, f: Frame)
    requires Steady(s.a)
    ensures Steady(Step(s, Finish(clock, Some(f))).a)
  {
    var a1 := AdvanceDeadlines(s.a, clock).0;
    DeadlinesSame(s.a, clock);
    assert Steady(a1);
    FrameSteady(a1, f);
    hide AdvanceDeadlines, OnFrame, Steady, Skip;
  }

  lemma StepSteady(s: System, op: Op)
    requires Steady(s.a)
    ensures Steady(Step(s, op).a)
  {
    hide Step;
    if op.Finish? && op.frame.Some? {
      FinishSteady(s, op.clock, op.frame.value);
    } else {
      StepSame(s, op);
    }
  }

  lemma {:induction false} RunSteady(s: System, ops: seq<Op>)
    requires Steady(s.a)
    ensures Steady(Run(s, ops).a)
    decreases |ops|
  {
    hide Steady, Step;
    if ops != [] {
      StepSteady(s, ops[0]);
      RunSteady(Step(s, ops[0]), ops[1..]);
    }
  }

  // ---------------------------------------------------------------------
  // The joint system
  // ---------------------------------------------------------------------

  /** `hand` is the frame dequeued at the top of the current loop iteration. */
  datatype Joint = Joint(capture: C.Capture, hand: Option<Frame>, system: System)

  datatype JointOp =
    | Captured(frame: Frame)
    | ListenerReset
    | Actor(op: Op)
    | Iterate(connect: bool, started: bool)
    | EndIteration(clock: Clock)

  function Next(j: Joint, op: JointOp): Joint {
    match op
    case Captured(f) => j.(capture := C.Produce(j.capture, f))
    case ListenerReset => j.(capture := C.ClearDecisions(j.capture))
    case Actor(o) => if o.Begin? || o.Finish? then j else j.(system := Step(j.system, o))
    case Iterate(connect, started) =>
      if j.system.pc != Top then j
      else if j.capture.frames == [] then j.(hand := None, system := Step(j.system, Begin(connect, started)))
      else Joint(C.Take(j.capture), Some(j.capture.frames[0]), Step(j.system, Begin(connect, started)))
    case EndIteration(clock) =>
      if j.system.pc != Checked then j
      else j.(hand := None, system := Step(j.system, Finish(clock, j.hand)))
  }

  function RunJoint(j: Joint, ops: seq<JointOp>): Joint
    decreases |ops|
  {
    if ops == [] then j else RunJoint(Next(j, ops[0]), ops[1..])
  }

  function InHand(j: Joint): seq<Frame> {
    if j.hand.Some? then [j.hand.value] else []
  }

  ghost predicate Inv(j: Joint) {
    j.system.pc != Stopped ==>
      && C.Chain(j.system.a.nextCapture, InHand(j) + j.capture.frames, j.capture.next)
      && (j.system.pc == Top ==> j.hand.None?)
  }

  lemma NextKeeps(j: Joint, op: JointOp)
    requires Inv(j)
    ensures Inv(Next(j, op))
  {
    hide Step, C.Chain;
    var expected, hand := j.system.a.nextCapture, InHand(j);
    if j.system.pc == Stopped {
      StoppedStays(j, op);
      return;
    }
    match op {
      case Captured(f) => C.ProduceKeepsChain(expected, hand, j.capture, f);
      case ListenerReset =>
        var marked := C.ClearDecisions(j.capture).frames;
        C.ChainUndecided(expected, hand + j.capture.frames, hand + marked, j.capture.next);
      case Actor(o) =>
        if !o.Begin? && !o.Finish? {
          StepSame(j.system, o);
          TopOnlyAtEnds(j.system, o);
        }
      case Iterate(connect, started) =>
        if j.system.pc == Top {
          StepSame(j.system, Begin(connect, started));
          BeginLeavesTop(j.system, connect, started);
          if j.capture.frames != [] {
            assert [j.capture.frames[0]] + j.capture.frames[1..] == [] + j.capture.frames;
          }
        }
      case EndIteration(clock) =>
        if j.system.pc == Checked {
          EndKeeps(j, clock);
        }
    }
  }

  lemma StoppedStays(j: Joint, op: JointOp)
    requires j.system.pc == Stopped
    ensures Next(j, op).system.pc == Stopped
  {
    hide Receive;
  }

  lemma TopOnlyAtEnds(s: System, op: Op)
    requires !op.Begin? && !op.Finish?
    ensures Step(s, op).pc == Top ==> s.pc == Top
  {
    hide Receive, HandleOne, PollUi, LoseConnection;
  }

  lemma BeginLeavesTop(s: System, connect: bool, started: bool)
    requires s.pc == Top
    ensures Step(s, Begin(connect, started)).pc != Top
  {
    hide StartConnect, FinishConnect;
  }

  lemma FinishMoves(s: System, clock: Clock, f: Frame)
    requires s.pc == Checked
    ensures var t := Step(s, Finish(clock, Some(f))); t.pc == Stopped || t.a.nextCapture == f.sequence + 1
  {
    FrameMoves(AdvanceDeadlines(s.a, clock).0, f);
    hide AdvanceDeadlines, OnFrame, Breaks;
  }

  lemma FirstOff(expected: nat, f: Frame, frames: seq<Frame>, next: nat)
    requires C.Chain(expected, [f] + frames, next)
    ensures C.Chain(f.sequence + 1, frames, next)
  {
    assert ([f] + frames)[1..] == frames;
  }

  lemma EndKeeps(j: Joint, clock: Clock)
    requires Inv(j) && j.system.pc == Checked
    ensures Inv(Next(j, EndIteration(clock)))
  {
    hide Step, C.Chain;
    var next := Next(j, EndIteration(clock));
    assert InHand(next) + next.capture.frames == j.capture.frames;
    if j.hand.None? {
      StepSame(j.system, Finish(clock, None));
      assert InHand(j) + j.capture.frames == j.capture.frames;
    } else {
      FinishMoves(j.system, clock, j.hand.value);
      FirstOff(j.system.a.nextCapture, j.hand.value, j.capture.frames, j.capture.next);
    }
  }

  lemma {:induction false} RunKeeps(j: Joint, ops: seq<JointOp>)
    requires Inv(j)
    ensures Inv(RunJoint(j, ops))
    decreases |ops|
  {
    hide Inv, Next;
    if ops != [] {
      NextKeeps(j, ops[0]);
      RunKeeps(Next(j, ops[0]), ops[1..]);
    }
  }

  /**
   * Whatever the threads do, the actor's own sequence test never finds a gap
   * that the frame's flag did not already announce.
   */
  lemma NoSilentGap(config: Config, net: seq<Slot>, audio: seq<bool>, ops: seq<JointOp>)
    ensures var j := RunJoint(Joint(C.NO_CAPTURE, None, System(Initial(config, net, audio), Top)), ops);
            j.system.pc != Stopped && j.hand.Some? && !j.hand.value.discontinuity ==>
              j.hand.value.sequence == j.system.a.nextCapture
  {
    var start := Joint(C.NO_CAPTURE, None, System(Initial(config, net, audio), Top));
    assert InHand(start) + start.capture.frames == [];
    RunKeeps(start, ops);
    hide RunJoint;
  }
}
