/** Speaking over an answer: the interruption is noticed, the answer cancelled and the utterance sent. */
module BargeProgress {
  import opened WireTypes
  import opened ClientTransport
  import opened VoiceActor
  import B = BargeIn
  import C = CaptureProgress
  import I = ActorInvariant
  import K = Interruptions
  import L = ActorPlayer
  import S = ActorSafety
  import U = BargeUpload

  // ---------------------------------------------------------------------
  // Frame by frame
  // ---------------------------------------------------------------------

  /**
   * The `i`th frame of an interruption: six voiced frames, `r` in which the muted
   * answer is still heard, three until it counts as gone, three more, and three
   * in which the speaker is heard alone.
   */
  predicate Speaks(c: Config, f: Frame, i: nat, r: nat) {
    if i < 6 then BargeVoice(c, f)
    else if i < 6 + r then f.referenceActive
    else !f.referenceActive && (i < 12 + r || BargeVoice(c, f))
  }

  /** The last frame of that pattern. */
  function Confirming(r: nat): nat { 14 + r }

  /** What the probe has made of the first `i` of these frames. */
  predicate After(b: Barge, i: nat, r: nat) {
    && b.cooldown == 0 && !b.admitted
    && if i < 6 then b.probe == Idle && b.probeFrames == i
       else if i < 9 + r then
         b.probe == WaitReferenceLow && b.probeFrames == i - 6 && b.quiet == (if i < 6 + r then 0 else i - 6 - r)
       else if i < 12 + r then b.probe == Clear && b.probeFrames == i - 9 - r
       else b.probe == Verify && b.probeFrames == i - 12 - r
  }

  lemma ProbeOn(a: Actor, f: Frame, i: nat, r: nat)
    requires a.config.bargeIn && After(a.barge, i, r) && Speaks(a.config, f, i, r) && r <= 12 && i < Confirming(r)
    ensures var b := HandleBarge(a, f); b == a.(barge := b.barge, pre := b.pre) && After(b.barge, i + 1, r)
  {
    hide ConfirmBarge, BargeVoice, RejectBargeProbe;
    if i < 6 {
      assert HandleBarge(a, f) == ProbeIdle(a, f);
    } else if i < 9 + r {
      assert HandleBarge(a, f) == ProbeReference(a, f);
    } else if i < 12 + r {
      assert HandleBarge(a, f) == ProbeClear(a, f);
    } else {
      assert HandleBarge(a, f) == ProbeVerify(a, f);
    }
  }

  /** The actor with the frame in its ring, before the probe looks at it. */
  function Ringed(a: Actor, f: Frame): Actor {
    SavePreRoll(a.(nextCapture := f.sequence + 1, hist := a.hist.(heard := a.hist.heard + [f])), f)
  }

  lemma SoundingFrame(a: Actor, f: Frame)
    requires B.Sounding(a.state) && a.turn.session != 0 && C.Expected(a, f)
    ensures OnFrame(a, f) == HandleBarge(Ringed(a, f), f)
    ensures var b := Ringed(a, f);
            !a.barge.admitted ==>
              b == a.(nextCapture := b.nextCapture, hist := b.hist, pre := b.pre) && b.hist.calls == a.hist.calls
  {
    var c := a.(nextCapture := f.sequence + 1, hist := a.hist.(heard := a.hist.heard + [f]));
    B.SaveEffect(c, f);
    hide HandleBarge, SavePreRoll;
  }

  /** All but the last frame: the actor goes on listening, and the answer is untouched. */
  lemma FrameListens(a: Actor, f: Frame, i: nat, r: nat)
    requires B.Sounding(a.state) && a.turn.session != 0 && C.Expected(a, f) && a.config.bargeIn
    requires After(a.barge, i, r) && Speaks(a.config, f, i, r) && r <= 12 && i < Confirming(r)
    ensures var b := OnFrame(a, f); After(b.barge, i + 1, r) && b.state == a.state && b.config == a.config
  {
    hide HandleBarge, Ringed, C.Expected, Speaks;
    SoundingFrame(a, f);
    assert Ringed(a, f).barge == a.barge;
    hide After;
    NotAdmitted(a, i, r);
    ProbeOn(Ringed(a, f), f, i, r);
  }

  lemma NotAdmitted(a: Actor, i: nat, r: nat)
    requires After(a.barge, i, r)
    ensures !a.barge.admitted
  {
  }

  // ---------------------------------------------------------------------
  // Between the frames
  // ---------------------------------------------------------------------

  /** An event other than a new start of audio that leaves the actor sounding leaves its probe alone. */
  lemma EventListens(a: Actor, e: Inbound)
    requires B.Sounding(a.state) && !e.AudioStart? && B.Sounding(HandleEvent(a, e).state)
    ensures var b := HandleEvent(a, e); b.barge == a.barge && b.config == a.config
  {
    hide L.Hushed;
    if e.Error? {
      ErrorEnds(a, e);
      hide HandleError;
    } else if e.Done? {
      DoneListens(a);
      hide HandleDone;
    } else if e.Pcm? {
      var d := Ask(Call(a, QueueTts(e.audio, e.sequence))).0;
      L.AbortTalks(d);
      hide AbortCurrent;
    } else if e.Cancelled? {
      L.FinishTalks(a);
      hide FinishTurn, CompleteCancel;
    } else if e.HelloAck? {
      assert HandleEvent(a, e) == ResetListener(a.(turn := WireIds(e.ids.session, 1, 1, e.ids.epoch), pre := []));
    }
  }

  lemma ErrorEnds(a: Actor, e: Inbound)
    requires B.Sounding(a.state) && e.Error?
    ensures !B.Sounding(HandleError(a, e).state)
  {
    L.LoseTalks(a);
    L.AbortTalks(a);
    L.FinishTalks(a);
    hide LoseConnection, AbortCurrent, FinishTurn, CompleteCancel;
  }

  lemma DoneListens(a: Actor)
    ensures var b := HandleDone(a); B.Sounding(b.state) ==> b.barge == a.barge && b.config == a.config
  {
    hide LoseConnection;
    var (a1, playing) := Ask(a);
    L.LoseTalks(Call(if playing then Ask(a1).0 else a1, EndPlayback));
  }

  predicate StartsAudio(s: System, op: Op) {
    op.Take? && Step(s, op) != s && s.a.queue.items[0].AudioStart?
  }

  /** Whatever leaves the actor sounding between the frames leaves its probe alone. */
  lemma StepListens(s: System, op: Op)
    requires B.Sounding(s.a.state) && B.Sounding(Step(s, op).a.state)
    requires C.Handed(s, op) == [] && !StartsAudio(s, op)
    ensures var t := Step(s, op); t.a.barge == s.a.barge && t.a.config == s.a.config
  {
    match op {
      case Network(n) => NetworkListens(s.a, n);
      case Begin(connect, started) => hide Step; BeginListens(s, connect, started);
      case Take => hide Step; TakeListens(s);
      case Poll(u) => TouchListens(s.a, u); hide PollUi;
      case CheckOverflow => L.LoseTalks(s.a); hide LoseConnection, L.Talks, L.Hushed;
      case Finish(clock, frame) => DeadlineListens(s.a, clock); hide AdvanceDeadlines;
    }
  }

  lemma NetworkListens(a: Actor, n: NetEvent)
    ensures var b := Receive(a, n); b.barge == a.barge && b.config == a.config
  {
    hide OnNet;
  }

  lemma TouchListens(a: Actor, u: UiAction)
    requires B.Sounding(a.state)
    ensures var b := PollUi(a, u); B.Sounding(b.state) ==> b == a
  {
    L.AbortTalks(a);
    hide AbortCurrent, L.Hushed;
  }

  lemma TakeListens(s: System)
    requires B.Sounding(s.a.state) && B.Sounding(Step(s, Take).a.state) && !StartsAudio(s, Take)
    ensures var t := Step(s, Take); t.a.barge == s.a.barge && t.a.config == s.a.config
  {
    if Step(s, Take) != s {
      var e, n := s.a.queue.items[0], S.Noted(s.a);
      assert Step(s, Take).a == HandleEvent(n, e) && n.barge == s.a.barge && n.config == s.a.config
             && n.state == s.a.state by { hide HandleEvent; }
      hide HandleEvent, S.Noted;
      EventListens(n, e);
    }
  }

  lemma BeginListens(s: System, connect: bool, started: bool)
    requires B.Sounding(s.a.state) && B.Sounding(Step(s, Begin(connect, started)).a.state)
    ensures var t := Step(s, Begin(connect, started)); t.a.barge == s.a.barge && t.a.config == s.a.config
  {
    var b := if connect && s.a.link.None? then StartConnect(s.a, started) else s.a;
    L.LoseTalks(s.a.(link := Some(Fresh(s.a.config.uuid)), helloSent := false, hist := s.a.hist.(starts := [])));
    B.SendSame(b, Hello, ZERO_IDS);
    L.LoseTalks(SendControl(b, Hello, ZERO_IDS).0);
    hide SendControl, LoseConnection;
  }

  lemma DeadlineListens(a: Actor, c: Clock)
    requires B.Sounding(a.state)
    ensures var b := AdvanceDeadlines(a, c).0; B.Sounding(b.state) ==> b.barge == a.barge && b.config == a.config
  {
    L.LoseTalks(a);
    L.AbortTalks(a);
    L.FinishTalks(a);
    hide LoseConnection, AbortCurrent, EndTurn, ResetListener;
  }

  // ---------------------------------------------------------------------
  // The whole interruption
  // ---------------------------------------------------------------------

  /** The actor goes on playing, whatever else happens, and the frames it is given continue the pattern. */
  predicate Listening(s: System, ops: seq<Op>, i: nat, r: nat)
    decreases |ops|
  {
    ops == [] ||
    (var t, handed := Step(s, ops[0]), C.Handed(s, ops[0]);
     && B.Sounding(t.a.state) && !t.a.listenerFailed && !StartsAudio(s, ops[0])
     && (handed != [] ==>
           && i < Confirming(r) && K.InTime(s.a, ops[0].clock) && C.Expected(s.a, handed[0])
           && Speaks(s.a.config, handed[0], i, r))
     && Listening(t, ops[1..], i + |handed|, r))
  }

  lemma OneListens(s: System, op: Op, i: nat, r: nat)
    requires S.Safe(s) && !s.a.listenerFailed && B.Sounding(s.a.state) && s.a.config.bargeIn && After(s.a.barge, i, r)
    requires r <= 12 && B.Sounding(Step(s, op).a.state) && !StartsAudio(s, op)
    requires C.Handed(s, op) != [] ==>
               i < Confirming(r) && K.InTime(s.a, op.clock) && C.Expected(s.a, op.frame.value)
               && Speaks(s.a.config, op.frame.value, i, r)
    ensures var t := Step(s, op); t.a.config == s.a.config && After(t.a.barge, i + |C.Handed(s, op)|, r)
  {
    hide S.Ok, After, Speaks, C.Expected;
    if C.Handed(s, op) == [] {
      StepListens(s, op);
    } else {
      K.SessionIsUp(s.a, S.Taken(s.pc));
      K.InTimeGoesOn(s.a, op.clock);
      K.FrameStep(s, op.clock, op.frame.value);
      hide Step;
      FrameListens(s.a, op.frame.value, i, r);
    }
  }

  lemma {:induction false} RunListens(s: System, ops: seq<Op>, i: nat, r: nat)
    requires S.Safe(s) && B.Sounding(s.a.state) && s.a.config.bargeIn && After(s.a.barge, i, r) && r <= 12
    requires Listening(s, ops, i, r) && !s.a.listenerFailed
    ensures var t := Run(s, ops);
            && S.Safe(t) && !t.a.listenerFailed && B.Sounding(t.a.state) && t.a.config == s.a.config
            && After(t.a.barge, i + |C.Given(s, ops)|, r)
    decreases |ops|
  {
    hide S.Safe, Step, After, Speaks, StartsAudio, C.Handed, C.Expected;
    if ops != [] {
      C.GivenOn(s, ops);
      S.StepSafe(s, ops[0]);
      HandedFrame(s, ops[0]);
      OneListens(s, ops[0], i, r);
      RunListens(Step(s, ops[0]), ops[1..], i + |C.Handed(s, ops[0])|, r);
    }
  }

  lemma HandedFrame(s: System, op: Op)
    ensures C.Handed(s, op) != [] ==> op.Finish? && op.frame.Some? && C.Handed(s, op)[0] == op.frame.value
  {
  }

  /** The interruption is under way: its cancel is the next message on the wire, and its frames are kept. */
  ghost predicate Confirmed(a: Actor, b: Actor) {
    && b.link.Some? && b.state == CancelPending && b.turn == a.turn && U.WillSpeak(b)
    && b.hist.atConfirm == b.pre && b.hist.since == []
    && U.Log(b) == U.Log(a) + [Ctl(ResponseCancel, a.response)]
  }

  lemma ConfirmIsSent(a: Actor, b: Actor, k: nat)
    requires S.Ok(a, k) && B.Sounding(a.state) && K.Cancellable(a) && K.Alike(a, b)
    ensures Confirmed(a, ConfirmBarge(b))
  {
    hide S.Ok, K.Cancellable, SendControl;
    var d := Call(b, DropPlayback);
    var b1 := d.(barge := b.barge.(probe := Idle, probeFrames := 0, cooldown := 0,
                                   admitted := true, ended := false, silence := 0, overflow := false),
                 finishAfterAck := false,
                 hist := d.hist.(atConfirm := b.pre, since := []));
    K.CancelGoesOut(a, b1, k);
    InResponse(a, k);
    B.SendSame(b1, ResponseCancel, b.response);
  }

  lemma InResponse(a: Actor, k: nat)
    requires S.Ok(a, k) && B.Sounding(a.state)
    ensures a.response.session != 0
  {
    S.CancelTaken(a, k);
    hide S.Ok, SendControl;
  }

  lemma LastFrameConfirms(a: Actor, f: Frame, r: nat, k: nat)
    requires S.Ok(a, k) && B.Sounding(a.state) && K.Cancellable(a) && C.Expected(a, f) && a.config.bargeIn && r <= 12
    requires After(a.barge, Confirming(r), r) && Speaks(a.config, f, Confirming(r), r)
    ensures Confirmed(a, OnFrame(a, f))
  {
    hide S.Ok, K.Cancellable, HandleBarge, Ringed, C.Expected;
    K.SessionIsUp(a, k);
    SoundingFrame(a, f);
    var b := Ringed(a, f);
    Verified(b, f, r);
    hide After, Speaks;
    ConfirmIsSent(a, ProbeVerify(b, f), k);
  }

  lemma Verified(a: Actor, f: Frame, r: nat)
    requires a.config.bargeIn && r <= 12
    requires After(a.barge, Confirming(r), r) && Speaks(a.config, f, Confirming(r), r)
    ensures HandleBarge(a, f) == ConfirmBarge(ProbeVerify(a, f))
    ensures var b := ProbeVerify(a, f); b == a.(barge := b.barge)
  {
    hide ConfirmBarge, BargeVoice, RejectBargeProbe;
  }

  /**
   * Speaking over an answer interrupts it.  While the actor goes on playing, six
   * voiced frames, up to twelve in which the muted answer is still heard, six
   * without it and three voiced ones without it confirm the interruption: unless
   * the connection is down or the turn is over, the cancel of the very response
   * that plays is the next message on the wire, and what was said is kept.
   */
  lemma InterruptionIsConfirmed(config: Config, net: seq<Slot>, audio: seq<bool>, ops: seq<Op>, more: seq<Op>,
                                i: nat, r: nat, c: Clock, f: Frame)
    requires var s := S.Device(config, net, audio, ops);
             && B.Sounding(s.a.state) && s.a.config.bargeIn && !s.a.listenerFailed
             && After(s.a.barge, i, r) && r <= 12 && i + |C.Given(s, more)| == Confirming(r)
             && Listening(s, more, i, r)
    requires var t := Run(S.Device(config, net, audio, ops), more);
             && t.pc == Checked && K.InTime(t.a, c) && C.Expected(t.a, f) && Speaks(t.a.config, f, Confirming(r), r)
             && K.Cancellable(t.a)
    ensures var t := Run(S.Device(config, net, audio, ops), more);
            Confirmed(t.a, Step(t, Finish(c, Some(f))).a)
  {
    hide Step, Run, After, Speaks, Listening, K.Cancellable, C.Expected, C.Given, K.InTime, Confirmed, S.Safe;
    S.DeviceSafe(config, net, audio, ops);
    var s := S.Device(config, net, audio, ops);
    hide S.Device;
    RunListens(s, more, i, r);
    LastConfirms(Run(s, more), r, c, f);
  }

  lemma LastConfirms(t: System, r: nat, c: Clock, f: Frame)
    requires S.Safe(t) && B.Sounding(t.a.state) && !t.a.listenerFailed && t.a.config.bargeIn
    requires r <= 12 && After(t.a.barge, Confirming(r), r)
    requires t.pc == Checked && K.InTime(t.a, c) && C.Expected(t.a, f) && Speaks(t.a.config, f, Confirming(r), r)
    requires K.Cancellable(t.a)
    ensures Confirmed(t.a, Step(t, Finish(c, Some(f))).a)
  {
    hide Step, After, Speaks, K.Cancellable, C.Expected, K.InTime, Confirmed, S.Ok, OnFrame;
    K.SessionIsUp(t.a, S.Taken(t.pc));
    K.InTimeGoesOn(t.a, c);
    K.FrameStep(t, c, f);
    LastFrameConfirms(t.a, f, r, S.Taken(t.pc));
  }

  // ---------------------------------------------------------------------
  // A false alarm
  // ---------------------------------------------------------------------

  /** The frame shows that the probe of the `i` frames before it heard the answer and not the speaker. */
  predicate Disproves(c: Config, f: Frame, i: nat, r: nat) {
    if i < 6 then false
    else if i < 9 + r then i - 6 >= 15
    else f.referenceActive || (i >= 12 + r && !BargeVoice(c, f))
  }

  predicate Cooling(b: Barge, n: nat) { b.probe == Idle && b.probeFrames == 0 && b.cooldown == n && !b.admitted }

  lemma ProbeRejects(a: Actor, f: Frame, i: nat, r: nat)
    requires a.config.bargeIn && After(a.barge, i, r) && Disproves(a.config, f, i, r) && i <= Confirming(r)
    ensures var b := HandleBarge(a, f); Cooling(b.barge, 15) && b.state == a.state && b.config == a.config
  {
    hide ConfirmBarge, BargeVoice;
    if i < 9 + r {
      assert HandleBarge(a, f) == ProbeReference(a, f);
    } else if i < 12 + r {
      assert HandleBarge(a, f) == ProbeClear(a, f);
    } else {
      assert HandleBarge(a, f) == ProbeVerify(a, f);
    }
  }

  lemma FrameRejects(a: Actor, f: Frame, i: nat, r: nat)
    requires B.Sounding(a.state) && a.turn.session != 0 && C.Expected(a, f) && a.config.bargeIn
    requires After(a.barge, i, r) && Disproves(a.config, f, i, r) && i <= Confirming(r)
    ensures var b := OnFrame(a, f); Cooling(b.barge, 15) && b.state == a.state && b.config == a.config
  {
    hide HandleBarge, Ringed, C.Expected, Disproves;
    SoundingFrame(a, f);
    NotAdmitted(a, i, r);
    hide After;
    ProbeRejects(Ringed(a, f), f, i, r);
  }

  lemma FrameCools(a: Actor, f: Frame, n: nat)
    requires B.Sounding(a.state) && a.turn.session != 0 && C.Expected(a, f) && a.config.bargeIn
    requires Cooling(a.barge, n) && n > 0
    ensures var b := OnFrame(a, f); Cooling(b.barge, n - 1) && b.state == a.state && b.config == a.config
  {
    hide Ringed, C.Expected;
    SoundingFrame(a, f);
    hide ConfirmBarge, BargeVoice;
    assert HandleBarge(Ringed(a, f), f) == ProbeIdle(Ringed(a, f), f);
  }

  /** The actor goes on playing, whatever else happens and whatever it hears. */
  predicate Playing(s: System, ops: seq<Op>)
    decreases |ops|
  {
    ops == [] ||
    (var t, handed := Step(s, ops[0]), C.Handed(s, ops[0]);
     && B.Sounding(t.a.state) && !t.a.listenerFailed && !StartsAudio(s, ops[0])
     && (handed != [] ==> K.InTime(s.a, ops[0].clock) && C.Expected(s.a, handed[0]))
     && Playing(t, ops[1..]))
  }

  lemma OneCools(s: System, op: Op, n: nat)
    requires S.Safe(s) && !s.a.listenerFailed && B.Sounding(s.a.state) && s.a.config.bargeIn && Cooling(s.a.barge, n)
    requires B.Sounding(Step(s, op).a.state) && !StartsAudio(s, op) && |C.Handed(s, op)| <= n
    requires C.Handed(s, op) != [] ==> K.InTime(s.a, op.clock) && C.Expected(s.a, op.frame.value)
    ensures var t := Step(s, op); t.a.config == s.a.config && Cooling(t.a.barge, n - |C.Handed(s, op)|)
  {
    hide S.Ok, Cooling, C.Expected;
    if C.Handed(s, op) == [] {
      StepListens(s, op);
    } else {
      K.SessionIsUp(s.a, S.Taken(s.pc));
      K.InTimeGoesOn(s.a, op.clock);
      K.FrameStep(s, op.clock, op.frame.value);
      hide Step;
      FrameCools(s.a, op.frame.value, n);
    }
  }

  lemma {:induction false} RunCools(s: System, ops: seq<Op>, n: nat)
    requires S.Safe(s) && B.Sounding(s.a.state) && s.a.config.bargeIn && Cooling(s.a.barge, n) && !s.a.listenerFailed
    requires Playing(s, ops) && |C.Given(s, ops)| <= n
    ensures Cooling(Run(s, ops).a.barge, n - |C.Given(s, ops)|)
    decreases |ops|
  {
    hide S.Safe, Step, Cooling, StartsAudio, C.Handed, C.Expected;
    if ops != [] {
      C.GivenOn(s, ops);
      S.StepSafe(s, ops[0]);
      HandedFrame(s, ops[0]);
      OneCools(s, ops[0], n);
      RunCools(Step(s, ops[0]), ops[1..], n - |C.Handed(s, ops[0])|);
    }
  }

  /**
   * A probe that turns out to have heard the answer is given up with the frame
   * that shows it; whatever the next fifteen frames hold raises none, and then an
   * interruption is listened for anew.
   */
  lemma FalseAlarmCoolsDown(config: Config, net: seq<Slot>, audio: seq<bool>, ops: seq<Op>, i: nat, r: nat,
                            c: Clock, f: Frame, more: seq<Op>)
    requires var s := S.Device(config, net, audio, ops);
             && s.pc == Checked && B.Sounding(s.a.state) && s.a.config.bargeIn && !s.a.listenerFailed
             && After(s.a.barge, i, r) && i <= Confirming(r)
             && K.InTime(s.a, c) && C.Expected(s.a, f) && Disproves(s.a.config, f, i, r)
    requires var t := Step(S.Device(config, net, audio, ops), Finish(c, Some(f)));
             !t.a.listenerFailed && Playing(t, more) && |C.Given(t, more)| == 15
    ensures var t := Step(S.Device(config, net, audio, ops), Finish(c, Some(f)));
            t.a.barge.probe == Idle && After(Run(t, more).a.barge, 0, r)
  {
    hide Step, Run, Playing, C.Given, After, Disproves, C.Expected, K.InTime, S.Safe;
    S.DeviceSafe(config, net, audio, ops);
    var s := S.Device(config, net, audio, ops);
    hide S.Device;
    S.StepSafe(s, Finish(c, Some(f)));
    Alarm(s, i, r, c, f);
    var t := Step(s, Finish(c, Some(f)));
    RunCools(t, more, 15);
    Cooled(Run(t, more).a.barge, r);
  }

  lemma Alarm(s: System, i: nat, r: nat, c: Clock, f: Frame)
    requires S.Safe(s) && s.pc == Checked && B.Sounding(s.a.state) && s.a.config.bargeIn && !s.a.listenerFailed
    requires After(s.a.barge, i, r) && i <= Confirming(r)
    requires K.InTime(s.a, c) && C.Expected(s.a, f) && Disproves(s.a.config, f, i, r)
    ensures var t := Step(s, Finish(c, Some(f)));
            Cooling(t.a.barge, 15) && B.Sounding(t.a.state) && t.a.config == s.a.config
  {
    hide Step, After, Disproves, C.Expected, K.InTime, S.Ok, OnFrame;
    K.SessionIsUp(s.a, S.Taken(s.pc));
    K.InTimeGoesOn(s.a, c);
    K.FrameStep(s, c, f);
    FrameRejects(s.a, f, i, r);
  }

  lemma Cooled(b: Barge, r: nat)
    requires Cooling(b, 0)
    ensures After(b, 0, r)
  {
  }

  // ---------------------------------------------------------------------
  // The utterance goes out
  // ---------------------------------------------------------------------

  /** The actor as it opens the turn of an interruption. */
  function Resumed(a: Actor): Actor {
    AdvanceTurn(Call(a, DropPlayback).(barge := a.barge.(admitted := false, ended := false), finishAfterAck := false))
  }

  lemma ResumedAllowed(a: Actor, k: nat)
    requires S.Live(a, k) && S.Settled(a) && a.state == CancelPending
    ensures var b := Resumed(a);
            && TurnStartAllowed(b.link.value, b.turn) && b.pre == a.pre && b.net == a.net && b.link == a.link
            && b.queue == a.queue && b.turn == AdvanceTurn(a).turn
  {
    var d := Call(a, DropPlayback).(barge := a.barge.(admitted := false, ended := false), finishAfterAck := false);
    S.AdvanceOk(d, CancelPending, k);
    var b := Resumed(a);
    hide S.Settled, S.HistOk, I.Core, I.Between;
    S.NextTurnAllowed(b.link.value, b.queue, b.turn, b.response, b.state, k);
  }

  lemma EndResumes(a: Actor, e: Inbound)
    requires a.state == CancelPending && U.WillSpeak(a) && a.turn.session != 0 && (e.Cancelled? || I.TurnError(e))
    ensures HandleEvent(a, e) == StartTurn(Resumed(a), a.barge.ended)
  {
    hide StartTurn, FinishTurn, LoseConnection, AbortCurrent;
  }

  lemma SpeechHeld(a: Actor)
    requires B.BargeOk(a) && U.WillSpeak(a)
    ensures a.pre == U.Utterance(a) && (a.barge.ended <==> B.Ended(a.hist.since)) && 0 < |a.pre| <= BARGE_BUFFER_FRAMES
  {
    U.SpeakFacts(a);
    hide B.Rising, B.Probing, B.EndsWith, B.Voiced, B.Retained, B.Ended;
  }

  /**
   * When the cancel is answered and the network takes what it is given, the whole
   * utterance goes out in a new turn: its start, every frame that was kept, and,
   * if the speaker has finished, END on the last one and the commit.
   */
  lemma InterruptionGoesOut(config: Config, net: seq<Slot>, audio: seq<bool>, ops: seq<Op>)
    requires var s := S.Device(config, net, audio, ops);
             && U.CancelEnds(s) && U.WillSpeak(s.a) && C.AllProper(s.a.pre)
             && C.Smooth(s.a, C.OpeningMessages(s.a.pre, s.a.barge.ended))
    ensures var s := S.Device(config, net, audio, ops);
            var b, next := Step(s, Take).a, AdvanceTurn(s.a).turn;
            var before, fs := s.a.link.value.sent + [Ctl(TurnStart, next)], U.Utterance(s.a);
            if B.Ended(s.a.hist.since) then C.Committed(b, next, before, 0, fs) else C.Speaking(b, next, before, 0, fs)
  {
    hide S.Safe, B.BargeOk, Step, U.Utterance, B.Ended, C.AllProper, C.Smooth, C.Committed, C.Speaking;
    S.DeviceSafe(config, net, audio, ops);
    U.DeviceBarge(config, net, audio, ops);
    var s := S.Device(config, net, audio, ops);
    hide S.Device;
    SpeechHeld(s.a);
    EndGoesOut(s);
  }

  lemma EndInDraining(s: System)
    requires U.CancelEnds(s)
    ensures s.pc.Draining?
  {
  }

  lemma EndGoesOut(s: System)
    requires S.Safe(s) && B.BargeOk(s.a) && U.CancelEnds(s) && U.WillSpeak(s.a)
    requires C.AllProper(s.a.pre) && 0 < |s.a.pre| <= BARGE_BUFFER_FRAMES
    requires C.Smooth(s.a, C.OpeningMessages(s.a.pre, s.a.barge.ended))
    ensures var b, next := Step(s, Take).a, AdvanceTurn(s.a).turn;
            var before := s.a.link.value.sent + [Ctl(TurnStart, next)];
            if s.a.barge.ended then C.Committed(b, next, before, 0, s.a.pre)
            else C.Speaking(b, next, before, 0, s.a.pre)
  {
    hide S.Safe, B.BargeOk, Step, S.Live, S.Settled, C.AllProper, C.Smooth, C.Committed, C.Speaking;
    hide HandleEvent, TurnStartAllowed, StartTurn, S.Noted;
    U.TakenEvent(s);
    EndInDraining(s);
    var n := S.Noted(s.a);
    SettledInSession(n);
    EndResumes(n, s.a.queue.items[0]);
    ResumedAllowed(n, s.pc.pops + 1);
    var b := Resumed(n);
    hide Resumed;
    C.SameSmooth(s.a, b, C.OpeningMessages(b.pre, n.barge.ended));
    C.StartGoesOut(b, n.barge.ended);
  }

  lemma SettledInSession(a: Actor)
    requires S.Settled(a)
    ensures a.turn.session != 0
  {
  }
}
