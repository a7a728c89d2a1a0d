/**
 * Speaking over a reply: what the capture ring holds when the interruption is
 * confirmed, and what is uploaded once the server has let the reply go.
 */
module BargeIn {
  import opened WireTypes
  import opened ClientTransport
  import opened VoiceActor
  import S = ActorSafety
  import I = ActorInvariant

  // ---------------------------------------------------------------------
  // Which frames of the interrupting utterance count
  // ---------------------------------------------------------------------

  /** The utterance was over before frame `i`. */
  ghost predicate OverBefore(fs: seq<Frame>, i: nat)
    requires i <= |fs|
  {
    exists j :: 0 <= j < i && fs[j].vadEnded
  }

  /** The speaker was heard in frame `i` or one of the ten before it, or ten have not passed yet. */
  ghost predicate RecentlyNear(fs: seq<Frame>, i: nat)
    requires i < |fs|
  {
    i < BARGE_TAIL_FREEZE_FRAMES ||
    exists j :: i - BARGE_TAIL_FREEZE_FRAMES <= j <= i && fs[j].nearVoice
  }

  /** Of the frames since the confirmation, those that belong to the utterance. */
  ghost function Retained(fs: seq<Frame>): (r: seq<Frame>) {
    if fs == [] then []
    else
      var n := |fs| - 1;
      Retained(fs[..n]) + (if !OverBefore(fs, n) && RecentlyNear(fs, n) then [fs[n]] else [])
  }

  /** How long the speaker has been silent, counted to ten. */
  function Trailing(fs: seq<Frame>): (n: nat)
    ensures n <= BARGE_TAIL_FREEZE_FRAMES
  {
    if fs == [] || fs[|fs| - 1].nearVoice then 0
    else
      var n := Trailing(fs[..|fs| - 1]);
      if n < BARGE_TAIL_FREEZE_FRAMES then n + 1 else n
  }

  ghost predicate LastSilent(fs: seq<Frame>, n: nat) {
    |fs| >= n && forall j :: |fs| - n <= j < |fs| ==> !fs[j].nearVoice
  }

  lemma {:induction false} TrailingCounts(fs: seq<Frame>, n: nat)
    requires n <= BARGE_TAIL_FREEZE_FRAMES
    ensures Trailing(fs) >= n <==> LastSilent(fs, n)
  {
    if fs != [] && n > 0 {
      var front := fs[..|fs| - 1];
      TrailingCounts(front, n - 1);
      TrailingCounts(front, n);
      if fs[|fs| - 1].nearVoice {
        assert !LastSilent(fs, n);
      } else {
        assert LastSilent(front, n - 1) <==> LastSilent(fs, n);
      }
    }
  }

  ghost predicate Ended(fs: seq<Frame>) { exists j :: 0 <= j < |fs| && fs[j].vadEnded }

  /** The frame is frozen out by the running counters exactly when it is not retained. */
  lemma FrozenOut(fs: seq<Frame>, f: Frame)
    ensures var over := Ended(fs);
            var silent := if !over && f.nearVoice then 0 else Trailing(fs);
            (over || silent >= BARGE_TAIL_FREEZE_FRAMES) <==>
              !(!OverBefore(fs + [f], |fs|) && RecentlyNear(fs + [f], |fs|))
  {
    var gs := fs + [f];
    TrailingCounts(fs, BARGE_TAIL_FREEZE_FRAMES);
    assert OverBefore(gs, |fs|) <==> Ended(fs) by {
      assert forall j :: 0 <= j < |fs| ==> gs[j] == fs[j];
    }
    if |fs| >= BARGE_TAIL_FREEZE_FRAMES && !f.nearVoice {
      assert RecentlyNear(gs, |fs|) <==>
        exists j :: |fs| - BARGE_TAIL_FREEZE_FRAMES <= j < |fs| && fs[j].nearVoice by {
        assert forall j :: 0 <= j < |fs| ==> gs[j] == fs[j];
        assert gs[|fs|] == f;
      }
    }
    if f.nearVoice {
      assert gs[|fs|].nearVoice;
    }
  }

  lemma RetainedGrows(fs: seq<Frame>, f: Frame)
    ensures Retained(fs + [f]) ==
            Retained(fs) + (if !OverBefore(fs + [f], |fs|) && RecentlyNear(fs + [f], |fs|) then [f] else [])
  {
    hide OverBefore, RecentlyNear;
    assert (fs + [f])[..|fs|] == fs;
    assert (fs + [f])[|fs|] == f;
  }

  // ---------------------------------------------------------------------
  // The invariant
  // ---------------------------------------------------------------------

  ghost predicate EndsWith(t: seq<Frame>, s: seq<Frame>) {
    |s| <= |t| && t[|t| - |s|..] == s
  }

  ghost predicate Voiced(c: Config, fs: seq<Frame>) {
    forall i :: 0 <= i < |fs| ==> BargeVoice(c, fs[i])
  }

  predicate Sounding(s: State) { s == PlayingResponse || s == DrainingPlayback }

  /** A run of voiced frames that may become a candidate. */
  ghost predicate Rising(c: Config, pre: seq<Frame>, n: nat, heard: seq<Frame>) {
    && n < BARGE_CANDIDATE_FRAMES && n <= |pre|
    && EndsWith(heard, pre[|pre| - n..]) && Voiced(c, pre[|pre| - n..])
  }

  /** The six candidate frames and every frame since. */
  ghost predicate Held(c: Config, pre: seq<Frame>, heard: seq<Frame>) {
    && |pre| >= BARGE_CANDIDATE_FRAMES
    && EndsWith(heard, pre) && Voiced(c, pre[..BARGE_CANDIDATE_FRAMES])
  }

  const LONGEST_PROBE: nat := BARGE_CANDIDATE_FRAMES + BARGE_REFERENCE_WAIT_FRAMES
    + BARGE_ECHO_CLEAR_FRAMES + BARGE_CONFIRM_FRAMES

  ghost predicate Probing(c: Config, pre: seq<Frame>, b: Barge, heard: seq<Frame>) {
    && Held(c, pre, heard)
    && match b.probe
       case Idle => false
       case WaitReferenceLow =>
         b.probeFrames <= BARGE_REFERENCE_WAIT_FRAMES && |pre| == BARGE_CANDIDATE_FRAMES + b.probeFrames
       case Clear =>
         b.probeFrames < BARGE_ECHO_CLEAR_FRAMES
         && |pre| <= BARGE_CANDIDATE_FRAMES + BARGE_REFERENCE_WAIT_FRAMES + b.probeFrames
       case Verify =>
         b.probeFrames < BARGE_CONFIRM_FRAMES
         && |pre| <= LONGEST_PROBE - BARGE_CONFIRM_FRAMES + b.probeFrames
  }

  /** The cancel is on its way; `h` holds what was confirmed and everything heard since. */
  ghost predicate Waiting(c: Config, pre: seq<Frame>, b: Barge, h: History) {
    && BARGE_CANDIDATE_FRAMES <= |h.atConfirm| <= LONGEST_PROBE
    && Voiced(c, h.atConfirm[..BARGE_CANDIDATE_FRAMES])
    && EndsWith(h.heard, h.atConfirm + h.since)
    && b.silence == Trailing(h.since)
    && (b.ended <==> Ended(h.since))
    && (if b.overflow then |h.atConfirm| + |Retained(h.since)| > BARGE_BUFFER_FRAMES
        else pre == h.atConfirm + Retained(h.since))
  }

  ghost predicate BargeOk(a: Actor) {
    && |a.pre| <= BARGE_BUFFER_FRAMES
    && (a.barge.probe == Idle && a.barge.probeFrames > 0 ==>
        && Sounding(a.state) && a.barge.cooldown == 0
        && Rising(a.config, a.pre, a.barge.probeFrames, a.hist.heard))
    && (a.barge.probe != Idle ==>
        Sounding(a.state) && Probing(a.config, a.pre, a.barge, a.hist.heard))
    && (a.barge.admitted ==> a.state == CancelPending && Waiting(a.config, a.pre, a.barge, a.hist))
  }

  predicate Quiet(b: Barge) { b.probe == Idle && b.probeFrames == 0 && !b.admitted }

  lemma QuietOk(a: Actor)
    requires |a.pre| <= BARGE_BUFFER_FRAMES && Quiet(a.barge)
    ensures BargeOk(a)
  {
  }

  lemma OnlyProbesWhileSounding(a: Actor)
    requires BargeOk(a) && !Sounding(a.state) && a.state != CancelPending
    ensures Quiet(a.barge)
  {
  }

  // ---------------------------------------------------------------------
  // Operations that leave the barge-in state alone or drop it
  // ---------------------------------------------------------------------

  /** Only what a transport call may change. */
  ghost predicate SameVoice(a: Actor, b: Actor) {
    && a.pre == b.pre && a.barge == b.barge && a.state == b.state && a.config == b.config
    && a.hist.heard == b.hist.heard && a.hist.atConfirm == b.hist.atConfirm && a.hist.since == b.hist.since
  }

  lemma {:induction false} ReceiveAllSame(a: Actor, ns: seq<NetEvent>)
    ensures var b := ReceiveAll(a, ns); b == a.(link := b.link, queue := b.queue)
    decreases |ns|
  {
    hide OnNet;
    if ns != [] {
      ReceiveAllSame(Receive(a, ns[0]), ns[1..]);
    }
  }

  lemma SendSame(a: Actor, kind: ControlKind, ids: WireIds)
    ensures var b := SendControl(a, kind, ids).0; b == a.(link := b.link, queue := b.queue, net := b.net)
  {
    hide Send, ReceiveAll;
    ReceiveAllSame(a.(net := if a.net == [] then [] else a.net[1..]), NextSlot(a).before);
  }

  lemma SendAudioSame(a: Actor, f: Frame, end: bool)
    ensures var b := SendAudio(a, f, end).0;
            b == a.(link := b.link, queue := b.queue, net := b.net, upSeq := b.upSeq)
  {
    hide SendPcm, ReceiveAll;
    ReceiveAllSame(a.(net := if a.net == [] then [] else a.net[1..]), NextSlot(a).before);
  }

  /** The ring and the barge-in state are as before, or the latter was dropped. */
  ghost predicate Calmed(a: Actor, b: Actor) {
    (b.pre == a.pre || b.pre == []) && (Quiet(b.barge) || b.barge == a.barge) && b.config == a.config
  }

  lemma AbortCalms(a: Actor)
    ensures Calmed(a, AbortCurrent(a)) && Quiet(AbortCurrent(a).barge)
  {
    hide SendControl;
    var hasResponse := a.response.session != 0;
    SendSame(Call(a, DropPlayback).(barge := NO_BARGE, finishAfterAck := true),
             if hasResponse then ResponseCancel else TurnCancel,
             if hasResponse then a.response else a.turn);
  }

  lemma SendOrRecoverCalms(a: Actor, f: Frame, end: bool)
    ensures Calmed(a, SendAudioOrRecover(a, f, end).0)
  {
    hide SendAudio, AbortCurrent;
    SendAudioSame(a, f, end);
    AbortCalms(SendAudio(a, f, end).0);
  }

  lemma {:induction false} UploadCalms(a: Actor, frames: seq<Frame>, i: nat, ended: bool)
    requires i <= |frames|
    ensures Calmed(a, Upload(a, frames, i, ended).0)
    decreases |frames| - i
  {
    hide SendAudioOrRecover;
    if i < |frames| {
      var end := ended && i + 1 == |frames|;
      SendOrRecoverCalms(a, frames[i], end);
      UploadCalms(SendAudioOrRecover(a, frames[i], end).0, frames, i + 1, ended);
    }
  }

  lemma CommitCalms(a: Actor)
    ensures Calmed(a, SendCommit(a))
  {
    hide SendControl;
    SendSame(a, TurnCommit, a.turn);
  }

  lemma UploadBufferedCalms(a: Actor, ended: bool)
    ensures Calmed(a, UploadBuffered(a, ended))
  {
    hide Upload, SendCommit;
    UploadCalms(a, a.pre, 0, ended);
    CommitCalms(Upload(a, a.pre, 0, ended).0.(pre := []));
  }

  lemma LoseCalms(a: Actor)
    ensures Calmed(a, LoseConnection(a))
  {
  }

  lemma IssueCalms(a: Actor)
    ensures var b := IssueStart(a).0; Calmed(a, b) && b.pre == a.pre && b.barge == a.barge
  {
    hide SendControl;
    SendSame(a, TurnStart, a.turn);
  }

  lemma StartTurnCalms(a: Actor, ended: bool)
    ensures Calmed(a, StartTurn(a, ended))
  {
    IssueCalms(a);
    LoseCalms(a);
    LoseCalms(IssueStart(a).0);
    hide IssueStart, UploadBuffered, LoseConnection;
    UploadBufferedCalms(IssueStart(a).0.(upSeq := 0, state := CapturingSpeech), ended);
  }

  lemma CompleteCancelCalms(a: Actor)
    requires BargeOk(a) && !Sounding(a.state)
    ensures BargeOk(CompleteCancel(a))
  {
    hide StartTurn;
    var d := Call(a, DropPlayback);
    var a1 := AdvanceTurn(d.(barge := a.barge.(admitted := false, ended := false), finishAfterAck := false));
    StartTurnCalms(a1, a.barge.ended);
  }

  // ---------------------------------------------------------------------
  // Frames heard while a reply sounds
  // ---------------------------------------------------------------------

  lemma EndsGrow(t: seq<Frame>, s: seq<Frame>, f: Frame)
    requires EndsWith(t, s)
    ensures EndsWith(t + [f], s + [f])
  {
    var n := |t| - |s|;
    assert (t + [f])[n..] == t[n..] + [f];
  }

  /** The frame was saved; the probe has not looked at it yet. */
  ghost predicate Saved(a: Actor, f: Frame) {
    var b, pre, heard := a.barge, a.pre, a.hist.heard;
    && Sounding(a.state) && !b.admitted && |pre| <= BARGE_BUFFER_FRAMES
    && (b.probe == Idle ==>
        && (b.cooldown != 0 ==> b.probeFrames == 0)
        && b.probeFrames < BARGE_CANDIDATE_FRAMES && b.probeFrames < |pre|
        && EndsWith(heard, pre[|pre| - b.probeFrames - 1..])
        && Voiced(a.config, pre[|pre| - b.probeFrames - 1..|pre| - 1])
        && pre[|pre| - 1] == f)
    && (b.probe != Idle ==>
        && Held(a.config, pre, heard)
        && match b.probe
           case Idle => false
           case WaitReferenceLow =>
             b.probeFrames <= BARGE_REFERENCE_WAIT_FRAMES && |pre| == BARGE_CANDIDATE_FRAMES + b.probeFrames + 1
           case Clear =>
             b.probeFrames < BARGE_ECHO_CLEAR_FRAMES
             && |pre| <= BARGE_CANDIDATE_FRAMES + BARGE_REFERENCE_WAIT_FRAMES + b.probeFrames + 1
           case Verify =>
             b.probeFrames < BARGE_CONFIRM_FRAMES
             && |pre| <= LONGEST_PROBE - BARGE_CONFIRM_FRAMES + b.probeFrames + 1)
  }

  /** What buffering a frame changes. */
  lemma SaveEffect(a: Actor, f: Frame)
    ensures var b := SavePreRoll(a, f);
            && b == a.(pre := b.pre, barge := a.barge.(overflow := b.barge.overflow))
            && (!(a.state == CancelPending && a.barge.admitted) ==>
                b.barge == a.barge
                && b.pre == if |a.pre| < (if a.barge.probe != Idle then BARGE_BUFFER_FRAMES else PRE_ROLL_FRAMES)
                            then a.pre + [f] else (a.pre + [f])[1..])
            && (a.state == CancelPending && a.barge.admitted && |a.pre| <= BARGE_BUFFER_FRAMES ==>
                if |a.pre| == BARGE_BUFFER_FRAMES then b.pre == a.pre && b.barge.overflow
                else b.pre == a.pre + [f] && b.barge == a.barge)
  {
  }

  lemma BufferSounding(a: Actor, f: Frame)
    requires Sounding(a.state) && !a.barge.admitted
    ensures var b := Buffer(a, f);
            && b.barge == a.barge && b.state == a.state && b.config == a.config
            && b.hist.heard == a.hist.heard + [f]
            && b.pre == if |a.pre| < (if a.barge.probe != Idle then BARGE_BUFFER_FRAMES else PRE_ROLL_FRAMES)
                        then a.pre + [f] else (a.pre + [f])[1..]
  {
    hide SavePreRoll;
    SaveEffect(a.(hist := a.hist.(heard := a.hist.heard + [f])), f);
  }

  lemma Rolls(c: Config, pre: seq<Frame>, pre': seq<Frame>, n: nat, heard: seq<Frame>, f: Frame)
    requires Rising(c, pre, n, heard)
    requires |pre| <= BARGE_BUFFER_FRAMES
    requires pre' == if |pre| < PRE_ROLL_FRAMES then pre + [f] else (pre + [f])[1..]
    ensures n < |pre'| <= BARGE_BUFFER_FRAMES && pre'[|pre'| - 1] == f
    ensures EndsWith(heard + [f], pre'[|pre'| - n - 1..])
    ensures Voiced(c, pre'[|pre'| - n - 1..|pre'| - 1])
  {
    EndsGrow(heard, pre[|pre| - n..], f);
    assert pre'[|pre'| - n - 1..] == pre[|pre| - n..] + [f];
    assert pre'[|pre'| - n - 1..|pre'| - 1] == pre[|pre| - n..];
  }

  lemma IdleRising(a: Actor)
    requires BargeOk(a) && Sounding(a.state) && a.barge.probe == Idle
    ensures Rising(a.config, a.pre, a.barge.probeFrames, a.hist.heard) && !a.barge.admitted
    ensures |a.pre| <= BARGE_BUFFER_FRAMES && (a.barge.cooldown != 0 ==> a.barge.probeFrames == 0)
    ensures a.barge.probeFrames < BARGE_CANDIDATE_FRAMES
  {
    hide Probing, Waiting;
    if a.barge.probeFrames == 0 {
      assert a.pre[|a.pre|..] == [];
    }
  }

  lemma SavedIdle(a: Actor, n: nat, f: Frame)
    requires Sounding(a.state) && !a.barge.admitted && a.barge.probe == Idle && a.barge.probeFrames == n
    requires |a.pre| <= BARGE_BUFFER_FRAMES && n < BARGE_CANDIDATE_FRAMES && (a.barge.cooldown != 0 ==> n == 0)
    requires n < |a.pre| && a.pre[|a.pre| - 1] == f
    requires EndsWith(a.hist.heard, a.pre[|a.pre| - n - 1..])
    requires Voiced(a.config, a.pre[|a.pre| - n - 1..|a.pre| - 1])
    ensures Saved(a, f)
  {
  }

  lemma SaveIdle(a: Actor, f: Frame)
    requires BargeOk(a) && Sounding(a.state) && a.barge.probe == Idle
    ensures Saved(Buffer(a, f), f)
  {
    hide BargeOk, Buffer, EndsWith, Voiced, Sounding, Rising, Saved;
    IdleRising(a);
    BufferSounding(a, f);
    var b, n := Buffer(a, f), a.barge.probeFrames;
    Rolls(a.config, a.pre, b.pre, n, a.hist.heard, f);
    SavedIdle(b, n, f);
  }

  lemma SaveProbing(a: Actor, f: Frame)
    requires BargeOk(a) && Sounding(a.state) && a.barge.probe != Idle
    ensures Saved(Buffer(a, f), f)
  {
    BufferSounding(a, f);
    hide Buffer;
    var b := Buffer(a, f);
    EndsGrow(a.hist.heard, a.pre, f);
    assert b.pre[..BARGE_CANDIDATE_FRAMES] == a.pre[..BARGE_CANDIDATE_FRAMES];
    hide EndsWith, Voiced;
  }

  lemma StillProbing(a: Actor, b: Barge)
    requires Sounding(a.state) && !b.admitted && |a.pre| <= BARGE_BUFFER_FRAMES
    requires b.probe != Idle && Probing(a.config, a.pre, b, a.hist.heard)
    ensures BargeOk(a.(barge := b))
  {
    hide Probing;
  }

  lemma BeginProbeOk(a: Actor, f: Frame)
    requires Saved(a, f) && a.barge.probe == Idle && BargeVoice(a.config, f)
    requires a.barge.probeFrames + 1 == BARGE_CANDIDATE_FRAMES
    ensures BargeOk(BeginProbe(a))
  {
    var b := BeginProbe(a);
    var n := |a.pre|;
    assert b.pre == a.pre[n - 6..];
    assert b.pre[..5] == a.pre[n - 6..n - 1] && b.pre[5] == f;
    assert b.pre[..BARGE_CANDIDATE_FRAMES] == b.pre;
  }

  lemma ProbeIdleOk(a: Actor, f: Frame)
    requires Saved(a, f) && a.barge.probe == Idle
    ensures BargeOk(ProbeIdle(a, f))
  {
    hide BeginProbe;
    if a.barge.cooldown == 0 && BargeVoice(a.config, f) {
      var n := |a.pre|;
      var c := a.barge.probeFrames;
      if c + 1 == BARGE_CANDIDATE_FRAMES {
        BeginProbeOk(a, f);
      } else {
        assert a.pre[n - c - 1..] == a.pre[n - c - 1..n - 1] + [f];
        assert Voiced(a.config, a.pre[n - c - 1..]);
      }
    }
  }

  lemma ProbeReferenceOk(a: Actor, f: Frame)
    requires Saved(a, f) && a.barge.probe == WaitReferenceLow
    ensures BargeOk(ProbeReference(a, f))
  {
    hide EndsWith, Voiced, BargeOk;
    if a.barge.probeFrames + 1 > BARGE_REFERENCE_WAIT_FRAMES {
      QuietOk(RejectBargeProbe(a));
    } else {
      StillProbing(a, ProbeReference(a, f).barge);
    }
  }

  lemma ProbeClearOk(a: Actor, f: Frame)
    requires Saved(a, f) && a.barge.probe == Clear
    ensures BargeOk(ProbeClear(a, f))
  {
    hide EndsWith, Voiced, BargeOk;
    if f.referenceActive {
      QuietOk(RejectBargeProbe(a));
    } else {
      StillProbing(a, ProbeClear(a, f).barge);
    }
  }

  lemma ProbeVerifyOk(a: Actor, f: Frame)
    requires Saved(a, f) && a.barge.probe == Verify && !Confirms(a, f) && a.config.bargeIn
    ensures BargeOk(ProbeVerify(a, f))
  {
    hide EndsWith, Voiced, BargeOk;
    if f.referenceActive || !BargeVoice(a.config, f) {
      QuietOk(RejectBargeProbe(a));
    } else {
      StillProbing(a, ProbeVerify(a, f).barge);
    }
  }

  /** At the moment of confirmation the ring is the candidate and all that followed, at most 27 frames. */
  lemma ConfirmOk(a: Actor)
    requires Sounding(a.state) && a.barge.probe == Verify
    requires Held(a.config, a.pre, a.hist.heard) && |a.pre| <= LONGEST_PROBE
    ensures BargeOk(ConfirmBarge(a))
  {
    hide SendControl, EndsWith, Voiced;
    var d := Call(a, DropPlayback);
    var a1 := d.(barge := a.barge.(probe := Idle, probeFrames := 0, cooldown := 0,
                                   admitted := true, ended := false, silence := 0, overflow := false),
                 finishAfterAck := false,
                 hist := d.hist.(atConfirm := a.pre, since := []));
    SendSame(a1, ResponseCancel, a.response);
    assert a.pre + [] == a.pre;
  }

  lemma HandleBargeOk(a: Actor, f: Frame)
    requires Saved(a, f)
    ensures BargeOk(HandleBarge(a, f))
  {
    if !a.config.bargeIn {
      QuietOk(ResetBargeProbe(a));
    } else {
      hide ConfirmBarge, ProbeIdle, ProbeReference, ProbeClear, BargeOk, EndsWith, Voiced;
      match a.barge.probe
      case Idle => ProbeIdleOk(a, f);
      case WaitReferenceLow => ProbeReferenceOk(a, f);
      case Clear => ProbeClearOk(a, f);
      case Verify =>
        if Confirms(a, f) { ConfirmOk(ProbeVerify(a, f)); } else { ProbeVerifyOk(a, f); }
    }
  }

  // ---------------------------------------------------------------------
  // Frames heard while the cancel is on its way
  // ---------------------------------------------------------------------

  lemma BufferWaiting(a: Actor, f: Frame)
    requires a.state == CancelPending && a.barge.admitted && |a.pre| <= BARGE_BUFFER_FRAMES
    ensures var b := Buffer(a, f);
            && b.state == CancelPending && b.config == a.config
            && b.hist == a.hist.(heard := a.hist.heard + [f], since := a.hist.since + [f])
            && b.barge == a.barge.(overflow := b.barge.overflow)
            && (if Frozen(a) then b.pre == a.pre && b.barge == a.barge
                else if |a.pre| == BARGE_BUFFER_FRAMES then b.pre == a.pre && b.barge.overflow
                else b.pre == a.pre + [f] && b.barge == a.barge)
  {
    hide SavePreRoll;
    SaveEffect(a.(hist := a.hist.(heard := a.hist.heard + [f], since := a.hist.since + [f])), f);
  }

  lemma EndedGrows(fs: seq<Frame>, f: Frame)
    ensures Ended(fs + [f]) <==> Ended(fs) || f.vadEnded
  {
    assert forall j :: 0 <= j < |fs| ==> (fs + [f])[j] == fs[j];
    assert (fs + [f])[|fs|] == f;
  }

  /** The ring and the counters agree with what is retained, one frame later. */
  lemma WaitingGrows(c: Config, pre: seq<Frame>, b: Barge, h: History, pre': seq<Frame>, b': Barge, f: Frame)
    requires Waiting(c, pre, b, h) && |pre| <= BARGE_BUFFER_FRAMES
    requires var silent := if !b.ended && f.nearVoice then 0 else b.silence;
             && b'.ended == (b.ended || f.vadEnded)
             && b'.silence == (if f.nearVoice then 0
                               else if silent < BARGE_TAIL_FREEZE_FRAMES then silent + 1 else silent)
             && (if b.ended || silent >= BARGE_TAIL_FREEZE_FRAMES then pre' == pre && b'.overflow == b.overflow
                 else if |pre| == BARGE_BUFFER_FRAMES then pre' == pre && b'.overflow
                 else pre' == pre + [f] && b'.overflow == b.overflow)
    ensures Waiting(c, pre', b', h.(heard := h.heard + [f], since := h.since + [f]))
    ensures |pre'| <= BARGE_BUFFER_FRAMES
  {
    var fs, at := h.since, h.atConfirm;
    FrozenOut(fs, f);
    RetainedGrows(fs, f);
    EndedGrows(fs, f);
    TrailingGrows(fs, f);
    EndsGrow(h.heard, at + fs, f);
    hide OverBefore, RecentlyNear, EndsWith, Voiced, Ended, Trailing, Retained;
    assert at + fs + [f] == at + (fs + [f]);
    assert at + Retained(fs) + [f] == at + (Retained(fs) + [f]);
  }

  /** What a frame heard behind a confirmed interruption changes. */
  lemma TrackEffect(a: Actor, f: Frame)
    requires a.state == CancelPending && a.barge.admitted && |a.pre| <= BARGE_BUFFER_FRAMES
    ensures var b, r := a.barge, TrackBargeUtterance(Buffer(Thaw(a, f), f), f);
            var silent := if !b.ended && f.nearVoice then 0 else b.silence;
            && r.state == CancelPending && r.config == a.config && r.barge.admitted
            && r.barge.probe == b.probe && r.barge.probeFrames == b.probeFrames
            && r.hist == a.hist.(heard := a.hist.heard + [f], since := a.hist.since + [f])
            && r.barge.ended == (b.ended || f.vadEnded)
            && r.barge.silence == (if f.nearVoice then 0
                                   else if silent < BARGE_TAIL_FREEZE_FRAMES then silent + 1 else silent)
            && (if b.ended || silent >= BARGE_TAIL_FREEZE_FRAMES then r.pre == a.pre && r.barge.overflow == b.overflow
                else if |a.pre| == BARGE_BUFFER_FRAMES then r.pre == a.pre && r.barge.overflow
                else r.pre == a.pre + [f] && r.barge.overflow == b.overflow)
  {
    var silent := if !a.barge.ended && f.nearVoice then 0 else a.barge.silence;
    ThawEffect(a, f);
    hide Thaw, Buffer;
    var t := a.(barge := a.barge.(silence := silent));
    BufferWaiting(t, f);
    var b := Buffer(t, f);
    assert TrackBargeUtterance(b, f).pre == b.pre && TrackBargeUtterance(b, f).hist == b.hist;
  }

  lemma ThawEffect(a: Actor, f: Frame)
    requires a.state == CancelPending
    ensures Thaw(a, f) == a.(barge := a.barge.(silence := if !a.barge.ended && f.nearVoice then 0 else a.barge.silence))
  {
  }

  /** Buffering keeps exactly the retained frames; tracking keeps the counters. */
  lemma WaitingFrame(a: Actor, f: Frame)
    requires BargeOk(a) && a.state == CancelPending && a.barge.admitted
    ensures BargeOk(TrackBargeUtterance(Buffer(Thaw(a, f), f), f))
  {
    TrackEffect(a, f);
    hide TrackBargeUtterance, Buffer, Thaw, Waiting, Rising, Probing;
    var r := TrackBargeUtterance(Buffer(Thaw(a, f), f), f);
    WaitingGrows(a.config, a.pre, a.barge, a.hist, r.pre, r.barge, f);
  }

  lemma TrailingGrows(fs: seq<Frame>, f: Frame)
    ensures Trailing(fs + [f]) == if f.nearVoice then 0
                                  else if Trailing(fs) < BARGE_TAIL_FREEZE_FRAMES then Trailing(fs) + 1
                                  else Trailing(fs)
  {
    assert (fs + [f])[..|fs|] == fs;
  }

  // ---------------------------------------------------------------------
  // All operations
  // ---------------------------------------------------------------------

  lemma CalmedOk(a: Actor, b: Actor)
    requires Calmed(a, b) && Quiet(a.barge) && |a.pre| <= BARGE_BUFFER_FRAMES
    ensures BargeOk(b)
  {
  }

  lemma Bounded(a: Actor)
    requires BargeOk(a)
    ensures |a.pre| <= BARGE_BUFFER_FRAMES
    ensures a.state != CancelPending ==> !a.barge.admitted
  {
  }

  lemma LostOk(a: Actor)
    ensures BargeOk(LoseConnection(a))
  {
  }

  lemma FinishedOk(a: Actor)
    requires |a.pre| <= BARGE_BUFFER_FRAMES
    ensures BargeOk(FinishTurn(a))
  {
  }

  lemma AbortedOk(a: Actor)
    requires |a.pre| <= BARGE_BUFFER_FRAMES
    ensures BargeOk(AbortCurrent(a))
  {
    hide AbortCurrent;
    AbortCalms(a);
  }

  /** Outside a sounding reply and a confirmed interruption nothing is being probed. */
  lemma QuietElsewhere(a: Actor)
    requires BargeOk(a) && !Sounding(a.state) && !a.barge.admitted
    ensures Quiet(a.barge) && |a.pre| <= BARGE_BUFFER_FRAMES
  {
  }

  lemma BufferQuiet(a: Actor, f: Frame)
    requires Quiet(a.barge) && |a.pre| <= BARGE_BUFFER_FRAMES
    ensures var b := Buffer(a, f);
            && Quiet(b.barge) && |b.pre| <= BARGE_BUFFER_FRAMES && b.state == a.state
  {
    hide SavePreRoll;
    var a1 := a.(hist := a.hist.(heard := a.hist.heard + [f]));
    var a2 := if a.state == CancelPending then a1.(hist := a1.hist.(since := a1.hist.since + [f])) else a1;
    SaveEffect(a2, f);
  }

  lemma OnCapturingCalms(a: Actor, f: Frame)
    requires Quiet(a.barge) && |a.pre| <= BARGE_BUFFER_FRAMES
    ensures BargeOk(OnCapturing(a, f))
  {
    hide SendAudioOrRecover, SendCommit, BargeOk;
    var a1 := a.(barge := a.barge.(ended := false));
    SendOrRecoverCalms(a, f, true);
    SendOrRecoverCalms(a1, f, true);
    SendOrRecoverCalms(a, f, false);
    CommitCalms(SendAudioOrRecover(a, f, true).0);
    CommitCalms(SendAudioOrRecover(a1, f, true).0);
    QuietOk(OnCapturing(a, f));
  }

  lemma StartOk(a: Actor)
    requires Quiet(a.barge) && |a.pre| <= BARGE_BUFFER_FRAMES
    ensures BargeOk(StartTurn(a, false))
  {
    hide StartTurn;
    StartTurnCalms(a, false);
    CalmedOk(a, StartTurn(a, false));
  }

  lemma RestingQuiet(a: Actor, f: Frame)
    requires Quiet(a.barge) && |a.pre| <= BARGE_BUFFER_FRAMES
    requires a.turn.session == 0 || a.state == WaitingForWake || a.state == WaitingForResponse
    ensures BargeOk(Dispatch(a, f))
  {
    hide BargeOk, StartTurn, OnCapturing, HandleBarge;
    QuietOk(Dispatch(a, f));
  }

  lemma TrackQuiet(a: Actor, f: Frame)
    requires Quiet(a.barge) && |a.pre| <= BARGE_BUFFER_FRAMES
    ensures BargeOk(TrackBargeUtterance(a, f)) && BargeOk(a) && BargeOk(a.(followUpNear := 0))
    ensures BargeOk(a.(followUpNear := a.followUpNear + 1))
  {
  }

  lemma DispatchQuiet(a: Actor, f: Frame)
    requires Quiet(a.barge) && |a.pre| <= BARGE_BUFFER_FRAMES && !Sounding(a.state)
    ensures BargeOk(Dispatch(a, f))
  {
    hide BargeOk, Quiet, StartTurn, OnCapturing, HandleBarge, TrackBargeUtterance;
    if a.turn.session == 0 || a.state == WaitingForWake || a.state == WaitingForResponse {
      RestingQuiet(a, f);
      return;
    }
    TrackQuiet(a, f);
    if a.state == CapturingSpeech {
      OnCapturingCalms(a, f);
    } else if a.state == WaitingForSpeech {
      StartOk(a);
    } else if a.state == WaitingForFollowUp {
      StartOk(a.(followUpNear := a.followUpNear + 1));
    }
  }

  predicate Calm(a: Actor) { Quiet(a.barge) && |a.pre| <= BARGE_BUFFER_FRAMES }

  lemma Calms(a: Actor)
    ensures Calm(LoseConnection(a))
    ensures |a.pre| <= BARGE_BUFFER_FRAMES ==> Calm(EndTurn(a))
  {
  }

  lemma ListenerCalm(a: Actor)
    requires Quiet(a.barge)
    ensures Calm(ResetListener(a.(state := WaitingForWake, pre := [])))
    ensures |a.pre| <= BARGE_BUFFER_FRAMES ==> Calm(ResetListener(a.(state := WaitingForWake)))
  {
  }

  lemma AbortCalm(a: Actor)
    requires |a.pre| <= BARGE_BUFFER_FRAMES
    ensures Calm(AbortCurrent(a))
  {
    AbortCalms(a);
    hide AbortCurrent;
  }

  lemma GiveUpCalm(a: Actor)
    requires |a.pre| <= BARGE_BUFFER_FRAMES
    requires a.state == CancelPending ==> a.barge.probe == Idle && a.barge.probeFrames == 0
    requires !Sounding(a.state) && a.state != CancelPending ==> Quiet(a.barge)
    ensures Calm(GiveUp(a))
  {
    AbortCalm(a);
    var d := Call(a, DropPlayback);
    if Quiet(a.barge) { ListenerCalm(d); }
    hide AbortCurrent, ResetListener;
    if a.state == CancelPending {
      assert Calm(ResetBargeTurn(a).(finishAfterAck := true));
    } else if Sounding(a.state) || a.state == CapturingSpeech || a.state == WaitingForResponse {
      assert GiveUp(a) == AbortCurrent(a);
    } else {
      assert GiveUp(a) == ResetListener(d.(state := WaitingForWake));
    }
  }

  lemma OnBreakOk(a: Actor)
    requires BargeOk(a)
    ensures BargeOk(OnBreak(a))
  {
    hide GiveUp;
    GiveUpCalm(Restart(a.(pre := [])));
    hide BargeOk;
    QuietOk(OnBreak(a));
  }

  lemma OnFrameOk(a: Actor, f: Frame)
    requires BargeOk(a) && (Sounding(a.state) || a.state == CancelPending ==> a.turn.session != 0)
    ensures BargeOk(OnFrame(a, f))
  {
    hide Dispatch, Buffer, OnBreak, BargeOk, Saved;
    var a1 := a.(nextCapture := f.sequence + 1);
    NextCaptureOk(a, a1);
    OnBreakOk(a1);
    if !(f.discontinuity || f.sequence != a.nextCapture) {
      FrameOk(a1, f);
    }
  }

  lemma NextCaptureOk(a: Actor, b: Actor)
    requires BargeOk(a) && b == a.(nextCapture := b.nextCapture)
    ensures BargeOk(b)
  {
  }

  lemma FrameOk(a: Actor, f: Frame)
    requires BargeOk(a) && (Sounding(a.state) || a.state == CancelPending ==> a.turn.session != 0)
    ensures BargeOk(Dispatch(Buffer(Thaw(a, f), f), f))
  {
    var b := Buffer(Thaw(a, f), f);
    BufferTurn(Thaw(a, f), f);
    if Sounding(a.state) {
      if a.barge.probe == Idle { SaveIdle(a, f); } else { SaveProbing(a, f); }
      hide Buffer, BargeOk, Saved;
      HandleBargeOk(b, f);
    } else if a.barge.admitted {
      AdmittedPending(a);
      hide Buffer, BargeOk;
      WaitingFrame(a, f);
    } else {
      QuietElsewhere(a);
      hide Buffer, BargeOk;
      BufferQuiet(Thaw(a, f), f);
      DispatchQuiet(b, f);
    }
  }

  lemma AdmittedPending(a: Actor)
    requires BargeOk(a) && a.barge.admitted
    ensures a.state == CancelPending
  {
  }

  lemma BufferTurn(a: Actor, f: Frame)
    ensures Buffer(a, f).turn == a.turn && Buffer(a, f).state == a.state
  {
    hide SavePreRoll;
    var a1 := a.(hist := a.hist.(heard := a.hist.heard + [f]));
    var a2 := if a.state == CancelPending then a1.(hist := a1.hist.(since := a1.hist.since + [f])) else a1;
    SaveEffect(a2, f);
  }

  lemma ErrorOk(a: Actor, e: Inbound)
    requires BargeOk(a) && e.Error?
    ensures BargeOk(HandleError(a, e))
  {
    hide AbortCurrent, CompleteCancel, FinishTurn, LoseConnection, BargeOk;
    Bounded(a);
    if a.state == CancelPending { CompleteCancelCalms(a); }
    FinishedOk(a);
    LostOk(a);
    AbortedOk(a);
  }

  lemma DrainOk(a: Actor)
    requires BargeOk(a) && a.state != CancelPending
    ensures BargeOk(a.(state := DrainingPlayback))
  {
    hide Rising, Probing;
  }

  lemma DoneOk(a: Actor)
    requires BargeOk(a) && a.state != CancelPending
    ensures BargeOk(HandleDone(a))
  {
    hide LoseConnection;
    var (a1, playing) := Ask(a);
    var (a2, ended) := if playing then Ask(a1) else (a1, true);
    var a3 := Call(a2, EndPlayback);
    LostOk(a3);
    DrainOk(a);
    hide BargeOk;
    SameOk(a.(state := DrainingPlayback), a3.(state := DrainingPlayback));
  }

  lemma AudioStartOk(a: Actor, e: Inbound)
    requires BargeOk(a) && a.state != CancelPending && e.AudioStart?
    ensures BargeOk(HandleEvent(a, e))
  {
    Bounded(a);
    hide LoseConnection, BargeOk;
    var a1 := Ask(Call(a, BeginPlayback)).0;
    LostOk(a1);
    QuietOk(ResetBargeProbe(a1.(state := PlayingResponse)));
  }

  lemma PcmOk(a: Actor, e: Inbound)
    requires BargeOk(a) && a.state != CancelPending && e.Pcm?
    ensures BargeOk(HandleEvent(a, e))
  {
    Bounded(a);
    hide AbortCurrent, BargeOk, HandleError, HandleDone, CompleteCancel, FinishTurn, LoseConnection;
    var a1 := Ask(Call(a, QueueTts(e.audio, e.sequence))).0;
    assert SameVoice(a, a1) && |a1.pre| <= BARGE_BUFFER_FRAMES;
    AbortedOk(a1);
    SameOk(a, a1);
  }

  lemma SameOk(a: Actor, b: Actor)
    requires BargeOk(a) && SameVoice(a, b)
    ensures BargeOk(b)
  {
    hide Rising, Probing;
  }

  lemma EventOk(a: Actor, e: Inbound)
    requires BargeOk(a) && (e.HelloAck? ==> a.state == WaitingForWake)
    ensures BargeOk(HandleEvent(a, e))
  {
    hide HandleError, HandleDone, AbortCurrent, CompleteCancel;
    Bounded(a);
    match e
    case Error(_, _, _) => hide BargeOk; ErrorOk(a, e);
    case HelloAck(_) =>
      OnlyProbesWhileSounding(a);
      QuietOk(HandleEvent(a, e));
    case Pcm(_, _, _, _) => if a.state != CancelPending { hide BargeOk; PcmOk(a, e); }
    case AudioStart(_) => if a.state != CancelPending { hide BargeOk; AudioStartOk(a, e); }
    case Done(_) => if a.state != CancelPending { hide BargeOk; DoneOk(a); }
    case Cancelled(_) =>
      hide BargeOk, FinishTurn;
      if a.state == CancelPending { CompleteCancelCalms(a); }
      FinishedOk(a);
    case _ => hide BargeOk; SameOk(a, HandleEvent(a, e));
  }

  // ---------------------------------------------------------------------
  // The loop
  // ---------------------------------------------------------------------

  /** A state's own deadline ends whatever was being probed. */
  lemma ExpiryCalms(a: Actor, c: Clock)
    requires BargeOk(a) && a.turn.session != 0 && !c.heartbeatExpired && a.state != WaitingForWake && c.stateExpired
    requires !(a.state == DrainingPlayback && c.playbackDone)
    ensures Calm(AdvanceDeadlines(a, c).0) && !AdvanceDeadlines(a, c).1
  {
    Bounded(a);
    if a.state == WaitingForSpeech || a.state == WaitingForFollowUp {
      OnlyProbesWhileSounding(a);
      ListenerCalm(a);
      hide BargeOk, Calm, LoseConnection, AbortCurrent, EndTurn, ResetListener;
    } else {
      Calms(a);
      AbortCalm(a);
      hide BargeOk, Calm, LoseConnection, AbortCurrent, EndTurn, ResetListener;
    }
  }

  /** A deadline that takes the iteration ends whatever was being probed, or the listener fails. */
  lemma DeadlineEnds(a: Actor, c: Clock)
    requires BargeOk(a)
    ensures var (b, current) := AdvanceDeadlines(a, c);
            if current then b == a else Calm(b) || b == a.(listenerFailed := true)
  {
    Bounded(a);
    if a.turn.session != 0 && !c.heartbeatExpired && a.state != WaitingForWake && c.stateExpired
      && !(a.state == DrainingPlayback && c.playbackDone) {
      ExpiryCalms(a, c);
    } else {
      Calms(a);
      hide BargeOk, Calm, LoseConnection, AbortCurrent, EndTurn, ResetListener;
    }
  }

  lemma DeadlinesOk(a: Actor, c: Clock)
    requires BargeOk(a)
    ensures BargeOk(AdvanceDeadlines(a, c).0)
  {
    DeadlineEnds(a, c);
    SameOk(a, a.(listenerFailed := true));
    hide AdvanceDeadlines, BargeOk;
    var b := AdvanceDeadlines(a, c).0;
    if Calm(b) {
      QuietOk(b);
    }
  }

  lemma SkipOk(a: Actor, f: Frame)
    requires Calm(a)
    ensures BargeOk(Skip(a, f))
  {
    QuietOk(Skip(a, f));
  }

  lemma PollOk(a: Actor, u: UiAction)
    requires BargeOk(a)
    ensures BargeOk(PollUi(a, u))
  {
    Bounded(a);
    hide BargeOk, AbortCurrent;
    AbortedOk(a);
    SameOk(a, a.(manualWake := true));
  }

  lemma ConnectOk(a: Actor, started: bool)
    requires BargeOk(a)
    ensures BargeOk(StartConnect(a, started))
  {
    hide BargeOk, LoseConnection;
    var a1 := a.(link := Some(Fresh(a.config.uuid)), helloSent := false, hist := a.hist.(starts := []));
    SameOk(a, a1);
    LostOk(a1);
  }

  lemma FinishConnectOk(a: Actor)
    requires BargeOk(a)
    ensures BargeOk(FinishConnect(a))
  {
    hide SendControl, BargeOk, LoseConnection;
    SendSame(a, Hello, ZERO_IDS);
    var a1 := SendControl(a, Hello, ZERO_IDS).0;
    SameOk(a, a1);
    SameOk(a, a1.(helloSent := true));
    LostOk(a1);
  }

  lemma BeginOk(s: System, connect: bool, started: bool)
    requires BargeOk(s.a)
    ensures BargeOk(Step(s, Begin(connect, started)).a)
  {
    hide BargeOk, StartConnect, FinishConnect;
    ConnectOk(s.a, started);
    FinishConnectOk(s.a);
    FinishConnectOk(StartConnect(s.a, started));
  }

  /** In a sounding reply or a pending cancel the session is up. */
  lemma SessionUp(a: Actor, k: nat)
    requires S.Ok(a, k) && (Sounding(a.state) || a.state == CancelPending)
    ensures a.turn.session != 0
  {
    hide I.Ordered, I.Greeted, I.Counted, I.Between;
  }

  lemma DeadlineUp(s: System, clock: Clock)
    requires S.Safe(s) && s.pc == Checked
    ensures var a1 := AdvanceDeadlines(s.a, clock).0;
            Sounding(a1.state) || a1.state == CancelPending ==> a1.turn.session != 0
  {
    hide AdvanceDeadlines, S.Ok;
    S.DeadlinesOk(s.a, clock, 0);
    var a1 := AdvanceDeadlines(s.a, clock).0;
    if Sounding(a1.state) || a1.state == CancelPending { SessionUp(a1, 0); }
  }

  lemma FinishOk(s: System, clock: Clock, frame: Option<Frame>)
    requires BargeOk(s.a) && S.Safe(s)
    ensures BargeOk(Step(s, Finish(clock, frame)).a)
  {
    hide BargeOk, AdvanceDeadlines, OnFrame, S.Safe, Calm, Skip;
    if s.pc == Checked {
      DeadlinesOk(s.a, clock);
      DeadlineUp(s, clock);
      var a1 := AdvanceDeadlines(s.a, clock).0;
      if frame.Some? {
        DeadlineEnds(s.a, clock);
        if Calm(a1) { SkipOk(a1, frame.value); }
        OnFrameOk(a1, frame.value);
      }
    }
  }

  lemma TakeOk(s: System)
    requires BargeOk(s.a) && S.Safe(s)
    ensures BargeOk(Step(s, Take).a)
  {
    if Step(s, Take) != s {
      var a := s.a;
      var e := a.queue.items[0];
      assert S.Live(a, s.pc.pops);
      GreetingAtRest(a, s.pc.pops);
      SameOk(a, S.Noted(a));
      hide BargeOk, HandleEvent, S.Safe;
      EventOk(S.Noted(a), e);
    }
  }

  /** A greeting finds the actor at rest. */
  lemma GreetingAtRest(a: Actor, k: nat)
    requires S.Live(a, k) && a.queue.items != [] && k < EVENTS_PER_FRAME
    ensures a.queue.items[0].HelloAck? ==> a.state == WaitingForWake
    ensures HandleOne(a) == HandleEvent(S.Noted(a), a.queue.items[0])
    ensures S.Noted(a).state == a.state
  {
    S.Oldest(a.link.value, a.queue, a.turn, a.response, a.state, k);
    hide HandleEvent, I.Ordered, I.Between, I.Within, I.Counted;
  }

  lemma StepOk(s: System, op: Op)
    requires BargeOk(s.a) && S.Safe(s)
    ensures BargeOk(Step(s, op).a)
  {
    hide BargeOk;
    match op
    case Begin(connect, started) => BeginOk(s, connect, started);
    case Finish(clock, frame) => FinishOk(s, clock, frame);
    case Take => TakeOk(s);
    case Poll(u) => hide PollUi; PollOk(s.a, u);
    case CheckOverflow => hide LoseConnection; LostOk(s.a);
    case Network(n) => hide OnNet; SameOk(s.a, Receive(s.a, n));
  }

  lemma {:induction false} RunOk(s: System, ops: seq<Op>)
    requires BargeOk(s.a) && S.Safe(s)
    ensures BargeOk(Run(s, ops).a)
    decreases |ops|
  {
    hide BargeOk, Step, S.Safe;
    if ops != [] {
      StepOk(s, ops[0]);
      S.StepSafe(s, ops[0]);
      RunOk(Step(s, ops[0]), ops[1..]);
    }
  }
}
