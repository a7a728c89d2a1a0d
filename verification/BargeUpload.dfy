/** What reaches the server when a confirmed interruption is let through. */
module BargeUpload {
  import opened WireTypes
  import opened ClientTransport
  import opened VoiceActor
  import opened BargeIn
  import S = ActorSafety
  import I = ActorInvariant
  import T = CaptureTimeline

  /** Frames `i` to `n` of an utterance as they go on the wire: numbered, START first, END last. */
  ghost function Spoken(ids: WireIds, frames: seq<Frame>, i: nat, n: nat, ended: bool): (r: seq<Uplink>)
    requires i <= n <= |frames|
    decreases n - i
  {
    if i == n then []
    else [Audio(ids, Flags(i == 0, ended && i + 1 == |frames|), i, frames[i].pcm)]
         + Spoken(ids, frames, i + 1, n, ended)
  }

  /** After the first `n` frames: commit, stay open, or give the turn up. */
  ghost function Closing(ids: WireIds, frames: seq<Frame>, n: nat, ended: bool): seq<Uplink> {
    if n < |frames| then [Ctl(TurnCancel, ids)]
    else if ended then [Ctl(TurnCommit, ids)]
    else []
  }

  /** `after` extends `before` by one turn carrying the first `n` of `frames`. */
  ghost predicate Carries(before: seq<Uplink>, after: seq<Uplink>, ids: WireIds,
                          frames: seq<Frame>, ended: bool, n: nat)
  {
    && n <= |frames|
    && after == before + [Ctl(TurnStart, ids)] + Spoken(ids, frames, 0, n, ended)
                + Closing(ids, frames, n, ended)
  }

  /** An upload in progress: frame `i` is next on both sides. */
  ghost predicate AtFrame(a: Actor, i: nat, k: nat) {
    && S.Live(a, k) && S.In(a) && S.Told(a) && a.state == CapturingSpeech
    && a.response == ZERO_IDS && a.upSeq == i
  }

  /** Everything handed to the socket on the present connection. */
  ghost function Log(a: Actor): seq<Uplink> {
    if a.link.Some? then a.link.value.sent else []
  }

  lemma AbortLog(a: Actor, k: nat)
    requires S.Live(a, k) && a.response == ZERO_IDS
    ensures var b := AbortCurrent(a);
            b.link.Some? ==> Log(b) == Log(a) + [Ctl(TurnCancel, a.turn)] && b.turn == a.turn
  {
    hide Locked, I.Core;
    var a1 := Call(a, DropPlayback).(barge := NO_BARGE, finishAfterAck := true);
    S.LockedOk(a1, k);
  }

  lemma AudioLog(a: Actor, f: Frame, end: bool, k: nat)
    requires S.Live(a, k)
    ensures var (b, r) := SendAudio(a, f, end);
            && b.link.Some? && b.turn == a.turn && b.response == a.response && b.state == a.state
            && b.upSeq == (if r == Ok then a.upSeq + 1 else a.upSeq)
            && Log(b) == Log(a) + (if r == Ok then [Audio(a.turn, Flags(a.upSeq == 0, end), a.upSeq, f.pcm)] else [])
  {
    hide Locked, I.Core;
    S.LockedOk(a, k);
    assert Log(a) + [] == Log(a);
  }

  lemma Gone(a: Actor)
    ensures LoseConnection(a).link.None?
  {
  }

  lemma Recovered(a: Actor, f: Frame, end: bool)
    ensures var (b, r) := SendAudio(a, f, end);
            SendAudioOrRecover(a, f, end) ==
            match r case Ok => (b, true)
                    case Backpressure => (AbortCurrent(b), false)
                    case Rejected => (LoseConnection(b), false)
  {
    hide SendAudio, AbortCurrent, LoseConnection;
  }

  lemma FrameLog(a: Actor, f: Frame, end: bool, i: nat, k: nat)
    requires AtFrame(a, i, k)
    ensures var (b, ok) := SendAudioOrRecover(a, f, end);
            && (ok ==> AtFrame(b, i + 1, k) && b.turn == a.turn
                       && Log(b) == Log(a) + [Audio(a.turn, Flags(i == 0, end), i, f.pcm)])
            && (!ok && b.link.Some? ==> Log(b) == Log(a) + [Ctl(TurnCancel, a.turn)] && b.turn == a.turn)
  {
    S.SendOrRecoverOk(a, f, end, k);
    S.SendAudioOk(a, f, end, k);
    AudioLog(a, f, end, k);
    var (b, r) := SendAudio(a, f, end);
    Recovered(a, f, end);
    Gone(b);
    hide SendAudio, SendAudioOrRecover, AbortCurrent, LoseConnection, S.In, S.Live, S.Told, S.Ok, S.Unended;
    if r == Backpressure {
      assert Log(b) == Log(a);
      AbortLog(b, k);
    }
  }

  lemma {:induction false} UploadLog(a: Actor, frames: seq<Frame>, i: nat, ended: bool, k: nat) returns (n: nat)
    requires i <= |frames| && AtFrame(a, i, k)
    ensures i <= n <= |frames|
    ensures var (b, ok) := Upload(a, frames, i, ended);
            && (ok ==> AtFrame(b, |frames|, k) && b.turn == a.turn && n == |frames|
                       && Log(b) == Log(a) + Spoken(a.turn, frames, i, n, ended))
            && (!ok && b.link.Some? ==>
                n < |frames| && b.turn == a.turn
                && Log(b) == Log(a) + Spoken(a.turn, frames, i, n, ended) + [Ctl(TurnCancel, a.turn)])
    decreases |frames| - i
  {
    hide AtFrame, SendAudioOrRecover;
    n := i;
    if i < |frames| {
      var end := ended && i + 1 == |frames|;
      FrameLog(a, frames[i], end, i, k);
      var (b, ok) := SendAudioOrRecover(a, frames[i], end);
      if ok {
        n := UploadLog(b, frames, i + 1, ended, k);
        var first := [Audio(a.turn, Flags(i == 0, end), i, frames[i].pcm)];
        var rest := Spoken(a.turn, frames, i + 1, n, ended);
        assert Log(a) + first + (rest + [Ctl(TurnCancel, a.turn)])
               == Log(a) + (first + rest) + [Ctl(TurnCancel, a.turn)];
        assert Log(a) + first + rest == Log(a) + (first + rest);
      }
    }
  }

  lemma CommitLog(a: Actor, k: nat)
    requires S.Live(a, k)
    ensures var b := SendCommit(a);
            b.link.Some? ==> Log(b) == Log(a) + [Ctl(TurnCommit, a.turn)] && b.turn == a.turn
  {
    hide Locked, I.Core, S.HistOk;
    S.LockedOk(a, k);
  }

  lemma LiveWithout(a: Actor, k: nat)
    requires S.Live(a, k)
    ensures S.Live(a.(pre := []), k)
  {
  }

  lemma BufferedLog(a: Actor, ended: bool, k: nat) returns (n: nat)
    requires AtFrame(a, 0, k)
    ensures n <= |a.pre|
    ensures var b := UploadBuffered(a, ended);
            b.link.Some? ==>
              b.turn == a.turn
              && Log(b) == Log(a) + Spoken(a.turn, a.pre, 0, n, ended) + Closing(a.turn, a.pre, n, ended)
  {
    Gone(a);
    hide Upload, SendCommit, LoseConnection;
    n := UploadLog(a, a.pre, 0, ended, k);
    var (b, ok) := Upload(a, a.pre, 0, ended);
    if ok {
      var c := b.(pre := []);
      LiveWithout(b, k);
      hide S.Live, S.In, S.Told;
      CommitLog(c, k);
      assert Log(b) + [] == Log(b);
    }
  }

  lemma StartLog(a: Actor, k: nat)
    requires S.Live(a, k) && S.Out(a) && a.turn.session != 0 && a.response == ZERO_IDS
    ensures var (b, r) := IssueStart(a);
            r == Accepted ==>
              var c := b.(upSeq := 0, state := CapturingSpeech);
              && AtFrame(c, 0, k) && c.turn == a.turn && c.pre == a.pre
              && Log(c) == Log(a) + [Ctl(TurnStart, a.turn)]
  {
    S.IssueStartOk(a, k);
    S.LockedOk(a, k);
    hide Locked, I.Core, S.In, S.Out;
  }

  /** Unless the connection went down, `b` has sent one turn of `frames` more than `before`. */
  ghost predicate Uploads(before: seq<Uplink>, b: Actor, frames: seq<Frame>, ended: bool) {
    b.link.Some? ==> exists n :: Carries(before, Log(b), b.turn, frames, ended, n)
  }

  lemma TurnLog(a: Actor, ended: bool, k: nat)
    requires S.Live(a, k) && S.Out(a) && a.turn.session != 0 && a.response == ZERO_IDS
    ensures Uploads(Log(a), StartTurn(a, ended), a.pre, ended)
  {
    StartLog(a, k);
    hide IssueStart, UploadBuffered, AtFrame, S.Live, S.Out;
    var (a1, r) := IssueStart(a);
    if r == Accepted {
      var c := a1.(upSeq := 0, state := CapturingSpeech);
      var n := BufferedLog(c, ended, k);
      if StartTurn(a, ended).link.Some? {
        assert Carries(Log(a), Log(StartTurn(a, ended)), a.turn, a.pre, ended, n);
      }
    }
  }

  /** The frames of the interrupting utterance: what was confirmed, and what was retained since. */
  ghost function Utterance(a: Actor): seq<Frame> { a.hist.atConfirm + Retained(a.hist.since) }

  predicate WillSpeak(a: Actor) { !a.finishAfterAck && a.barge.admitted && !a.barge.overflow }

  lemma SpeakFacts(a: Actor)
    requires BargeOk(a) && WillSpeak(a)
    ensures a.pre == Utterance(a) && (a.barge.ended <==> Ended(a.hist.since))
  {
    hide Rising, Probing, EndsWith, Voiced, Retained, Ended;
  }

  lemma FinishLog(a: Actor)
    ensures Log(FinishTurn(a)) == Log(a)
  {
  }

  lemma ResumeLog(a: Actor, k: nat)
    requires S.Live(a, k) && S.Settled(a) && a.state == CancelPending && a.barge.admitted
    ensures Uploads(Log(a), ResumeAfterBarge(a), a.pre, a.barge.ended)
  {
    var a1 := Call(a, DropPlayback).(barge := a.barge.(admitted := false, ended := false), finishAfterAck := false);
    S.AdvanceOk(a1, CancelPending, k);
    hide StartTurn, S.Live, S.Out, S.Settled, Uploads;
    TurnLog(AdvanceTurn(a1), a.barge.ended, k);
    assert Log(AdvanceTurn(a1)) == Log(a);
  }

  lemma CompleteCancelLog(a: Actor, k: nat)
    requires S.Live(a, k) && S.Settled(a) && a.state == CancelPending && BargeOk(a)
    ensures var b := CompleteCancel(a);
            if WillSpeak(a) then Uploads(Log(a), b, Utterance(a), Ended(a.hist.since))
            else b.link.Some? ==> Log(b) == Log(a)
  {
    hide BargeOk, S.Live, S.Settled, FinishTurn, ResumeAfterBarge, Uploads, Utterance, Ended;
    if WillSpeak(a) {
      SpeakFacts(a);
      ResumeLog(a, k);
    } else {
      FinishLog(a);
      FinishLog(a.(pre := []));
    }
  }

  // ---------------------------------------------------------------------
  // Main results
  // ---------------------------------------------------------------------

  lemma DeviceBarge(config: Config, net: seq<Slot>, audio: seq<bool>, ops: seq<Op>)
    ensures BargeOk(S.Device(config, net, audio, ops).a)
  {
    var s := System(Initial(config, net, audio), Top);
    assert S.Safe(s);
    RunOk(s, ops);
  }

  /**
   * A confirmed interruption holds the six voiced frames that raised it and
   * every frame captured after them up to the latest one, without a gap in their
   * numbers, at most 27 when it is confirmed.  The buffer overflows only when
   * more than forty further frames of the utterance had to be kept.
   */
  lemma ConfirmedSpeechIsHeld(config: Config, net: seq<Slot>, audio: seq<bool>, ops: seq<Op>)
    ensures var a := S.Device(config, net, audio, ops).a;
            a.barge.admitted ==>
              && BARGE_CANDIDATE_FRAMES <= |a.hist.atConfirm| <= 27
              && Voiced(a.config, a.hist.atConfirm[..BARGE_CANDIDATE_FRAMES])
              && EndsWith(a.hist.heard, a.hist.atConfirm + a.hist.since)
              && T.Consecutive(a.hist.atConfirm + a.hist.since)
              && Last(a.hist.atConfirm + a.hist.since).sequence + 1 == a.nextCapture
              && (a.barge.overflow ==> |Retained(a.hist.since)| > 40)
              && (!a.barge.overflow ==> a.pre == Utterance(a))
  {
    DeviceBarge(config, net, audio, ops);
    DeviceSteady(config, net, audio, ops);
    hide S.Device, Retained, Voiced;
    var a := S.Device(config, net, audio, ops).a;
    if a.barge.admitted {
      AdmittedEnds(a);
      EndIsSteady(a.hist.heard, a.hist.atConfirm + a.hist.since);
    }
    hide EndsWith;
  }

  lemma DeviceSteady(config: Config, net: seq<Slot>, audio: seq<bool>, ops: seq<Op>)
    ensures T.Steady(S.Device(config, net, audio, ops).a)
  {
    T.RunSteady(System(Initial(config, net, audio), Top), ops);
  }

  lemma AdmittedEnds(a: Actor)
    requires BargeOk(a) && a.barge.admitted
    ensures EndsWith(a.hist.heard, a.hist.atConfirm + a.hist.since) && a.hist.atConfirm != []
  {
    hide EndsWith, Voiced, Retained;
  }

  function Last(fs: seq<Frame>): Frame
    requires fs != []
  {
    fs[|fs| - 1]
  }

  lemma EndIsSteady(heard: seq<Frame>, fs: seq<Frame>)
    requires T.Consecutive(heard) && EndsWith(heard, fs) && fs != []
    ensures T.Consecutive(fs) && heard != [] && Last(heard) == Last(fs)
  {
    var n := |heard| - |fs|;
    forall i | 0 <= i < |fs| ensures fs[i] == heard[n + i] {
      assert fs[i] == heard[n..][i];
    }
  }

  /** The next event is the end of a cancelled turn: its acknowledgement, or an error for it. */
  ghost predicate CancelEnds(s: System) {
    && s.a.state == CancelPending && s.a.link.Some? && s.a.queue.items != []
    && (s.a.queue.items[0].Cancelled? || I.TurnError(s.a.queue.items[0]))
    && Step(s, Take) != s
  }

  /**
   * When a cancel ends, the actor either uploads one new turn made of exactly
   * the utterance's frames, in order, or uploads nothing; a turn that stops
   * short is one the network pushed back on, and it is cancelled at once.
   */
  lemma CancelEndsWithUtteranceOrSilence(config: Config, net: seq<Slot>, audio: seq<bool>, ops: seq<Op>)
    requires CancelEnds(S.Device(config, net, audio, ops))
    ensures var s := S.Device(config, net, audio, ops);
            var a, b := s.a, Step(s, Take).a;
            if WillSpeak(a) then Uploads(Log(a), b, Utterance(a), Ended(a.hist.since))
            else b.link.Some? ==> Log(b) == Log(a)
  {
    S.DeviceSafe(config, net, audio, ops);
    DeviceBarge(config, net, audio, ops);
    hide S.Device;
    EndOfCancel(S.Device(config, net, audio, ops));
  }

  lemma CancelEvent(a: Actor, e: Inbound)
    requires a.state == CancelPending && (e.Cancelled? || I.TurnError(e))
    ensures HandleEvent(a, e) == CompleteCancel(a) || HandleEvent(a, e) == LoseConnection(a)
  {
    hide CompleteCancel, LoseConnection, FinishTurn, AbortCurrent;
  }

  lemma LostLink(a: Actor)
    ensures LoseConnection(a).link.None? && forall log, fs, ended :: Uploads(log, LoseConnection(a), fs, ended)
  {
  }

  lemma TakenEvent(s: System)
    requires S.Safe(s) && BargeOk(s.a) && CancelEnds(s)
    ensures var n, k := S.Noted(s.a), s.pc.pops + 1;
            && S.Live(n, k) && S.Settled(n) && BargeOk(n)
            && n == s.a.(queue := Pop(s.a.queue), hist := s.a.hist.(acted := n.hist.acted))
            && Step(s, Take).a == HandleEvent(n, s.a.queue.items[0])
  {
    S.NotedOk(s.a, s.pc.pops);
    S.NotedFacts(s.a, s.pc.pops);
    SameOk(s.a, S.Noted(s.a));
    hide HandleEvent, BargeOk, S.Settled, I.Core;
  }

  lemma EndOfCancel(s: System)
    requires S.Safe(s) && BargeOk(s.a) && CancelEnds(s)
    ensures var a, b := s.a, Step(s, Take).a;
            if WillSpeak(a) then Uploads(Log(a), b, Utterance(a), Ended(a.hist.since))
            else b.link.Some? ==> Log(b) == Log(a)
  {
    TakenEvent(s);
    var n := S.Noted(s.a);
    var e := s.a.queue.items[0];
    hide S.Safe, S.Noted, BargeOk, HandleEvent, Step, CompleteCancel, LoseConnection;
    hide S.Live, S.Settled, Uploads, Retained, Ended;
    CompleteCancelLog(n, s.pc.pops + 1);
    CancelEvent(n, e);
    LostLink(n);
  }
}
