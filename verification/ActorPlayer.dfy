/** What the player is asked for: exactly the audio the actor took, in order, into an open stream. */
module ActorPlayer {
  import opened WireTypes
  import opened ClientTransport
  import opened VoiceActor
  import B = BargeIn
  import S = ActorSafety
  import T = CaptureTimeline

  // ---------------------------------------------------------------------
  // The player's side and the log's side
  // ---------------------------------------------------------------------

  /** What the player was last told to do with its stream. */
  datatype Tone = Silent | Sounding | Ending

  function ToneOf(calls: seq<PlayerCall>): Tone {
    if calls == [] then Silent
    else match calls[|calls| - 1]
      case BeginPlayback => Sounding
      case EndPlayback => Ending
      case DropPlayback => Silent
      case QueueTts(_, _) => ToneOf(calls[..|calls| - 1])
  }

  /** The calls but for those that drop what plays. */
  function Asked(calls: seq<PlayerCall>): seq<PlayerCall> {
    if calls == [] then []
    else
      var front, last := Asked(calls[..|calls| - 1]), calls[|calls| - 1];
      if last.DropPlayback? then front else front + [last]
  }

  /** What one event taken asks of the player; while a cancel is out it asks nothing. */
  function Request(x: Acted): seq<PlayerCall> {
    if x.state == CancelPending then []
    else match x.event
      case AudioStart(_) => [BeginPlayback]
      case Pcm(_, _, sequence, audio) => [QueueTts(audio, sequence)]
      case Done(_) => [EndPlayback]
      case _ => []
  }

  function Requests(acted: seq<Acted>): seq<PlayerCall> {
    if acted == [] then [] else Requests(acted[..|acted| - 1]) + Request(acted[|acted| - 1])
  }

  lemma CallMore(calls: seq<PlayerCall>, c: PlayerCall)
    ensures Asked(calls + [c]) == Asked(calls) + (if c.DropPlayback? then [] else [c])
    ensures ToneOf(calls + [c]) == match c
              case BeginPlayback => Sounding
              case EndPlayback => Ending
              case DropPlayback => Silent
              case QueueTts(_, _) => ToneOf(calls)
  {
    assert (calls + [c])[..|calls|] == calls;
  }

  lemma RequestMore(acted: seq<Acted>, x: Acted)
    ensures Requests(acted + [x]) == Requests(acted) + Request(x)
  {
    assert (acted + [x])[..|acted|] == acted;
  }

  /** Every packet goes into a stream that was begun, and neither ended nor dropped. */
  ghost predicate IntoOpenStream(calls: seq<PlayerCall>) {
    forall i :: 0 <= i < |calls| && calls[i].QueueTts? ==> ToneOf(calls[..i]) == Sounding
  }

  /** The stream is open while the actor plays, ended while the rest drains, and never open otherwise. */
  predicate Tuned(state: State, tone: Tone) {
    match state
    case PlayingResponse => tone == Sounding
    case DrainingPlayback => tone == Ending
    case CancelPending => tone == Silent
    case _ => tone != Sounding
  }

  ghost predicate Fine(a: Actor) {
    Tuned(a.state, ToneOf(a.hist.calls)) && IntoOpenStream(a.hist.calls)
  }

  // ---------------------------------------------------------------------
  // Operations that ask for nothing
  // ---------------------------------------------------------------------

  /** Nothing that concerns the player. */
  ghost predicate Untouched(h: History, k: History) { k.acted == h.acted && k.calls == h.calls }

  /** The player was told to drop what plays, and then nothing else. */
  ghost predicate Hushed(h: History, k: History) {
    && k.acted == h.acted && Asked(k.calls) == Asked(h.calls) && ToneOf(k.calls) == Silent
    && (IntoOpenStream(h.calls) ==> IntoOpenStream(k.calls))
  }

  /** The conversation moves on without asking the player for anything. */
  ghost predicate Talks(a: Actor, b: Actor) {
    && !B.Sounding(b.state)
    && (Hushed(a.hist, b.hist) || (Untouched(a.hist, b.hist) && b.state != CancelPending))
  }

  ghost predicate Idles(a: Actor, b: Actor) { Untouched(a.hist, b.hist) && b.state == a.state }

  /** Nothing was asked of the player, and nothing it plays is left behind. */
  ghost predicate Unasked(a: Actor, b: Actor) {
    Idles(a, b) || (Talks(a, b) && (Hushed(a.hist, b.hist) || a.state != PlayingResponse))
  }

  lemma IntoMore(calls: seq<PlayerCall>, c: PlayerCall)
    requires IntoOpenStream(calls) && (c.QueueTts? ==> ToneOf(calls) == Sounding)
    ensures IntoOpenStream(calls + [c])
  {
    var more := calls + [c];
    forall i | 0 <= i < |more| && more[i].QueueTts? ensures ToneOf(more[..i]) == Sounding {
      if i < |calls| { assert more[..i] == calls[..i]; } else { assert more[..i] == calls; }
    }
  }

  lemma DropHushes(h: History)
    ensures Hushed(h, h.(calls := h.calls + [DropPlayback]))
  {
    CallMore(h.calls, DropPlayback);
    if IntoOpenStream(h.calls) { IntoMore(h.calls, DropPlayback); }
  }

  lemma Joins(h: History, k: History, l: History)
    requires Hushed(h, k) || Untouched(h, k)
    requires Hushed(k, l) || Untouched(k, l)
    ensures Hushed(h, l) || Untouched(h, l)
    ensures Hushed(h, k) || Hushed(k, l) ==> Hushed(h, l)
  {
    hide Asked, ToneOf, IntoOpenStream;
  }

  lemma TalksOn(a: Actor, b: Actor, c: Actor)
    requires Talks(a, b) && Talks(b, c)
    ensures Talks(a, c)
  {
    Joins(a.hist, b.hist, c.hist);
    hide Hushed, Untouched;
  }

  lemma LoseTalks(a: Actor)
    ensures Talks(a, LoseConnection(a)) && Hushed(a.hist, LoseConnection(a).hist)
  {
    DropHushes(a.hist);
    hide Hushed;
  }

  lemma AbortTalks(a: Actor)
    ensures Talks(a, AbortCurrent(a)) && Hushed(a.hist, AbortCurrent(a).hist)
  {
    DropHushes(a.hist);
    var a1 := Call(a, DropPlayback).(barge := NO_BARGE, finishAfterAck := true);
    var kind := if a.response.session != 0 then ResponseCancel else TurnCancel;
    var ids := if a.response.session != 0 then a.response else a.turn;
    B.SendSame(a1, kind, ids);
    var b := SendControl(a1, kind, ids).0;
    LoseTalks(b);
    hide SendControl, LoseConnection, Hushed;
    Joins(a.hist, b.hist, LoseConnection(b).hist);
  }

  /** Neither playing nor cancelling. */
  predicate Quiet(a: Actor) { !B.Sounding(a.state) && a.state != CancelPending }

  lemma SpeakTalks(a: Actor, f: Frame, end: bool)
    requires Quiet(a)
    ensures Talks(a, SendAudioOrRecover(a, f, end).0)
    ensures SendAudioOrRecover(a, f, end).1 ==> SendAudioOrRecover(a, f, end).0.state == a.state
  {
    B.SendAudioSame(a, f, end);
    var b := SendAudio(a, f, end).0;
    AbortTalks(b);
    LoseTalks(b);
    hide SendAudio, AbortCurrent, LoseConnection, Hushed;
    Joins(a.hist, b.hist, AbortCurrent(b).hist);
    Joins(a.hist, b.hist, LoseConnection(b).hist);
  }

  lemma {:induction false} UploadTalks(a: Actor, frames: seq<Frame>, i: nat, ended: bool)
    requires i <= |frames| && Quiet(a)
    ensures Talks(a, Upload(a, frames, i, ended).0)
    ensures Upload(a, frames, i, ended).1 ==> Upload(a, frames, i, ended).0.state == a.state
    decreases |frames| - i
  {
    hide SendAudioOrRecover, Hushed;
    if i < |frames| {
      SpeakTalks(a, frames[i], ended && i + 1 == |frames|);
      var (b, ok) := SendAudioOrRecover(a, frames[i], ended && i + 1 == |frames|);
      if ok {
        UploadTalks(b, frames, i + 1, ended);
        TalksOn(a, b, Upload(b, frames, i + 1, ended).0);
      }
    }
  }

  lemma CommitTalks(a: Actor)
    ensures Talks(a, SendCommit(a))
  {
    B.SendSame(a, TurnCommit, a.turn);
    var b := SendControl(a, TurnCommit, a.turn).0;
    LoseTalks(b);
    hide SendControl, LoseConnection, Hushed;
    Joins(a.hist, b.hist, LoseConnection(b).hist);
  }

  lemma BufferedTalks(a: Actor, ended: bool)
    requires Quiet(a)
    ensures Talks(a, UploadBuffered(a, ended))
  {
    LoseTalks(a);
    UploadTalks(a, a.pre, 0, ended);
    var (b, ok) := Upload(a, a.pre, 0, ended);
    CommitTalks(b.(pre := []));
    hide Upload, SendCommit, LoseConnection, Hushed;
    Joins(a.hist, b.hist, SendCommit(b.(pre := [])).hist);
  }

  lemma IssueTalks(a: Actor)
    ensures Untouched(a.hist, IssueStart(a).0.hist)
  {
    hide SendControl;
    B.SendSame(a, TurnStart, a.turn);
  }

  lemma StartTalks(a: Actor, ended: bool)
    ensures Talks(a, StartTurn(a, ended))
  {
    LoseTalks(a);
    IssueTalks(a);
    var b := IssueStart(a).0;
    LoseTalks(b);
    var c := b.(upSeq := 0, state := CapturingSpeech);
    BufferedTalks(c, ended);
    hide IssueStart, UploadBuffered, LoseConnection, Hushed, Untouched;
    Joins(a.hist, b.hist, LoseConnection(b).hist);
    Joins(a.hist, b.hist, UploadBuffered(c, ended).hist);
  }

  lemma FinishTalks(a: Actor)
    ensures Talks(a, FinishTurn(a)) && Hushed(a.hist, FinishTurn(a).hist) && Talks(a, EndTurn(a))
  {
    DropHushes(a.hist);
    hide Hushed;
  }

  lemma CompleteTalks(a: Actor)
    ensures Talks(a, CompleteCancel(a)) && Hushed(a.hist, CompleteCancel(a).hist)
  {
    FinishTalks(a);
    FinishTalks(a.(pre := []));
    DropHushes(a.hist);
    var b := AdvanceTurn(Call(a, DropPlayback).(barge := a.barge.(admitted := false, ended := false),
                                                finishAfterAck := false));
    StartTalks(b, a.barge.ended);
    hide FinishTurn, StartTurn, Hushed;
    Joins(a.hist, b.hist, StartTurn(b, a.barge.ended).hist);
  }

  lemma ErrorTalks(a: Actor, e: Inbound)
    requires e.Error?
    ensures Unasked(a, HandleError(a, e))
  {
    LoseTalks(a);
    AbortTalks(a);
    CompleteTalks(a);
    FinishTalks(a);
    hide LoseConnection, AbortCurrent, CompleteCancel, FinishTurn, Hushed;
  }

  // ---------------------------------------------------------------------
  // Events
  // ---------------------------------------------------------------------

  /** The request is made, and whatever follows asks for nothing more. */
  lemma AsksFor(a: Actor, c: PlayerCall, b: Actor)
    requires Fine(a) && !c.DropPlayback? && (c.QueueTts? ==> a.state == PlayingResponse)
    requires (Hushed(Call(a, c).hist, b.hist) && !B.Sounding(b.state))
             || (Untouched(Call(a, c).hist, b.hist)
                 && b.state == match c case BeginPlayback => PlayingResponse
                                       case EndPlayback => DrainingPlayback
                                       case _ => a.state)
    ensures Fine(b) && b.hist.acted == a.hist.acted && Asked(b.hist.calls) == Asked(a.hist.calls) + [c]
  {
    CallMore(a.hist.calls, c);
    IntoMore(a.hist.calls, c);
    hide Asked, ToneOf, IntoOpenStream;
  }

  lemma FineAfter(a: Actor, b: Actor)
    requires Fine(a)
    requires Unasked(a, b)
    ensures Fine(b) && b.hist.acted == a.hist.acted && Asked(b.hist.calls) == Asked(a.hist.calls)
  {
    hide Asked, ToneOf, IntoOpenStream;
  }

  lemma PcmEffect(a: Actor, e: Inbound)
    requires e.Pcm? && a.state == PlayingResponse
    ensures var d := Ask(Call(a, QueueTts(e.audio, e.sequence))).0;
            HandleEvent(a, e) == d || HandleEvent(a, e) == AbortCurrent(d)
  {
    hide AbortCurrent;
  }

  lemma PcmAsks(a: Actor, e: Inbound)
    requires Fine(a) && e.Pcm? && a.state == PlayingResponse
    ensures var b := HandleEvent(a, e);
            && Fine(b) && b.hist.acted == a.hist.acted
            && Asked(b.hist.calls) == Asked(a.hist.calls) + [QueueTts(e.audio, e.sequence)]
  {
    var c := Call(a, QueueTts(e.audio, e.sequence));
    var d := Ask(c).0;
    AbortTalks(d);
    assert Untouched(c.hist, d.hist) && d.state == a.state;
    PcmEffect(a, e);
    hide AbortCurrent, Ask, HandleEvent, Fine, Hushed, Untouched;
    Joins(c.hist, d.hist, AbortCurrent(d).hist);
    AsksFor(a, QueueTts(e.audio, e.sequence), HandleEvent(a, e));
  }

  lemma AudioAsks(a: Actor, e: Inbound)
    requires Fine(a) && e.AudioStart? && a.state != CancelPending
    ensures var b := HandleEvent(a, e);
            && Fine(b) && b.hist.acted == a.hist.acted
            && Asked(b.hist.calls) == Asked(a.hist.calls) + [BeginPlayback]
  {
    var c := Call(a, BeginPlayback);
    var d := Ask(c).0;
    LoseTalks(d);
    S.AudioStartEffect(a, e);
    assert Untouched(c.hist, d.hist);
    assert Untouched(c.hist, ResetBargeProbe(d.(state := PlayingResponse)).hist);
    hide LoseConnection, Ask, HandleEvent, Fine, Hushed, Untouched;
    Joins(c.hist, d.hist, LoseConnection(d).hist);
    AsksFor(a, BeginPlayback, HandleEvent(a, e));
  }

  lemma DoneAsks(a: Actor)
    requires Fine(a)
    ensures var b := HandleDone(a);
            && Fine(b) && b.hist.acted == a.hist.acted
            && Asked(b.hist.calls) == Asked(a.hist.calls) + [EndPlayback]
  {
    var (a1, playing) := Ask(a);
    var a2 := if playing then Ask(a1).0 else a1;
    var c := Call(a2, EndPlayback);
    LoseTalks(c);
    S.DoneEffect(a);
    assert c.hist == Call(a, EndPlayback).hist;
    hide LoseConnection, Ask, HandleDone, Fine, Hushed;
    AsksFor(a, EndPlayback, HandleDone(a));
  }

  /** An event asks the player for exactly what its log entry says. */
  lemma EventAsks(a: Actor, e: Inbound, x: Acted)
    requires Fine(a) && x.event == e && x.state == a.state
    requires e.Pcm? && a.state != CancelPending ==> a.state == PlayingResponse
    ensures var b := HandleEvent(a, e);
            && Fine(b) && b.hist.acted == a.hist.acted && Asked(b.hist.calls) == Asked(a.hist.calls) + Request(x)
  {
    var b := HandleEvent(a, e);
    if a.state != CancelPending && (e.Pcm? || e.AudioStart? || e.Done?) {
      hide HandleEvent, Fine;
      if e.Pcm? { PcmAsks(a, e); } else if e.AudioStart? { AudioAsks(a, e); } else { DoneAsks(a); HandlesDone(a, e); }
    } else {
      OtherEvents(a, e);
      hide HandleEvent, Fine;
      FineAfter(a, b);
      assert Request(x) == [];
    }
  }

  lemma HandlesDone(a: Actor, e: Inbound)
    requires e.Done? && a.state != CancelPending
    ensures HandleEvent(a, e) == HandleDone(a)
  {
  }

  lemma OtherEvents(a: Actor, e: Inbound)
    requires a.state == CancelPending || !(e.Pcm? || e.AudioStart? || e.Done?)
    ensures Unasked(a, HandleEvent(a, e))
  {
    if e.Error? { ErrorTalks(a, e); }
    CompleteTalks(a);
    FinishTalks(a);
    MarksIdle(a, e.ids);
    assert Unasked(a, CompleteCancel(a)) && Unasked(a, FinishTurn(a));
    hide Unasked, HandleError, CompleteCancel, FinishTurn, LoseConnection, AbortCurrent, ResetListener;
    hide HandleDone, Ask, ResetBargeProbe, Call;
  }

  lemma MarksIdle(a: Actor, ids: WireIds)
    ensures Unasked(a, a) && Unasked(a, a.(response := ids))
    ensures Unasked(a, ResetListener(a.(turn := WireIds(ids.session, 1, 1, ids.epoch), pre := [])))
  {
  }

  /** Taking the oldest event, in a state where it is allowed. */
  lemma TakeFine(a: Actor, k: nat)
    requires S.Ok(a, k) && k < EVENTS_PER_FRAME && a.queue.items != [] && Fine(a)
    requires Asked(a.hist.calls) == Requests(a.hist.acted)
    ensures Fine(HandleOne(a)) && Asked(HandleOne(a).hist.calls) == Requests(HandleOne(a).hist.acted)
  {
    var e, n := a.queue.items[0], S.Noted(a);
    var x := Acted(e, a.turn, a.state, a.queue.good);
    if e.Pcm? { S.OkAudioPlays(a, k); }
    assert n.hist == a.hist.(acted := a.hist.acted + [x]) && n.state == a.state && HandleOne(a) == HandleEvent(n, e);
    RequestMore(a.hist.acted, x);
    hide S.Ok, HandleEvent, HandleOne, S.Noted, Asked, Requests, Request, ToneOf, IntoOpenStream;
    EventAsks(n, e, x);
  }

  // ---------------------------------------------------------------------
  // Frames, deadlines and the loop
  // ---------------------------------------------------------------------

  lemma ConfirmTalks(a: Actor)
    ensures Talks(a, ConfirmBarge(a)) && Hushed(a.hist, ConfirmBarge(a).hist)
  {
    DropHushes(a.hist);
    var d := Call(a, DropPlayback);
    var a1 := d.(barge := a.barge.(probe := Idle, probeFrames := 0, cooldown := 0,
                                   admitted := true, ended := false, silence := 0, overflow := false),
                 finishAfterAck := false,
                 hist := d.hist.(atConfirm := a.pre, since := []));
    B.SendSame(a1, ResponseCancel, a.response);
    var b := SendControl(a1, ResponseCancel, a.response).0;
    LoseTalks(b);
    assert Hushed(a.hist, a1.hist);
    hide SendControl, LoseConnection, Hushed;
    Joins(a.hist, b.hist, LoseConnection(b).hist);
  }

  /** Fine, and the player asked for what was taken. */
  ghost predicate Tracks(a: Actor) { Fine(a) && Asked(a.hist.calls) == Requests(a.hist.acted) }

  lemma TracksAfter(a: Actor, b: Actor)
    requires Tracks(a)
    requires Unasked(a, b)
    ensures Tracks(b)
  {
    FineAfter(a, b);
    hide Fine, Asked, Requests, Talks, Hushed;
  }

  lemma BargeTracks(a: Actor, f: Frame)
    requires Tracks(a)
    ensures Tracks(HandleBarge(a, f))
  {
    ProbesIdle(a, f);
    var v := ProbeVerify(a, f);
    ConfirmTalks(v);
    hide ConfirmBarge, Confirms, BargeVoice, ProbeIdle, ProbeReference, ProbeClear, ProbeVerify, Tracks, Hushed;
    TracksAfter(a, v);
    TracksAfter(v, ConfirmBarge(v));
    TracksAfter(a, ProbeIdle(a, f));
    TracksAfter(a, ProbeReference(a, f));
    TracksAfter(a, ProbeClear(a, f));
    TracksAfter(a, ResetBargeProbe(a));
  }

  lemma ProbesIdle(a: Actor, f: Frame)
    ensures Idles(a, ProbeIdle(a, f)) && Idles(a, ProbeReference(a, f))
    ensures Idles(a, ProbeClear(a, f)) && Idles(a, ProbeVerify(a, f)) && Idles(a, ResetBargeProbe(a))
  {
    ProbesOnly(a, f);
    hide ProbeReference, ProbeClear, ProbeVerify;
    assert Idles(a, BeginProbe(a));
    hide BeginProbe, BargeVoice;
  }

  lemma ProbesOnly(a: Actor, f: Frame)
    ensures ProbeReference(a, f) == a.(barge := ProbeReference(a, f).barge)
    ensures ProbeClear(a, f) == a.(barge := ProbeClear(a, f).barge)
    ensures ProbeVerify(a, f) == a.(barge := ProbeVerify(a, f).barge)
  {
    T.RejectSame(a);
    hide BargeVoice, RejectBargeProbe;
  }

  lemma CapturingTalks(a: Actor, f: Frame)
    requires a.state == CapturingSpeech
    ensures Talks(a, OnCapturing(a, f))
  {
    var c := a.(barge := a.barge.(ended := false));
    SpeakTalks(a, f, false);
    CommitFrameTalks(a, f);
    CommitFrameTalks(c, f);
    hide SendAudioOrRecover, Commit, Hushed;
  }

  lemma CommitFrameTalks(a: Actor, f: Frame)
    requires a.state == CapturingSpeech
    ensures Talks(a, Commit(a, f))
  {
    SpeakTalks(a, f, true);
    var (b, ok) := SendAudioOrRecover(a, f, true);
    CommitTalks(b);
    hide SendAudioOrRecover, SendCommit, Hushed;
    if ok { TalksOn(a, b, SendCommit(b)); }
  }

  lemma DispatchTracks(a: Actor, f: Frame)
    requires Tracks(a)
    ensures Tracks(Dispatch(a, f))
  {
    if a.turn.session != 0 && B.Sounding(a.state) {
      BargeTracks(a, f);
      hide HandleBarge, Tracks;
    } else {
      DispatchTalks(a, f);
      hide Dispatch, Talks, Idles, Hushed, Tracks;
      TracksAfter(a, Dispatch(a, f));
    }
  }

  lemma DispatchTalks(a: Actor, f: Frame)
    requires a.turn.session != 0 ==> !B.Sounding(a.state)
    ensures Unasked(a, Dispatch(a, f))
  {
    PlainMoves(a, f);
    ListenMoves(a);
    NetMoves(a, f);
    hide Unasked, OnCapturing, StartTurn, ResetListener, BeginListening, TrackBargeUtterance, HandleBarge;
  }

  lemma NetMoves(a: Actor, f: Frame)
    ensures a.state == CapturingSpeech ==> Unasked(a, OnCapturing(a, f))
    ensures var n := a.(followUpNear := a.followUpNear + 1);
            a.state != PlayingResponse ==> Unasked(a, StartTurn(a, false)) && Unasked(a, StartTurn(n, false))
  {
    var n := a.(followUpNear := a.followUpNear + 1);
    if a.state == CapturingSpeech { CapturingTalks(a, f); }
    StartTalks(a, false);
    StartTalks(n, false);
    hide OnCapturing, StartTurn, Hushed;
  }

  lemma SameStart(a: Actor, n: Actor, b: Actor)
    requires n.hist == a.hist
    ensures Talks(n, b) ==> Talks(a, b)
  {
  }

  lemma ListenerOnly(a: Actor)
    ensures var b := ResetListener(a); b == a.(audio := b.audio, listenerFailed := b.listenerFailed)
  {
  }

  /** What Dispatch does without calling the network. */
  lemma PlainMoves(a: Actor, f: Frame)
    ensures Unasked(a, a) && Unasked(a, a.(followUpNear := 0)) && Unasked(a, a.(followUpNear := a.followUpNear + 1))
    ensures Unasked(a, ResetListener(a)) && Unasked(a, TrackBargeUtterance(a, f))
  {
    ListenerOnly(a);
    hide Talks, ResetListener;
  }

  lemma ListenMoves(a: Actor)
    ensures a.state != PlayingResponse ==>
              Unasked(a, BeginListening(a)) && Unasked(a, BeginListening(a.(manualWake := false)))
  {
    ListenerOnly(a.(state := WaitingForSpeech));
    ListenerOnly(a.(manualWake := false, state := WaitingForSpeech));
    hide Hushed, Idles, ResetListener;
  }

  lemma BufferIdles(a: Actor, f: Frame)
    ensures Idles(a, Buffer(Thaw(a, f), f))
  {
    hide SavePreRoll;
    var t := Thaw(a, f);
    var a1 := t.(hist := t.hist.(heard := t.hist.heard + [f]));
    B.SaveEffect(a1, f);
    B.SaveEffect(a1.(hist := a1.hist.(since := a1.hist.since + [f])), f);
  }

  lemma GiveUpTracks(a: Actor)
    requires Tracks(a)
    ensures Tracks(GiveUp(a))
  {
    AbortTalks(a);
    DropHushes(a.hist);
    var d := Call(a, DropPlayback).(state := WaitingForWake);
    ListenerOnly(d);
    hide ResetListener, AbortCurrent, Hushed, Tracks;
    assert Unasked(a, ResetListener(d)) && Unasked(a, AbortCurrent(a));
    assert Unasked(a, ResetBargeTurn(a).(finishAfterAck := true));
    hide ResetBargeTurn, Unasked;
    TracksAfter(a, GiveUp(a));
  }

  lemma FrameTracks(a: Actor, f: Frame)
    requires Tracks(a)
    ensures Tracks(OnFrame(a, f))
  {
    hide Dispatch, GiveUp, Buffer, Thaw;
    var a1 := a.(nextCapture := f.sequence + 1);
    TracksAfter(a, a1);
    TracksAfter(a1, Restart(a1.(pre := [])));
    GiveUpTracks(Restart(a1.(pre := [])));
    BufferIdles(a1, f);
    TracksAfter(a1, Buffer(Thaw(a1, f), f));
    DispatchTracks(Buffer(Thaw(a1, f), f), f);
    hide Tracks;
  }

  lemma DeadlinesTrack(a: Actor, c: Clock)
    requires Tracks(a)
    ensures Tracks(AdvanceDeadlines(a, c).0)
  {
    LoseTalks(a);
    FinishTalks(a);
    AbortTalks(a);
    ExpiryTalks(a);
    hide LoseConnection, EndTurn, AbortCurrent, ResetListener, Tracks, Hushed;
    TracksAfter(a, AdvanceDeadlines(a, c).0);
  }

  lemma ExpiryTalks(a: Actor)
    ensures Talks(a, ResetListener(a.(state := WaitingForWake, pre := []))) && Idles(a, a.(listenerFailed := true))
  {
  }

  lemma StepTracks(s: System, op: Op)
    requires S.Safe(s) && Tracks(s.a)
    ensures Tracks(Step(s, op).a)
  {
    hide Tracks, S.Safe;
    match op {
      case Network(n) =>
        hide OnNet;
        TracksAfter(s.a, Receive(s.a, n));
      case Begin(connect, started) => BeginTracks(s, connect, started);
      case Take => TakeTracks(s);
      case Poll(u) =>
        AbortTalks(s.a);
        hide AbortCurrent, Hushed;
        TracksAfter(s.a, PollUi(s.a, u));
      case CheckOverflow =>
        LoseTalks(s.a);
        hide LoseConnection, Hushed;
        TracksAfter(s.a, LoseConnection(s.a));
      case Finish(clock, frame) =>
        DeadlinesTrack(s.a, clock);
        var b := AdvanceDeadlines(s.a, clock).0;
        if frame.Some? {
          FrameTracks(b, frame.value);
          TracksAfter(b, Skip(b, frame.value));
        }
        hide AdvanceDeadlines, OnFrame;
    }
  }

  lemma TakeTracks(s: System)
    requires S.Safe(s) && Tracks(s.a)
    ensures Tracks(Step(s, Take).a)
  {
    hide HandleOne, S.Ok, Fine;
    if s.pc.Draining? && s.pc.pops < EVENTS_PER_FRAME && s.a.link.Some? && !s.a.listenerFailed
      && s.a.queue.items != [] {
      TakeFine(s.a, s.pc.pops);
    }
  }

  lemma OpensIdle(a: Actor)
    ensures Unasked(a, a.(link := Some(Fresh(a.config.uuid)), helloSent := false, hist := a.hist.(starts := [])))
  {
  }

  lemma BeginTracks(s: System, connect: bool, started: bool)
    requires Tracks(s.a)
    ensures Tracks(Step(s, Begin(connect, started)).a)
  {
    hide StartConnect, FinishConnect, Tracks;
    StartTracks(s.a, started);
    FinishTracks(if connect && s.a.link.None? then StartConnect(s.a, started) else s.a);
  }

  lemma StartTracks(a: Actor, started: bool)
    requires Tracks(a)
    ensures Tracks(StartConnect(a, started))
  {
    var o := a.(link := Some(Fresh(a.config.uuid)), helloSent := false, hist := a.hist.(starts := []));
    OpensIdle(a);
    LoseTalks(o);
    hide Tracks, LoseConnection, Hushed, Idles;
    TracksAfter(a, o);
    TracksAfter(o, LoseConnection(o));
  }

  lemma FinishTracks(a: Actor)
    requires Tracks(a)
    ensures Tracks(FinishConnect(a))
  {
    B.SendSame(a, Hello, ZERO_IDS);
    var c := SendControl(a, Hello, ZERO_IDS).0;
    LoseTalks(c);
    assert Unasked(a, c) && Unasked(c, c.(helloSent := true)) && Unasked(c, LoseConnection(c));
    hide Tracks, SendControl, LoseConnection, Unasked;
    TracksAfter(a, c);
    TracksAfter(c, LoseConnection(c));
    TracksAfter(c, c.(helloSent := true));
  }

  lemma {:induction false} RunTracks(s: System, ops: seq<Op>)
    requires S.Safe(s) && Tracks(s.a)
    ensures Tracks(Run(s, ops).a)
    decreases |ops|
  {
    hide S.Safe, Tracks, Step;
    if ops != [] {
      S.StepSafe(s, ops[0]);
      StepTracks(s, ops[0]);
      RunTracks(Step(s, ops[0]), ops[1..]);
    }
  }

  /**
   * In every run the player is asked for exactly the streams and the packets of
   * the events the actor took outside a cancel, in their order; every packet goes
   * into a stream that was begun and neither ended nor dropped, and no stream is
   * left open by a turn that is over or given up.
   */
  lemma PlayerGetsTheAnswer(config: Config, net: seq<Slot>, audio: seq<bool>, ops: seq<Op>)
    ensures var a := S.Device(config, net, audio, ops).a;
            && Asked(a.hist.calls) == Requests(a.hist.acted) && IntoOpenStream(a.hist.calls)
            && Tuned(a.state, ToneOf(a.hist.calls))
  {
    var s := System(Initial(config, net, audio), Top);
    assert S.Safe(s) && Tracks(s.a);
    RunTracks(s, ops);
    hide S.Safe, Run;
  }
}
