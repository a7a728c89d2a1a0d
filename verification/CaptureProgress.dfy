/** What is said goes out: speech opens a turn, every frame of it is sent once, and its end commits the turn. */
module CaptureProgress {
  import opened WireTypes
  import opened ClientTransport
  import opened VoiceActor
  import S = ActorSafety
  import P = TransportProofs
  import B = BargeIn
  import I = ActorInvariant
  import R = ActorResponse
  import U = BargeUpload

  // ---------------------------------------------------------------------
  // A network that takes what it is given
  // ---------------------------------------------------------------------

  predicate PingsOnly(ns: seq<NetEvent>) { forall i :: 0 <= i < |ns| ==> ns[i].Ping? }

  /** The next `n` messages are taken, with nothing but pings arriving meanwhile. */
  predicate Smooth(a: Actor, n: nat) {
    && n <= |a.net| && a.link.Some? && a.link.value.connected
    && forall i :: 0 <= i < n ==> a.net[i].reply == Taken && PingsOnly(a.net[i].before)
  }

  predicate Beats(q: Queue) { forall i :: 0 <= i < |q.items| ==> q.items[i].Heartbeat? }

  lemma {:induction false} PingsPass(a: Actor, ns: seq<NetEvent>)
    requires a.link.Some? && PingsOnly(ns)
    ensures var b := ReceiveAll(a, ns);
            b == a.(queue := b.queue) && (Beats(a.queue) ==> Beats(b.queue))
    decreases |ns|
  {
    if ns != [] {
      var b := Receive(a, ns[0]);
      assert b == a.(queue := Push(a.queue, Heartbeat(ZERO_IDS)));
      assert PingsOnly(ns[1..]);
      PingsPass(b, ns[1..]);
    }
  }

  lemma SmoothLock(a: Actor)
    requires Smooth(a, 1)
    ensures var b := Locked(a);
            && b == a.(net := a.net[1..], queue := b.queue) && NextSlot(a).reply == Taken
            && (Beats(a.queue) ==> Beats(b.queue))
  {
    PingsPass(a.(net := a.net[1..]), NextSlot(a).before);
  }

  lemma SmoothRest(a: Actor, b: Actor, n: nat)
    requires Smooth(a, n + 1) && b.net == a.net[1..] && b.link.Some? && b.link.value.connected
    ensures Smooth(b, n)
  {
  }

  // ---------------------------------------------------------------------
  // One message
  // ---------------------------------------------------------------------

  /** A control message the protocol allows now reaches the socket. */
  lemma ControlTaken(a: Actor, kind: ControlKind, ids: WireIds)
    requires Smooth(a, 1) && Allowed(a.link.value, Control(kind, ids, a.config.tokenValid))
    requires kind == ResponseCancel ==> !a.link.value.cancelSent
    ensures var (b, r) := SendControl(a, kind, ids);
            var t := a.link.value;
            var u := AfterControl(t.(sent := t.sent + [Ctl(kind, ids)]), Control(kind, ids, a.config.tokenValid));
            && r == Accepted && b == a.(link := Some(u), net := a.net[1..], queue := b.queue)
            && (Beats(a.queue) ==> Beats(b.queue))
  {
    SmoothLock(a);
    hide Locked, Allowed, AfterControl, Beats;
  }

  /** The transport stands where the actor does, in the middle of an utterance. */
  predicate Open(a: Actor) {
    && a.link.Some? && a.state == CapturingSpeech && a.turn.session != 0
    && var t := a.link.value;
       && t.connected && t.turn == a.turn && t.active && !t.committed && !t.uplinkEnded
       && t.upSeq == a.upSeq && a.upSeq < U32_MAX
  }

  /** A frame as captured: at most 320 samples. */
  predicate Proper(f: Frame) { 0 < |f.pcm| <= INPUT_FRAME_BYTES && |f.pcm| % BYTES_PER_SAMPLE == 0 }

  /** What one more frame changes. */
  function AfterFrame(a: Actor, f: Frame, end: bool): Transport
    requires a.link.Some?
  {
    var t := a.link.value;
    t.(upSeq := t.upSeq + 1, uplinkEnded := end,
       sent := t.sent + [Audio(a.turn, Flags(a.upSeq == 0, end), a.upSeq, f.pcm)])
  }

  lemma FrameTaken(a: Actor, f: Frame, end: bool)
    requires Smooth(a, 1) && Open(a) && Proper(f)
    ensures var (b, ok) := SendAudioOrRecover(a, f, end);
            && ok && b == a.(link := Some(AfterFrame(a, f, end)), net := a.net[1..], upSeq := a.upSeq + 1,
                             queue := b.queue)
            && (Beats(a.queue) ==> Beats(b.queue))
  {
    SmoothLock(a);
    assert PcmAllowed(a.link.value, a.turn, Flags(a.upSeq == 0, end), a.upSeq, f.pcm);
    hide Locked, PcmAllowed, Beats, AbortCurrent, LoseConnection;
  }

  // ---------------------------------------------------------------------
  // An utterance on the wire
  // ---------------------------------------------------------------------

  /** The frames as sent from number `k` on: START on the very first, END on the last if the utterance is over. */
  function OnWire(ids: WireIds, fs: seq<Frame>, k: nat, over: bool): seq<Uplink> {
    if fs == [] then []
    else
      var n := |fs| - 1;
      OnWire(ids, fs[..n], k, false) + [Audio(ids, Flags(k + n == 0, over), k + n, fs[n].pcm)]
  }

  lemma WireMore(ids: WireIds, fs: seq<Frame>, f: Frame, k: nat, over: bool)
    ensures OnWire(ids, fs + [f], k, over) ==
            OnWire(ids, fs, k, false) + [Audio(ids, Flags(k + |fs| == 0, over), k + |fs|, f.pcm)]
  {
    assert (fs + [f])[..|fs|] == fs;
  }

  lemma {:induction false} WireJoins(ids: WireIds, fs: seq<Frame>, gs: seq<Frame>, over: bool)
    requires gs != [] || !over
    ensures OnWire(ids, fs + gs, 0, over) == OnWire(ids, fs, 0, false) + OnWire(ids, gs, |fs|, over)
    decreases |gs|
  {
    if gs == [] {
      assert fs + gs == fs;
    } else {
      var n := |gs| - 1;
      assert (fs + gs)[..|fs| + n] == fs + gs[..n] && (fs + gs)[|fs| + n] == gs[n];
      WireJoins(ids, fs, gs[..n], false);
      var last := [Audio(ids, Flags(|fs| + n == 0, over), |fs| + n, gs[n].pcm)];
      assert OnWire(ids, fs + gs, 0, over) == OnWire(ids, fs + gs[..n], 0, false) + last;
      assert OnWire(ids, gs, |fs|, over) == OnWire(ids, gs[..n], |fs|, false) + last;
      hide OnWire;
      assert OnWire(ids, fs, 0, false) + (OnWire(ids, gs[..n], |fs|, false) + last)
             == (OnWire(ids, fs, 0, false) + OnWire(ids, gs[..n], |fs|, false)) + last;
    }
  }

  /** An utterance under way: `fs` went out behind `before`, numbered from `k`. */
  predicate Speaking(a: Actor, ids: WireIds, before: seq<Uplink>, k: nat, fs: seq<Frame>) {
    && Open(a) && a.turn == ids && a.upSeq == k + |fs|
    && a.link.value.sent == before + OnWire(ids, fs, k, false)
  }

  lemma SpeaksOn(a: Actor, f: Frame, ids: WireIds, before: seq<Uplink>, k: nat, fs: seq<Frame>)
    requires Smooth(a, 1) && Speaking(a, ids, before, k, fs) && Proper(f) && a.upSeq + 1 < U32_MAX
    ensures var (b, ok) := SendAudioOrRecover(a, f, false);
            ok && Speaking(b, ids, before, k, fs + [f]) && b.net == a.net[1..] && (Beats(a.queue) ==> Beats(b.queue))
            && b == a.(link := b.link, net := b.net, upSeq := b.upSeq, queue := b.queue)
  {
    FrameTaken(a, f, false);
    SentMore(a, f, ids, before, k, fs, false);
    hide SendAudioOrRecover, OnWire, Beats, Smooth, Flags;
  }

  /** The whole utterance is out and committed. */
  predicate Committed(a: Actor, ids: WireIds, before: seq<Uplink>, k: nat, fs: seq<Frame>) {
    && a.link.Some? && a.link.value.connected && a.state == WaitingForResponse && a.turn == ids
    && a.link.value.sent == before + OnWire(ids, fs, k, true) + [Ctl(TurnCommit, ids)]
  }

  lemma CommitTaken(a: Actor)
    requires Smooth(a, 1) && a.link.value.active && !a.link.value.committed && a.link.value.uplinkEnded
    requires a.turn == a.link.value.turn
    ensures var b := SendCommit(a); var t := a.link.value;
            && b == a.(link := Some(t.(committed := true, sent := t.sent + [Ctl(TurnCommit, a.turn)])),
                       net := a.net[1..], queue := b.queue, state := WaitingForResponse)
            && (Beats(a.queue) ==> Beats(b.queue))
  {
    ControlTaken(a, TurnCommit, a.turn);
    hide SendControl, LoseConnection, Beats;
  }

  /** The last frame and the commit. */
  lemma EndTaken(a: Actor, f: Frame)
    requires Smooth(a, 2) && Open(a) && Proper(f)
    ensures var b, t := Commit(a, f), AfterFrame(a, f, true);
            && b == a.(link := Some(t.(committed := true, sent := t.sent + [Ctl(TurnCommit, a.turn)])),
                       net := a.net[2..], upSeq := a.upSeq + 1, queue := b.queue, state := WaitingForResponse)
            && (Beats(a.queue) ==> Beats(b.queue))
  {
    FrameTaken(a, f, true);
    var b := SendAudioOrRecover(a, f, true).0;
    SmoothRest(a, b, 1);
    hide SendAudioOrRecover, Beats, Smooth;
    CommitTaken(b);
    hide SendCommit;
    assert a.net[1..][1..] == a.net[2..];
  }

  lemma SpeaksLast(a: Actor, f: Frame, ids: WireIds, before: seq<Uplink>, k: nat, fs: seq<Frame>)
    requires Smooth(a, 2) && Speaking(a, ids, before, k, fs) && Proper(f)
    ensures var b := Commit(a, f);
            && Committed(b, ids, before, k, fs + [f]) && (Beats(a.queue) ==> Beats(b.queue))
            && Unchanged(a, b) && b.net == a.net[2..]
  {
    EndTaken(a, f);
    EndFacts(a, f);
    SentMore(a, f, ids, before, k, fs, true);
    hide Commit, AfterFrame, OnWire, Beats, Smooth, Flags;
  }

  /** One more frame in the log. */
  lemma SentMore(a: Actor, f: Frame, ids: WireIds, before: seq<Uplink>, k: nat, fs: seq<Frame>, over: bool)
    requires Speaking(a, ids, before, k, fs)
    ensures a.link.value.sent + [Audio(a.turn, Flags(a.upSeq == 0, over), a.upSeq, f.pcm)]
            == before + OnWire(ids, fs + [f], k, over)
  {
    WireMore(ids, fs, f, k, over);
    hide OnWire, Flags;
    var last := [Audio(ids, Flags(k + |fs| == 0, over), k + |fs|, f.pcm)];
    assert before + OnWire(ids, fs, k, false) + last == before + (OnWire(ids, fs, k, false) + last);
  }

  lemma EndFacts(a: Actor, f: Frame)
    requires Open(a)
    ensures var t := AfterFrame(a, f, true);
            t.connected && t.sent == a.link.value.sent + [Audio(a.turn, Flags(a.upSeq == 0, true), a.upSeq, f.pcm)]
  {
  }

  // ---------------------------------------------------------------------
  // Frames of the utterance
  // ---------------------------------------------------------------------

  /** What uploading leaves alone. */
  ghost predicate Unchanged(a: Actor, b: Actor) {
    && b.helloSent == a.helloSent && b.listenerFailed == a.listenerFailed && b.turn == a.turn
    && b.config == a.config && b.audio == a.audio
  }

  /** The frame is the next one on the capture timeline. */
  predicate Expected(a: Actor, f: Frame) { !f.discontinuity && f.sequence == a.nextCapture }

  /** The utterance ends with this frame. */
  predicate Over(a: Actor, f: Frame) { a.upSeq + 1 >= 3000 || a.barge.ended || f.vadEnded }

  lemma CapturedFrame(a: Actor, f: Frame)
    requires Expected(a, f) && Open(a)
    ensures var b := a.(nextCapture := f.sequence + 1, hist := a.hist.(heard := a.hist.heard + [f]));
            OnFrame(a, f) == OnCapturing(b, f) && Open(b)
  {
    hide OnCapturing, SavePreRoll;
  }

  lemma FrameGoesOut(a: Actor, f: Frame, ids: WireIds, before: seq<Uplink>, k: nat, fs: seq<Frame>)
    requires Smooth(a, 1) && Speaking(a, ids, before, k, fs) && Proper(f) && Expected(a, f) && !Over(a, f)
    ensures var b := OnFrame(a, f);
            && Speaking(b, ids, before, k, fs + [f]) && b.net == a.net[1..] && Unchanged(a, b)
            && (Beats(a.queue) ==> Beats(b.queue))
  {
    CapturedFrame(a, f);
    var c := a.(nextCapture := f.sequence + 1, hist := a.hist.(heard := a.hist.heard + [f]));
    SpeaksOn(c, f, ids, before, k, fs);
    hide OnFrame, SendAudioOrRecover, Speaking, Beats, Smooth;
  }

  lemma LastFrameGoesOut(a: Actor, f: Frame, ids: WireIds, before: seq<Uplink>, k: nat, fs: seq<Frame>)
    requires Smooth(a, 2) && Speaking(a, ids, before, k, fs) && Proper(f) && Expected(a, f) && Over(a, f)
    ensures var b := OnFrame(a, f);
            && Committed(b, ids, before, k, fs + [f]) && b.net == a.net[2..] && Unchanged(a, b)
            && (Beats(a.queue) ==> Beats(b.queue))
  {
    CapturedFrame(a, f);
    var c := a.(nextCapture := f.sequence + 1, hist := a.hist.(heard := a.hist.heard + [f]));
    var d := c.(barge := c.barge.(ended := false));
    SpeaksLast(c, f, ids, before, k, fs);
    SpeaksLast(d, f, ids, before, k, fs);
    hide OnFrame, Commit, Speaking, Committed, Beats, Smooth;
  }

  // ---------------------------------------------------------------------
  // Undisturbed runs
  // ---------------------------------------------------------------------

  predicate Calm(c: Clock) { !c.stateExpired && !c.heartbeatExpired }

  /** Nothing from outside ends the turn: pings, no touch, no deadline, no gap in the capture, no overflow. */
  predicate Gentle(s: System, op: Op) {
    match op
    case Network(n) => n.Ping?
    case Poll(u) => u == NoAction
    case CheckOverflow => !s.a.queue.overflow
    case Finish(c, f) => Calm(c) && (f.Some? ==> Expected(s.a, f.value) && Proper(f.value))
    case _ => true
  }

  /** The frame an operation hands to the actor. */
  function Handed(s: System, op: Op): seq<Frame> {
    if op.Finish? && op.frame.Some? && s.pc == Checked then [op.frame.value] else []
  }

  function Given(s: System, ops: seq<Op>): seq<Frame>
    decreases |ops|
  {
    if ops == [] then [] else Handed(s, ops[0]) + Given(Step(s, ops[0]), ops[1..])
  }

  /** The speaker goes on. */
  predicate Talking(s: System, ops: seq<Op>)
    decreases |ops|
  {
    ops == [] || (&& Gentle(s, ops[0])
                  && (Handed(s, ops[0]) != [] ==> !Over(s.a, ops[0].frame.value))
                  && Talking(Step(s, ops[0]), ops[1..]))
  }

  predicate Ready(s: System) { s.a.link.Some? && s.a.helloSent && !s.a.listenerFailed && Beats(s.a.queue) }

  /** Without a frame a gentle operation moves nothing but the queue of heartbeats, and the loop. */
  ghost predicate Ticks(a: Actor, b: Actor) {
    && b == a.(queue := b.queue, hist := b.hist) && b.hist == a.hist.(acted := b.hist.acted)
    && (Beats(a.queue) ==> Beats(b.queue))
  }

  lemma BeatTaken(a: Actor)
    requires Beats(a.queue) && a.queue.items != []
    ensures Ticks(a, HandleOne(a))
  {
    var e := a.queue.items[0];
    var n := S.Noted(a);
    assert HandleOne(a) == HandleEvent(n, e) == n by { hide HandleError, HandleDone, CompleteCancel, FinishTurn; }
    hide HandleOne, HandleEvent;
  }

  lemma FrameAtOnce(s: System, c: Clock, f: Frame)
    requires s.pc == Checked && Ready(s) && Calm(c) && s.a.turn.session != 0
    requires s.a.state == DrainingPlayback ==> !c.playbackDone
    ensures Step(s, Finish(c, Some(f))) == At(OnFrame(s.a, f), Top)
  {
    hide OnFrame, AbortCurrent, LoseConnection, EndTurn, ResetListener;
  }

  lemma TickKeeps(s: System, op: Op)
    requires Ready(s) && Gentle(s, op) && Handed(s, op) == [] && s.a.turn.session != 0
    requires op.Finish? && s.a.state == DrainingPlayback ==> !op.clock.playbackDone
    ensures var t := Step(s, op); Ticks(s.a, t.a) && Ready(t)
  {
    match op {
      case Network(n) =>
        assert Receive(s.a, n) == s.a.(queue := Push(s.a.queue, Heartbeat(ZERO_IDS)));
      case Begin(connect, started) =>
        hide SendControl, LoseConnection;
      case Take =>
        hide HandleOne;
        if s.a.queue.items != [] { BeatTaken(s.a); }
      case Poll(u) => hide AbortCurrent;
      case CheckOverflow => hide LoseConnection;
      case Finish(clock, frame) =>
        hide OnFrame, AbortCurrent, LoseConnection, EndTurn, ResetListener;
    }
  }

  lemma StepTalks(s: System, op: Op, ids: WireIds, before: seq<Uplink>, k: nat, fs: seq<Frame>)
    requires Ready(s) && Speaking(s.a, ids, before, k, fs) && Gentle(s, op)
    requires Handed(s, op) != [] ==> !Over(s.a, op.frame.value) && Smooth(s.a, 1)
    ensures var t := Step(s, op);
            && Ready(t) && Speaking(t.a, ids, before, k, fs + Handed(s, op))
            && t.a.net == s.a.net[|Handed(s, op)|..]
  {
    if Handed(s, op) == [] {
      TickKeeps(s, op);
      hide Step, OnWire, Gentle, Beats;
      assert fs + [] == fs && s.a.net[0..] == s.a.net;
    } else {
      FrameAtOnce(s, op.clock, op.frame.value);
      FrameGoesOut(s.a, op.frame.value, ids, before, k, fs);
      hide OnFrame, Step, OnWire, Beats;
    }
  }

  lemma SmoothOn(a: Actor, b: Actor, n: nat, m: nat)
    requires Smooth(a, n + m) && b.net == a.net[n..] && b.link.Some? && b.link.value.connected
    ensures Smooth(b, m)
  {
    forall i | 0 <= i < m ensures b.net[i] == a.net[n + i] {
    }
  }

  lemma OneHanded(s: System, op: Op)
    ensures |Handed(s, op)| <= 1 && (Handed(s, op) != [] ==> op.Finish? && op.frame.Some?)
  {
  }

  lemma SpeakingUp(a: Actor, ids: WireIds, before: seq<Uplink>, k: nat, fs: seq<Frame>)
    requires Speaking(a, ids, before, k, fs)
    ensures a.link.Some? && a.link.value.connected && a.upSeq == k + |fs|
  {
  }

  lemma NotOver(a: Actor, f: Frame)
    requires !Over(a, f)
    ensures a.upSeq + 1 < MAXIMUM_TURN_FRAMES
  {
  }

  lemma {:induction false} RunTalks(s: System, ops: seq<Op>, ids: WireIds, before: seq<Uplink>, k: nat, fs: seq<Frame>,
                                    m: nat)
    requires Ready(s) && Speaking(s.a, ids, before, k, fs) && Talking(s, ops) && Smooth(s.a, |Given(s, ops)| + m)
    ensures var t := Run(s, ops);
            && Ready(t) && Speaking(t.a, ids, before, k, fs + Given(s, ops)) && Smooth(t.a, m)
            && (Given(s, ops) != [] ==> k + |fs| + |Given(s, ops)| < MAXIMUM_TURN_FRAMES)
    decreases |ops|
  {
    hide Ready, Step, Gentle, Smooth, Over, OnWire, Handed, Speaking;
    if ops == [] {
      assert fs + [] == fs;
    } else {
      var t := Step(s, ops[0]);
      FirstTalks(s, ops, ids, before, k, fs, m);
      GivenOn(s, ops);
      OneHanded(s, ops[0]);
      hide Run, Given, Talking;
      RunTalks(t, ops[1..], ids, before, k, fs + Handed(s, ops[0]), m);
      assert fs + Handed(s, ops[0]) + Given(t, ops[1..]) == fs + (Handed(s, ops[0]) + Given(t, ops[1..]));
    }
  }

  lemma GivenOn(s: System, ops: seq<Op>)
    requires ops != []
    ensures Given(s, ops) == Handed(s, ops[0]) + Given(Step(s, ops[0]), ops[1..])
    ensures Run(s, ops) == Run(Step(s, ops[0]), ops[1..])
  {
    hide Step, Handed;
  }

  lemma SmoothLess(a: Actor, n: nat, m: nat)
    requires Smooth(a, n)
    ensures m <= n ==> Smooth(a, m)
  {
  }

  lemma FirstTalks(s: System, ops: seq<Op>, ids: WireIds, before: seq<Uplink>, k: nat, fs: seq<Frame>, m: nat)
    requires ops != [] && Ready(s) && Speaking(s.a, ids, before, k, fs) && Talking(s, ops)
    requires Smooth(s.a, |Given(s, ops)| + m)
    ensures var t := Step(s, ops[0]);
            && Ready(t) && Speaking(t.a, ids, before, k, fs + Handed(s, ops[0]))
            && Talking(t, ops[1..]) && Smooth(t.a, |Given(t, ops[1..])| + m)
            && (Handed(s, ops[0]) != [] ==> k + |fs| + 1 < MAXIMUM_TURN_FRAMES)
  {
    hide Step, Over, OnWire, Gentle, Smooth, Handed, Speaking, Ready;
    var n := |Handed(s, ops[0])|;
    var t := Step(s, ops[0]);
    GivenOn(s, ops);
    OneHanded(s, ops[0]);
    SpeakingUp(s.a, ids, before, k, fs);
    if Handed(s, ops[0]) != [] { NotOver(s.a, ops[0].frame.value); }
    SmoothLess(s.a, n + |Given(t, ops[1..])| + m, 1);
    StepTalks(s, ops[0], ids, before, k, fs);
    SpeakingUp(t.a, ids, before, k, fs + Handed(s, ops[0]));
    SmoothOn(s.a, t.a, n, |Given(t, ops[1..])| + m);
  }

  // ---------------------------------------------------------------------
  // A turn opens with what was buffered
  // ---------------------------------------------------------------------

  ghost predicate AllProper(fs: seq<Frame>) { forall i :: 0 <= i < |fs| ==> Proper(fs[i]) }

  /** The buffered frames are out, the last one with END if the utterance is over. */
  predicate Uploaded(a: Actor, ids: WireIds, before: seq<Uplink>, fs: seq<Frame>, over: bool) {
    && a.link.Some? && a.state == CapturingSpeech && a.turn == ids
    && var t := a.link.value;
       && t.connected && t.turn == ids && t.active && !t.committed && t.uplinkEnded == over
       && t.sent == before + OnWire(ids, fs, 0, over)
  }

  lemma SpeaksEnd(a: Actor, f: Frame, ids: WireIds, before: seq<Uplink>, fs: seq<Frame>)
    requires Smooth(a, 1) && Speaking(a, ids, before, 0, fs) && Proper(f)
    ensures var (b, ok) := SendAudioOrRecover(a, f, true);
            && ok && Uploaded(b, ids, before, fs + [f], true) && b.net == a.net[1..] && Unchanged(a, b)
            && (Beats(a.queue) ==> Beats(b.queue))
  {
    hide SendAudioOrRecover, OnWire, Beats, Smooth, Flags;
    FrameTaken(a, f, true);
    SentMore(a, f, ids, before, 0, fs, true);
  }

  lemma SpeakingIsUp(a: Actor, ids: WireIds, before: seq<Uplink>, k: nat, fs: seq<Frame>)
    requires Speaking(a, ids, before, k, fs)
    ensures a.link.Some? && a.link.value.connected && a.upSeq == k + |fs|
    ensures k == 0 ==> Uploaded(a, ids, before, fs, false)
  {
  }

  lemma {:induction false} UploadTaken(a: Actor, frames: seq<Frame>, i: nat, ended: bool, ids: WireIds,
                                       before: seq<Uplink>)
    requires i <= |frames| < U32_MAX && (ended ==> i < |frames|) && AllProper(frames)
    requires Smooth(a, |frames| - i) && Speaking(a, ids, before, 0, frames[..i])
    ensures var (b, ok) := Upload(a, frames, i, ended);
            && ok && Uploaded(b, ids, before, frames, ended) && b.net == a.net[|frames| - i..] && Unchanged(a, b)
            && (Beats(a.queue) ==> Beats(b.queue)) && (!ended ==> Speaking(b, ids, before, 0, frames))
    decreases |frames| - i
  {
    hide SendAudioOrRecover, OnWire, Beats, Smooth, Speaking, Uploaded;
    SpeakingIsUp(a, ids, before, 0, frames[..i]);
    if i == |frames| {
      assert frames[..i] == frames && a.net[0..] == a.net;
    } else {
      assert frames[..i] + [frames[i]] == frames[..i + 1];
      SmoothLess(a, |frames| - i, 1);
      if ended && i + 1 == |frames| {
        SpeaksEnd(a, frames[i], ids, before, frames[..i]);
        assert frames[..i + 1] == frames;
      } else {
        SpeaksOn(a, frames[i], ids, before, 0, frames[..i]);
        var b := SendAudioOrRecover(a, frames[i], false).0;
        SpeakingIsUp(b, ids, before, 0, frames[..i + 1]);
        SmoothOn(a, b, 1, |frames| - i - 1);
        UploadTaken(b, frames, i + 1, ended, ids, before);
        assert a.net[1..][|frames| - i - 1..] == a.net[|frames| - i..];
      }
    }
  }

  lemma StartTaken(a: Actor)
    requires Smooth(a, 1) && TurnStartAllowed(a.link.value, a.turn)
    ensures var (b, r) := IssueStart(a);
            var c := b.(upSeq := 0, state := CapturingSpeech);
            && r == Accepted && c.pre == a.pre && c.net == a.net[1..] && Unchanged(a, c)
            && Speaking(c, a.turn, a.link.value.sent + [Ctl(TurnStart, a.turn)], 0, [])
            && (Beats(a.queue) ==> Beats(c.queue))
  {
    ControlTaken(a, TurnStart, a.turn);
    var before := a.link.value.sent + [Ctl(TurnStart, a.turn)];
    assert before + OnWire(a.turn, [], 0, false) == before;
    hide SendControl, Beats, Smooth;
  }

  /** How many messages the opening of a turn takes. */
  function OpeningMessages(frames: seq<Frame>, ended: bool): nat { 1 + |frames| + (if ended then 1 else 0) }

  lemma UploadedCommits(a: Actor, ids: WireIds, before: seq<Uplink>, fs: seq<Frame>)
    requires Smooth(a, 1) && Uploaded(a, ids, before, fs, true)
    ensures var b := SendCommit(a);
            && Committed(b, ids, before, 0, fs) && b.net == a.net[1..] && Unchanged(a, b)
            && (Beats(a.queue) ==> Beats(b.queue))
  {
    hide SendCommit, OnWire, Beats, Smooth;
    CommitTaken(a);
  }

  lemma StartGoesOut(a: Actor, ended: bool)
    requires Smooth(a, OpeningMessages(a.pre, ended)) && TurnStartAllowed(a.link.value, a.turn)
    requires AllProper(a.pre) && |a.pre| < U32_MAX && (ended ==> a.pre != [])
    ensures var b := StartTurn(a, ended);
            var before := a.link.value.sent + [Ctl(TurnStart, a.turn)];
            && (if ended then Committed(b, a.turn, before, 0, a.pre) else Speaking(b, a.turn, before, 0, a.pre))
            && b.net == a.net[OpeningMessages(a.pre, ended)..] && Unchanged(a, b) && b.pre == []
            && (Beats(a.queue) ==> Beats(b.queue))
  {
    var before := a.link.value.sent + [Ctl(TurnStart, a.turn)];
    SmoothLess(a, OpeningMessages(a.pre, ended), 1);
    StartTaken(a);
    hide IssueStart, Upload, SendCommit, OnWire, Beats, Smooth, Speaking, Uploaded, Committed, LoseConnection;
    var c := IssueStart(a).0.(upSeq := 0, state := CapturingSpeech);
    SpeakingIsUp(c, a.turn, before, 0, []);
    SmoothOn(a, c, 1, |a.pre| + (if ended then 1 else 0));
    SmoothLess(c, |a.pre| + (if ended then 1 else 0), |a.pre|);
    assert a.pre[..0] == [];
    UploadTaken(c, a.pre, 0, ended, a.turn, before);
    var d := Upload(c, a.pre, 0, ended).0;
    var e := d.(pre := []);
    Emptied(d, a.turn, before, a.pre, ended);
    assert a.net[1..][|a.pre|..] == a.net[1 + |a.pre|..];
    if ended {
      SmoothOn(c, e, |a.pre|, 1);
      UploadedCommits(e, a.turn, before, a.pre);
      CommitKeepsRing(e);
      assert a.net[1 + |a.pre|..][1..] == a.net[OpeningMessages(a.pre, ended)..];
    }
  }

  lemma CommitKeepsRing(a: Actor)
    requires a.pre == []
    ensures SendCommit(a).pre == []
  {
    hide SendControl;
    B.SendSame(a, TurnCommit, a.turn);
  }

  lemma Emptied(a: Actor, ids: WireIds, before: seq<Uplink>, fs: seq<Frame>, over: bool)
    requires Uploaded(a, ids, before, fs, over)
    ensures var b := a.(pre := []);
            && Uploaded(b, ids, before, fs, over) && Unchanged(a, b) && b.link.Some? && b.link.value.connected
            && (Speaking(a, ids, before, 0, fs) ==> Speaking(b, ids, before, 0, fs))
  {
  }

  // ---------------------------------------------------------------------
  // Main results
  // ---------------------------------------------------------------------

  /** The actor's and the transport's invariant make the middle of an utterance an open one. */
  lemma CapturingIsOpen(s: System)
    requires S.Safe(s) && Ready(s) && s.a.state == CapturingSpeech && !s.a.queue.overflow
    requires s.a.link.value.connected && s.a.upSeq < U32_MAX
    ensures Open(s.a)
  {
    var a, k := s.a, S.Taken(s.pc);
    hide S.Ok, S.Taken;
    S.OpenTurn(a, k);
    S.LiveLinked(a, k);
    hide S.Live, S.Told, Beats;
    OpenFacts(a, k);
  }

  lemma OpenFacts(a: Actor, k: nat)
    requires S.Live(a, k) && S.In(a) && S.Told(a) && S.Unended(a) && Beats(a.queue) && !a.queue.overflow
    requires a.state == CapturingSpeech && a.link.value.connected && a.upSeq < U32_MAX
    ensures Open(a)
  {
    S.InFacts(a, k);
    var t := a.link.value;
    assert R.Follows(t, a.queue, a.response, a.state) by { hide R.Follows, S.HistOk, P.Sound; }
    hide I.Core, S.HistOk, R.Announced, R.Finished, R.Knows, R.Unheard;
    S.DoneCommitted(t);
    hide P.Sound;
    assert !R.TurnBroken(a.queue.items);
  }

  lemma SpeakingHere(a: Actor)
    requires Open(a)
    ensures Speaking(a, a.turn, a.link.value.sent, a.upSeq, [])
  {
  }

  /** The last frame of an utterance, at the end of a loop iteration. */
  predicate EndsWith(s: System, c: Clock, f: Frame) {
    s.pc == Checked && Calm(c) && Expected(s.a, f) && Proper(f) && Over(s.a, f)
  }

  lemma LastGoesOut(s: System, c: Clock, f: Frame, ids: WireIds, before: seq<Uplink>, k: nat, fs: seq<Frame>)
    requires Ready(s) && Speaking(s.a, ids, before, k, fs) && Smooth(s.a, 2) && EndsWith(s, c, f)
    ensures Committed(Step(s, Finish(c, Some(f))).a, ids, before, k, fs + [f])
  {
    hide OnFrame, Committed, OnWire, Beats, Smooth;
    FrameAtOnce(s, c, f);
    LastFrameGoesOut(s.a, f, ids, before, k, fs);
    hide Step;
  }

  /**
   * While a network takes what it is given and nothing ends the turn from outside,
   * every frame captured in it goes out once, in order and numbered on; the frame
   * that ends the utterance, by the voice detector or at the 3000th, carries END
   * and is followed by the commit.
   */
  lemma UtteranceGoesOut(config: Config, net: seq<Slot>, audio: seq<bool>, ops: seq<Op>, more: seq<Op>,
                         c: Clock, f: Frame)
    requires var s := S.Device(config, net, audio, ops);
             && Ready(s) && s.a.state == CapturingSpeech && !s.a.queue.overflow && s.a.upSeq < U32_MAX
             && Talking(s, more) && EndsWith(Run(s, more), c, f) && Smooth(s.a, |Given(s, more)| + 2)
    ensures var s := S.Device(config, net, audio, ops);
            var before, fs := s.a.link.value.sent, Given(s, more);
            && Speaking(Run(s, more).a, s.a.turn, before, s.a.upSeq, fs)
            && Committed(Step(Run(s, more), Finish(c, Some(f))).a, s.a.turn, before, s.a.upSeq, fs + [f])
  {
    hide Run, Step, Smooth, Talking, Speaking, Committed, Given, EndsWith, Ready;
    S.DeviceSafe(config, net, audio, ops);
    var s := S.Device(config, net, audio, ops);
    hide S.Device, S.Safe;
    SmoothUp(s.a, |Given(s, more)| + 2);
    CapturingIsOpen(s);
    SpeakingHere(s.a);
    RunTalks(s, more, s.a.turn, s.a.link.value.sent, s.a.upSeq, [], 2);
    assert [] + Given(s, more) == Given(s, more);
    LastGoesOut(Run(s, more), c, f, s.a.turn, s.a.link.value.sent, s.a.upSeq, Given(s, more));
  }

  lemma SmoothUp(a: Actor, n: nat)
    requires Smooth(a, n)
    ensures a.link.Some? && a.link.value.connected
  {
  }

  /** The frame opens a turn: speech after the wake word, or the twentieth near frame in a row after an answer. */
  predicate Opens(a: Actor, f: Frame) {
    && a.turn.session != 0
    && ((a.state == WaitingForSpeech && f.vadStarted)
        || (a.state == WaitingForFollowUp && f.nearVoice && a.followUpNear + 1 >= FOLLOW_UP_NEAR_FRAMES))
  }

  /** The pre-roll with one frame more: the newest 25, or as many as are still held from an interruption. */
  function Ring(pre: seq<Frame>, f: Frame): seq<Frame> {
    if |pre| < 25 then pre + [f] else (pre + [f])[1..]
  }

  /** The actor with one more frame in its ring. */
  function Buffered(a: Actor, f: Frame): Actor {
    a.(nextCapture := f.sequence + 1, hist := a.hist.(heard := a.hist.heard + [f]), pre := Ring(a.pre, f))
  }

  lemma RestingFrame(a: Actor, f: Frame)
    requires Expected(a, f) && a.barge.probe == Idle && a.state != CancelPending && a.state != CapturingSpeech
    ensures OnFrame(a, f) == Dispatch(Buffered(a, f), f)
  {
    hide Dispatch;
  }

  /** The actor as it opens its turn. */
  function AtOpening(a: Actor, f: Frame): Actor {
    Buffered(a, f).(followUpNear := if a.state == WaitingForFollowUp then a.followUpNear + 1 else a.followUpNear)
  }

  lemma OpeningFrame(a: Actor, f: Frame)
    requires Expected(a, f) && Opens(a, f) && a.barge.probe == Idle
    ensures OnFrame(a, f) == StartTurn(AtOpening(a, f), false)
  {
    hide StartTurn, OnFrame, Buffered, Dispatch;
    RestingFrame(a, f);
    if a.state == WaitingForSpeech { SpeechOpens(a, f); } else { VoiceOpens(a, f); }
  }

  lemma SpeechOpens(a: Actor, f: Frame)
    requires Opens(a, f) && a.state == WaitingForSpeech
    ensures Dispatch(Buffered(a, f), f) == StartTurn(AtOpening(a, f), false)
  {
    hide StartTurn, Ring;
  }

  lemma VoiceOpens(a: Actor, f: Frame)
    requires Opens(a, f) && a.state == WaitingForFollowUp
    ensures Dispatch(Buffered(a, f), f) == StartTurn(AtOpening(a, f), false)
  {
    hide StartTurn, Ring;
  }

  lemma OpeningGoesOut(s: System, c: Clock, f: Frame)
    requires s.pc == Checked && Ready(s) && Calm(c) && Expected(s.a, f) && Opens(s.a, f) && s.a.barge.probe == Idle
    requires TurnStartAllowed(s.a.link.value, s.a.turn)
    requires AllProper(Ring(s.a.pre, f)) && |s.a.pre| <= BARGE_BUFFER_FRAMES
    requires Smooth(s.a, 1 + |Ring(s.a.pre, f)|)
    ensures var t := Step(s, Finish(c, Some(f)));
            && Ready(t) && t.pc == Top
            && Speaking(t.a, s.a.turn, s.a.link.value.sent + [Ctl(TurnStart, s.a.turn)], 0, Ring(s.a.pre, f))
            && t.a.net == s.a.net[1 + |Ring(s.a.pre, f)|..]
  {
    hide OnFrame, OnWire, Beats, AllProper, StartTurn, TurnStartAllowed;
    FrameAtOnce(s, c, f);
    hide Step;
    OpeningFrame(s.a, f);
    var b := AtOpening(s.a, f);
    hide Ring;
    RingSize(s.a.pre, f);
    SmoothOn(s.a, s.a, 0, 1 + |b.pre|);
    SameSmooth(s.a, b, 1 + |b.pre|);
    StartGoesOut(b, false);
    SpeakingIsUp(StartTurn(b, false), b.turn, b.link.value.sent + [Ctl(TurnStart, b.turn)], 0, b.pre);
  }

  lemma RingSize(pre: seq<Frame>, f: Frame)
    ensures |Ring(pre, f)| <= |pre| + 1 && Ring(pre, f) != []
  {
  }

  lemma SameSmooth(a: Actor, b: Actor, n: nat)
    requires Smooth(a, n) && b.link == a.link && b.net == a.net
    ensures Smooth(b, n)
  {
  }

  /**
   * A question asked while nothing disturbs it goes out whole: the start of the
   * turn, the pre-roll with the frame that opened it, every further frame in
   * order, END on the last, and the commit.
   */
  lemma QuestionGoesOut(config: Config, net: seq<Slot>, audio: seq<bool>, ops: seq<Op>, c: Clock, f: Frame,
                        more: seq<Op>, d: Clock, g: Frame)
    requires var s := S.Device(config, net, audio, ops);
             var t := Step(s, Finish(c, Some(f)));
             && s.pc == Checked && Ready(s) && Calm(c) && Expected(s.a, f) && Opens(s.a, f)
             && AllProper(Ring(s.a.pre, f))
             && Talking(t, more) && EndsWith(Run(t, more), d, g)
             && Smooth(s.a, 1 + |Ring(s.a.pre, f)| + |Given(t, more)| + 2)
    ensures var s := S.Device(config, net, audio, ops);
            var t := Step(s, Finish(c, Some(f)));
            && Committed(Step(Run(t, more), Finish(d, Some(g))).a, s.a.turn,
                         s.a.link.value.sent + [Ctl(TurnStart, s.a.turn)], 0, Ring(s.a.pre, f) + Given(t, more) + [g])
            && ValidIds(s.a.turn) && |Ring(s.a.pre, f) + Given(t, more) + [g]| <= MAXIMUM_TURN_FRAMES
  {
    hide Run, Step, Smooth, Talking, Speaking, Committed, Given, EndsWith, Ring, AllProper, Expected, Calm;
    S.DeviceSafe(config, net, audio, ops);
    U.DeviceBarge(config, net, audio, ops);
    var s := S.Device(config, net, audio, ops);
    hide S.Device;
    var t := Step(s, Finish(c, Some(f)));
    var ring, rest := Ring(s.a.pre, f), Given(t, more);
    var before := s.a.link.value.sent + [Ctl(TurnStart, s.a.turn)];
    S.IdleAtRest(s.a, S.Taken(s.pc));
    assert ValidIds(s.a.turn);
    hide S.Safe, S.Ok, TurnStartAllowed;
    B.OnlyProbesWhileSounding(s.a);
    B.Bounded(s.a);
    hide B.BargeOk;
    RingSize(s.a.pre, f);
    SmoothLess(s.a, 1 + |ring| + |rest| + 2, 1 + |ring|);
    OpeningGoesOut(s, c, f);
    SpeakingIsUp(t.a, s.a.turn, before, 0, ring);
    SmoothOn(s.a, t.a, 1 + |ring|, |rest| + 2);
    RunTalks(t, more, s.a.turn, before, 0, ring, 2);
    LastGoesOut(Run(t, more), d, g, s.a.turn, before, 0, ring + rest);
  }
}
