/** What a completed answer looks like on the wire, and how its frames are spaced. */
module DownlinkProofs {
  import opened WireTypes
  import opened Downlink
  import S = SessionActor

  // ---------------------------------------------------------------------
  // The shape of an answer
  // ---------------------------------------------------------------------

  /** How far an answer has come. */
  datatype Stage = Stage(id: string, audio: bool, frames: nat, ended: bool, done: bool)

  predicate FrameFits(s: Stage, f: Frame) {
    && s.audio && !s.ended && f.sequence == s.frames && f.start == (s.frames == 0)
    && 0 < |f.payload| <= OUTPUT_FRAME_BYTES && |f.payload| % BYTES_PER_SAMPLE == 0
    && (!f.end ==> |f.payload| == OUTPUT_FRAME_BYTES)
  }

  predicate Fits(s: Stage, m: Wire) {
    !s.done && match m
               case ResponseStart(_) => false
               case TextDelta(id, _) => id == s.id
               case AudioStart(id, rate) => id == s.id && !s.audio && rate == OUTPUT_RATE
               case Audio(f) => FrameFits(s, f)
               case Done(id) => id == s.id && (s.audio ==> s.ended)
  }

  function Next(s: Stage, m: Wire): Stage {
    match m
    case AudioStart(_, _) => s.(audio := true)
    case Audio(f) => s.(frames := s.frames + 1, ended := f.end)
    case Done(_) => s.(done := true)
    case _ => s
  }

  function NextAll(s: Stage, ms: seq<Wire>): Stage
    decreases |ms|
  {
    if ms == [] then s else NextAll(Next(s, ms[0]), ms[1..])
  }

  predicate AllFit(s: Stage, ms: seq<Wire>)
    decreases |ms|
  {
    ms == [] || (Fits(s, ms[0]) && AllFit(Next(s, ms[0]), ms[1..]))
  }

  lemma {:induction false} FitAppend(s: Stage, ms: seq<Wire>, m: Wire)
    ensures NextAll(s, ms + [m]) == Next(NextAll(s, ms), m)
    ensures AllFit(s, ms + [m]) <==> AllFit(s, ms) && Fits(NextAll(s, ms), m)
    decreases |ms|
  {
    hide Fits, Next;
    if ms == [] {
      assert ms + [m] == [m] && [m][1..] == [];
    } else {
      assert (ms + [m])[1..] == ms[1..] + [m];
      FitAppend(Next(s, ms[0]), ms[1..], m);
    }
  }

  function Opened(id: string): Stage { Stage(id, false, 0, false, false) }

  /** The answer begins with its response.start and goes on in order up to `s`. */
  ghost predicate Reaches(ms: seq<Wire>, s: Stage) {
    && ms != [] && ms[0] == ResponseStart(s.id)
    && AllFit(Opened(s.id), ms[1..]) && NextAll(Opened(s.id), ms[1..]) == s
  }

  lemma ReachAppend(ms: seq<Wire>, s: Stage, m: Wire)
    requires Reaches(ms, s) && Fits(s, m)
    ensures Reaches(ms + [m], Next(s, m))
  {
    hide Fits, Next;
    assert (ms + [m])[1..] == ms[1..] + [m];
    FitAppend(Opened(s.id), ms[1..], m);
    NextId(s, m);
  }

  lemma NextId(s: Stage, m: Wire)
    ensures Next(s, m).id == s.id
  {
  }

  function FramesIn(ms: seq<Wire>): seq<Frame>
    decreases |ms|
  {
    if ms == [] then []
    else
      var last := ms[|ms| - 1];
      FramesIn(ms[..|ms| - 1]) + if last.Audio? then [last.frame] else []
  }

  lemma FramesAppend(ms: seq<Wire>, m: Wire)
    ensures FramesIn(ms + [m]) == FramesIn(ms) + if m.Audio? then [m.frame] else []
  {
    assert (ms + [m])[..|ms|] == ms;
  }

  function Payloads(fs: seq<Frame>): seq<byte> {
    if fs == [] then [] else Payloads(fs[..|fs| - 1]) + fs[|fs| - 1].payload
  }

  lemma PayloadAppend(fs: seq<Frame>, f: Frame)
    ensures Payloads(fs + [f]) == Payloads(fs) + f.payload
  {
    assert (fs + [f])[..|fs|] == fs;
  }

  /** Sequence numbers 0, 1, 2, ..., START on the first frame only, END on the last at most, full frames before it. */
  ghost predicate Numbered(fs: seq<Frame>, ended: bool) {
    && (forall i :: 0 <= i < |fs| ==> fs[i].sequence == i && fs[i].start == (i == 0))
    && (forall i :: 0 <= i < |fs| ==> fs[i].end == (ended && i == |fs| - 1))
    && (forall i :: 0 <= i < |fs| ==>
          0 < |fs[i].payload| <= OUTPUT_FRAME_BYTES && |fs[i].payload| % BYTES_PER_SAMPLE == 0)
    && (forall i :: 0 <= i < |fs| && !fs[i].end ==> |fs[i].payload| == OUTPUT_FRAME_BYTES)
  }

  /** Frame `k` leaves no earlier than `k` frame times after the first. */
  ghost predicate Spaced(fs: seq<Frame>) {
    forall k :: 0 <= k < |fs| ==> fs[k].at >= fs[0].at + FRAME_TIME * k
  }

  /** A response that got its response.done. */
  ghost predicate Complete(r: Response) {
    var fs := FramesIn(r.messages);
    && r.messages != [] && r.messages[0].ResponseStart?
    && Reaches(r.messages, Stage(r.messages[0].responseId, r.provided != [], |fs|, r.provided != [], true))
    && Numbered(fs, fs != []) && Spaced(fs)
    && Payloads(fs) == r.provided + (if r.silenced then [0, 0] else [])
    && (r.silenced ==> r.provided != [] && |r.provided| % OUTPUT_FRAME_BYTES == 0)
  }

  // ---------------------------------------------------------------------
  // Deadlines
  // ---------------------------------------------------------------------

  /** A frame sent at or after its deadline sets the next one 15 to 20 ms later, and 20 ms behind the last. */
  lemma DeadlineBounds(previous: Option<int>, sentAt: int)
    requires previous.Some? ==> previous.value <= sentAt
    ensures var next := NextDeadline(previous, sentAt);
            && sentAt + MIN_SPACING <= next <= sentAt + FRAME_TIME
            && (previous.Some? ==> next >= previous.value + FRAME_TIME)
  {
  }

  /** How many frames left no later than `until`. */
  function SentBy(fs: seq<Frame>, until: int): nat {
    if fs == [] then 0 else SentBy(fs[..|fs| - 1], until) + if fs[|fs| - 1].at <= until then 1 else 0
  }

  lemma {:induction false} SentByCount(fs: seq<Frame>, first: int, t: nat)
    requires forall k :: 0 <= k < |fs| ==> fs[k].at >= first + FRAME_TIME * k
    ensures SentBy(fs, first + t) <= 1 + t / FRAME_TIME
    ensures SentBy(fs, first + t) <= |fs|
  {
    if fs != [] {
      var n := |fs| - 1;
      SentByCount(fs[..n], first, t);
      if fs[n].at <= first + t {
        assert FRAME_TIME * n <= t;
      }
    }
  }

  /** Within `t` of the first frame at most one more frame leaves than 20 ms fit into `t`. */
  lemma BurstBound(fs: seq<Frame>, t: nat)
    requires Spaced(fs) && fs != []
    ensures SentBy(fs, fs[0].at + t) <= 1 + t / FRAME_TIME
  {
    SentByCount(fs, fs[0].at, t);
  }

  // ---------------------------------------------------------------------
  // What the forwarder keeps
  // ---------------------------------------------------------------------

  predicate Live(f: Forwarder) { !f.failed && f.turn.active && BelongsTo(f.pacer, f.turn) }

  /** Messages, frames and marks of the response under way. */
  ghost predicate Shaped(f: Forwarder) {
    var fs := FramesIn(f.current.messages);
    && Reaches(f.current.messages, Stage(f.pacer.responseId, f.turn.outputStarted, f.pacer.wireFrames, false, false))
    && |fs| == f.pacer.wireFrames == f.turn.outputSequence && Numbered(fs, false)
    && f.turn.outputStarted == (f.current.provided != [])
  }

  ghost predicate Filled(f: Forwarder) {
    var sent := Payloads(FramesIn(f.current.messages));
    && sent + f.pacer.pending == f.current.provided + (if f.current.silenced then [0, 0] else [])
    && |sent| == OUTPUT_FRAME_BYTES * f.pacer.wireFrames
    && |f.pacer.pending| <= MAX_BUFFERED && |f.pacer.pending| % BYTES_PER_SAMPLE == 0
    && (f.current.silenced ==> f.pacer.providerDone && f.pacer.wireFrames != 0 && f.pacer.pending == [0, 0])
  }

  ghost predicate Timed(f: Forwarder) {
    var fs := FramesIn(f.current.messages);
    && Spaced(fs)
    && (f.pacer.nextFrameAt.Some? <==> fs != [])
    && (fs != [] ==> f.pacer.nextFrameAt.value >= fs[0].at + FRAME_TIME * |fs|)
  }

  /** The turn without a response of its own has sent nothing. */
  ghost predicate Fresh(f: Forwarder) {
    && (f.turn.active && !BelongsTo(f.pacer, f.turn) ==> f.turn.outputSequence == 0 && !f.turn.outputStarted)
    && (f.turn.active ==> f.turn.ids.turn != 0 && f.turn.ids.epoch != 0)
    && (f.pacer.epoch != 0 ==> f.pacer.epoch <= f.turn.ids.epoch && f.turn.ids.turn != 0)
    && (f.pacer.epoch == 0 ==> f.pacer == IDLE_PACER)
  }

  /** A response marked done has had its done event. */
  ghost predicate Ending(f: Forwarder, seen: seq<S.Event>) {
    f.pacer.providerDone ==> exists i :: 0 <= i < |seen| && seen[i].epoch == f.pacer.epoch && seen[i].raw.kind == S.Done
  }

  ghost predicate Inv(f: Forwarder, seen: seq<S.Event>) {
    && !f.overflowed && Fresh(f) && Ending(f, seen)
    && (Live(f) ==> Shaped(f) && Filled(f) && Timed(f))
    && (forall i :: 0 <= i < |f.completed| ==> Complete(f.completed[i]))
  }

  /** Ready for response.done. */
  ghost predicate Finishable(f: Forwarder) {
    var fs, r := FramesIn(f.current.messages), f.current;
    && Reaches(r.messages, Stage(f.pacer.responseId, r.provided != [], |fs|, r.provided != [], false))
    && Numbered(fs, fs != []) && Spaced(fs)
    && Payloads(fs) == r.provided + (if r.silenced then [0, 0] else [])
    && (r.silenced ==> r.provided != [] && |r.provided| % OUTPUT_FRAME_BYTES == 0)
  }

  lemma DoneCompletes(f: Forwarder)
    requires Finishable(f)
    ensures Complete(Log(f, Done(f.pacer.responseId)).current)
  {
    var r, m := f.current, Done(f.pacer.responseId);
    var fs := FramesIn(r.messages);
    var s := Stage(f.pacer.responseId, r.provided != [], |fs|, r.provided != [], false);
    hide Reaches, FramesIn, Numbered, Spaced, Payloads;
    ReachAppend(r.messages, s, m);
    FramesAppend(r.messages, m);
    ReachFirst(r.messages, s);
    assert (r.messages + [m])[0] == r.messages[0];
    assert FramesIn(r.messages + [m]) == fs;
  }

  lemma ReachFirst(ms: seq<Wire>, s: Stage)
    requires Reaches(ms, s)
    ensures ms != [] && ms[0] == ResponseStart(s.id)
  {
  }

  lemma FinishKeeps(f: Forwarder, o: Outcome, seen: seq<S.Event>)
    requires !f.overflowed && Fresh(f) && Ending(f, seen) && !f.failed
    requires forall i :: 0 <= i < |f.completed| ==> Complete(f.completed[i])
    requires Live(f) ==> Finishable(f)
    ensures Inv(Finish(f, o), seen)
  {
    hide Complete, Finishable;
    if Live(f) && o == Sent {
      DoneCompletes(f);
    }
  }

  /** A frame that is not the last leaves the response under way. */
  lemma QueuedShaped(f: Forwarder, at: int)
    requires Live(f) && Shaped(f) && Filled(f) && FrameReady(f.pacer) && !NextFrame(f, at).end
    ensures Shaped(Queued(f, at))
  {
    var ms, frame, g := f.current.messages, NextFrame(f, at), Queued(f, at);
    var fs, s := FramesIn(ms), Stage(f.pacer.responseId, f.turn.outputStarted, f.pacer.wireFrames, false, false);
    FramesAppend(ms, Audio(frame));
    StartedByNow(f);
    NotLast(f, at);
    assert g.current.messages == ms + [Audio(frame)] && g.current.provided == f.current.provided;
    assert g.pacer.responseId == f.pacer.responseId && g.pacer.wireFrames == f.pacer.wireFrames + 1;
    assert g.turn == f.turn.(outputSequence := f.turn.outputSequence + 1);
    hide Reaches, FramesIn, Payloads, Filled, FrameReady, Queued;
    NumberedMore(fs, frame);
    hide Numbered;
    ReachAppend(ms, s, Audio(frame));
    assert Next(s, Audio(frame)) == Stage(g.pacer.responseId, g.turn.outputStarted, g.pacer.wireFrames, false, false);
  }

  lemma NumberedMore(fs: seq<Frame>, f: Frame)
    requires Numbered(fs, false) && f.sequence == |fs| && f.start == (|fs| == 0) && !f.end
    requires |f.payload| == OUTPUT_FRAME_BYTES
    ensures Numbered(fs + [f], false)
  {
  }

  /** With something to send, the audio was announced. */
  lemma StartedByNow(f: Forwarder)
    requires Shaped(f) && Filled(f) && f.pacer.pending != []
    ensures f.turn.outputStarted
  {
  }

  /** The frame takes its bytes off the front of what is pending. */
  lemma SplitPending(sent: seq<byte>, pending: seq<byte>, n: nat, all: seq<byte>)
    requires n <= |pending| && sent + pending == all
    ensures (sent + pending[..n]) + pending[n..] == all
  {
    assert pending == pending[..n] + pending[n..];
  }

  /** A frame that is not the last is full, and no silence was added. */
  lemma NotLast(f: Forwarder, at: int)
    requires Filled(f) && FrameReady(f.pacer) && !NextFrame(f, at).end
    ensures |NextFrame(f, at).payload| == OUTPUT_FRAME_BYTES && !f.current.silenced
  {
    hide FramesIn, Payloads;
  }

  lemma QueuedFilled(f: Forwarder, at: int)
    requires Live(f) && Filled(f) && FrameReady(f.pacer) && !NextFrame(f, at).end
    ensures Filled(Queued(f, at))
  {
    var ms, frame, p := f.current.messages, NextFrame(f, at), f.pacer.pending;
    NotLast(f, at);
    FramesAppend(ms, Audio(frame));
    PayloadAppend(FramesIn(ms), frame);
    hide FramesIn, Payloads, FrameReady;
    SplitPending(Payloads(FramesIn(ms)), p, OUTPUT_FRAME_BYTES, f.current.provided + []);
  }

  lemma SpacedMore(fs: seq<Frame>, f: Frame)
    requires Spaced(fs) && (fs != [] ==> f.at >= fs[0].at + FRAME_TIME * |fs|)
    ensures Spaced(fs + [f]) && (fs + [f])[0] == if fs == [] then f else fs[0]
  {
  }

  lemma QueuedTimed(f: Forwarder, at: int)
    requires Live(f) && Timed(f) && f.pacer.pending != [] && Due(f.pacer, at)
    ensures Timed(Queued(f, at))
  {
    var ms, frame := f.current.messages, NextFrame(f, at);
    FramesAppend(ms, Audio(frame));
    DeadlineBounds(f.pacer.nextFrameAt, at);
    var g := Queued(f, at);
    assert g.current.messages == ms + [Audio(frame)];
    assert g.pacer.nextFrameAt == Some(NextDeadline(f.pacer.nextFrameAt, at));
    hide FramesIn, NextDeadline, Queued, NextFrame;
    SpacedMore(FramesIn(ms), frame);
  }

  lemma LastShape(f: Forwarder, at: int)
    requires Live(f) && Shaped(f) && Filled(f) && FrameReady(f.pacer) && NextFrame(f, at).end
    ensures var frame, g := NextFrame(f, at), Queued(f, at);
            var fs := FramesIn(f.current.messages) + [frame];
            && FramesIn(g.current.messages) == fs && Numbered(fs, true)
            && Reaches(g.current.messages, Stage(f.pacer.responseId, true, |fs|, true, false))
  {
    var ms, frame := f.current.messages, NextFrame(f, at);
    var fs := FramesIn(ms);
    var s := Stage(f.pacer.responseId, f.turn.outputStarted, f.pacer.wireFrames, false, false);
    FramesAppend(ms, Audio(frame));
    StartedByNow(f);
    hide FramesIn, Payloads, Reaches;
    LastNumbered(fs, frame);
    ReachAppend(ms, s, Audio(frame));
  }

  lemma LastBytes(f: Forwarder, at: int)
    requires Live(f) && Shaped(f) && Filled(f) && FrameReady(f.pacer) && NextFrame(f, at).end
    ensures var r := f.current;
            && Payloads(FramesIn(r.messages) + [NextFrame(f, at)]) == r.provided + (if r.silenced then [0, 0] else [])
            && r.provided != [] && (r.silenced ==> |r.provided| % OUTPUT_FRAME_BYTES == 0)
  {
    var fs, frame := FramesIn(f.current.messages), NextFrame(f, at);
    PayloadAppend(fs, frame);
    StartedByNow(f);
    assert frame.payload == f.pacer.pending;
    hide FramesIn, Payloads, Reaches, Numbered;
    if f.current.silenced {
      assert |Payloads(fs)| == |f.current.provided|;
    }
  }

  /** The last frame makes the response ready for response.done. */
  lemma LastFinishable(f: Forwarder, at: int)
    requires Live(f) && Shaped(f) && Filled(f) && Timed(f) && FrameReady(f.pacer) && NextFrame(f, at).end
             && Due(f.pacer, at)
    ensures Finishable(Queued(f, at))
  {
    LastShape(f, at);
    LastBytes(f, at);
    QueuedTimed(f, at);
    hide FramesIn, Payloads, Reaches, Numbered, Spaced, Shaped, Filled;
  }

  lemma LastNumbered(fs: seq<Frame>, f: Frame)
    requires Numbered(fs, false) && f.sequence == |fs| && f.start == (|fs| == 0) && f.end
    requires 0 < |f.payload| <= OUTPUT_FRAME_BYTES && |f.payload| % BYTES_PER_SAMPLE == 0
    ensures Numbered(fs + [f], true)
  {
  }

  lemma SendFrameKeeps(f: Forwarder, at: int, o: Outcome, finish: Outcome, seen: seq<S.Event>)
    requires Inv(f, seen) && !f.failed && FrameReady(f.pacer) && Due(f.pacer, at)
    ensures Inv(SendFrame(f, at, o, finish), seen)
  {
    hide Complete, Shaped, Filled, Timed;
    if Live(f) && o == Sent {
      if NextFrame(f, at).end {
        LastFinishable(f, at);
        hide Finishable;
        FinishKeeps(Queued(f, at), finish, seen);
      } else {
        QueuedShaped(f, at);
        QueuedFilled(f, at);
        QueuedTimed(f, at);
      }
    }
  }

  lemma SilenceKeeps(f: Forwarder, seen: seq<S.Event>)
    requires Inv(f, seen) && !f.failed
    ensures Inv(AddSilence(f), seen)
  {
    hide Complete, Reaches, FramesIn, Payloads, Numbered, Spaced;
    if f.pacer.wireFrames == 0 {
      return;
    }
    if Live(f) {
      assert f.pacer.providerDone && f.pacer.pending == [] ==> !f.current.silenced;
      assert Payloads(FramesIn(f.current.messages)) + [] == Payloads(FramesIn(f.current.messages));
    }
  }

  lemma SilenceAdded(f: Forwarder)
    ensures var g := AddSilence(f); g.pacer.providerDone && g.pacer.pending == [] ==> g.pacer.wireFrames == 0
  {
  }

  /** A text-only answer: nothing was announced, nothing is owed. */
  lemma EmptyFinishable(f: Forwarder)
    requires Live(f) && Shaped(f) && Filled(f) && Timed(f) && f.pacer.pending == [] && f.pacer.wireFrames == 0
    ensures Finishable(f)
  {
  }

  lemma SelectKeeps(f: Forwarder, seen: seq<S.Event>)
    requires Inv(f, seen)
    ensures Inv(f.(selecting := true), seen) && Inv(f.(selecting := false), seen)
  {
    hide Complete, Reaches, FramesIn, Payloads, Numbered, Spaced;
  }

  lemma PassKeeps(f: Forwarder, now: int, delay: nat, o: Outcome, finish: Outcome, seen: seq<S.Event>)
    requires Inv(f, seen)
    ensures Inv(Pass(f, now, delay, o, finish), seen)
  {
    if f.selecting || f.failed {
      return;
    }
    var d := DropStale(f);
    assert Inv(d, seen) by { hide Complete, Shaped, Filled, Timed; }
    SilenceKeeps(d, seen);
    var g := AddSilence(d);
    hide AddSilence, DropStale, Complete;
    if g.pacer.providerDone && g.pacer.pending == [] {
      if Live(g) {
        SilenceAdded(d);
        EmptyFinishable(g);
      }
      FinishKeeps(g, finish, seen);
    } else if FrameReady(g.pacer) && Due(g.pacer, now) {
      SendFrameKeeps(g, now + delay, o, finish, seen);
    } else {
      SelectKeeps(g, seen);
    }
  }

  // ---------------------------------------------------------------------
  // Events
  // ---------------------------------------------------------------------

  lemma SeenMore(f: Forwarder, seen: seq<S.Event>, e: S.Event)
    requires Inv(f, seen)
    ensures Inv(f, seen + [e])
  {
    hide Complete, Shaped, Filled, Timed, Fresh;
    if f.pacer.providerDone {
      var i :| 0 <= i < |seen| && seen[i].epoch == f.pacer.epoch && seen[i].raw.kind == S.Done;
      assert (seen + [e])[i] == seen[i];
    }
  }

  /** Bytes and times depend on the frames only. */
  lemma SameFrames(f: Forwarder, g: Forwarder)
    requires Filled(f) && Timed(f) && FramesIn(g.current.messages) == FramesIn(f.current.messages)
    requires g.pacer == f.pacer && g.current.provided == f.current.provided && g.current.silenced == f.current.silenced
    ensures Filled(g) && Timed(g)
  {
    hide FramesIn, Payloads, Spaced;
  }

  lemma NoFrame(ms: seq<Wire>, m: Wire)
    requires !m.Audio?
    ensures FramesIn(ms + [m]) == FramesIn(ms)
  {
    FramesAppend(ms, m);
    hide FramesIn;
    assert FramesIn(ms) + [] == FramesIn(ms);
  }

  lemma TextShaped(f: Forwarder, m: Wire)
    requires Shaped(f) && m.TextDelta? && m.responseId == f.pacer.responseId
    ensures Shaped(Log(f, m))
  {
    var ms, s := f.current.messages, Stage(f.pacer.responseId, f.turn.outputStarted, f.pacer.wireFrames, false, false);
    NoFrame(ms, m);
    hide Reaches, FramesIn, Numbered;
    ReachAppend(ms, s, m);
  }

  /** A message that is neither audio nor an end leaves frames, bytes and times alone. */
  lemma LogKeeps(f: Forwarder, m: Wire)
    requires Shaped(f) && Filled(f) && Timed(f)
    requires m.TextDelta? && m.responseId == f.pacer.responseId
    ensures Shaped(Log(f, m)) && Filled(Log(f, m)) && Timed(Log(f, m))
  {
    TextShaped(f, m);
    NoFrame(f.current.messages, m);
    hide Shaped, Filled, Timed, FramesIn;
    SameFrames(f, Log(f, m));
  }

  /** Nothing but the start was sent. */
  lemma OnlyStart(id: string)
    ensures var ms := [ResponseStart(id)];
            FramesIn(ms) == [] && Reaches(ms, Stage(id, false, 0, false, false))
    ensures Numbered([], false) && Spaced([]) && Payloads([]) == []
  {
    var ms := [ResponseStart(id)];
    assert ms[1..] == [];
    assert FramesIn([]) == [];
    NoFrame([], ms[0]);
    assert [] + [ms[0]] == ms;
    hide FramesIn;
  }

  lemma StartedKeeps(f: Forwarder, raw: S.Raw, o: Outcome, seen: seq<S.Event>)
    requires Inv(f, seen) && !f.failed && f.turn.active
    ensures Inv(OnStarted(f, raw, o), seen)
  {
    hide Complete, Shaped, Filled, Timed;
    if f.pacer.epoch == 0 && o == Sent {
      StartedShaped(f, raw);
    }
  }

  lemma StartedShaped(f: Forwarder, raw: S.Raw)
    requires Fresh(f) && f.turn.active && f.pacer.epoch == 0
    ensures var g := OnStarted(f, raw, Sent); Shaped(g) && Filled(g) && Timed(g)
  {
    var g := OnStarted(f, raw, Sent);
    OnlyStart(raw.responseId);
    hide FramesIn, Reaches, Numbered, Spaced, Payloads;
    assert g.current.messages == [] + [ResponseStart(raw.responseId)] == [ResponseStart(raw.responseId)];
  }

  lemma TextKeeps(f: Forwarder, raw: S.Raw, o: Outcome, seen: seq<S.Event>)
    requires Inv(f, seen) && !f.failed && f.turn.active
    ensures Inv(OnText(f, raw, o), seen)
  {
    hide Complete, Shaped, Filled, Timed;
    if Live(f) && Matches(f.pacer, f.turn, raw.responseId) && o == Sent {
      LogKeeps(f, TextDelta(raw.responseId, raw.text));
    }
  }

  /** More provider bytes behind what is pending. */
  lemma BufferKeeps(f: Forwarder, pcm: seq<byte>)
    requires Filled(f) && Timed(f) && !f.failed && !f.current.silenced
    requires |pcm| % BYTES_PER_SAMPLE == 0 && |f.pacer.pending| + |pcm| <= MAX_BUFFERED
    ensures Filled(Buffer(f, pcm)) && Timed(Buffer(f, pcm))
  {
    hide FramesIn, Payloads, Spaced;
    var sent := Payloads(FramesIn(f.current.messages));
    assert (sent + f.pacer.pending) + pcm == sent + (f.pacer.pending + pcm);
  }

  /** The first audio is announced before it is buffered. */
  lemma AnnounceShaped(f: Forwarder, raw: S.Raw)
    requires Live(f) && Shaped(f) && !f.turn.outputStarted && ValidAudio(raw) && raw.responseId == f.pacer.responseId
    ensures var g := Log(f.(turn := f.turn.(outputStarted := true)), AudioStart(raw.responseId, raw.rate));
            && FramesIn(g.current.messages) == FramesIn(f.current.messages)
            && Shaped(Buffer(g, raw.pcm))
  {
    var m := AudioStart(raw.responseId, raw.rate);
    var ms, s := f.current.messages, Stage(f.pacer.responseId, false, f.pacer.wireFrames, false, false);
    NoFrame(ms, m);
    hide Reaches, FramesIn, Payloads, Numbered, Spaced;
    ReachAppend(ms, s, m);
    var g := Buffer(Log(f.(turn := f.turn.(outputStarted := true)), m), raw.pcm);
    assert g.current.messages == ms + [m] && g.current.provided != [];
  }

  lemma AnnounceKeeps(f: Forwarder, raw: S.Raw)
    requires Live(f) && Shaped(f) && Filled(f) && Timed(f) && !f.turn.outputStarted
    requires ValidAudio(raw) && raw.responseId == f.pacer.responseId
    ensures var g := Log(f.(turn := f.turn.(outputStarted := true)), AudioStart(raw.responseId, raw.rate));
            Filled(g) && Timed(g) && Shaped(Buffer(g, raw.pcm))
  {
    AnnounceShaped(f, raw);
    hide Shaped, Filled, Timed, FramesIn;
    SameFrames(f, Log(f.(turn := f.turn.(outputStarted := true)), AudioStart(raw.responseId, raw.rate)));
  }

  lemma AudioKeeps(f: Forwarder, raw: S.Raw, o: Outcome, seen: seq<S.Event>)
    requires Inv(f, seen) && !f.failed && f.turn.active && !Gated(f.pacer) && (Live(f) ==> !f.pacer.providerDone)
    ensures Inv(OnAudio(f, raw, o), seen)
  {
    AudioMarks(f, raw, o, seen);
    AudioShapes(f, raw, o, seen);
    hide OnAudio, Fresh, Ending, Shaped, Filled, Timed, Complete;
  }

  lemma AudioMarks(f: Forwarder, raw: S.Raw, o: Outcome, seen: seq<S.Event>)
    requires Inv(f, seen) && !f.failed && f.turn.active && !Gated(f.pacer)
    ensures var g := OnAudio(f, raw, o);
            !g.overflowed && Fresh(g) && Ending(g, seen) && g.completed == f.completed
  {
    hide Complete, Shaped, Filled, Timed;
  }

  lemma AudioShapes(f: Forwarder, raw: S.Raw, o: Outcome, seen: seq<S.Event>)
    requires Inv(f, seen) && !f.failed && f.turn.active && !Gated(f.pacer) && (Live(f) ==> !f.pacer.providerDone)
    ensures var g := OnAudio(f, raw, o); Live(g) ==> Shaped(g) && Filled(g) && Timed(g)
  {
    if !ValidAudio(raw) || !Matches(f.pacer, f.turn, raw.responseId) || |f.pacer.pending| + |raw.pcm| > MAX_BUFFERED {
      return;
    }
    assert Live(f);
    NotSilenced(f);
    hide Complete, Shaped, Filled, Timed, ValidAudio;
    if f.turn.outputStarted {
      MoreAudio(f, raw);
    } else if o == Sent {
      FirstAudio(f, raw);
    }
  }

  lemma NotSilenced(f: Forwarder)
    requires Filled(f) && !f.pacer.providerDone
    ensures !f.current.silenced
  {
  }

  lemma FirstAudio(f: Forwarder, raw: S.Raw)
    requires Live(f) && Shaped(f) && Filled(f) && Timed(f) && !f.turn.outputStarted && !f.pacer.providerDone
    requires ValidAudio(raw) && raw.responseId == f.pacer.responseId && |f.pacer.pending| + |raw.pcm| <= MAX_BUFFERED
    ensures var t := f.turn.(outputStarted := true);
            var g := Buffer(Log(f.(turn := t), AudioStart(raw.responseId, raw.rate)), raw.pcm);
            Shaped(g) && Filled(g) && Timed(g)
  {
    NotSilenced(f);
    AnnounceKeeps(f, raw);
    hide Shaped, Filled, Timed;
    BufferKeeps(Log(f.(turn := f.turn.(outputStarted := true)), AudioStart(raw.responseId, raw.rate)), raw.pcm);
  }

  lemma MoreAudio(f: Forwarder, raw: S.Raw)
    requires Live(f) && Shaped(f) && Filled(f) && Timed(f) && f.turn.outputStarted && !f.current.silenced
    requires ValidAudio(raw) && |f.pacer.pending| + |raw.pcm| <= MAX_BUFFERED
    ensures var g := Buffer(f, raw.pcm); Shaped(g) && Filled(g) && Timed(g)
  {
    BufferKeeps(f, raw.pcm);
    hide Reaches, FramesIn, Payloads, Numbered, Spaced;
  }

  lemma DoneKeeps(f: Forwarder, e: S.Event, seen: seq<S.Event>)
    requires Inv(f, seen) && !f.failed && f.turn.active && e.epoch == f.turn.ids.epoch && e.raw.kind == S.Done
    ensures Inv(OnDone(f, e.raw), seen + [e])
  {
    hide Complete, Reaches, FramesIn, Payloads, Numbered, Spaced;
    assert (seen + [e])[|seen|] == e;
    SeenMore(f, seen, e);
  }

  lemma FailedKeeps(f: Forwarder, o: Outcome, seen: seq<S.Event>)
    requires Inv(f, seen) && !f.failed
    ensures Inv(OnFailed(f, o), seen)
  {
    hide Complete, Shaped, Filled, Timed;
  }

  /** After its terminal event a response is not heard of again. */
  lemma NothingAfterDone(f: Forwarder, e: S.Event, seen: seq<S.Event>)
    requires Ending(f, seen) && S.Ordered(seen + [e]) && Live(f) && e.epoch == f.turn.ids.epoch
    ensures !f.pacer.providerDone
  {
    LastFollows(seen, e);
  }

  lemma LastFollows(seen: seq<S.Event>, e: S.Event)
    requires S.Ordered(seen + [e])
    ensures forall i :: 0 <= i < |seen| ==> S.MayFollow(seen[i], e)
  {
    var all := seen + [e];
    forall i | 0 <= i < |seen| ensures S.MayFollow(seen[i], e) {
      assert all[i] == seen[i] && all[|seen|] == e;
    }
  }

  lemma EventKeeps(f: Forwarder, e: S.Event, o: Outcome, seen: seq<S.Event>)
    requires Inv(f, seen) && f.selecting && !f.failed && !Gated(f.pacer) && S.Ordered(seen + [e])
    ensures Inv(TakeEvent(f, e, o), seen + [e])
  {
    var g := f.(selecting := false);
    SelectKeeps(f, seen);
    hide Inv, OnStarted, OnText, OnAudio, OnDone, OnFailed;
    SeenMore(g, seen, e);
    if g.turn.active && e.epoch == g.turn.ids.epoch {
      match e.raw.kind {
        case Started => StartedKeeps(g, e.raw, o, seen + [e]);
        case TextDelta => TextKeeps(g, e.raw, o, seen + [e]);
        case Audio =>
          if Live(g) { EndingOf(g, seen); NothingAfterDone(g, e, seen); }
          AudioKeeps(g, e.raw, o, seen + [e]);
        case Done => DoneKeeps(g, e, seen);
        case Failed => FailedKeeps(g, o, seen + [e]);
        case Unknown =>
      }
    }
  }

  lemma EndingOf(f: Forwarder, seen: seq<S.Event>)
    requires Inv(f, seen)
    ensures Ending(f, seen)
  {
  }

  lemma HandlerKeeps(f: Forwarder, ids: WireIds, seen: seq<S.Event>)
    requires Inv(f, seen)
    ensures Inv(StartTurn(f, ids), seen) && Inv(Retire(f), seen)
  {
    hide Complete, Shaped, Filled, Timed;
  }

  lemma StepKeeps(f: Forwarder, op: Op, seen: seq<S.Event>)
    requires Inv(f, seen) && (Reads(f, op) ==> S.Ordered(seen + [op.event]))
    ensures Inv(Step(f, op), if Reads(f, op) then seen + [op.event] else seen)
  {
    hide Inv, StartTurn, Retire, Pass, OnStarted, OnText, OnAudio, OnDone, OnFailed;
    match op {
      case HandlerStart(ids) => HandlerKeeps(f, ids, seen);
      case HandlerRetire => HandlerKeeps(f, ZERO_IDS, seen);
      case LoopPass(now, delay, o, finish) => PassKeeps(f, now, delay, o, finish, seen);
      case Timer => SelectKeeps(f, seen);
      case Event(e, o) =>
        if Reads(f, op) { EventKeeps(f, e, o, seen); }
    }
  }

  lemma OrderedPrefix(es: seq<S.Event>, n: nat)
    requires n <= |es| && S.Ordered(es)
    ensures S.Ordered(es[..n])
  {
    forall i | 0 <= i < n ensures S.Named(es[..n][i]) {
      assert es[..n][i] == es[i];
    }
    forall i, j | 0 <= i < j < n ensures S.MayFollow(es[..n][i], es[..n][j]) {
      assert es[..n][i] == es[i] && es[..n][j] == es[j];
    }
  }

  lemma {:induction false} RunKeeps(f: Forwarder, ops: seq<Op>, seen: seq<S.Event>)
    requires Inv(f, seen) && S.Ordered(seen + EventsRead(f, ops))
    ensures Inv(Run(f, ops), seen + EventsRead(f, ops))
    decreases |ops|
  {
    hide Inv, Step, S.Ordered, Gated;
    if ops == [] {
      assert seen + [] == seen;
      return;
    }
    var now := if Reads(f, ops[0]) then [ops[0].event] else [];
    var rest := EventsRead(Step(f, ops[0]), ops[1..]);
    assert seen + EventsRead(f, ops) == (seen + now) + rest;
    assert ((seen + now) + rest)[..|seen + now|] == seen + now;
    OrderedPrefix((seen + now) + rest, |seen + now|);
    StepKeeps(f, ops[0], seen);
    assert now == [] ==> seen + now == seen;
    RunKeeps(Step(f, ops[0]), ops[1..], seen + now);
  }

  // ---------------------------------------------------------------------
  // Answers that never finish
  // ---------------------------------------------------------------------

  ghost predicate EvenPaced(f: Forwarder) { Spaced(FramesIn(f.current.messages)) }

  lemma LivePaced(f: Forwarder)
    requires Live(f) && Timed(f)
    ensures EvenPaced(f)
  {
  }

  lemma FinishPaced(f: Forwarder, o: Outcome)
    requires EvenPaced(f)
    ensures EvenPaced(Finish(f, o))
  {
    NoFrame(f.current.messages, Done(f.pacer.responseId));
    hide FramesIn, Spaced;
  }

  lemma SendPaced(f: Forwarder, at: int, o: Outcome, finish: Outcome, seen: seq<S.Event>)
    requires Inv(f, seen) && EvenPaced(f) && !f.failed && FrameReady(f.pacer) && Due(f.pacer, at)
    ensures EvenPaced(SendFrame(f, at, o, finish))
  {
    hide FramesIn, Spaced, Shaped, Filled, Complete;
    if Live(f) && o == Sent {
      QueuedTimed(f, at);
      FinishPaced(Queued(f, at), finish);
    }
  }

  lemma PassPaced(f: Forwarder, now: int, delay: nat, o: Outcome, finish: Outcome, seen: seq<S.Event>)
    requires Inv(f, seen) && EvenPaced(f)
    ensures EvenPaced(Pass(f, now, delay, o, finish))
  {
    if f.selecting || f.failed {
      return;
    }
    var d := DropStale(f);
    assert Inv(d, seen) && EvenPaced(d) && !d.failed by { hide Complete, Shaped, Filled, Timed, FramesIn, Spaced; }
    SilenceKeeps(d, seen);
    var g := AddSilence(d);
    assert EvenPaced(g) && !g.failed by { hide Inv, FramesIn, Spaced; }
    hide AddSilence, DropStale, Complete, Inv, EvenPaced;
    FinishPaced(g, finish);
    if !(g.pacer.providerDone && g.pacer.pending == []) && FrameReady(g.pacer) && Due(g.pacer, now) {
      SendPaced(g, now + delay, o, finish, seen);
    } else {
      SelectPaced(g);
    }
  }

  lemma SelectPaced(f: Forwarder)
    requires EvenPaced(f)
    ensures EvenPaced(f.(selecting := true)) && EvenPaced(f.(selecting := false))
  {
  }

  lemma ControlPaced(f: Forwarder, m: Wire, o: Outcome)
    requires EvenPaced(f) && !m.Audio?
    ensures EvenPaced(SendControl(f, m, o))
  {
    NoFrame(f.current.messages, m);
    hide FramesIn, Spaced;
  }

  lemma EmptyPaced(f: Forwarder)
    requires f.current.messages == []
    ensures EvenPaced(f)
  {
  }

  lemma StartedPaced(f: Forwarder, raw: S.Raw, o: Outcome)
    requires EvenPaced(f)
    ensures EvenPaced(OnStarted(f, raw, o))
  {
    var ids := f.turn.ids;
    var p := IDLE_PACER.(epoch := ids.epoch, turn := ids.turn, responseId := raw.responseId);
    var g := f.(pacer := p, current := Response(ids, [], [], false));
    EmptyPaced(g);
    FailPaced(f);
    hide EvenPaced, SendControl, Fail;
    ControlPaced(g, ResponseStart(raw.responseId), o);
  }

  lemma FailPaced(f: Forwarder)
    requires EvenPaced(f)
    ensures EvenPaced(Fail(f)) && EvenPaced(Fail(f.(overflowed := true))) && EvenPaced(OnFailed(f, Sent))
    ensures EvenPaced(OnFailed(f, Lost)) && EvenPaced(OnFailed(f, Broken))
  {
    hide FramesIn, Spaced;
  }

  lemma TextPaced(f: Forwarder, raw: S.Raw, o: Outcome)
    requires EvenPaced(f)
    ensures EvenPaced(OnText(f, raw, o)) && EvenPaced(OnDone(f, raw))
  {
    FailPaced(f);
    ControlPaced(f, TextDelta(raw.responseId, raw.text), o);
    hide FramesIn, Spaced, SendControl;
  }

  lemma BufferPaced(f: Forwarder, pcm: seq<byte>)
    requires EvenPaced(f)
    ensures EvenPaced(Buffer(f, pcm))
  {
    hide FramesIn, Spaced;
  }

  lemma AudioPaced(f: Forwarder, raw: S.Raw, o: Outcome)
    requires EvenPaced(f)
    ensures EvenPaced(OnAudio(f, raw, o))
  {
    hide EvenPaced, SendControl, Fail, Buffer, ValidAudio, Matches;
    if !ValidAudio(raw) || !Matches(f.pacer, f.turn, raw.responseId) {
      FailPaced(f);
    } else if |f.pacer.pending| + |raw.pcm| > MAX_BUFFERED {
      FailPaced(f);
    } else if f.turn.outputStarted {
      BufferPaced(f, raw.pcm);
    } else {
      AnnouncePaced(f, raw, o);
    }
  }

  lemma AnnouncePaced(f: Forwarder, raw: S.Raw, o: Outcome)
    requires EvenPaced(f)
    ensures EvenPaced(Buffer(SendControl(f.(turn := f.turn.(outputStarted := true)),
                                         AudioStart(raw.responseId, raw.rate), o), raw.pcm))
  {
    var g, m := f.(turn := f.turn.(outputStarted := true)), AudioStart(raw.responseId, raw.rate);
    assert EvenPaced(g) by { hide FramesIn, Spaced; }
    hide EvenPaced, SendControl, Buffer;
    ControlPaced(g, m, o);
    BufferPaced(SendControl(g, m, o), raw.pcm);
  }

  /** An event sends no audio itself. */
  lemma EventPaced(f: Forwarder, e: S.Event, o: Outcome)
    requires EvenPaced(f)
    ensures EvenPaced(TakeEvent(f, e, o))
  {
    var g, raw := f.(selecting := false), e.raw;
    SelectPaced(f);
    hide EvenPaced, OnStarted, OnText, OnAudio, OnDone, OnFailed, Gated;
    match raw.kind {
      case Started => StartedPaced(g, raw, o);
      case TextDelta => TextPaced(g, raw, o);
      case Done => TextPaced(g, raw, o);
      case Audio => AudioPaced(g, raw, o);
      case Failed => FailPaced(g);
      case Unknown =>
    }
  }

  lemma StepPaced(f: Forwarder, op: Op, seen: seq<S.Event>)
    requires Inv(f, seen) && EvenPaced(f)
    ensures EvenPaced(Step(f, op))
  {
    hide Inv, Pass, TakeEvent, FramesIn, Spaced;
    match op {
      case HandlerStart(ids) =>
      case HandlerRetire =>
      case LoopPass(now, delay, o, finish) => PassPaced(f, now, delay, o, finish, seen);
      case Timer => SelectPaced(f);
      case Event(e, o) => EventPaced(f, e, o);
    }
  }

  lemma {:induction false} RunPaced(f: Forwarder, ops: seq<Op>, seen: seq<S.Event>)
    requires Inv(f, seen) && S.Ordered(seen + EventsRead(f, ops)) && EvenPaced(f)
    ensures EvenPaced(Run(f, ops))
    decreases |ops|
  {
    hide Inv, Step, S.Ordered, Gated, EvenPaced;
    if ops != [] {
      var now := if Reads(f, ops[0]) then [ops[0].event] else [];
      var rest := EventsRead(Step(f, ops[0]), ops[1..]);
      assert seen + EventsRead(f, ops) == (seen + now) + rest;
      assert ((seen + now) + rest)[..|seen + now|] == seen + now;
      OrderedPrefix((seen + now) + rest, |seen + now|);
      StepKeeps(f, ops[0], seen);
      StepPaced(f, ops[0], seen);
      assert now == [] ==> seen + now == seen;
      RunPaced(Step(f, ops[0]), ops[1..], seen + now);
    }
  }

  /**
   * Whatever the handler does meanwhile and however sends end: an answer that
   * got its response.done was sent in numbered frames, START first, END last,
   * full but for the last and spaced by the frame time; its bytes are the
   * provider's, followed by nothing or by one silent sample, the latter only
   * behind a positive multiple of a frame.  The pacing buffer never overflows,
   * and the latest answer is spaced too, whether it goes on, was cancelled or failed.
   */
  lemma CompletedAnswersAreWhole(session: nat, ops: seq<Op>)
    requires S.Ordered(EventsRead(Initial(session), ops))
    ensures var f := Run(Initial(session), ops);
            && !f.overflowed
            && (Live(f) ==> |f.pacer.pending| <= MAX_BUFFERED)
            && Spaced(FramesIn(f.current.messages))
            && forall i :: 0 <= i < |f.completed| ==> Complete(f.completed[i])
  {
    var f := Initial(session);
    assert [] + EventsRead(f, ops) == EventsRead(f, ops);
    assert Inv(f, []) && EvenPaced(f);
    hide Run, EventsRead, Complete, FramesIn, Spaced;
    RunKeeps(f, ops, []);
    RunPaced(f, ops, []);
  }

  /**
   * A turn retired while the forwarder sleeps on the provider leaves its pacer
   * behind.  The next turn's first event, a proper start, is then taken for a
   * duplicate, and the connection ends.
   */
  lemma CancelWhileWaitingEndsTheConnection(first: WireIds, second: WireIds, a: S.Raw, b: S.Raw)
    requires ValidIds(first) && ValidIds(second) && second.session == first.session && first.epoch < second.epoch
    requires a.kind == S.Started && b.kind == S.Started && a.responseId != "" && b.responseId != ""
    ensures var pass := LoopPass(0, 0, Sent, Sent);
            var ops := [HandlerStart(first), pass, Event(S.Event(first.epoch, a), Sent), pass,
                        HandlerRetire, HandlerStart(second), Event(S.Event(second.epoch, b), Sent)];
            Run(Initial(first.session), ops).failed
  {
    var pass := LoopPass(0, 0, Sent, Sent);
    var ops := [HandlerStart(first), pass, Event(S.Event(first.epoch, a), Sent), pass,
                HandlerRetire, HandlerStart(second), Event(S.Event(second.epoch, b), Sent)];
    var f3 := Step(Step(Step(Initial(first.session), ops[0]), ops[1]), ops[2]);
    assert f3.turn.ids == first && f3.turn.active;
    assert f3.pacer == IDLE_PACER.(epoch := first.epoch, turn := first.turn, responseId := a.responseId);
    var f6 := Step(Step(Step(f3, ops[3]), ops[4]), ops[5]);
    assert f6.turn.ids == second && f6.turn.active && f6.selecting && f6.pacer == f3.pacer;
    assert Step(f6, ops[6]).failed;
    hide Step;
    RunThree(Initial(first.session), ops);
    RunThree(f3, ops[3..]);
    assert ops[3..][3..] == [ops[6]] && [ops[6]][1..] == [];
    assert Run(f6, [ops[6]]) == Run(Step(f6, ops[6]), []);
  }

  lemma RunThree(f: Forwarder, ops: seq<Op>)
    requires |ops| >= 3
    ensures Run(f, ops) == Run(Step(Step(Step(f, ops[0]), ops[1]), ops[2]), ops[3..])
  {
    hide Step;
    var f1 := Step(f, ops[0]);
    var f2 := Step(f1, ops[1]);
    assert Run(f, ops) == Run(f1, ops[1..]);
    assert Run(f1, ops[1..]) == Run(f2, ops[1..][1..]) && ops[1..][1..] == ops[2..];
    assert Run(f2, ops[2..]) == Run(Step(f2, ops[2]), ops[2..][1..]) && ops[2..][1..] == ops[3..];
  }
}
