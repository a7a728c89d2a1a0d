/** An answer the session delivers is forwarded to its end. */
module DownlinkProgress {
  import opened WireTypes
  import opened Downlink
  import P = DownlinkProofs
  import S = SessionActor

  // ---------------------------------------------------------------------
  // What ends the connection
  // ---------------------------------------------------------------------

  /** The event has its place in the answer under way. */
  predicate InPlace(f: Forwarder, raw: S.Raw) {
    match raw.kind
    case Started => f.pacer.epoch == 0
    case TextDelta => Matches(f.pacer, f.turn, raw.responseId)
    case Audio => ValidAudio(raw) && Matches(f.pacer, f.turn, raw.responseId)
    case Done => Matches(f.pacer, f.turn, raw.responseId)
    case Failed => true
    case Unknown => true
  }

  /** The event is read and belongs to the turn under way. */
  predicate Concerns(f: Forwarder, op: Op) {
    Reads(f, op) && f.turn.active && op.event.epoch == f.turn.ids.epoch
  }

  /** Reading it sends a message. */
  predicate Sends(f: Forwarder, raw: S.Raw) {
    raw.kind == S.Started || raw.kind == S.TextDelta || raw.kind == S.Failed
    || (raw.kind == S.Audio && !f.turn.outputStarted)
  }

  /** A passage of the loop that sends something. */
  predicate PassSends(f: Forwarder, now: int) {
    && !f.selecting && !f.failed && P.Live(f)
    && (FrameReady(f.pacer) || f.pacer.providerDone)
    && ((f.pacer.providerDone && f.pacer.pending == [] && f.pacer.wireFrames == 0) || Due(f.pacer, now))
  }

  /** The last frame, or the done of an answer without audio. */
  predicate PassFinishes(f: Forwarder, now: int) {
    PassSends(f, now) && f.pacer.providerDone && |f.pacer.pending| <= OUTPUT_FRAME_BYTES
  }

  /** An event out of place, or a send that fails for a turn that is still active. */
  predicate Faults(f: Forwarder, op: Op) {
    match op
    case Event(e, o) => Concerns(f, op) && (!InPlace(f, e.raw) || (Sends(f, e.raw) && o == Broken))
    case LoopPass(now, _, o, finish) =>
      if f.pacer.providerDone && f.pacer.pending == [] && f.pacer.wireFrames == 0
      then PassSends(f, now) && finish == Broken
      else (PassSends(f, now) && o == Broken) || (PassFinishes(f, now) && o == Sent && finish == Broken)
    case _ => false
  }

  /** Without a response the pacer is empty, and an active turn has its numbers. */
  predicate Sane(f: Forwarder) {
    && (f.pacer.epoch == 0 ==> f.pacer == IDLE_PACER)
    && (f.turn.active ==> f.turn.ids.turn != 0 && f.turn.ids.epoch != 0)
  }

  lemma EventFaults(f: Forwarder, e: S.Event, o: Outcome)
    requires Reads(f, Event(e, o)) && Sane(f)
    ensures TakeEvent(f, e, o).failed <==> Faults(f, Event(e, o))
  {
  }

  lemma PassFaults(f: Forwarder, now: int, delay: nat, o: Outcome, finish: Outcome)
    requires !f.selecting && !f.failed && Sane(f)
    ensures Pass(f, now, delay, o, finish).failed <==> Faults(f, LoopPass(now, delay, o, finish))
  {
  }

  lemma StepSane(f: Forwarder, op: Op)
    requires Sane(f)
    ensures Sane(Step(f, op))
  {
    match op {
      case LoopPass(now, delay, o, finish) => PassSane(f, now, delay, o, finish);
      case Event(e, o) => EventSane(f, e, o);
      case _ =>
    }
  }

  lemma PassSane(f: Forwarder, now: int, delay: nat, o: Outcome, finish: Outcome)
    requires Sane(f)
    ensures Sane(Pass(f, now, delay, o, finish))
  {
    hide AddSilence, DropStale, Finish, SendFrame, Sane;
    var g := AddSilence(DropStale(f));
    TopSane(f);
    FinishSane(g, finish);
    if g.pacer.pending != [] { SendSane(g, now + delay, o, finish); }
    SelectSane(g);
  }

  lemma TopSane(f: Forwarder)
    requires Sane(f)
    ensures Sane(AddSilence(DropStale(f)))
  {
  }

  lemma SelectSane(f: Forwarder)
    requires Sane(f)
    ensures Sane(f.(selecting := true))
  {
  }

  lemma FinishSane(f: Forwarder, o: Outcome)
    requires Sane(f)
    ensures Sane(Finish(f, o))
  {
  }

  lemma SendSane(f: Forwarder, at: int, o: Outcome, finish: Outcome)
    requires Sane(f) && f.pacer.pending != []
    ensures Sane(SendFrame(f, at, o, finish))
  {
    hide Finish;
    FinishSane(Queued(f, at), finish);
  }

  lemma EventSane(f: Forwarder, e: S.Event, o: Outcome)
    requires Sane(f)
    ensures Sane(TakeEvent(f, e, o))
  {
  }

  lemma StepFaults(f: Forwarder, op: Op)
    requires Sane(f) && !f.failed
    ensures Step(f, op).failed <==> Faults(f, op)
  {
    match op {
      case LoopPass(now, delay, o, finish) =>
        hide Pass;
        if f.selecting { Selecting(f, now, delay, o, finish); } else { PassFaults(f, now, delay, o, finish); }
      case Event(e, o) =>
        hide OnStarted, OnText, OnAudio, OnDone, OnFailed;
        if Reads(f, op) { EventFaults(f, e, o); }
      case _ =>
    }
  }

  lemma Selecting(f: Forwarder, now: int, delay: nat, o: Outcome, finish: Outcome)
    requires f.selecting
    ensures Pass(f, now, delay, o, finish) == f
  {
  }

  lemma FailedStays(f: Forwarder, op: Op)
    requires f.failed
    ensures Step(f, op).failed
  {
  }

  /** One of the operations ends the connection. */
  predicate Died(f: Forwarder, ops: seq<Op>)
    decreases |ops|
  {
    ops != [] && (Faults(f, ops[0]) || Died(Step(f, ops[0]), ops[1..]))
  }

  lemma {:induction false} FailedIff(f: Forwarder, ops: seq<Op>)
    requires Sane(f)
    ensures Run(f, ops).failed <==> f.failed || Died(f, ops)
    decreases |ops|
  {
    hide Step, Faults;
    if ops != [] {
      StepSane(f, ops[0]);
      if f.failed { FailedStays(f, ops[0]); } else { StepFaults(f, ops[0]); }
      FailedIff(Step(f, ops[0]), ops[1..]);
    }
  }

  /**
   * In every run the forwarder ends the connection for an event out of place or
   * for a send that fails while its turn is active, and for nothing else.
   */
  lemma ForwarderFailsOnlyForCause(session: nat, ops: seq<Op>)
    ensures Run(Initial(session), ops).failed <==> Died(Initial(session), ops)
  {
    FailedIff(Initial(session), ops);
  }

  // ---------------------------------------------------------------------
  // An answer under way stays under way
  // ---------------------------------------------------------------------

  /** Every message is sent, the events come in place, and nobody starts or retires a turn. */
  predicate Smoothly(f: Forwarder, op: Op) {
    match op
    case Event(e, o) => Concerns(f, op) ==> o == Sent && InPlace(f, e.raw) && e.raw.kind != S.Failed
    case LoopPass(_, _, o, finish) => o == Sent && finish == Sent
    case Timer => true
    case _ => false
  }

  predicate AllSmoothly(f: Forwarder, ops: seq<Op>)
    decreases |ops|
  {
    ops == [] || (Smoothly(f, ops[0]) && AllSmoothly(Step(f, ops[0]), ops[1..]))
  }

  /** The turn waits for its answer or is in it. */
  predicate Open(f: Forwarder, ids: WireIds) {
    && !f.failed && f.turn.active && f.turn.ids == ids
    && (f.pacer.epoch != 0 ==> BelongsTo(f.pacer, f.turn) && f.current.ids == ids)
  }

  /** Its answer was completed and the turn retired. */
  predicate Closed(f: Forwarder, ids: WireIds) {
    && !f.failed && !f.turn.active && f.turn.ids == ids && f.pacer == IDLE_PACER
    && f.completed != [] && f.completed[|f.completed| - 1].ids == ids
  }

  /** The done of the answer was read. */
  predicate Told(f: Forwarder, op: Op) {
    Concerns(f, op) && op.event.raw.kind == S.Done
  }

  lemma EventStaysOpen(f: Forwarder, e: S.Event, o: Outcome, ids: WireIds)
    requires Sane(f) && Open(f, ids) && Smoothly(f, Event(e, o))
    ensures var g := TakeEvent(f, e, o);
            Open(g, ids) && g.pacer.providerDone == (f.pacer.providerDone || Told(f, Event(e, o)))
  {
  }

  lemma PassStaysOpen(f: Forwarder, now: int, delay: nat, ids: WireIds)
    requires Sane(f) && Open(f, ids)
    ensures var g := Pass(f, now, delay, Sent, Sent);
            if Open(g, ids) then g.pacer.providerDone == f.pacer.providerDone
            else Closed(g, ids) && f.pacer.providerDone
  {
    hide FrameReady, Due;
    if !f.selecting {
      var g := AddSilence(f);
      assert DropStale(f) == f;
      assert Open(g, ids) && g.pacer.providerDone == f.pacer.providerDone;
      hide AddSilence, DropStale;
      if FrameReady(g.pacer) {
        ReadyPending(g.pacer);
        SendStaysOpen(g, now + delay, ids);
        hide SendFrame;
      }
    }
  }

  lemma ReadyPending(p: Pacer)
    requires FrameReady(p)
    ensures p.pending != []
  {
  }

  lemma SendStaysOpen(f: Forwarder, at: int, ids: WireIds)
    requires Open(f, ids) && f.pacer.epoch != 0 && f.pacer.pending != []
    ensures var g := SendFrame(f, at, Sent, Sent);
            if Open(g, ids) then g.pacer.providerDone == f.pacer.providerDone
            else Closed(g, ids) && f.pacer.providerDone
  {
  }

  lemma StaysClosed(f: Forwarder, op: Op, ids: WireIds)
    requires Closed(f, ids) && Smoothly(f, op)
    ensures Closed(Step(f, op), ids)
  {
  }

  lemma StaysOpen(f: Forwarder, op: Op, ids: WireIds)
    requires Sane(f) && Open(f, ids) && Smoothly(f, op)
    ensures var g := Step(f, op);
            if Open(g, ids) then g.pacer.providerDone == (f.pacer.providerDone || Told(f, op)) else Closed(g, ids)
  {
    match op {
      case LoopPass(now, delay, o, finish) => PassStaysOpen(f, now, delay, ids);
      case Event(e, o) => EventStaysOpen(f, e, o, ids);
      case _ =>
    }
  }

  /** The done is among the events read. */
  predicate TellsDone(f: Forwarder, ops: seq<Op>)
    decreases |ops|
  {
    ops != [] && (Told(f, ops[0]) || TellsDone(Step(f, ops[0]), ops[1..]))
  }

  lemma {:induction false} RunStaysOpen(f: Forwarder, ops: seq<Op>, ids: WireIds)
    requires Sane(f) && (Open(f, ids) || Closed(f, ids)) && AllSmoothly(f, ops)
    ensures var g := Run(f, ops);
            && Sane(g) && (Open(g, ids) || Closed(g, ids))
            && (Open(f, ids) && Open(g, ids) ==> g.pacer.providerDone == (f.pacer.providerDone || TellsDone(f, ops)))
    decreases |ops|
  {
    hide Step, Smoothly, Told;
    if ops != [] {
      StepSane(f, ops[0]);
      if Open(f, ids) { StaysOpen(f, ops[0], ids); } else { StaysClosed(f, ops[0], ids); }
      OpenOrClosed(f, ids);
      RunStaysOpen(Step(f, ops[0]), ops[1..], ids);
      if Closed(Step(f, ops[0]), ids) { ClosedForGood(Step(f, ops[0]), ops[1..], ids); }
    }
  }

  lemma OpenOrClosed(f: Forwarder, ids: WireIds)
    ensures !(Open(f, ids) && Closed(f, ids))
  {
  }

  lemma {:induction false} ClosedForGood(f: Forwarder, ops: seq<Op>, ids: WireIds)
    requires Closed(f, ids) && AllSmoothly(f, ops)
    ensures Closed(Run(f, ops), ids)
    decreases |ops|
  {
    hide Step, Smoothly, Closed;
    if ops != [] {
      StaysClosed(f, ops[0], ids);
      ClosedForGood(Step(f, ops[0]), ops[1..], ids);
    }
  }

  // ---------------------------------------------------------------------
  // The rest of the answer goes out
  // ---------------------------------------------------------------------

  /** The loop runs at `now`, and queues its frame `delay` later. */
  datatype Tick = Tick(now: int, delay: nat)

  function Passes(ticks: seq<Tick>): seq<Op> {
    if ticks == [] then [] else [Timer, LoopPass(ticks[0].now, ticks[0].delay, Sent, Sent)] + Passes(ticks[1..])
  }

  /** A frame time lies between one frame and the next run of the loop. */
  predicate Paced(ticks: seq<Tick>)
  {
    forall i :: 0 <= i < |ticks| - 1 ==> ticks[i].now + ticks[i].delay + FRAME_TIME <= ticks[i + 1].now
  }

  /** Frames still to go; an answer whose last frame left early gets one more, and one without audio none. */
  function Owed(f: Forwarder): nat { 1 + |f.pacer.pending| / OUTPUT_FRAME_BYTES }

  /** The provider is done, and the answer still under way. */
  predicate Draining(f: Forwarder) { !f.failed && P.Live(f) && f.pacer.providerDone }

  lemma PassDrains(f: Forwarder, t: Tick)
    requires Draining(f) && Due(f.pacer, t.now)
    ensures var g := Pass(f.(selecting := false), t.now, t.delay, Sent, Sent);
            || (!g.failed && !g.turn.active && g.pacer == IDLE_PACER && g.turn.ids == f.turn.ids
                && |g.completed| == |f.completed| + 1 && g.completed[..|f.completed|] == f.completed
                && g.completed[|f.completed|].ids == f.current.ids
                && g.completed[|f.completed|].provided == f.current.provided)
            || (Draining(g) && |g.pacer.pending| == |f.pacer.pending| - OUTPUT_FRAME_BYTES
                && g.completed == f.completed && g.turn.ids == f.turn.ids
                && g.current.ids == f.current.ids && g.current.provided == f.current.provided
                && g.pacer.nextFrameAt.Some? && g.pacer.nextFrameAt.value <= t.now + t.delay + FRAME_TIME)
  {
    var h := f.(selecting := false);
    var g := AddSilence(DropStale(h));
    P.DeadlineBounds(f.pacer.nextFrameAt, t.now + t.delay);
    assert DropStale(h) == h;
    hide NextDeadline;
  }

  /** `g` completed the answer `f` was in, and nothing else. */
  ghost predicate Completes(f: Forwarder, g: Forwarder) {
    && !g.failed && !g.turn.active && g.pacer == IDLE_PACER
    && |g.completed| == |f.completed| + 1 && g.completed[..|f.completed|] == f.completed
    && var r := g.completed[|f.completed|];
       r.ids == f.current.ids && r.provided == f.current.provided
  }

  lemma RunPass(f: Forwarder, ticks: seq<Tick>)
    requires ticks != []
    ensures var g := Pass(f.(selecting := false), ticks[0].now, ticks[0].delay, Sent, Sent);
            Run(f, Passes(ticks)) == Run(g, Passes(ticks[1..]))
  {
    var ops := Passes(ticks);
    var first := [Timer, LoopPass(ticks[0].now, ticks[0].delay, Sent, Sent)];
    assert ops == first + Passes(ticks[1..]);
    hide Pass, Passes;
    assert ops[1..] == [first[1]] + Passes(ticks[1..]) && ops[1..][1..] == Passes(ticks[1..]);
    var h := f.(selecting := false);
    assert Step(f, ops[0]) == h;
    assert Run(f, ops) == Run(h, ops[1..]) == Run(Step(h, ops[1..][0]), ops[1..][1..]);
  }

  lemma {:induction false} IdleOn(f: Forwarder, ticks: seq<Tick>)
    requires !f.failed && !f.turn.active && f.pacer == IDLE_PACER
    ensures var g := Run(f, Passes(ticks));
            g.turn == f.turn && g.completed == f.completed && g.pacer == IDLE_PACER && !g.failed
    decreases |ticks|
  {
    if ticks != [] {
      RunPass(f, ticks);
      var g := Pass(f.(selecting := false), ticks[0].now, ticks[0].delay, Sent, Sent);
      assert g == f.(selecting := true);
      IdleOn(g, ticks[1..]);
    }
  }

  lemma PacedRest(ticks: seq<Tick>)
    requires Paced(ticks) && ticks != []
    ensures Paced(ticks[1..])
  {
    assert forall i :: 0 <= i < |ticks[1..]| ==> ticks[1..][i] == ticks[i + 1];
  }

  lemma {:induction false} Drains(f: Forwarder, ticks: seq<Tick>)
    requires Draining(f) && Paced(ticks) && |ticks| >= Owed(f) && Due(f.pacer, ticks[0].now)
    ensures Completes(f, Run(f, Passes(ticks)))
    decreases |ticks|
  {
    hide Pass, Passes, Run;
    var g := Pass(f.(selecting := false), ticks[0].now, ticks[0].delay, Sent, Sent);
    RunPass(f, ticks);
    PassDrains(f, ticks[0]);
    if g.turn.active {
      assert Owed(g) == Owed(f) - 1;
      assert |ticks| >= 2 && ticks[1..][0] == ticks[1];
      PacedRest(ticks);
      Drains(g, ticks[1..]);
    } else {
      IdleOn(g, ticks[1..]);
    }
  }

  // ---------------------------------------------------------------------
  // Main result
  // ---------------------------------------------------------------------

  /**
   * From every reachable state of an open turn: when the session's events come in
   * place up to the done, every message is sent and nobody retires the turn, then
   * the answer is completed, at the latest once the loop has run as often as
   * there are frames left, a frame time apart.
   */
  lemma AnswerIsCompleted(session: nat, ops: seq<Op>, more: seq<Op>, ticks: seq<Tick>)
    requires var f := Run(Initial(session), ops);
             && Open(f, f.turn.ids) && AllSmoothly(f, more) && TellsDone(f, more)
    requires var g := Run(Run(Initial(session), ops), more);
             g.turn.active ==> Paced(ticks) && |ticks| >= Owed(g) && Due(g.pacer, ticks[0].now)
    ensures var f := Run(Initial(session), ops);
            var g := Run(f, more);
            var h := if g.turn.active then Run(g, Passes(ticks)) else g;
            && !h.failed && !h.turn.active && h.pacer == IDLE_PACER
            && h.completed != [] && h.completed[|h.completed| - 1].ids == f.turn.ids
  {
    hide Step, AllSmoothly, TellsDone, Passes, Paced, Due;
    RunSane(Initial(session), ops);
    var f := Run(Initial(session), ops);
    hide Run;
    RunStaysOpen(f, more, f.turn.ids);
    var g := Run(f, more);
    if g.turn.active { Drains(g, ticks); }
  }

  lemma {:induction false} RunSane(f: Forwarder, ops: seq<Op>)
    requires Sane(f)
    ensures Sane(Run(f, ops))
    decreases |ops|
  {
    hide Step, Sane;
    if ops != [] {
      StepSane(f, ops[0]);
      RunSane(Step(f, ops[0]), ops[1..]);
    }
  }

  // ---------------------------------------------------------------------
  // Backpressure
  // ---------------------------------------------------------------------

  /** Frames that must leave before the next event is read: seven frames short of a sample may wait. */
  function Excess(f: Forwarder): nat {
    if |f.pacer.pending| <= 6464 then 0 else (|f.pacer.pending| - 6464 + OUTPUT_FRAME_BYTES - 1) / OUTPUT_FRAME_BYTES
  }

  /** In an answer whose end is not known yet. */
  predicate Streaming(f: Forwarder) { !f.failed && P.Live(f) && !f.pacer.providerDone }

  lemma FrameLeaves(f: Forwarder, t: Tick)
    requires Streaming(f) && Due(f.pacer, t.now) && |f.pacer.pending| >= OUTPUT_FRAME_BYTES
    ensures var g := Pass(f.(selecting := false), t.now, t.delay, Sent, Sent);
            && Streaming(g) && |g.pacer.pending| == |f.pacer.pending| - OUTPUT_FRAME_BYTES
            && g.pacer.nextFrameAt.Some? && g.pacer.nextFrameAt.value <= t.now + t.delay + FRAME_TIME
  {
    P.DeadlineBounds(f.pacer.nextFrameAt, t.now + t.delay);
    hide NextDeadline;
  }

  lemma {:induction false} ExcessLeaves(f: Forwarder, ticks: seq<Tick>)
    requires Streaming(f) && Paced(ticks) && |ticks| == Excess(f) && (ticks != [] ==> Due(f.pacer, ticks[0].now))
    ensures var g := Run(f, Passes(ticks)); Streaming(g) && |g.pacer.pending| <= 6464
    decreases |ticks|
  {
    if ticks != [] {
      hide Pass, Passes, Run;
      RunPass(f, ticks);
      FrameLeaves(f, ticks[0]);
      var g := Pass(f.(selecting := false), ticks[0].now, ticks[0].delay, Sent, Sent);
      PacedRest(ticks);
      assert |ticks| > 1 ==> ticks[1..][0] == ticks[1];
      ExcessLeaves(g, ticks[1..]);
    }
  }

  /**
   * Backpressure never stalls an answer: from every reachable state of one that
   * still streams, once the frames above the threshold have left at their pace,
   * the forwarder reads whatever event comes next at its select.
   */
  lemma BackpressureResolves(session: nat, ops: seq<Op>, ticks: seq<Tick>, e: S.Event, o: Outcome)
    requires var f := Run(Initial(session), ops);
             Streaming(f) && Paced(ticks) && |ticks| == Excess(f) && (ticks != [] ==> Due(f.pacer, ticks[0].now))
    ensures var g := Run(Run(Initial(session), ops), Passes(ticks));
            Streaming(g) && Reads(g.(selecting := true), Event(e, o))
  {
    ExcessLeaves(Run(Initial(session), ops), ticks);
    hide Run, Passes;
  }

  // ---------------------------------------------------------------------
  // A provider that fails
  // ---------------------------------------------------------------------

  /** The provider's failure is read for the turn under way, and its error goes out. */
  predicate TellsFault(f: Forwarder, op: Op) {
    Concerns(f, op) && op.event.raw.kind == S.Failed && op.outcome != Broken
  }

  function Faulted(f: Forwarder, ops: seq<Op>): seq<WireIds>
    decreases |ops|
  {
    if ops == [] then []
    else (if TellsFault(f, ops[0]) then [f.turn.ids] else []) + Faulted(Step(f, ops[0]), ops[1..])
  }

  lemma StepTells(f: Forwarder, op: Op)
    ensures Step(f, op).faults == f.faults + (if TellsFault(f, op) then [f.turn.ids] else [])
    ensures TellsFault(f, op) ==> !Step(f, op).turn.active && Step(f, op).pacer == IDLE_PACER
  {
    assert f.faults + [] == f.faults;
    hide FrameReady, NextDeadline, Due;
  }

  lemma {:induction false} RunTells(f: Forwarder, ops: seq<Op>)
    ensures Run(f, ops).faults == f.faults + Faulted(f, ops)
    decreases |ops|
  {
    hide Step, TellsFault;
    if ops == [] {
      assert f.faults + [] == f.faults;
    } else {
      StepTells(f, ops[0]);
      RunTells(Step(f, ops[0]), ops[1..]);
      var first := if TellsFault(f, ops[0]) then [f.turn.ids] else [];
      var rest := Faulted(Step(f, ops[0]), ops[1..]);
      assert (f.faults + first) + rest == f.faults + (first + rest);
    }
  }

  /** In every run the device is told of exactly the provider failures read for its turn, and that turn is over. */
  lemma ProviderFaultsAreTold(session: nat, ops: seq<Op>, op: Op)
    ensures var f := Run(Initial(session), ops);
            && f.faults == Faulted(Initial(session), ops)
            && (TellsFault(f, op) ==>
                  var g := Step(f, op);
                  g.faults == f.faults + [f.turn.ids] && !g.turn.active && g.pacer == IDLE_PACER)
  {
    RunTells(Initial(session), ops);
    assert [] + Faulted(Initial(session), ops) == Faulted(Initial(session), ops);
    StepTells(Run(Initial(session), ops), op);
    hide Run, Step, TellsFault;
  }
}
