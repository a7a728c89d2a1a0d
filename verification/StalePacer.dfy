/** When the pacer a retired turn left behind costs the next answer, and with it the connection. */
module StalePacer {
  import opened WireTypes
  import opened Downlink
  import P = DownlinkProofs
  import S = SessionActor

  /** The pacer is idle or belongs to a turn that is over. */
  predicate Stale(f: Forwarder) {
    f.pacer.epoch == 0 || !f.turn.active || !BelongsTo(f.pacer, f.turn)
  }

  /** Turns are named, and a pacer's turn is not newer than the turn on record. */
  predicate Sane(f: Forwarder) {
    && (f.turn.active ==> f.turn.ids.turn != 0 && f.turn.ids.epoch != 0)
    && (f.pacer.epoch != 0 ==> f.pacer.epoch <= f.turn.ids.epoch && f.turn.ids.turn != 0)
    && (f.pacer.epoch == 0 ==> f.pacer == IDLE_PACER)
  }

  /** The forwarder reads the start of the active turn's answer. */
  predicate Begins(f: Forwarder, op: Op) {
    Reads(f, op) && f.turn.active && op.event.epoch == f.turn.ids.epoch && op.event.raw.kind == S.Started
  }

  predicate NoneBegins(f: Forwarder, ops: seq<Op>)
    decreases |ops|
  {
    ops == [] || (!Begins(f, ops[0]) && NoneBegins(Step(f, ops[0]), ops[1..]))
  }

  /** The loop goes over its top. */
  predicate Passes(f: Forwarder, op: Op) { op.LoopPass? && !f.selecting && !f.failed }

  predicate Passed(f: Forwarder, ops: seq<Op>)
    decreases |ops|
  {
    ops != [] && (Passes(f, ops[0]) || Passed(Step(f, ops[0]), ops[1..]))
  }

  lemma PassSane(f: Forwarder, now: int, delay: nat, o: Outcome, finish: Outcome)
    requires Sane(f)
    ensures Sane(Pass(f, now, delay, o, finish))
  {
    if f.selecting || f.failed {
      return;
    }
    var g := AddSilence(DropStale(f));
    assert Sane(g);
    hide AddSilence, DropStale, NextDeadline;
    if FrameReady(g.pacer) && Due(g.pacer, now) {
      assert Sane(SendFrame(g, now + delay, o, finish));
    }
  }

  lemma StepSane(f: Forwarder, op: Op)
    requires Sane(f)
    ensures Sane(Step(f, op))
  {
    hide Pass, ValidAudio, Gated;
    if op.LoopPass? {
      PassSane(f, op.now, op.delay, op.outcome, op.finish);
    }
  }

  lemma {:induction false} RunSane(f: Forwarder, ops: seq<Op>)
    requires Sane(f)
    ensures Sane(Run(f, ops))
    decreases |ops|
  {
    hide Sane, Step;
    if ops != [] {
      StepSane(f, ops[0]);
      RunSane(Step(f, ops[0]), ops[1..]);
    }
  }

  lemma IdleStep(f: Forwarder, op: Op)
    requires f.pacer == IDLE_PACER && !Begins(f, op)
    ensures Step(f, op).pacer == IDLE_PACER
  {
  }

  lemma {:induction false} IdleStays(f: Forwarder, ops: seq<Op>)
    requires f.pacer == IDLE_PACER && NoneBegins(f, ops)
    ensures Run(f, ops).pacer == IDLE_PACER
    decreases |ops|
  {
    hide Begins, Step;
    if ops != [] {
      IdleStep(f, ops[0]);
      IdleStays(Step(f, ops[0]), ops[1..]);
    }
  }

  /** A pass over the top clears a stale pacer; without one, whoever is still waiting has not moved. */
  lemma StaleStep(f: Forwarder, op: Op)
    requires Sane(f) && Stale(f) && !Begins(f, op)
    ensures var g := Step(f, op);
            && Stale(g)
            && (Passes(f, op) ==> g.pacer == IDLE_PACER)
            && (!Passes(f, op) && g.selecting ==> f.selecting && g.pacer == f.pacer)
  {
  }

  lemma {:induction false} StaleRun(f: Forwarder, ops: seq<Op>)
    requires Sane(f) && Stale(f) && NoneBegins(f, ops)
    ensures var g := Run(f, ops);
            && (Passed(f, ops) ==> g.pacer == IDLE_PACER)
            && (!Passed(f, ops) && g.selecting ==> f.selecting && g.pacer == f.pacer)
    decreases |ops|
  {
    hide Sane, Stale, Begins, Passes, Step;
    if ops != [] {
      var t := Step(f, ops[0]);
      StepSane(f, ops[0]);
      StaleStep(f, ops[0]);
      if Passes(f, ops[0]) {
        IdleStays(t, ops[1..]);
      } else {
        StaleRun(t, ops[1..]);
      }
    }
  }

  /**
   * A turn was retired and its pacer is still there.  Whatever happens until the
   * next answer's start is read, that start ends the connection exactly when the
   * loop has not gone over its top since, or its own message cannot be sent.
   */
  lemma StartRefusedWithoutAPass(session: nat, before: seq<Op>, ops: seq<Op>, e: S.Event, o: Outcome)
    requires var f := Run(Initial(session), before); f.pacer.epoch != 0 && Stale(f) && NoneBegins(f, ops)
    requires Begins(Run(Run(Initial(session), before), ops), Event(e, o))
    ensures var f := Run(Initial(session), before);
            var g := Step(Run(f, ops), Event(e, o));
            && (g.failed <==> !Passed(f, ops) || o == Broken)
            && (Passed(f, ops) && o == Sent ==> P.Live(g))
  {
    var f := Run(Initial(session), before);
    RunSane(Initial(session), before);
    RunSane(f, ops);
    StaleRun(f, ops);
  }
}
