/** The bytes and texts of a completed answer are the ones the session sent for its epoch. */
module DownlinkSource {
  import opened WireTypes
  import opened Downlink
  import P = DownlinkProofs
  import S = SessionActor
  import V = SessionDelivery

  /** The audio of an epoch's response: what follows its start. */
  function PcmOf(es: seq<S.Event>, epoch: nat): seq<byte> {
    if es == [] then []
    else
      var e, before := es[|es| - 1], PcmOf(es[..|es| - 1], epoch);
      if e.epoch != epoch then before
      else if e.raw.kind == S.Started then []
      else if e.raw.kind == S.Audio then before + e.raw.pcm
      else before
  }

  lemma PcmMore(es: seq<S.Event>, e: S.Event, epoch: nat)
    ensures PcmOf(es + [e], epoch) ==
            if e.epoch != epoch then PcmOf(es, epoch)
            else if e.raw.kind == S.Started then []
            else if e.raw.kind == S.Audio then PcmOf(es, epoch) + e.raw.pcm
            else PcmOf(es, epoch)
  {
    assert (es + [e])[..|es|] == es;
  }

  /** The subtitles of an epoch's response: what follows its start. */
  function TextsOf(es: seq<S.Event>, epoch: nat): seq<string> {
    if es == [] then []
    else
      var e, before := es[|es| - 1], TextsOf(es[..|es| - 1], epoch);
      if e.epoch != epoch then before
      else if e.raw.kind == S.Started then []
      else if e.raw.kind == S.TextDelta then before + [e.raw.text]
      else before
  }

  lemma TextMore(es: seq<S.Event>, e: S.Event, epoch: nat)
    ensures TextsOf(es + [e], epoch) ==
            if e.epoch != epoch then TextsOf(es, epoch)
            else if e.raw.kind == S.Started then []
            else if e.raw.kind == S.TextDelta then TextsOf(es, epoch) + [e.raw.text]
            else TextsOf(es, epoch)
  {
    assert (es + [e])[..|es|] == es;
  }

  /** The texts on the wire. */
  function TextsIn(ms: seq<Wire>): seq<string> {
    if ms == [] then []
    else
      var last := ms[|ms| - 1];
      TextsIn(ms[..|ms| - 1]) + if last.TextDelta? then [last.text] else []
  }

  lemma TextsAppend(ms: seq<Wire>, m: Wire)
    ensures TextsIn(ms + [m]) == if m.TextDelta? then TextsIn(ms) + [m.text] else TextsIn(ms)
  {
    assert (ms + [m])[..|ms|] == ms;
  }

  /** The response under way, and the completed ones, hold what was read for their epoch. */
  ghost predicate Holds(r: Response, seen: seq<S.Event>) {
    r.provided == PcmOf(seen, r.ids.epoch) && TextsIn(r.messages) == TextsOf(seen, r.ids.epoch)
  }

  ghost predicate Owned(f: Forwarder, seen: seq<S.Event>) {
    P.Live(f) ==> f.current.ids == f.turn.ids && Holds(f.current, seen)
  }

  ghost predicate Closed(r: Response, seen: seq<S.Event>) {
    Holds(r, seen) && V.DoneIn(seen, r.ids.epoch)
  }

  ghost predicate Sourced(f: Forwarder, seen: seq<S.Event>) {
    Owned(f, seen) && forall i :: 0 <= i < |f.completed| ==> Closed(f.completed[i], seen)
  }

  /** An ended epoch is not heard of again. */
  lemma ClosedMore(r: Response, seen: seq<S.Event>, e: S.Event)
    requires Closed(r, seen) && S.Ordered(seen + [e])
    ensures Closed(r, seen + [e])
  {
    P.LastFollows(seen, e);
    PcmMore(seen, e, r.ids.epoch);
    TextMore(seen, e, r.ids.epoch);
    var i :| 0 <= i < |seen| && seen[i].epoch == r.ids.epoch && seen[i].raw.kind == S.Done;
    assert (seen + [e])[i] == seen[i];
  }

  lemma FinishSourced(f: Forwarder, o: Outcome, seen: seq<S.Event>)
    requires Sourced(f, seen) && (P.Live(f) ==> P.Ending(f, seen) && f.pacer.providerDone) && !f.failed
    ensures Sourced(Finish(f, o), seen)
  {
    TextsAppend(f.current.messages, Done(f.pacer.responseId));
    hide PcmOf, TextsOf, TextsIn;
    if P.Live(f) && o == Sent {
      var r := Log(f, Done(f.pacer.responseId)).current;
      assert V.DoneIn(seen, f.turn.ids.epoch) by { hide Sourced; }
      assert Closed(r, seen);
      hide Closed;
    }
  }

  lemma SendSourced(f: Forwarder, at: int, o: Outcome, finish: Outcome, seen: seq<S.Event>)
    requires Sourced(f, seen) && P.Ending(f, seen) && !f.failed && f.pacer.pending != []
    ensures Sourced(SendFrame(f, at, o, finish), seen)
  {
    hide PcmOf, TextsOf, TextsIn, Closed, V.DoneIn;
    if P.Live(f) && o == Sent {
      TextsAppend(f.current.messages, Audio(NextFrame(f, at)));
      var g := Queued(f, at);
      assert P.Live(g) && Sourced(g, seen) && P.Ending(g, seen);
      if NextFrame(f, at).end {
        FinishSourced(g, finish, seen);
      }
    }
  }

  lemma TopSourced(f: Forwarder, seen: seq<S.Event>)
    requires Sourced(f, seen) && P.Ending(f, seen) && !f.failed
    ensures var g := AddSilence(DropStale(f)); Sourced(g, seen) && P.Ending(g, seen) && !g.failed
  {
    hide PcmOf, TextsOf, TextsIn, Closed, V.DoneIn;
  }

  lemma PassSourced(f: Forwarder, now: int, delay: nat, o: Outcome, finish: Outcome, seen: seq<S.Event>)
    requires Sourced(f, seen) && P.Ending(f, seen)
    ensures Sourced(Pass(f, now, delay, o, finish), seen)
  {
    hide AddSilence, DropStale, Sourced, P.Ending, SendFrame, Finish, FrameReady;
    if f.selecting || f.failed {
      return;
    }
    var g := AddSilence(DropStale(f));
    TopSourced(f, seen);
    if g.pacer.providerDone && g.pacer.pending == [] {
      FinishSourced(g, finish, seen);
    } else if FrameReady(g.pacer) && Due(g.pacer, now) {
      ReadyPending(g.pacer);
      SendSourced(g, now + delay, o, finish, seen);
    } else {
      SelectSourced(g, true, seen);
    }
  }

  lemma ReadyPending(p: Pacer)
    requires FrameReady(p)
    ensures p.pending != []
  {
  }

  lemma SelectSourced(f: Forwarder, on: bool, seen: seq<S.Event>)
    requires Sourced(f, seen)
    ensures Sourced(f.(selecting := on), seen)
  {
    hide PcmOf, TextsOf, TextsIn, Closed;
  }

  lemma StartOwned(f: Forwarder, e: S.Event, o: Outcome, seen: seq<S.Event>)
    requires f.turn.active && e.epoch == f.turn.ids.epoch && e.raw.kind == S.Started
    requires Owned(f, seen) && !f.failed
    ensures Owned(OnStarted(f, e.raw, o), seen + [e])
  {
    PcmMore(seen, e, e.epoch);
    TextMore(seen, e, e.epoch);
    TextsAppend([], ResponseStart(e.raw.responseId));
    assert [] + [ResponseStart(e.raw.responseId)] == [ResponseStart(e.raw.responseId)];
    assert TextsIn([]) == [];
    hide PcmOf, TextsOf, TextsIn;
  }

  lemma TextOwned(f: Forwarder, e: S.Event, o: Outcome, seen: seq<S.Event>)
    requires f.turn.active && e.epoch == f.turn.ids.epoch && e.raw.kind == S.TextDelta
    requires Owned(f, seen) && !f.failed
    ensures Owned(OnText(f, e.raw, o), seen + [e])
  {
    PcmMore(seen, e, e.epoch);
    TextMore(seen, e, e.epoch);
    TextsAppend(f.current.messages, TextDelta(e.raw.responseId, e.raw.text));
    hide PcmOf, TextsOf, TextsIn;
  }

  lemma AudioOwned(f: Forwarder, e: S.Event, o: Outcome, seen: seq<S.Event>)
    requires f.turn.active && e.epoch == f.turn.ids.epoch && e.raw.kind == S.Audio
    requires Owned(f, seen) && !f.failed
    ensures Owned(OnAudio(f, e.raw, o), seen + [e])
  {
    PcmMore(seen, e, e.epoch);
    TextMore(seen, e, e.epoch);
    TextsAppend(f.current.messages, AudioStart(e.raw.responseId, e.raw.rate));
    hide PcmOf, TextsOf, TextsIn;
  }

  /** What reading an event does to the bytes and texts of the response under way. */
  lemma EventOwned(f: Forwarder, e: S.Event, o: Outcome, seen: seq<S.Event>)
    requires Owned(f, seen) && Reads(f, Event(e, o))
    ensures Owned(TakeEvent(f, e, o), seen + [e]) && TakeEvent(f, e, o).completed == f.completed
  {
    var g := f.(selecting := false);
    PcmMore(seen, e, f.turn.ids.epoch);
    TextMore(seen, e, f.turn.ids.epoch);
    EventCompletes(f, e, o);
    assert Owned(g, seen) by { hide PcmOf, TextsOf, TextsIn; }
    if g.turn.active && e.epoch == g.turn.ids.epoch {
      match e.raw.kind {
        case Started => hide Owned, OnStarted; StartOwned(g, e, o, seen);
        case TextDelta => hide Owned, OnText; TextOwned(g, e, o, seen);
        case Audio => hide Owned, OnAudio; AudioOwned(g, e, o, seen);
        case _ => hide PcmOf, TextsOf, TextsIn;
      }
    } else {
      hide PcmOf, TextsOf, TextsIn;
    }
  }

  lemma EventCompletes(f: Forwarder, e: S.Event, o: Outcome)
    ensures TakeEvent(f, e, o).completed == f.completed
  {
  }

  lemma EventSourced(f: Forwarder, e: S.Event, o: Outcome, seen: seq<S.Event>)
    requires Sourced(f, seen) && Reads(f, Event(e, o)) && S.Ordered(seen + [e])
    ensures Sourced(TakeEvent(f, e, o), seen + [e])
  {
    EventOwned(f, e, o, seen);
    hide Owned, Closed, TakeEvent, PcmOf, S.Ordered;
    forall i | 0 <= i < |f.completed| ensures Closed(f.completed[i], seen + [e]) {
      ClosedMore(f.completed[i], seen, e);
    }
  }

  lemma HandlerSourced(f: Forwarder, ids: WireIds, seen: seq<S.Event>)
    requires Sourced(f, seen) && P.Fresh(f)
    ensures Sourced(StartTurn(f, ids), seen) && Sourced(Retire(f), seen)
  {
    hide PcmOf, TextsOf, TextsIn, Closed;
  }

  lemma StepSourced(f: Forwarder, op: Op, seen: seq<S.Event>)
    requires Sourced(f, seen) && P.Inv(f, seen) && (Reads(f, op) ==> S.Ordered(seen + [op.event]))
    ensures Sourced(Step(f, op), if Reads(f, op) then seen + [op.event] else seen)
  {
    assert P.Fresh(f) && P.Ending(f, seen);
    hide P.Inv, P.Fresh, P.Ending, Sourced, StartTurn, Retire, Pass, S.Ordered;
    match op {
      case HandlerStart(ids) => HandlerSourced(f, ids, seen);
      case HandlerRetire => HandlerSourced(f, ZERO_IDS, seen);
      case LoopPass(now, delay, o, finish) => PassSourced(f, now, delay, o, finish, seen);
      case Timer => SelectSourced(f, false, seen);
      case Event(e, o) =>
        hide OnStarted, OnText, OnAudio, OnDone, OnFailed;
        if Reads(f, op) { EventSourced(f, e, o, seen); }
    }
  }

  lemma {:induction false} RunSourced(f: Forwarder, ops: seq<Op>, seen: seq<S.Event>)
    requires Sourced(f, seen) && P.Inv(f, seen) && S.Ordered(seen + EventsRead(f, ops))
    ensures Sourced(Run(f, ops), seen + EventsRead(f, ops))
    decreases |ops|
  {
    hide P.Inv, Sourced, Step, S.Ordered, Gated;
    if ops == [] {
      assert seen + [] == seen;
      return;
    }
    var now := if Reads(f, ops[0]) then [ops[0].event] else [];
    var rest := EventsRead(Step(f, ops[0]), ops[1..]);
    assert seen + EventsRead(f, ops) == (seen + now) + rest;
    assert ((seen + now) + rest)[..|seen + now|] == seen + now;
    P.OrderedPrefix((seen + now) + rest, |seen + now|);
    P.StepKeeps(f, ops[0], seen);
    StepSourced(f, ops[0], seen);
    assert now == [] ==> seen + now == seen;
    RunSourced(Step(f, ops[0]), ops[1..], seen + now);
  }

  /** Every byte and text the session sent for a completed answer is in it, in order, and no other. */
  lemma CompletedAnswersHoldTheirSource(session: nat, ops: seq<Op>)
    requires S.Ordered(EventsRead(Initial(session), ops))
    ensures var f, read := Run(Initial(session), ops), EventsRead(Initial(session), ops);
            forall i :: 0 <= i < |f.completed| ==>
              && f.completed[i].provided == PcmOf(read, f.completed[i].ids.epoch)
              && TextsIn(f.completed[i].messages) == TextsOf(read, f.completed[i].ids.epoch)
              && V.DoneIn(read, f.completed[i].ids.epoch)
  {
    var f := Initial(session);
    assert [] + EventsRead(f, ops) == EventsRead(f, ops);
    assert P.Inv(f, []) && Sourced(f, []);
    hide Run, EventsRead, PcmOf, TextsOf, TextsIn;
    RunSourced(f, ops, []);
  }

  // ---------------------------------------------------------------------
  // What the provider said
  // ---------------------------------------------------------------------

  /** The audio the provider produced for an epoch's commit. */
  function ProviderAudio(raws: seq<S.Raw>, epoch: nat): seq<byte> {
    if raws == [] then []
    else
      var r := raws[|raws| - 1];
      ProviderAudio(raws[..|raws| - 1], epoch) + if r.origin == epoch && r.kind == S.Audio then r.pcm else []
  }

  /** The texts the provider produced for an epoch's commit. */
  function ProviderTexts(raws: seq<S.Raw>, epoch: nat): seq<string> {
    if raws == [] then []
    else
      var r := raws[|raws| - 1];
      ProviderTexts(raws[..|raws| - 1], epoch) + if r.origin == epoch && r.kind == S.TextDelta then [r.text] else []
  }

  lemma {:induction false} NothingFor(raws: seq<S.Raw>, epoch: nat)
    requires forall i :: 0 <= i < |raws| ==> raws[i].origin != epoch
    ensures ProviderAudio(raws, epoch) == [] && ProviderTexts(raws, epoch) == []
  {
    if raws != [] {
      NothingFor(raws[..|raws| - 1], epoch);
    }
  }

  /** An answer starts once, so its start takes nothing back. */
  lemma {:induction false} LiftedSource(raws: seq<S.Raw>, epoch: nat)
    requires V.OneAnswer(raws)
    ensures PcmOf(V.Lift(raws), epoch) == ProviderAudio(raws, epoch)
    ensures TextsOf(V.Lift(raws), epoch) == ProviderTexts(raws, epoch)
  {
    if raws != [] {
      var n := |raws| - 1;
      var before, r := raws[..n], raws[n];
      LiftedSource(before, epoch);
      PcmMore(V.Lift(before), S.Event(r.origin, r), epoch);
      TextMore(V.Lift(before), S.Event(r.origin, r), epoch);
      assert V.Lift(raws) == V.Lift(before) + [S.Event(r.origin, r)];
      if r.kind == S.Started && r.origin == epoch {
        forall i | 0 <= i < n ensures before[i].origin != epoch {
          assert raws[i] == before[i];
        }
        NothingFor(before, epoch);
      }
    }
  }

  /** Other epochs do not matter. */
  lemma {:induction false} SourceOf(es: seq<S.Event>, epoch: nat)
    ensures PcmOf(V.Of(es, epoch), epoch) == PcmOf(es, epoch)
    ensures TextsOf(V.Of(es, epoch), epoch) == TextsOf(es, epoch)
  {
    if es != [] {
      var n := |es| - 1;
      SourceOf(es[..n], epoch);
      assert es == es[..n] + [es[n]];
      PcmMore(es[..n], es[n], epoch);
      TextMore(es[..n], es[n], epoch);
      V.OfMore(es[..n], es[n], epoch);
      if es[n].epoch == epoch {
        PcmMore(V.Of(es[..n], epoch), es[n], epoch);
        TextMore(V.Of(es[..n], epoch), es[n], epoch);
      } else {
        assert V.Of(es, epoch) == V.Of(es[..n], epoch);
      }
    }
  }

  /** Once an answer is done nothing more of it follows. */
  lemma {:induction false} DoneIsAll(es: seq<S.Event>, n: nat, epoch: nat)
    requires n <= |es| && S.Ordered(es) && V.DoneIn(es[..n], epoch)
    ensures V.DoneIn(es, epoch) && V.Of(es, epoch) == V.Of(es[..n], epoch)
    decreases |es|
  {
    if n == |es| {
      assert es[..n] == es;
    } else {
      var m := |es| - 1;
      P.OrderedPrefix(es, m);
      assert es[..m][..n] == es[..n] && es == es[..m] + [es[m]];
      DoneIsAll(es[..m], n, epoch);
      var i :| 0 <= i < m && es[..m][i].epoch == epoch && es[..m][i].raw.kind == S.Done;
      assert es[i] == es[..m][i] && S.MayFollow(es[i], es[m]);
      V.OfMore(es[..m], es[m], epoch);
      V.DoneMore(es[..m], es[m], epoch);
    }
  }

  /** What was read of a finished answer holds exactly the audio and texts its provider produced. */
  lemma ReadIsProvided(ops: seq<S.Op>, read: seq<S.Event>, epoch: nat)
    requires read <= S.Run(S.NEW_SESSION, ops).out && V.DoneIn(read, epoch)
    requires V.Delivers(None, S.NEW_SESSION, ops) && V.OneAnswer(S.Enqueued(ops))
    ensures PcmOf(read, epoch) == ProviderAudio(S.Enqueued(ops), epoch)
    ensures TextsOf(read, epoch) == ProviderTexts(S.Enqueued(ops), epoch)
  {
    var out, raws := S.Run(S.NEW_SESSION, ops).out, S.Enqueued(ops);
    S.StreamIsOrdered(ops);
    assert out[..|read|] == read;
    DoneIsAll(out, |read|, epoch);
    V.AnsweredInFull(ops, epoch);
    SourceOf(read, epoch);
    SourceOf(V.Lift(raws), epoch);
    LiftedSource(raws, epoch);
  }
}
