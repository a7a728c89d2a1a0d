/** A provider that keeps its contract is heard in full: nothing of a finished answer is lost on the way. */
module SessionDelivery {
  import opened WireTypes
  import opened SessionActor

  // ---------------------------------------------------------------------
  // The provider's contract
  // ---------------------------------------------------------------------

  /** One commit, one answer: it starts once, at its beginning, and all of it names one response, errors aside. */
  predicate OneAnswer(raws: seq<Raw>) {
    forall i, j :: 0 <= i < j < |raws| && raws[i].origin == raws[j].origin ==>
      && raws[j].kind != Started
      && (raws[i].responseId == raws[j].responseId || (raws[j].kind == Failed && raws[j].responseId == ""))
  }

  /** Honest throughout, and silent once its channel is closed. */
  predicate Delivers(live: Option<nat>, s: Session, ops: seq<Op>)
    decreases |ops|
  {
    ops == []
    || (&& Honest(live, ops[0]) && (ops[0].Enqueue? ==> !s.closed)
        && Delivers(Live(live, s, ops[0]), Step(s, ops[0]), ops[1..]))
  }

  // ---------------------------------------------------------------------
  // The events of one epoch
  // ---------------------------------------------------------------------

  function Of(es: seq<Event>, e: nat): seq<Event> {
    if es == [] then []
    else
      var last := es[|es| - 1];
      Of(es[..|es| - 1], e) + if last.epoch == e then [last] else []
  }

  /** Provider events as they ought to come out: under the epoch that caused them. */
  function Lift(raws: seq<Raw>): (es: seq<Event>)
    ensures |es| == |raws|
  {
    if raws == [] then [] else Lift(raws[..|raws| - 1]) + [Event(raws[|raws| - 1].origin, raws[|raws| - 1])]
  }

  lemma OfMore(es: seq<Event>, x: Event, e: nat)
    ensures Of(es + [x], e) == Of(es, e) + if x.epoch == e then [x] else []
  {
    assert (es + [x])[..|es|] == es;
  }

  lemma LiftMore(raws: seq<Raw>, r: Raw)
    ensures Lift(raws + [r]) == Lift(raws) + [Event(r.origin, r)]
  {
    assert (raws + [r])[..|raws|] == raws;
  }

  lemma {:induction false} LiftFirst(raws: seq<Raw>)
    requires raws != []
    ensures Lift(raws) == [Event(raws[0].origin, raws[0])] + Lift(raws[1..])
  {
    var n := |raws| - 1;
    if n == 0 {
      assert raws[..0] == [] && raws[1..] == [];
    } else {
      LiftFirst(raws[..n]);
      assert raws[..n][1..] == raws[1..][..n - 1] && raws[1..][n - 1] == raws[n];
    }
  }

  lemma {:induction false} OfNone(es: seq<Event>, e: nat)
    requires forall i :: 0 <= i < |es| ==> es[i].epoch != e
    ensures Of(es, e) == []
  {
    if es != [] {
      OfNone(es[..|es| - 1], e);
    }
  }

  lemma {:induction false} LiftedNone(raws: seq<Raw>, e: nat)
    requires forall i :: 0 <= i < |raws| ==> raws[i].origin != e
    ensures Of(Lift(raws), e) == []
  {
    if raws != [] {
      var n := |raws| - 1;
      LiftedNone(raws[..n], e);
      OfMore(Lift(raws[..n]), Event(raws[n].origin, raws[n]), e);
    }
  }

  predicate DoneIn(es: seq<Event>, e: nat) {
    exists i :: 0 <= i < |es| && es[i].epoch == e && es[i].raw.kind == Done
  }

  /** Everything shown, in hand or still in the channel. */
  function Total(s: Session): seq<Event> {
    s.out + (if s.pending.Some? then [s.pending.value] else []) + Lift(s.incoming)
  }

  // ---------------------------------------------------------------------
  // What the actor keeps
  // ---------------------------------------------------------------------

  /** What the provider has queued so far belongs to turns that were committed. */
  ghost predicate Known(s: Session, fed: seq<Raw>) {
    && (forall i :: 0 <= i < |fed| ==> fed[i].origin <= s.latest && (s.phase == Listening ==> fed[i].origin < s.epoch))
    && (forall i :: 0 <= i < |s.incoming| ==> s.incoming[i] in fed)
  }

  ghost predicate Named(s: Session, fed: seq<Raw>) {
    && (s.phase == Listening ==> s.responseId == "")
    && (Active(s) && s.responseId != "" ==>
          exists i :: 0 <= i < |fed| && fed[i].origin == s.epoch && fed[i].responseId == s.responseId)
  }

  /** The answer under way is complete so far; a finished one is complete. */
  ghost predicate Complete(s: Session, fed: seq<Raw>) {
    && (Active(s) ==> Of(Total(s), s.epoch) == Of(Lift(fed), s.epoch))
    && (forall e: nat :: DoneIn(Stream(s), e) ==> Of(Stream(s), e) == Of(Lift(fed), e))
  }

  ghost predicate Whole(live: Option<nat>, s: Session, fed: seq<Raw>) {
    Attributed(live, s) && Inv(s) && Known(s, fed) && Named(s, fed) && Complete(s, fed)
  }

  /** Once the actor has stopped. */
  ghost predicate Final(live: Option<nat>, s: Session, fed: seq<Raw>) {
    s.stopped && forall e: nat :: DoneIn(s.out, e) ==> Of(s.out, e) == Of(Lift(fed), e) && live != Some(e)
  }

  /** A finished turn is not the active one. */
  lemma DoneIsPast(s: Session, e: nat)
    requires Inv(s) && DoneIn(Stream(s), e)
    ensures e <= s.latest && (s.phase != Idle ==> e < s.epoch)
  {
    var i :| 0 <= i < |Stream(s)| && Stream(s)[i].epoch == e && Stream(s)[i].raw.kind == Done;
    assert Bound(s, Stream(s)[i]);
  }

  lemma EnqueueKnown(live: Option<nat>, s: Session, raw: Raw, fed: seq<Raw>)
    requires Attributed(live, s) && Inv(s) && Known(s, fed) && Named(s, fed)
    requires !s.closed && Honest(live, Enqueue(raw))
    ensures Known(Step(s, Enqueue(raw)), fed + [raw]) && Named(Step(s, Enqueue(raw)), fed + [raw])
  {
    assert forall r :: r in fed ==> r in fed + [raw];
    assert forall i :: 0 <= i < |fed| ==> (fed + [raw])[i] == fed[i];
  }

  lemma EnqueueTotal(s: Session, raw: Raw)
    requires !s.closed
    ensures var t := Step(s, Enqueue(raw));
            Total(t) == Total(s) + [Event(raw.origin, raw)] && Stream(t) == Stream(s)
  {
    LiftMore(s.incoming, raw);
    hide Lift;
    var front := s.out + (if s.pending.Some? then [s.pending.value] else []);
    assert front + (Lift(s.incoming) + [Event(raw.origin, raw)])
           == (front + Lift(s.incoming)) + [Event(raw.origin, raw)];
  }

  lemma CompleteMore(s: Session, t: Session, raw: Raw, fed: seq<Raw>)
    requires Inv(s) && Complete(s, fed) && Active(s) && raw.origin == s.epoch
    requires t.epoch == s.epoch && Stream(t) == Stream(s) && Total(t) == Total(s) + [Event(raw.origin, raw)]
    ensures Complete(t, fed + [raw])
  {
    var x := Event(raw.origin, raw);
    LiftMore(fed, raw);
    OfMore(Total(s), x, s.epoch);
    OfMore(Lift(fed), x, s.epoch);
    forall e: nat | DoneIn(Stream(s), e) ensures Of(Lift(fed + [raw]), e) == Of(Lift(fed), e) {
      hide Of, Lift, Inv, Total, Stream, DoneIn;
      DoneIsPast(s, e);
      OfMore(Lift(fed), x, e);
      assert Of(Lift(fed), e) + [] == Of(Lift(fed), e);
    }
    hide Of, Lift, Inv, Total, Stream, DoneIn;
  }

  lemma EnqueueKeeps(live: Option<nat>, s: Session, raw: Raw, fed: seq<Raw>)
    requires Whole(live, s, fed) && !s.stopped && !s.closed && Honest(live, Enqueue(raw))
    ensures Known(Step(s, Enqueue(raw)), fed + [raw]) && Named(Step(s, Enqueue(raw)), fed + [raw])
    ensures Complete(Step(s, Enqueue(raw)), fed + [raw])
  {
    EnqueueKnown(live, s, raw, fed);
    EnqueueTotal(s, raw);
    assert Active(s) && raw.origin == s.epoch;
    hide Known, Named, Complete, Inv, Attributed, Total, Stream;
    CompleteMore(s, Step(s, Enqueue(raw)), raw, fed);
  }

  /** The event at the head of the channel is passed on as it is. */
  lemma HeadAccepted(live: Option<nat>, s: Session, fed: seq<Raw>)
    requires Whole(live, s, fed) && s.pending.None? && s.incoming != [] && OneAnswer(fed)
    ensures Active(s)
    ensures TakeOne(s).pending == Some(Event(s.epoch, s.incoming[0])) && s.incoming[0].origin == s.epoch
    ensures Terminal(s.incoming[0]) ==> TakeOne(s).incoming == [] && TakeOne(s).phase == Idle
    ensures !Terminal(s.incoming[0]) ==> Active(TakeOne(s)) && TakeOne(s).responseId == s.incoming[0].responseId
  {
    var raw := s.incoming[0];
    assert WellFormed(raw) && raw in fed;
    if s.responseId != "" && raw.responseId != "" {
      var i :| 0 <= i < |fed| && fed[i].origin == s.epoch && fed[i].responseId == s.responseId;
      var j :| 0 <= j < |fed| && fed[j] == raw;
      assert fed[i].responseId == fed[j].responseId;
    }
  }

  lemma TakeTotal(live: Option<nat>, s: Session, fed: seq<Raw>)
    requires Whole(live, s, fed) && s.pending.None? && s.incoming != [] && OneAnswer(fed)
    ensures var t := TakeOne(s);
            Total(t) == Total(s) && Stream(s) == s.out && Stream(t) == s.out + [Event(s.epoch, s.incoming[0])]
    ensures Terminal(s.incoming[0]) ==> Total(TakeOne(s)) == Stream(TakeOne(s))
  {
    var t, x := TakeOne(s), Event(s.epoch, s.incoming[0]);
    HeadAccepted(live, s, fed);
    TakeFits(s);
    LiftFirst(s.incoming);
    assert t.incoming == s.incoming[1..] && t.out == s.out && t.pending == Some(x);
    if Terminal(x.raw) {
      assert Lift(t.incoming) == [] && Total(t) == Stream(t) + [];
    }
    hide Lift, TakeOne, Whole, OneAnswer;
    assert s.out + [] == s.out;
    assert s.out + ([x] + Lift(t.incoming)) == (s.out + [x]) + Lift(t.incoming);
  }

  lemma TakeNames(live: Option<nat>, s: Session, fed: seq<Raw>)
    requires Whole(live, s, fed) && s.pending.None? && s.incoming != [] && OneAnswer(fed)
    ensures Known(TakeOne(s), fed) && Named(TakeOne(s), fed)
  {
    HeadAccepted(live, s, fed);
    TakeFits(s);
    var t := TakeOne(s);
    assert t.incoming == s.incoming[1..];
    if Active(t) {
      var j :| 0 <= j < |fed| && fed[j] == s.incoming[0];
      assert fed[j].origin == t.epoch && fed[j].responseId == t.responseId;
    }
    hide OneAnswer, Inv, Complete;
  }

  lemma TakeKeepsWhole(live: Option<nat>, s: Session, fed: seq<Raw>)
    requires Whole(live, s, fed) && s.pending.None? && s.incoming != [] && OneAnswer(fed)
    ensures Known(TakeOne(s), fed) && Named(TakeOne(s), fed) && Complete(TakeOne(s), fed)
  {
    var t, x := TakeOne(s), Event(s.epoch, s.incoming[0]);
    TakeNames(live, s, fed);
    HeadAccepted(live, s, fed);
    TakeTotal(live, s, fed);
    TakeFits(s);
    assert Complete(s, fed) && t.epoch == s.epoch;
    hide Whole, OneAnswer, TakeOne, Known, Named, Total, Stream, Of, Lift;
    forall e: nat | DoneIn(Stream(t), e) ensures Of(Stream(t), e) == Of(Lift(fed), e) {
      OfMore(s.out, x, e);
      DoneMore(s.out, x, e);
      assert Of(s.out, e) + [] == Of(s.out, e);
      if e == s.epoch {
        FinishedNow(live, s, fed);
      }
    }
  }

  lemma DoneMore(es: seq<Event>, x: Event, e: nat)
    ensures DoneIn(es + [x], e) <==> DoneIn(es, e) || (x.epoch == e && x.raw.kind == Done)
  {
    var ds := es + [x];
    if DoneIn(es, e) {
      var i :| 0 <= i < |es| && es[i].epoch == e && es[i].raw.kind == Done;
      assert ds[i] == es[i];
    }
    assert ds[|es|] == x;
  }

  lemma ActiveNotDone(s: Session)
    requires Inv(s) && Active(s)
    ensures !DoneIn(Stream(s), s.epoch)
  {
    if DoneIn(Stream(s), s.epoch) {
      DoneIsPast(s, s.epoch);
    }
  }

  /** A done event of the active epoch can only be the one just taken. */
  lemma FinishedNow(live: Option<nat>, s: Session, fed: seq<Raw>)
    requires Whole(live, s, fed) && s.pending.None? && s.incoming != [] && OneAnswer(fed)
    requires DoneIn(s.out + [Event(s.epoch, s.incoming[0])], s.epoch)
    ensures Terminal(s.incoming[0])
  {
    HeadAccepted(live, s, fed);
    ActiveNotDone(s);
    DoneMore(s.out, Event(s.epoch, s.incoming[0]), s.epoch);
  }

  // ---------------------------------------------------------------------
  // Commands
  // ---------------------------------------------------------------------

  lemma StartKeeps(live: Option<nat>, s: Session, epoch: nat, fed: seq<Raw>)
    requires Whole(live, s, fed)
    ensures var t := ApplyStart(s, epoch).0; Known(t, fed) && Named(t, fed) && Complete(t, fed)
  {
    hide Of, Lift;
    assert Stream(ApplyStart(s, epoch).0) == Stream(s);
  }

  lemma AppendKeeps(live: Option<nat>, s: Session, epoch: nat, p: Provider, fed: seq<Raw>)
    requires Whole(live, s, fed)
    ensures var t := ApplyAppend(s, epoch, p).0; Known(t, fed) && Named(t, fed) && Complete(t, fed)
  {
    hide Of, Lift;
    var t := ApplyAppend(s, epoch, p).0;
    assert Stream(t) == Stream(s) && Total(t) == Total(s);
  }

  /** At the commit nothing of the turn has been queued or shown. */
  lemma CommitKeeps(live: Option<nat>, s: Session, epoch: nat, p: Provider, fed: seq<Raw>)
    requires Whole(live, s, fed)
    ensures var t := ApplyCommit(s, epoch, p).0; Known(t, fed) && Named(t, fed) && Complete(t, fed)
  {
    var t := ApplyCommit(s, epoch, p).0;
    assert Stream(t) == Stream(s) && Total(t) == Total(s);
    if t != s {
      assert Total(t) == Stream(s) + [] && Lift(s.incoming) == [];
      forall i | 0 <= i < |Stream(s)| ensures Stream(s)[i].epoch != s.epoch {
        assert Bound(s, Stream(s)[i]);
      }
      OfNone(Stream(s), s.epoch);
      LiftedNone(fed, s.epoch);
      hide Of, Lift;
      assert Stream(s) + [] == Stream(s);
    }
  }

  /** What the cancel takes back belongs to the turn it ends. */
  lemma CancelKeeps(live: Option<nat>, s: Session, epoch: nat, p: Provider, fed: seq<Raw>)
    requires Whole(live, s, fed)
    ensures var t := ApplyCancel(s, epoch, p).0; Known(t, fed) && Named(t, fed) && Complete(t, fed)
  {
    var t := ApplyCancel(s, epoch, p).0;
    if t != s && s.pending.Some? && s.pending.value.epoch == s.epoch {
      var x := s.pending.value;
      forall e: nat | DoneIn(Stream(t), e) ensures Of(Stream(t), e) == Of(Lift(fed), e) {
        DoneMore(s.out, x, e);
        DoneIsPast(s, e);
        OfMore(s.out, x, e);
      }
    } else {
      assert Stream(t) == Stream(s);
    }
  }

  lemma NothingBehindDone(s: Session, e: nat)
    requires Ordered(Stream(s)) && s.pending.Some? && DoneIn(s.out, e)
    ensures s.pending.value.epoch != e
  {
    var i :| 0 <= i < |s.out| && s.out[i].epoch == e && s.out[i].raw.kind == Done;
    assert Stream(s)[i] == s.out[i] && Stream(s)[|s.out|] == s.pending.value;
    assert MayFollow(s.out[i], s.pending.value);
  }

  /** A finished answer stays finished when the actor stops, with or without a last error of its own. */
  lemma StopKeeps(live: Option<nat>, s: Session, fed: seq<Raw>)
    requires Whole(live, s, fed)
    ensures Final(live, s.(stopped := true), fed)
    ensures s.pending.None? && s.phase != Idle ==>
              Final(live, s.(out := s.out + [SessionError(s.epoch)], stopped := true), fed)
  {
    forall e: nat | DoneIn(s.out, e) ensures Of(s.out, e) == Of(Lift(fed), e) && live != Some(e) {
      if s.pending.Some? {
        DoneMore(s.out, s.pending.value, e);
        OfMore(s.out, s.pending.value, e);
        NothingBehindDone(s, e);
      }
      DoneIsPast(s, e);
    }
    if s.pending.None? && s.phase != Idle {
      var out := s.out + [SessionError(s.epoch)];
      forall e: nat | DoneIn(out, e) ensures Of(out, e) == Of(Lift(fed), e) && live != Some(e) {
        DoneMore(s.out, SessionError(s.epoch), e);
        OfMore(s.out, SessionError(s.epoch), e);
        assert Stream(s) == s.out;
        DoneIsPast(s, e);
      }
    }
  }

  // ---------------------------------------------------------------------
  // Whole runs
  // ---------------------------------------------------------------------

  function Fed(op: Op): seq<Raw> {
    if op.Enqueue? then [op.raw] else []
  }

  /** What becomes of a pass of the actor, `fed` counting what the provider queued in it. */
  ghost predicate Goes(live: Option<nat>, t: Session, fed: seq<Raw>) {
    if t.stopped then Final(live, t, fed) else Known(t, fed) && Named(t, fed) && Complete(t, fed)
  }

  lemma TakeGoes(live: Option<nat>, s: Session, room: bool, fed: seq<Raw>)
    requires Whole(live, s, fed) && !s.stopped && OneAnswer(fed)
    ensures Goes(live, Step(s, TakeEvent(room)), fed)
  {
    if s.pending.None? && s.incoming != [] {
      TakeKeepsWhole(live, s, fed);
    } else if s.pending.None? && s.closed {
      StopKeeps(live, s, fed);
    }
  }

  lemma CommandGoes(live: Option<nat>, s: Session, o: Operation, epoch: nat, p: Provider, fed: seq<Raw>)
    requires Whole(live, s, fed)
    ensures var t := Apply(s, o, epoch, p).0; Known(t, fed) && Named(t, fed) && Complete(t, fed)
    ensures Apply(s, o, epoch, p).0.stopped == s.stopped
  {
    match o {
      case StartTurn => StartKeeps(live, s, epoch, fed);
      case AppendPcm => AppendKeeps(live, s, epoch, p, fed);
      case Commit => CommitKeeps(live, s, epoch, p, fed);
      case CancelTurn => CancelKeeps(live, s, epoch, p, fed);
    }
  }

  lemma QuietGoes(live: Option<nat>, s: Session, op: Op, fed: seq<Raw>)
    requires Whole(live, s, fed) && !s.stopped && (op == CloseStream || op == Emit)
    ensures Goes(live, Step(s, op), fed)
  {
    hide Of, Lift, Inv, Attributed;
    assert Stream(Step(s, op)) == Stream(s) && Total(Step(s, op)) == Total(s);
  }

  lemma StepGoes(live: Option<nat>, s: Session, op: Op, fed: seq<Raw>)
    requires Whole(live, s, fed) && !s.stopped && OneAnswer(fed)
    requires Honest(live, op) && (op.Enqueue? ==> !s.closed)
    ensures Goes(Live(live, s, op), Step(s, op), fed + Fed(op))
  {
    assert fed + [] == fed;
    hide Known, Named, Complete, Final, OneAnswer, Whole;
    match op {
      case Enqueue(raw) => EnqueueKeeps(live, s, raw, fed);
      case CloseStream => QuietGoes(live, s, op, fed);
      case Urgent(epoch, p) => CommandGoes(live, s, CancelTurn, epoch, p, fed);
      case Command(o, epoch, expired, p) => CommandGoes(live, s, o, epoch, p, fed);
      case TakeEvent(room) => TakeGoes(live, s, room, fed);
      case Emit => QuietGoes(live, s, op, fed);
      case Stop => StopKeeps(live, s, fed);
    }
  }

  ghost predicate Holds(live: Option<nat>, s: Session, fed: seq<Raw>) {
    if s.stopped then Final(live, s, fed) else Whole(live, s, fed)
  }

  lemma StepWhole(live: Option<nat>, s: Session, op: Op, fed: seq<Raw>)
    requires Whole(live, s, fed) && !s.stopped && OneAnswer(fed)
    requires Honest(live, op) && (op.Enqueue? ==> !s.closed)
    ensures Holds(Live(live, s, op), Step(s, op), fed + Fed(op))
  {
    StepAttributed(live, s, op);
    OutOrdered(s);
    StepKeeps(s, op);
    StepGoes(live, s, op, fed);
    hide Step, Live, Attributed, Inv, Known, Named, Complete, OneAnswer, Ordered;
  }

  /** After the end the provider can only have more to say of an answer that never finished. */
  lemma StepFinal(live: Option<nat>, s: Session, op: Op, fed: seq<Raw>)
    requires Final(live, s, fed) && Honest(live, op)
    ensures Final(Live(live, s, op), Step(s, op), fed + Fed(op))
  {
    var t := Step(s, op);
    assert t.out == s.out && t.stopped;
    assert fed + [] == fed;
    forall e: nat | DoneIn(t.out, e)
      ensures Of(t.out, e) == Of(Lift(fed + Fed(op)), e) && Live(live, s, op) != Some(e) {
      if op.Enqueue? {
        LiftMore(fed, op.raw);
        OfMore(Lift(fed), Event(op.raw.origin, op.raw), e);
      }
    }
  }

  lemma OneAnswerPrefix(fed: seq<Raw>, rest: seq<Raw>)
    requires OneAnswer(fed + rest)
    ensures OneAnswer(fed)
  {
    forall i | 0 <= i < |fed| ensures (fed + rest)[i] == fed[i] {
    }
  }

  lemma HeldAtEnd(live: Option<nat>, s: Session, fed: seq<Raw>)
    requires Holds(live, s, fed)
    ensures forall e: nat :: DoneIn(s.out, e) ==> Of(s.out, e) == Of(Lift(fed), e)
  {
    if !s.stopped {
      StopKeeps(live, s, fed);
    }
    hide Whole, Of, Lift, DoneIn;
  }

  lemma StepHolds(live: Option<nat>, s: Session, op: Op, fed: seq<Raw>)
    requires Holds(live, s, fed) && OneAnswer(fed) && Honest(live, op) && (op.Enqueue? ==> !s.closed)
    ensures Holds(Live(live, s, op), Step(s, op), fed + Fed(op))
  {
    if s.stopped {
      StepFinal(live, s, op, fed);
      assert Step(s, op).stopped;
    } else {
      StepWhole(live, s, op, fed);
    }
  }

  lemma {:induction false} RunWhole(live: Option<nat>, s: Session, ops: seq<Op>, fed: seq<Raw>)
    requires Holds(live, s, fed)
    requires Delivers(live, s, ops) && OneAnswer(fed + Enqueued(ops))
    ensures forall e: nat :: DoneIn(Run(s, ops).out, e) ==>
              Of(Run(s, ops).out, e) == Of(Lift(fed + Enqueued(ops)), e)
    decreases |ops|
  {
    hide Step, Live, Honest, Holds, OneAnswer, Of, Lift, DoneIn;
    OneAnswerPrefix(fed, Enqueued(ops));
    if ops == [] {
      assert fed + [] == fed;
      HeldAtEnd(live, s, fed);
    } else {
      var op := ops[0];
      StepHolds(live, s, op, fed);
      assert (fed + Fed(op)) + Enqueued(ops[1..]) == fed + Enqueued(ops);
      RunWhole(Live(live, s, op), Step(s, op), ops[1..], fed + Fed(op));
    }
  }

  /**
   * A provider that answers each commit with one response is heard in full:
   * whatever the interleaving, an epoch that reaches its end has passed on all
   * that the provider queued for it, in order and nothing else.
   */
  lemma AnsweredInFull(ops: seq<Op>, e: nat)
    requires Delivers(None, NEW_SESSION, ops) && OneAnswer(Enqueued(ops))
    requires DoneIn(Run(NEW_SESSION, ops).out, e)
    ensures Of(Run(NEW_SESSION, ops).out, e) == Of(Lift(Enqueued(ops)), e)
  {
    assert [] + Enqueued(ops) == Enqueued(ops);
    assert Whole(None, NEW_SESSION, []);
    RunWhole(None, NEW_SESSION, ops, []);
  }
}
