/** How an answer ends on the device: it is played, it finishes, and the verdict is the back end's. */
module PlaybackOutcome {
  import opened WireTypes
  import opened Playback

  // ---------------------------------------------------------------------
  // What the back end answered
  // ---------------------------------------------------------------------

  /** The answers since the stream was opened: each slot rendered or not, and the drain if it was asked for one. */
  datatype Backend = Backend(renders: seq<bool>, drain: Option<bool>)

  const SILENT := Backend([], None)

  function Heard(p: Player, b: Backend, op: Op): Backend {
    match op
    case BeginOp(prepared) => if !p.active && prepared then SILENT else b
    case RenderedOp(ok) => if p.thread.Holding? then b.(renders := b.renders + [ok]) else b
    case CompleteOp(drained) =>
      if p.thread.Draining? && !p.thread.discard && !p.thread.failed then b.(drain := Some(drained)) else b
    case _ => b
  }

  function Answers(p: Player, b: Backend, ops: seq<Op>): Backend
    decreases |ops|
  {
    if ops == [] then b else Answers(Step(p, ops[0]), Heard(p, b, ops[0]), ops[1..])
  }

  /** One of the two blocking calls failed. */
  predicate WentWrong(b: Backend) { false in b.renders || b.drain == Some(false) }

  /** The marks agree with the answers; a failed render is the last. */
  ghost predicate Told(p: Player, b: Backend) {
    && |b.renders| == |p.stream.slots| + (if false in b.renders then 1 else 0)
    && (p.active ==> b.drain == None)
    && (match p.thread
        case Waiting => p.active ==> false !in b.renders
        case Holding(_, _) => false !in b.renders
        case Finishing(_, failed) => failed <==> false in b.renders
        case Draining(discard, failed) => if discard then p.drop && !failed else failed <==> false in b.renders)
    && (!p.active ==>
          && (p.failed <==> !p.stream.dropped && WentWrong(b))
          && (p.stream.ended && !p.stream.dropped && false !in b.renders ==> b.drain.Some?))
  }

  lemma StepTold(p: Player, b: Backend, op: Op)
    requires Inv(p) && Told(p, b)
    ensures Told(Step(p, op), Heard(p, b, op))
  {
    hide Decoded, Waits, InOrder, Settled, FullButLast, Decode, Flatten;
    match op {
      case RenderedOp(ok) =>
        if p.thread.Holding? {
          assert (b.renders + [ok])[|b.renders|] == ok;
          assert false in b.renders + [ok] <==> !ok;
        }
      case _ =>
    }
  }

  lemma {:induction false} RunTold(p: Player, b: Backend, ops: seq<Op>)
    requires Inv(p) && Told(p, b)
    ensures Told(Run(p, ops), Answers(p, b, ops)) && Inv(Run(p, ops))
    decreases |ops|
  {
    hide Inv, Told, Step, Heard;
    if ops != [] {
      StepTold(p, b, ops[0]);
      StepKeeps(p, ops[0]);
      RunTold(Step(p, ops[0]), Heard(p, b, ops[0]), ops[1..]);
    }
  }

  /**
   * A finished stream has failed exactly when a render or its drain failed and
   * nobody dropped it; the drain is asked for whenever every slot of an ended,
   * undropped stream was rendered; and if nothing went wrong, all of it was heard.
   */
  lemma VerdictIsTheBackEnds(ops: seq<Op>)
    ensures var p, b := Run(Idle(), ops), Answers(Idle(), SILENT, ops);
            p.done ==>
              && (p.failed <==> !p.stream.dropped && WentWrong(b))
              && (p.stream.ended && !p.stream.dropped && false !in b.renders ==> b.drain.Some?)
              && (!p.stream.dropped && !WentWrong(b) ==> Flatten(p.stream.slots) == p.stream.accepted)
  {
    RunTold(Idle(), SILENT, ops);
    var p := Run(Idle(), ops);
    hide Run, Answers, FullButLast, Decode, Flatten;
    assert p.done ==> !p.active;
  }

  // ---------------------------------------------------------------------
  // The answer is played
  // ---------------------------------------------------------------------

  /** What the playback thread does when every call succeeds. */
  const ROUND: seq<Op> := [WakeOp, RenderedOp(true), ObserveOp, CompleteOp(true)]

  function Rounds(n: nat): seq<Op> {
    if n == 0 then [] else ROUND + Rounds(n - 1)
  }

  function Round(p: Player): Player {
    Complete(Observe(Rendered(Wake(p), true)), true)
  }

  lemma RunRounds(p: Player, n: nat)
    requires n > 0
    ensures Run(p, Rounds(n)) == Run(Round(p), Rounds(n - 1))
  {
    var ops := Rounds(n);
    var p1 := Step(p, WakeOp);
    var p2 := Step(p1, RenderedOp(true));
    var p3 := Step(p2, ObserveOp);
    assert Step(p3, CompleteOp(true)) == Round(p);
    hide Step, Round;
    assert Run(p, ops) == Run(p1, ops[1..]);
    assert ops[1..][1..] == ops[2..] && ops[2..][1..] == ops[3..] && ops[3..][1..] == Rounds(n - 1);
    assert Run(p1, ops[1..]) == Run(p2, ops[2..]);
    assert Run(p2, ops[2..]) == Run(p3, ops[3..]);
  }

  /** How many rounds are left at most. */
  function Left(p: Player): nat {
    if !p.active then 0
    else match p.thread
      case Waiting => |p.fifo| + 1
      case Holding(_, _) => |p.fifo| + 2
      case _ => 1
  }

  predicate Lost(p: Player) {
    (p.thread.Finishing? || p.thread.Draining?) && p.thread.failed
  }

  /** While an ended stream is played out nothing of it changes but what was rendered; then it is done. */
  ghost predicate PlaysOut(p: Player, q: Player) {
    && q.stream == p.stream.(slots := q.stream.slots)
    && (q.active ==> q.ending == p.ending && q.drop == p.drop && (Lost(q) <==> Lost(p)))
    && (!q.active ==> q.done && (!p.stream.dropped && !Lost(p) ==> !q.failed))
  }

  lemma RoundPlays(p: Player)
    requires Inv(p) && p.active && (p.ending || p.drop)
    ensures PlaysOut(p, Round(p)) && Left(Round(p)) < Left(p)
  {
    hide Decoded, Waits, InOrder, Settled, FullButLast, Decode, Flatten;
  }

  lemma RoundKeeps(p: Player)
    requires Inv(p)
    ensures Inv(Round(p))
  {
    hide Inv, Wake, Rendered, Observe, Complete;
    WakeKeeps(p);
    RenderedKeeps(Wake(p), true);
    ObserveKeeps(Rendered(Wake(p), true));
    CompleteKeeps(Observe(Rendered(Wake(p), true)), true);
  }

  lemma RoundRests(p: Player)
    requires Inv(p) && !p.active
    ensures Round(p) == p
  {
    hide Decoded, Waits, InOrder, Settled, FullButLast, Decode, Flatten;
  }

  lemma {:induction false} RoundsPlay(p: Player, n: nat)
    requires Inv(p) && (if p.active then p.ending || p.drop else p.done) && Left(p) <= n
    ensures var q := Run(p, Rounds(n));
            && Inv(q) && !q.active && q.done && q.stream == p.stream.(slots := q.stream.slots)
            && (p.active && !p.stream.dropped && !Lost(p) ==> !q.failed)
            && (!p.active ==> q == p)
    decreases n
  {
    hide Inv, Round, Lost;
    if n > 0 {
      RunRounds(p, n);
      RoundKeeps(p);
      if p.active {
        RoundPlays(p);
      } else {
        RoundRests(p);
      }
      RoundsPlay(Round(p), n - 1);
    }
  }

  /** What the actor queued among `ops`. */
  function Payload(ops: seq<Op>): seq<byte> {
    if ops == [] then [] else (if ops[0].QueueOp? then ops[0].bytes else []) + Payload(ops[1..])
  }

  /** Samples accepted and not yet taken by the thread. */
  function Unplayed(p: Player): int {
    |p.stream.accepted| - |Flatten(if p.thread.Holding? then p.stream.slots + [p.thread.slot] else p.stream.slots)|
  }

  /**
   * The packets of an answer as they come: whole samples, in sequence, never
   * more than fits; the thread plays meanwhile and every render succeeds.
   */
  predicate Streams(p: Player, ops: seq<Op>, next: nat)
    decreases |ops|
  {
    ops == []
    || match ops[0]
       case QueueOp(bytes, sequence) =>
         && bytes != [] && |bytes| % 2 == 0 && sequence == next && Unplayed(p) + |bytes| / 2 <= CAPACITY
         && Streams(Step(p, ops[0]), ops[1..], next + 1)
       case UnderrunOp => Streams(Step(p, ops[0]), ops[1..], next)
       case WakeOp => Streams(Step(p, ops[0]), ops[1..], next)
       case RenderedOp(ok) => ok && Streams(Step(p, ops[0]), ops[1..], next)
       case _ => false
  }

  /** An open stream that nobody ended or dropped. */
  predicate Playing(p: Player) {
    p.active && !p.ending && !p.drop && !p.thread.Finishing? && !p.thread.Draining?
  }

  predicate Open(p: Player, next: nat) { Playing(p) && (p.sequenceSet ==> p.nextSequence == next) }

  lemma UnplayedIsQueued(p: Player)
    requires Inv(p) && p.active && !p.drop && !Lost(p)
    ensures Unplayed(p) == |p.fifo|
  {
    hide Flatten, Decode;
  }

  lemma StreamStep(p: Player, op: Op, next: nat)
    requires Inv(p) && Open(p, next)
    requires op.QueueOp? ==> op.bytes != [] && |op.bytes| % 2 == 0 && op.sequence == next
                             && Unplayed(p) + |op.bytes| / 2 <= CAPACITY
    requires op.QueueOp? || op.UnderrunOp? || op.WakeOp? || op == RenderedOp(true)
    ensures var q := Step(p, op);
            && Open(q, if op.QueueOp? then next + 1 else next)
            && q.stream.bytes == p.stream.bytes + (if op.QueueOp? then op.bytes else [])
            && q.stream.ended == p.stream.ended && q.stream.dropped == p.stream.dropped
  {
    UnplayedIsQueued(p);
    hide Decoded, Waits, InOrder, Settled, FullButLast, Decode, Flatten, Unplayed;
    assert p.stream.bytes + [] == p.stream.bytes;
  }

  lemma {:induction false} StreamRun(p: Player, ops: seq<Op>, next: nat)
    requires Inv(p) && Open(p, next) && Streams(p, ops, next)
    ensures var q := Run(p, ops);
            && Inv(q) && Playing(q) && q.stream.bytes == p.stream.bytes + Payload(ops)
            && q.stream.ended == p.stream.ended && q.stream.dropped == p.stream.dropped
    decreases |ops|
  {
    hide Inv, Playing, Step, Unplayed;
    if ops == [] {
      assert p.stream.bytes + [] == p.stream.bytes;
    } else {
      var q, after := Step(p, ops[0]), if ops[0].QueueOp? then next + 1 else next;
      var mine, rest := if ops[0].QueueOp? then ops[0].bytes else [], Payload(ops[1..]);
      StreamStep(p, ops[0], next);
      StepKeeps(p, ops[0]);
      assert Streams(q, ops[1..], after);
      assert Payload(ops) == mine + rest && Run(p, ops) == Run(q, ops[1..]);
      hide Open, Payload, Streams, Run;
      StreamRun(q, ops[1..], after);
      assert (p.stream.bytes + mine) + rest == p.stream.bytes + (mine + rest);
    }
  }

  /**
   * An answer that streams in while it plays, is ended and is not dropped is
   * heard whole: wherever the player stood before, every packet is accepted,
   * every sample rendered in order, and the stream is done without a failure
   * as soon as the thread has had its rounds.
   */
  lemma AnswerIsPlayed(before: seq<Op>, ops: seq<Op>, first: nat, n: nat)
    requires var p := Run(Idle(), before); !p.active && Streams(Begin(p, true).0, ops, first)
    requires n >= CAPACITY + 2
    ensures var q := Run(Run(Begin(Run(Idle(), before), true).0, ops), [EndOp] + Rounds(n));
            && q.done && !q.failed && !q.active && q.stream.ended
            && |Payload(ops)| % 2 == 0 && Flatten(q.stream.slots) == Decode(Payload(ops))
  {
    var p := Run(Idle(), before);
    RunKeeps(Idle(), before);
    BeginKeeps(p, true);
    var p1 := Begin(p, true).0;
    assert Open(p1, first) && p1.stream == NO_STREAM by { hide Inv; OpenBegins(p, first); }
    hide Run, Streams;
    StreamRun(p1, ops, first);
    var p2 := Run(p1, ops);
    assert [] + Payload(ops) == Payload(ops);
    EndKeeps(p2);
    var p3 := End(p2).0;
    EndedNow(p2);
    RoundsPlay(p3, n);
    ThenRounds(p2, n);
    PlayedWhole(Run(p3, Rounds(n)), p2);
  }

  lemma OpenBegins(p: Player, first: nat)
    requires !p.active
    ensures Inv(p) ==> Open(Begin(p, true).0, first) && Begin(p, true).0.stream == NO_STREAM
  {
    hide Decoded, Waits, InOrder, Settled, FullButLast, Decode, Flatten;
  }

  lemma EndedNow(p: Player)
    requires Inv(p) && Playing(p)
    ensures var q := End(p).0;
            && q.active && q.ending && !q.drop && !Lost(q) && q.stream == p.stream.(ended := true)
            && Left(q) <= CAPACITY + 2 && !p.stream.dropped
  {
    hide Decoded, Waits, InOrder, Settled, FullButLast, Decode, Flatten;
  }

  lemma ThenRounds(p: Player, n: nat)
    ensures Run(p, [EndOp] + Rounds(n)) == Run(End(p).0, Rounds(n))
  {
    assert ([EndOp] + Rounds(n))[1..] == Rounds(n);
    assert Run(p, [EndOp] + Rounds(n)) == Run(Step(p, EndOp), Rounds(n));
  }

  lemma PlayedWhole(q: Player, p: Player)
    requires Inv(q) && !q.active && !q.failed && q.stream == p.stream.(ended := true, slots := q.stream.slots)
    requires !p.stream.dropped
    ensures |p.stream.bytes| % 2 == 0 && Flatten(q.stream.slots) == Decode(p.stream.bytes)
  {
    hide Flatten, Decode, Waits, InOrder, Closing, FullButLast;
  }

  /** A dropped stream renders at most the slot already in hand. */
  lemma DropStep(p: Player, op: Op)
    requires Inv(p) && p.active && p.drop
    ensures var q := Step(p, op);
            && TakenSlots(q) <= TakenSlots(p)
            && (if q.active then q.drop && q.stream.dropped else q.done)
  {
    hide Decoded, Waits, InOrder, Settled, FullButLast, Decode, Flatten;
  }

  lemma {:induction false} DropRun(p: Player, ops: seq<Op>)
    requires Inv(p) && p.active && p.drop && forall i :: 0 <= i < |ops| ==> !ops[i].BeginOp?
    ensures TakenSlots(Run(p, ops)) <= TakenSlots(p)
    decreases |ops|
  {
    hide Inv, Step, TakenSlots;
    if ops != [] {
      var q := Step(p, ops[0]);
      DropStep(p, ops[0]);
      StepKeeps(p, ops[0]);
      if q.active {
        DropRun(q, ops[1..]);
      } else {
        assert forall i :: 0 <= i < |ops[1..]| ==> ops[1..][i] == ops[i + 1];
        ClosedRun(q, ops[1..]);
      }
    }
  }

  lemma ClosedStep(p: Player, op: Op)
    requires Inv(p) && !p.active && !op.BeginOp?
    ensures Step(p, op).stream == p.stream && !Step(p, op).active && Step(p, op).thread == p.thread
  {
    hide Decoded, Waits, InOrder, Settled, FullButLast, Decode, Flatten;
  }

  lemma {:induction false} ClosedRun(p: Player, ops: seq<Op>)
    requires Inv(p) && !p.active && forall i :: 0 <= i < |ops| ==> !ops[i].BeginOp?
    ensures TakenSlots(Run(p, ops)) == TakenSlots(p)
    decreases |ops|
  {
    hide Inv, Step;
    if ops != [] {
      ClosedStep(p, ops[0]);
      StepKeeps(p, ops[0]);
      ClosedRun(Step(p, ops[0]), ops[1..]);
    }
  }

  /**
   * After a drop nothing is rendered but the slot in the thread's hands, and
   * once the thread has had its rounds the stream is done and has not failed.
   */
  lemma DroppedAnswerStops(before: seq<Op>, ops: seq<Op>, n: nat)
    requires Run(Idle(), before).active && n >= CAPACITY + 2 && forall i :: 0 <= i < |ops| ==> !ops[i].BeginOp?
    ensures var p := Run(Idle(), before);
            var q := Run(Drop(p), ops);
            var done := Run(Drop(p), Rounds(n));
            && q.stream.slots <= TakenSlots(p)
            && done.done && !done.active && !done.failed
  {
    RunTold(Idle(), SILENT, before);
    hide Run, Inv, Told, TakenSlots, Left, Drop, Answers;
    var p, b := Run(Idle(), before), Answers(Idle(), SILENT, before);
    DroppedNow(p, b);
    var d := Drop(p);
    DropRun(d, ops);
    RenderedOfTaken(Run(d, ops), p);
    LeftBounded(d);
    RoundsPlay(d, n);
    RunTold(d, b, Rounds(n));
    DroppedVerdict(Run(d, Rounds(n)), Answers(d, b, Rounds(n)));
  }

  lemma DroppedNow(p: Player, b: Backend)
    requires Inv(p) && Told(p, b) && p.active
    ensures var d := Drop(p);
            && Inv(d) && Told(d, b) && d.active && d.drop && d.stream.dropped && TakenSlots(d) == TakenSlots(p)
  {
    DropKeeps(p);
    hide Decoded, Waits, InOrder, Settled, FullButLast, Decode, Flatten;
  }

  lemma RenderedOfTaken(q: Player, p: Player)
    requires TakenSlots(q) <= TakenSlots(p)
    ensures q.stream.slots <= TakenSlots(p)
  {
  }

  lemma DroppedVerdict(q: Player, b: Backend)
    requires Told(q, b) && !q.active && q.stream.dropped
    ensures !q.failed
  {
  }

  lemma LeftBounded(p: Player)
    requires Inv(p)
    ensures Left(p) <= CAPACITY + 2
  {
    hide Decoded, Waits, InOrder, Settled, Closing, FullButLast, Decode, Flatten;
  }

  // ---------------------------------------------------------------------
  // When the next slot is taken
  // ---------------------------------------------------------------------

  /** The thread's own marks, read off what was rendered. */
  ghost predicate Marked(p: Player) {
    var n := |Flatten(p.stream.slots)|;
    && (p.active && p.stream.dry.Some? ==> p.stream.dry.value <= n)
    && (match p.thread
        case Waiting =>
          p.active ==> (p.started <==> p.stream.slots != []) && (p.rebuffering <==> p.stream.dry == Some(n))
        case Holding(slot, _) => slot != [] && p.started && !p.rebuffering
        case _ => true)
  }

  lemma UnderrunMarked(p: Player)
    requires Inv(p) && Marked(p)
    ensures Marked(Underrun(p))
  {
    var n := |Flatten(p.stream.slots)|;
    if p.thread.Waiting? && p.active && !p.drop && p.fifo == [] {
      assert Flatten(p.stream.slots) + [] == p.stream.accepted;
    }
    hide Decoded, Waits, InOrder, Settled, Closing, FullButLast, Decode, Flatten;
  }

  lemma RenderedMarked(p: Player, ok: bool)
    requires Inv(p) && Marked(p)
    ensures Marked(Rendered(p, ok))
  {
    if p.thread.Holding? {
      var slots, slot := p.stream.slots, p.thread.slot;
      FlattenAppend(slots, slot);
      var more := Flatten(slots + [slot]);
      hide Decoded, Waits, InOrder, Settled, Closing, FullButLast, Decode, Flatten;
      assert |more| == |Flatten(slots)| + |slot|;
    }
  }

  lemma ActorMarked(p: Player, op: Op)
    requires Inv(p) && Marked(p) && !op.UnderrunOp? && !op.RenderedOp?
    ensures Marked(Step(p, op))
  {
    assert Flatten<Sample>([]) == [];
    hide Decoded, Waits, InOrder, Settled, Closing, FullButLast, Decode, Flatten;
  }

  lemma StepMarked(p: Player, op: Op)
    requires Inv(p) && Marked(p)
    ensures Marked(Step(p, op))
  {
    hide Inv, Marked, Underrun, Rendered;
    if op.UnderrunOp? {
      UnderrunMarked(p);
    } else if op.RenderedOp? {
      RenderedMarked(p, op.ok);
    } else {
      ActorMarked(p, op);
    }
  }

  lemma {:induction false} RunMarked(p: Player, ops: seq<Op>)
    requires Inv(p) && Marked(p)
    ensures Marked(Run(p, ops)) && Inv(Run(p, ops))
    decreases |ops|
  {
    hide Inv, Marked, Step;
    if ops != [] {
      StepMarked(p, ops[0]);
      StepKeeps(p, ops[0]);
      RunMarked(Step(p, ops[0]), ops[1..]);
    }
  }

  /** Enough is buffered for the next slot: an ended answer waits for nothing. */
  ghost predicate Enough(s: Stream) {
    var played := |Flatten(s.slots)|;
    var unplayed := |s.accepted| - played;
    && unplayed > 0
    && (s.ended || (&& unplayed >= SLOT_SAMPLES
                    && (s.slots == [] ==> |s.accepted| >= INITIAL_SAMPLES)
                    && (s.dry == Some(played) ==> unplayed >= REBUFFER_SAMPLES)))
  }

  /**
   * Whenever the waiting thread looks, it takes the next slot of an undropped
   * stream exactly when enough is buffered: 180 ms before the first slot, 40 ms
   * after an underrun, a full slot otherwise, anything once the answer ended.
   */
  lemma PlaysOnceBuffered(ops: seq<Op>)
    ensures var p := Run(Idle(), ops);
            p.active && p.thread.Waiting? && !p.stream.dropped ==>
              && (Wake(p).thread.Holding? <==> Enough(p.stream))
              && (Wake(p).thread == Waiting <==>
                    !Enough(p.stream) && !(p.stream.ended && |Flatten(p.stream.slots)| == |p.stream.accepted|))
  {
    RunMarked(Idle(), ops);
    var p := Run(Idle(), ops);
    hide Run;
    if p.active && p.thread.Waiting? && !p.stream.dropped {
      assert Flatten(p.stream.slots) + p.fifo == p.stream.accepted;
      hide Flatten, Decode, Waits, Closing, FullButLast;
    }
  }

  /** All that was accepted has been rendered, and more is to come. */
  ghost predicate Starved(p: Player) {
    && p.active && p.thread.Waiting? && !p.stream.ended && !p.stream.dropped
    && p.stream.slots != [] && |Flatten(p.stream.slots)| == |p.stream.accepted|
  }

  /**
   * In every run: once the grace period passes over a starved stream, the next
   * slot waits for 40 ms of audio, however the packets are cut, and the pause is
   * counted once.
   */
  lemma StarvedStreamRebuffers(ops: seq<Op>, bytes: seq<byte>)
    requires Starved(Run(Idle(), ops))
    ensures var p := Run(Idle(), ops);
            var q := Step(p, UnderrunOp);
            var r := Step(q, QueueOp(bytes, q.nextSequence));
            && q.stream.dry == Some(|p.stream.accepted|)
            && q.rebuffers == (if p.stream.dry == Some(|p.stream.accepted|) then p.rebuffers else p.rebuffers + 1)
            && (Accepts(q, bytes, q.nextSequence) ==>
                  (Wake(r).thread.Holding? <==> |bytes| / BYTES_PER_SAMPLE >= REBUFFER_SAMPLES))
  {
    RunMarked(Idle(), ops);
    var p := Run(Idle(), ops);
    hide Run;
    assert Flatten(p.stream.slots) + p.fifo == p.stream.accepted;
    assert p.fifo == [];
    hide Flatten, Decode, Waits, Closing, FullButLast, Marked, Inv;
    StarvedThenQueued(p, bytes);
  }

  lemma StarvedThenQueued(p: Player, bytes: seq<byte>)
    requires Starved(p) && Phases(p) && p.fifo == [] && p.started
    requires p.rebuffering <==> p.stream.dry == Some(|p.stream.accepted|)
    ensures var q := Step(p, UnderrunOp);
            var r := Step(q, QueueOp(bytes, q.nextSequence));
            && q.stream.dry == Some(|p.stream.accepted|)
            && q.rebuffers == (if p.stream.dry == Some(|p.stream.accepted|) then p.rebuffers else p.rebuffers + 1)
            && (Accepts(q, bytes, q.nextSequence) ==>
                  (Wake(r).thread.Holding? <==> |bytes| / BYTES_PER_SAMPLE >= REBUFFER_SAMPLES))
  {
    hide Flatten;
    if |bytes| % 2 == 0 {
      assert |Decode(bytes)| == |bytes| / 2;
    }
    hide Decode;
  }
}
