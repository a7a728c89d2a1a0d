/**
 * The four slots between the capture thread and the actor.  A frame that finds
 * them full, or follows a break, throws the queue away and says so in its flag.
 */
module CaptureQueue {
  import opened WireTypes
  import opened Rings
  import VoiceActor

  type Frame = VoiceActor.Frame

  const BLANK: Frame := VoiceActor.Frame([], 0, 0.0, false, false, false, false, false, false)

  const CAPTURE_SLOTS: nat := 4

  datatype Capture = Capture(frames: seq<Frame>, next: nat)

  const NO_CAPTURE := Capture([], 0)

  /** The capture thread finished a frame; its sequence number is the next one. */
  function Produce(c: Capture, f: Frame): Capture {
    var g := f.(sequence := c.next);
    if f.discontinuity || |c.frames| == CAPTURE_SLOTS
    then Capture([g.(discontinuity := true)], c.next + 1)
    else Capture(c.frames + [g], c.next + 1)
  }

  /** The verdicts of the listener are taken back; the frame stays. */
  function Undecided(f: Frame): Frame {
    f.(wake := false, vadStarted := false, vadEnded := false, nearVoice := false)
  }

  function ClearDecisions(c: Capture): (d: Capture)
    ensures |d.frames| == |c.frames| && d.next == c.next
    ensures forall i :: 0 <= i < |d.frames| ==> d.frames[i] == Undecided(c.frames[i])
  {
    c.(frames := seq(|c.frames|, i requires 0 <= i < |c.frames| => Undecided(c.frames[i])))
  }

  function Take(c: Capture): Capture
    requires c.frames != []
  {
    c.(frames := c.frames[1..])
  }

  // ---------------------------------------------------------------------
  // One unbroken timeline, or a flag
  // ---------------------------------------------------------------------

  /** `f` may follow the frame before `expected` without hiding a loss. */
  predicate Follows(expected: nat, f: Frame) {
    f.sequence == expected || f.discontinuity
  }

  /** Frames in hand or queued, after a consumer that expects `expected`, up to the producer's `next`. */
  ghost predicate Chain(expected: nat, frames: seq<Frame>, next: nat)
    decreases |frames|
  {
    if frames == [] then expected == next
    else Follows(expected, frames[0]) && Chain(frames[0].sequence + 1, frames[1..], next)
  }

  lemma {:induction false} ChainAppend(expected: nat, frames: seq<Frame>, f: Frame)
    requires Chain(expected, frames, f.sequence)
    ensures Chain(expected, frames + [f], f.sequence + 1)
    decreases |frames|
  {
    if frames == [] {
      assert frames + [f] == [f] && [f][1..] == [];
      assert Chain(f.sequence + 1, [], f.sequence + 1);
    } else {
      assert (frames + [f])[1..] == frames[1..] + [f];
      ChainAppend(frames[0].sequence + 1, frames[1..], f);
    }
  }

  /** Taking verdicts back leaves the timeline alone. */
  lemma {:induction false} ChainUndecided(expected: nat, frames: seq<Frame>, marked: seq<Frame>, next: nat)
    requires Chain(expected, frames, next) && |marked| == |frames|
    requires forall i :: 0 <= i < |frames| ==> marked[i] == frames[i] || marked[i] == Undecided(frames[i])
    ensures Chain(expected, marked, next)
    decreases |frames|
  {
    if frames != [] {
      ChainUndecided(frames[0].sequence + 1, frames[1..], marked[1..], next);
    }
  }

  /** A broken chain may be restarted by a flagged frame wherever the consumer is. */
  lemma ChainRestart(expected: nat, f: Frame)
    requires f.discontinuity
    ensures Chain(expected, [f], f.sequence + 1)
  {
    assert [f][1..] == [];
    assert Chain(f.sequence + 1, [], f.sequence + 1);
  }

  /** With `held` already dequeued, the new frame keeps the chain whatever happens to the queue. */
  lemma ProduceKeepsChain(expected: nat, held: seq<Frame>, c: Capture, f: Frame)
    requires Chain(expected, held + c.frames, c.next) && |held| <= 1
    ensures Chain(expected, held + Produce(c, f).frames, c.next + 1)
  {
    var g := f.(sequence := c.next);
    if f.discontinuity || |c.frames| == CAPTURE_SLOTS {
      var h := g.(discontinuity := true);
      if held == [] {
        ChainRestart(expected, h);
        assert held + [h] == [h];
      } else {
        assert held + c.frames == [held[0]] + c.frames;
        assert held + [h] == [held[0], h] && [held[0], h][1..] == [h];
        ChainRestart(held[0].sequence + 1, h);
      }
    } else {
      ChainAppend(expected, held + c.frames, g);
      assert held + (c.frames + [g]) == (held + c.frames) + [g];
    }
  }

  datatype Op = Captured(frame: Frame) | Cleared | Dequeued

  /** The queue on its own, with the log of what the actor dequeued. */
  datatype Log = Log(capture: Capture, taken: seq<Frame>)

  function Step(l: Log, op: Op): Log {
    match op
    case Captured(f) => l.(capture := Produce(l.capture, f))
    case Cleared => l.(capture := ClearDecisions(l.capture))
    case Dequeued =>
      if l.capture.frames == [] then l
      else Log(Take(l.capture), l.taken + [l.capture.frames[0]])
  }

  function Run(l: Log, ops: seq<Op>): Log
    decreases |ops|
  {
    if ops == [] then l else Run(Step(l, ops[0]), ops[1..])
  }

  ghost predicate Inv(l: Log) {
    && |l.capture.frames| <= CAPTURE_SLOTS
    && Chain(0, l.taken + l.capture.frames, l.capture.next)
  }

  lemma {:induction false} ChainSplit(expected: nat, front: seq<Frame>, back: seq<Frame>, next: nat)
    requires Chain(expected, front + back, next)
    ensures Chain(if front == [] then expected else front[|front| - 1].sequence + 1, back, next)
    decreases |front|
  {
    if front == [] {
      assert front + back == back;
    } else {
      assert (front + back)[1..] == front[1..] + back;
      ChainSplit(front[0].sequence + 1, front[1..], back, next);
    }
  }

  lemma {:induction false} ChainJoin(expected: nat, front: seq<Frame>, tail: seq<Frame>, back: seq<Frame>,
      next: nat, later: nat)
    requires Chain(expected, front + tail, next)
    requires Chain(if front == [] then expected else front[|front| - 1].sequence + 1, back, later)
    ensures Chain(expected, front + back, later)
    decreases |front|
  {
    if front == [] {
      assert front + back == back;
    } else {
      assert (front + tail)[1..] == front[1..] + tail;
      assert (front + back)[1..] == front[1..] + back;
      ChainJoin(front[0].sequence + 1, front[1..], tail, back, next, later);
    }
  }

  lemma StepKeeps(l: Log, op: Op)
    requires Inv(l)
    ensures Inv(Step(l, op))
  {
    var c, last := l.capture, if l.taken == [] then 0 else l.taken[|l.taken| - 1].sequence + 1;
    hide Chain;
    ChainSplit(0, l.taken, c.frames, c.next);
    match op {
      case Captured(f) =>
        assert [] + c.frames == c.frames && [] + Produce(c, f).frames == Produce(c, f).frames;
        ProduceKeepsChain(last, [], c, f);
        ChainJoin(0, l.taken, c.frames, Produce(c, f).frames, c.next, c.next + 1);
      case Cleared =>
        ChainUndecided(last, c.frames, ClearDecisions(c).frames, c.next);
        ChainJoin(0, l.taken, c.frames, ClearDecisions(c).frames, c.next, c.next);
      case Dequeued =>
        if c.frames != [] {
          assert (l.taken + [c.frames[0]]) + c.frames[1..] == l.taken + c.frames;
        }
    }
  }

  lemma {:induction false} RunKeeps(l: Log, ops: seq<Op>)
    requires Inv(l)
    ensures Inv(Run(l, ops))
    decreases |ops|
  {
    hide Inv, Step;
    if ops != [] {
      StepKeeps(l, ops[0]);
      RunKeeps(Step(l, ops[0]), ops[1..]);
    }
  }

  lemma {:induction false} ChainSteps(expected: nat, frames: seq<Frame>, next: nat)
    requires Chain(expected, frames, next)
    ensures frames != [] ==> Follows(expected, frames[0])
    ensures forall i :: 0 < i < |frames| ==> Follows(frames[i - 1].sequence + 1, frames[i])
    decreases |frames|
  {
    if frames != [] {
      ChainSteps(frames[0].sequence + 1, frames[1..], next);
      forall i | 0 < i < |frames| ensures Follows(frames[i - 1].sequence + 1, frames[i]) {
        if i > 1 {
          assert frames[i] == frames[1..][i - 1] && frames[i - 1] == frames[1..][i - 2];
        }
      }
    }
  }

  /** Between frames dequeued one after the other the sequence advances by one, or the later is flagged. */
  lemma DequeuedFramesFollow(ops: seq<Op>)
    ensures var taken := Run(Log(NO_CAPTURE, []), ops).taken;
            && (taken != [] ==> Follows(0, taken[0]))
            && (forall i :: 0 < i < |taken| ==> Follows(taken[i - 1].sequence + 1, taken[i]))
  {
    RunKeeps(Log(NO_CAPTURE, []), ops);
    var l := Run(Log(NO_CAPTURE, []), ops);
    hide Run;
    ChainSteps(0, l.taken + l.capture.frames, l.capture.next);
    var all := l.taken + l.capture.frames;
    forall i | 0 < i < |l.taken| ensures Follows(l.taken[i - 1].sequence + 1, l.taken[i]) {
      assert all[i] == l.taken[i] && all[i - 1] == l.taken[i - 1];
    }
  }

  // ---------------------------------------------------------------------
  // The slots in place
  // ---------------------------------------------------------------------

  class CaptureRing {
    const slots: array<Frame>
    var head: nat
    var count: nat
    var next: nat

    ghost predicate Valid()
      reads this
    {
      slots.Length == 4 && head < 4 && count <= 4
    }

    ghost function View(): Capture
      reads this, slots
      requires Valid()
    {
      Capture(Window(slots[..], head, count), next)
    }

    constructor ()
      ensures Valid() && fresh(slots) && View() == NO_CAPTURE
    {
      slots := new Frame[4](_ => BLANK);
      head, count, next := 0, 0, 0;
    }

    method Clear()
      requires Valid()
      modifies this`head, this`count, slots
      ensures Valid() && count == 0 && View() == old(View()).(frames := [])
    {
      for i := 0 to slots.Length
      {
        slots[i] := BLANK;
      }
      head, count := 0, 0;
    }

    method Append(g: Frame)
      requires Valid() && count < 4
      modifies this`count, slots
      ensures Valid() && View() == old(View()).(frames := old(View()).frames + [g])
    {
      hide Window;
      ghost var was := slots[..];
      WindowPush(was, head, count, g);
      var tail := (head + count) % 4;
      assert tail == Wrap(head + count, 4);
      slots[tail] := g;
      assert slots[..] == was[tail := g];
      count := count + 1;
    }

    method Store(f: Frame)
      requires Valid()
      modifies this, slots
      ensures Valid() && View() == Produce(old(View()), f)
    {
      var g := f.(sequence := next);
      next := next + 1;
      if f.discontinuity || count == slots.Length {
        Clear();
        assert View().frames == [];
        g := g.(discontinuity := true);
      }
      Append(g);
    }

    method Fetch() returns (f: Option<Frame>)
      requires Valid()
      modifies this, slots
      ensures Valid()
      ensures if old(View()).frames == [] then f == None && View() == old(View())
              else f == Some(old(View()).frames[0]) && View() == Take(old(View()))
    {
      if count == 0 {
        return None;
      }
      f := Some(slots[head]);
      ghost var was := slots[..];
      WindowPop(was, head, count, BLANK);
      slots[head] := BLANK;
      assert slots[..] == was[head := BLANK];
      assert (head + 1) % 4 == Wrap(head + 1, 4);
      head := (head + 1) % 4;
      count := count - 1;
    }

    method ClearOne(offset: nat)
      requires Valid() && offset < count
      modifies slots
      ensures View().frames == old(View()).frames[offset := Undecided(old(View()).frames[offset])]
    {
      var at := (head + offset) % 4;
      ghost var was := slots[..];
      assert at == Wrap(head + offset, 4);
      slots[at] := Undecided(slots[at]);
      assert slots[..] == was[at := slots[at]];
    }

    method ClearQueuedDecisions()
      requires Valid()
      modifies slots
      ensures Valid() && View() == ClearDecisions(old(View()))
    {
      ghost var was := View().frames;
      for offset := 0 to count
        invariant Valid() && |View().frames| == |was| == count
        invariant forall i :: 0 <= i < offset ==> View().frames[i] == Undecided(was[i])
        invariant forall i :: offset <= i < count ==> View().frames[i] == was[i]
      {
        ClearOne(offset);
      }
    }
  }
}
