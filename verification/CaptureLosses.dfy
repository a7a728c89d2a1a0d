/** What the capture queue may lose, and that it says so: nothing goes missing but behind a break or a full queue. */
module CaptureLosses {
  import opened WireTypes
  import opened CaptureQueue

  /** The frames the capture thread finished, in order. */
  function Captures(ops: seq<Op>): seq<Frame> {
    if ops == [] then [] else (if ops[0].Captured? then [ops[0].frame] else []) + Captures(ops[1..])
  }

  /** A frame that follows a break, or finds all slots taken. */
  predicate Breaks(l: Log, op: Op) {
    op.Captured? && (op.frame.discontinuity || |l.capture.frames| == CAPTURE_SLOTS)
  }

  /** The numbers of those frames. */
  function Losses(l: Log, ops: seq<Op>): set<nat>
    decreases |ops|
  {
    if ops == [] then {}
    else (if Breaks(l, ops[0]) then {l.capture.next} else {}) + Losses(Step(l, ops[0]), ops[1..])
  }

  /** How many frames had been captured when the listener was last reset. */
  function Reset(ops: seq<Op>): nat {
    if ops == [] then 0
    else
      var n := |ops| - 1;
      if ops[n].Cleared? then |Captures(ops)| else Reset(ops[..n])
  }

  predicate SameSound(f: Frame, g: Frame) {
    f.pcm == g.pcm && f.voiceDbfs == g.voiceDbfs && f.referenceActive == g.referenceActive
  }

  predicate SameVerdicts(f: Frame, g: Frame) {
    f.wake == g.wake && f.vadStarted == g.vadStarted && f.vadEnded == g.vadEnded && f.nearVoice == g.nearVoice
  }

  predicate NoVerdicts(f: Frame) { !f.wake && !f.vadStarted && !f.vadEnded && !f.nearVoice }

  /** Dequeued or still queued. */
  function Kept(l: Log): seq<Frame> { l.taken + l.capture.frames }

  ghost predicate Has(fs: seq<Frame>, k: nat) { exists i :: 0 <= i < |fs| && fs[i].sequence == k }

  /** The frame as it was captured under its number, its verdicts included unless a reset came since. */
  predicate True(f: Frame, caps: seq<Frame>, lost: set<nat>, reset: nat) {
    && f.sequence < |caps| && SameSound(f, caps[f.sequence])
    && (f.discontinuity <==> f.sequence in lost)
    && (f.sequence >= reset ==> SameVerdicts(f, caps[f.sequence]))
  }

  ghost predicate Truthful(l: Log, caps: seq<Frame>, lost: set<nat>, reset: nat) {
    && l.capture.next == |caps| && |l.capture.frames| <= CAPTURE_SLOTS
    && (forall j :: j in lost ==> j < |caps|) && reset <= |caps|
    && (forall i :: 0 <= i < |Kept(l)| ==> True(Kept(l)[i], caps, lost, reset))
    && (forall i :: 0 <= i < |l.capture.frames| && l.capture.frames[i].sequence < reset ==>
          NoVerdicts(l.capture.frames[i]))
    && (forall k :: 0 <= k < |caps| ==> Has(Kept(l), k) || exists j :: j in lost && j > k)
  }

  lemma StillTrue(f: Frame, caps: seq<Frame>, g: Frame, lost: set<nat>, more: set<nat>, reset: nat)
    requires True(f, caps, lost, reset) && more <= {|caps|}
    ensures True(f, caps + [g], lost + more, reset)
  {
    assert f.sequence !in more;
  }

  lemma CapturedTruthful(l: Log, f: Frame, caps: seq<Frame>, lost: set<nat>, reset: nat)
    requires Truthful(l, caps, lost, reset)
    ensures var more := if Breaks(l, Captured(f)) then {l.capture.next} else {};
            Truthful(Step(l, Captured(f)), caps + [f], lost + more, reset)
  {
    var breaks := Breaks(l, Captured(f));
    var more: set<nat> := if breaks then {l.capture.next} else {};
    var m, all := Step(l, Captured(f)), caps + [f];
    var g := f.(sequence := l.capture.next, discontinuity := breaks);
    assert Kept(m) == (if breaks then l.taken else Kept(l)) + [g];
    forall i | 0 <= i < |Kept(m)| ensures True(Kept(m)[i], all, lost + more, reset) {
      if i < |Kept(m)| - 1 {
        assert Kept(m)[i] == Kept(l)[i];
        StillTrue(Kept(l)[i], caps, f, lost, more, reset);
      }
    }
    forall k | 0 <= k < |all| ensures Has(Kept(m), k) || exists j :: j in lost + more && j > k {
      if k == |caps| {
        assert Kept(m)[|Kept(m)| - 1].sequence == k;
      } else if breaks {
        assert l.capture.next in lost + more;
      } else if Has(Kept(l), k) {
        var i :| 0 <= i < |Kept(l)| && Kept(l)[i].sequence == k;
        assert Kept(m)[i].sequence == k;
      } else {
        var j :| j in lost && j > k;
        assert j in lost + more;
      }
    }
  }

  lemma DequeuedTruthful(l: Log, caps: seq<Frame>, lost: set<nat>, reset: nat)
    requires Truthful(l, caps, lost, reset)
    ensures Truthful(Step(l, Dequeued), caps, lost, reset)
  {
    var m := Step(l, Dequeued);
    assert Kept(m) == Kept(l);
    forall i | 0 <= i < |m.capture.frames| && m.capture.frames[i].sequence < reset
      ensures NoVerdicts(m.capture.frames[i])
    {
      assert l.capture.frames != [] ==> m.capture.frames[i] == l.capture.frames[i + 1];
    }
  }

  lemma ClearedTruthful(l: Log, caps: seq<Frame>, lost: set<nat>, reset: nat)
    requires Truthful(l, caps, lost, reset)
    ensures Truthful(Step(l, Cleared), caps, lost, |caps|)
  {
    var m := Step(l, Cleared);
    assert |Kept(m)| == |Kept(l)|;
    forall i | 0 <= i < |Kept(m)|
      ensures True(Kept(m)[i], caps, lost, |caps|) && Kept(m)[i].sequence == Kept(l)[i].sequence
    {
      assert True(Kept(l)[i], caps, lost, reset);
      if i >= |l.taken| {
        assert Kept(l)[i] == l.capture.frames[i - |l.taken|];
      }
    }
    forall k | 0 <= k < |caps| ensures Has(Kept(m), k) || exists j :: j in lost && j > k {
      if Has(Kept(l), k) {
        var i :| 0 <= i < |Kept(l)| && Kept(l)[i].sequence == k;
        assert Kept(m)[i].sequence == k;
      }
    }
  }

  lemma RunMore(l: Log, ops: seq<Op>, op: Op)
    ensures Run(l, ops + [op]) == Step(Run(l, ops), op)
    ensures Captures(ops + [op]) == Captures(ops) + (if op.Captured? then [op.frame] else [])
    ensures Losses(l, ops + [op]) ==
            Losses(l, ops) + (if Breaks(Run(l, ops), op) then {Run(l, ops).capture.next} else {})
    decreases |ops|
  {
    if ops == [] {
      assert [] + [op] == [op] && [op][1..] == [];
      assert Run(l, [op]) == Run(Step(l, op), []) == Step(l, op);
    } else {
      var all, first := ops + [op], Step(l, ops[0]);
      assert all[1..] == ops[1..] + [op] && all[0] == ops[0];
      RunMore(first, ops[1..], op);
      hide Step, Breaks;
      var c := if op.Captured? then [op.frame] else [];
      var d := if ops[0].Captured? then [ops[0].frame] else [];
      assert d + (Captures(ops[1..]) + c) == (d + Captures(ops[1..])) + c;
    }
  }

  lemma {:induction false} RunTruthful(ops: seq<Op>)
    ensures var start := Log(NO_CAPTURE, []);
            Truthful(Run(start, ops), Captures(ops), Losses(start, ops), Reset(ops))
  {
    var start := Log(NO_CAPTURE, []);
    if ops != [] {
      var n := |ops| - 1;
      var before, op := ops[..n], ops[n];
      assert ops == before + [op];
      RunTruthful(before);
      RunMore(start, before, op);
      var l, caps, lost, reset := Run(start, before), Captures(before), Losses(start, before), Reset(before);
      assert caps + [] == caps && lost + {} == lost;
      hide Truthful, Run, Captures, Losses;
      match op {
        case Captured(f) => CapturedTruthful(l, f, caps, lost, reset);
        case Cleared => ClearedTruthful(l, caps, lost, reset);
        case Dequeued => DequeuedTruthful(l, caps, lost, reset);
      }
    }
  }

  /**
   * Every frame dequeued or queued is the one captured under its number, and
   * flagged exactly when it followed a break or found the queue full; its
   * verdicts are the captured ones, but for frames still queued at a reset of the
   * listener, which have none.  A captured frame is missing only if a flagged one
   * came after it.
   */
  lemma NothingIsLostInSilence(ops: seq<Op>)
    ensures var l, caps, lost := Run(Log(NO_CAPTURE, []), ops), Captures(ops), Losses(Log(NO_CAPTURE, []), ops);
            && l.capture.next == |caps|
            && (forall i :: 0 <= i < |Kept(l)| ==> True(Kept(l)[i], caps, lost, Reset(ops)))
            && (forall i :: 0 <= i < |l.capture.frames| && l.capture.frames[i].sequence < Reset(ops) ==>
                  NoVerdicts(l.capture.frames[i]))
            && (forall k :: 0 <= k < |caps| ==> Has(Kept(l), k) || exists j :: j in lost && j > k)
  {
    RunTruthful(ops);
  }

  /** Without a break and with room all the time, the actor gets every frame, in order and unflagged. */
  lemma SteadyCaptureIsWhole(ops: seq<Op>)
    requires Losses(Log(NO_CAPTURE, []), ops) == {}
    ensures var l, caps := Run(Log(NO_CAPTURE, []), ops), Captures(ops);
            && |Kept(l)| == |caps|
            && forall i :: 0 <= i < |caps| ==>
                 Kept(l)[i].sequence == i && !Kept(l)[i].discontinuity && SameSound(Kept(l)[i], caps[i])
                 && (i >= Reset(ops) ==> SameVerdicts(Kept(l)[i], caps[i]))
  {
    var l, caps := Run(Log(NO_CAPTURE, []), ops), Captures(ops);
    NothingIsLostInSilence(ops);
    RunKeeps(Log(NO_CAPTURE, []), ops);
    Numbered(0, Kept(l), l.capture.next);
  }

  /** An unflagged chain counts up without a gap. */
  lemma {:induction false} Numbered(expected: nat, frames: seq<Frame>, next: nat)
    requires Chain(expected, frames, next) && forall i :: 0 <= i < |frames| ==> !frames[i].discontinuity
    ensures next == expected + |frames| && forall i :: 0 <= i < |frames| ==> frames[i].sequence == expected + i
    decreases |frames|
  {
    if frames != [] {
      Numbered(expected + 1, frames[1..], next);
      forall i | 0 <= i < |frames| ensures frames[i].sequence == expected + i {
        if i > 0 { assert frames[i] == frames[1..][i - 1]; }
      }
    }
  }
}
