/**
 * The life of one spoken answer on the device: the actor begins, queues, ends
 * and drops; the playback thread buffers, renders, rebuffers and finishes.  The
 * queue is a plain sample FIFO here; TtsRing shows that 75 slots implement it.
 */
module Playback {
  import opened WireTypes

  type Sample = x: int | -0x8000 <= x < 0x8000

  const SLOT_SAMPLES: nat := 480
  const TTS_SLOTS: nat := 75
  const CAPACITY: nat := 36000
  const INITIAL_SAMPLES: nat := 4320
  const REBUFFER_SAMPLES: nat := 960

  // ---------------------------------------------------------------------
  // Little-endian samples
  // ---------------------------------------------------------------------

  function ToSample(low: byte, high: byte): (s: Sample)
    ensures ToBytes(s) == [low, high]
  {
    var v := low + 256 * high;
    if v < 0x8000 then v else v - 0x1_0000
  }

  function ToBytes(s: Sample): (b: seq<byte>) {
    var v := if s < 0 then s + 0x1_0000 else s;
    [v % 256, v / 256]
  }

  function Decode(bytes: seq<byte>): (s: seq<Sample>)
    requires |bytes| % 2 == 0
    ensures |s| == |bytes| / 2
  {
    if bytes == [] then [] else [ToSample(bytes[0], bytes[1])] + Decode(bytes[2..])
  }

  lemma {:induction false} DecodeAt(bytes: seq<byte>, i: nat)
    requires |bytes| % 2 == 0 && i < |bytes| / 2
    ensures Decode(bytes)[i] == ToSample(bytes[2 * i], bytes[2 * i + 1])
  {
    if i > 0 {
      DecodeAt(bytes[2..], i - 1);
      assert Decode(bytes)[i] == Decode(bytes[2..])[i - 1];
      assert bytes[2..][2 * (i - 1)] == bytes[2 * i] && bytes[2..][2 * (i - 1) + 1] == bytes[2 * i + 1];
    }
  }

  function Encode(samples: seq<Sample>): (b: seq<byte>)
    ensures |b| == 2 * |samples|
  {
    if samples == [] then [] else ToBytes(samples[0]) + Encode(samples[1..])
  }

  /** Decoding loses nothing: the bytes can be read back off the samples. */
  lemma {:induction false} DecodeIsExact(bytes: seq<byte>)
    requires |bytes| % 2 == 0
    ensures Encode(Decode(bytes)) == bytes
  {
    if bytes != [] {
      DecodeIsExact(bytes[2..]);
      assert Decode(bytes)[1..] == Decode(bytes[2..]);
      assert bytes == [bytes[0], bytes[1]] + bytes[2..];
    }
  }

  /** Packet boundaries do not matter. */
  lemma {:induction false} DecodeJoins(a: seq<byte>, b: seq<byte>)
    requires |a| % 2 == 0 && |b| % 2 == 0
    ensures Decode(a + b) == Decode(a) + Decode(b)
  {
    if a == [] {
      assert a + b == b;
    } else {
      assert (a + b)[2..] == a[2..] + b;
      DecodeJoins(a[2..], b);
      assert Decode(a) == [ToSample(a[0], a[1])] + Decode(a[2..]);
    }
  }

  // ---------------------------------------------------------------------
  // The player
  // ---------------------------------------------------------------------

  /**
   * Where the playback thread stands outside the lock: waiting, about to render
   * a slot it took, or inside FinishPlayback before or after its first lock.
   */
  datatype Thread =
    | Waiting
    | Holding(slot: seq<Sample>, finish: bool)
    | Finishing(discard: bool, failed: bool)
    | Draining(discard: bool, failed: bool)

  /**
   * What happened since BeginPlayback: the payload bytes accepted, their samples, the slots
   * rendered; `dry` is how much had been accepted at the last underrun.
   */
  datatype Stream = Stream(
    bytes: seq<byte>, accepted: seq<Sample>, slots: seq<seq<Sample>>, ended: bool, dropped: bool, dry: Option<nat>)

  const NO_STREAM := Stream([], [], [], false, false, None)

  datatype Player = Player(
    fifo: seq<Sample>, sequenceSet: bool, nextSequence: nat,
    active: bool, ending: bool, started: bool, rebuffering: bool, drop: bool, rebuffers: nat,
    done: bool, failed: bool, thread: Thread, stream: Stream)

  function Idle(): Player {
    Player([], false, 0, false, false, false, false, false, 0, true, false, Waiting, NO_STREAM)
  }

  /** BeginPlayback; the capture thread prepared the back end or did not. */
  function Begin(p: Player, prepared: bool): (r: (Player, bool)) {
    if p.active then (p, false)
    else if !prepared then (p.(fifo := []), false)
    else
      (p.(fifo := [], sequenceSet := false, ending := false, drop := false, started := false,
          rebuffering := false, rebuffers := 0, active := true, failed := false, done := false,
          stream := NO_STREAM), true)
  }

  predicate Accepts(p: Player, bytes: seq<byte>, sequence: nat) {
    && bytes != [] && |bytes| % 2 == 0
    && p.active && !p.ending && |p.fifo| + |bytes| / 2 <= CAPACITY
    && (p.sequenceSet ==> sequence == p.nextSequence)
  }

  /** QueueTts24k. */
  function Queue(p: Player, bytes: seq<byte>, sequence: nat): (r: (Player, bool)) {
    if !Accepts(p, bytes, sequence) then (p, false)
    else
      (p.(fifo := p.fifo + Decode(bytes), sequenceSet := true, nextSequence := sequence + 1,
          stream := p.stream.(bytes := p.stream.bytes + bytes, accepted := p.stream.accepted + Decode(bytes))), true)
  }

  /** EndPlayback. */
  function End(p: Player): (r: (Player, bool)) {
    if !p.active || p.ending then (p, false)
    else (p.(ending := true, stream := p.stream.(ended := true)), true)
  }

  /** DropPlayback. */
  function Drop(p: Player): Player {
    if !p.active then p
    else p.(drop := true, fifo := [], stream := p.stream.(dropped := true))
  }

  /** 30 ms went by without a sample to play. */
  function Underrun(p: Player): Player {
    if p.thread.Waiting? && p.active && p.started && p.fifo == [] && !p.ending && !p.drop && !p.rebuffering
    then p.(rebuffering := true, rebuffers := p.rebuffers + 1, stream := p.stream.(dry := Some(|p.stream.accepted|)))
    else p
  }

  /** The head slot is full, or short because nothing more will come. */
  predicate SlotReady(p: Player) {
    p.fifo != [] && (|p.fifo| >= SLOT_SAMPLES || p.ending)
  }

  predicate Buffered(p: Player) {
    if p.started then !p.rebuffering || |p.fifo| >= REBUFFER_SAMPLES || p.ending
    else |p.fifo| >= INITIAL_SAMPLES || p.ending
  }

  predicate Ready(p: Player) {
    p.drop || (p.active && ((SlotReady(p) && Buffered(p)) || (p.ending && p.fifo == [])))
  }

  function HeadSamples(p: Player): (n: nat)
    ensures n <= |p.fifo|
  {
    if |p.fifo| < SLOT_SAMPLES then |p.fifo| else SLOT_SAMPLES
  }

  /** The thread wakes under the lock and takes a slot, or finds that it is over. */
  function Wake(p: Player): Player {
    if !p.thread.Waiting? || !Ready(p) then p
    else if p.drop then p.(thread := Finishing(true, false))
    else if p.fifo == [] then p.(thread := Finishing(false, false))
    else
      var n := HeadSamples(p);
      p.(fifo := p.fifo[n..], rebuffering := false, started := true,
         thread := Holding(p.fifo[..n], p.ending && |p.fifo| == n))
  }

  /** The back end rendered the slot, or failed. */
  function Rendered(p: Player, ok: bool): Player {
    if !p.thread.Holding? then p
    else
      var p1 := if ok then p.(stream := p.stream.(slots := p.stream.slots + [p.thread.slot])) else p;
      p1.(thread := if p.thread.finish || !ok then Finishing(false, !ok) else Waiting)
  }

  /** FinishPlayback looks for a drop before it drains. */
  function Observe(p: Player): Player {
    if !p.thread.Finishing? then p
    else p.(thread := if p.drop then Draining(true, false) else Draining(p.thread.discard, p.thread.failed))
  }

  /** FinishPlayback after the back end drained, failed to drain, or dropped. */
  function Complete(p: Player, drained: bool): Player {
    if !p.thread.Draining? then p
    else
      var tried := if p.thread.discard || p.thread.failed then p.thread.failed else !drained;
      var failed := tried && !(p.drop && !p.thread.discard);
      p.(active := false, ending := false, drop := false, started := false, rebuffering := false,
         rebuffers := 0, fifo := [], failed := failed, done := true, thread := Waiting)
  }

  datatype Op =
    | BeginOp(prepared: bool)
    | QueueOp(bytes: seq<byte>, sequence: nat)
    | EndOp
    | DropOp
    | UnderrunOp
    | WakeOp
    | RenderedOp(ok: bool)
    | ObserveOp
    | CompleteOp(drained: bool)

  function Step(p: Player, op: Op): Player {
    match op
    case BeginOp(prepared) => Begin(p, prepared).0
    case QueueOp(bytes, sequence) => Queue(p, bytes, sequence).0
    case EndOp => End(p).0
    case DropOp => Drop(p)
    case UnderrunOp => Underrun(p)
    case WakeOp => Wake(p)
    case RenderedOp(ok) => Rendered(p, ok)
    case ObserveOp => Observe(p)
    case CompleteOp(drained) => Complete(p, drained)
  }

  function Run(p: Player, ops: seq<Op>): Player
    decreases |ops|
  {
    if ops == [] then p else Run(Step(p, ops[0]), ops[1..])
  }

  // ---------------------------------------------------------------------
  // What every run keeps
  // ---------------------------------------------------------------------

  /** Taken off the queue so far: rendered, or in the thread's hands. */
  ghost function TakenSlots(p: Player): seq<seq<Sample>> {
    if p.thread.Holding? then p.stream.slots + [p.thread.slot] else p.stream.slots
  }

  ghost predicate FullButLast(slots: seq<seq<Sample>>) {
    && (forall i :: 0 <= i < |slots| ==> 0 < |slots[i]| <= SLOT_SAMPLES)
    && (forall i :: 0 <= i < |slots| - 1 ==> |slots[i]| == SLOT_SAMPLES)
  }

  ghost predicate LastFull(slots: seq<seq<Sample>>) {
    slots != [] ==> |slots[|slots| - 1]| == SLOT_SAMPLES
  }

  /** Buffering before the first slot and after the last underrun. */
  ghost predicate WaitedEnough(s: Stream, slots: seq<seq<Sample>>) {
    && (slots != [] ==> s.ended || |s.accepted| >= INITIAL_SAMPLES)
    && (s.dry.Some? && |Flatten(slots)| > s.dry.value ==>
          s.ended || |s.accepted| >= s.dry.value + REBUFFER_SAMPLES)
  }

  ghost predicate Phases(p: Player) {
    && |p.fifo| <= CAPACITY
    && (!p.thread.Waiting? ==> p.active)
    && (p.active ==> !p.done && p.ending == p.stream.ended && p.drop == p.stream.dropped)
    && (!p.active ==> p.fifo == [] && !p.ending && !p.drop && !p.started && !p.rebuffering)
    && (p.rebuffering ==> p.started && !p.thread.Holding?)
  }

  /** The marks behind WaitedEnough while the stream is open. */
  ghost predicate Waits(p: Player) {
    && (p.active && !p.started ==> TakenSlots(p) == [] && p.stream.dry.None?)
    && (p.started ==> p.stream.ended || |p.stream.accepted| >= INITIAL_SAMPLES)
    && (p.rebuffering ==> p.stream.dry.Some? && |Flatten(p.stream.slots)| == p.stream.dry.value)
    && (p.active && p.stream.dry.Some? && !p.rebuffering ==>
          p.stream.ended || |p.stream.accepted| >= p.stream.dry.value + REBUFFER_SAMPLES)
    && WaitedEnough(p.stream, TakenSlots(p))
  }

  /** All that was queued has been taken, or the stream is being dropped or has failed. */
  ghost predicate Over(p: Player, discard: bool, failed: bool) {
    (discard ==> p.drop) && (!discard && !failed && !p.drop ==> p.ending && p.fifo == [])
  }

  /** The thread takes no further slot after a short one. */
  ghost predicate Closing(p: Player) {
    match p.thread
    case Waiting => p.active ==> LastFull(p.stream.slots)
    case Holding(slot, finish) =>
      && LastFull(p.stream.slots) && (|slot| < SLOT_SAMPLES ==> finish)
      && (finish ==> p.ending && (p.fifo == [] || p.drop))
    case Finishing(discard, failed) => Over(p, discard, failed)
    case Draining(discard, failed) => Over(p, discard, failed)
  }

  /** A slot was lost to a failed render. */
  ghost predicate Broken(p: Player) {
    (p.thread.Finishing? || p.thread.Draining?) && p.thread.failed
  }

  ghost predicate InOrder(p: Player) {
    var taken := Flatten(TakenSlots(p));
    && taken <= p.stream.accepted
    && (p.active && !p.drop && !Broken(p) ==> taken + p.fifo == p.stream.accepted)
  }

  ghost predicate Settled(p: Player) {
    !p.active && !p.stream.dropped && !p.failed ==> Flatten(p.stream.slots) == p.stream.accepted
  }

  ghost predicate Decoded(s: Stream) {
    |s.bytes| % 2 == 0 && s.accepted == Decode(s.bytes)
  }

  ghost predicate Inv(p: Player) {
    && Decoded(p.stream) && Phases(p) && Waits(p) && Closing(p) && InOrder(p) && Settled(p)
        && FullButLast(TakenSlots(p))
  }

  lemma BeginKeeps(p: Player, prepared: bool)
    requires Inv(p)
    ensures Inv(Begin(p, prepared).0)
  {
  }

  lemma QueueKeeps(p: Player, bytes: seq<byte>, sequence: nat)
    requires Inv(p)
    ensures Inv(Queue(p, bytes, sequence).0)
  {
    if Accepts(p, bytes, sequence) {
      var d := Decode(bytes);
      DecodeJoins(p.stream.bytes, bytes);
      hide Decode;
      var taken := Flatten(TakenSlots(p));
      assert taken + (p.fifo + d) == (taken + p.fifo) + d;
    }
  }

  lemma EndKeeps(p: Player)
    requires Inv(p)
    ensures Inv(End(p).0)
  {
  }

  lemma DropKeeps(p: Player)
    requires Inv(p)
    ensures Inv(Drop(p))
  {
  }

  lemma UnderrunKeeps(p: Player)
    requires Inv(p)
    ensures Inv(Underrun(p))
  {
  }

  lemma PrefixFull(slots: seq<seq<Sample>>, last: seq<Sample>)
    requires FullButLast(slots + [last])
    ensures FullButLast(slots)
  {
    forall i | 0 <= i < |slots| ensures 0 < |slots[i]| <= SLOT_SAMPLES {
      assert (slots + [last])[i] == slots[i];
    }
    forall i | 0 <= i < |slots| - 1 ensures |slots[i]| == SLOT_SAMPLES {
      assert (slots + [last])[i] == slots[i];
    }
  }

  /** The thread takes a slot. */
  ghost predicate Takes(p: Player) {
    p.thread.Waiting? && p.active && !p.drop && SlotReady(p) && Buffered(p)
  }

  /** Taking a slot moves the head of the queue behind what was taken. */
  lemma TakeInOrder(p: Player)
    requires InOrder(p) && Takes(p)
    ensures InOrder(Wake(p)) && Flatten(TakenSlots(Wake(p))) == Flatten(p.stream.slots) + p.fifo[..HeadSamples(p)]
  {
    var n := HeadSamples(p);
    var slots, slot, rest := p.stream.slots, p.fifo[..n], p.fifo[n..];
    FlattenAppend(slots, slot);
    assert p.fifo == slot + rest && TakenSlots(Wake(p)) == slots + [slot];
    hide Flatten;
    assert (Flatten(slots) + slot) + rest == Flatten(slots) + (slot + rest);
  }

  lemma TakeFull(p: Player)
    requires Takes(p) && LastFull(p.stream.slots) && FullButLast(p.stream.slots)
    ensures FullButLast(TakenSlots(Wake(p)))
  {
  }

  lemma TakeMarks(p: Player)
    requires Takes(p) && Phases(p) && Waits(p) && Closing(p) && InOrder(p)
    requires Flatten(TakenSlots(Wake(p))) == Flatten(p.stream.slots) + p.fifo[..HeadSamples(p)]
    ensures Phases(Wake(p)) && Closing(Wake(p)) && Waits(Wake(p))
  {
    hide Flatten;
  }

  lemma TakeKeeps(p: Player)
    requires Inv(p) && Takes(p)
    ensures Inv(Wake(p))
  {
    TakeInOrder(p);
    TakeFull(p);
    TakeMarks(p);
    assert Wake(p).stream == p.stream && Wake(p).active == p.active;
    hide Decoded, Phases, Waits, Closing, InOrder, FullButLast, Wake, Flatten;
  }

  lemma WakeKeeps(p: Player)
    requires Inv(p)
    ensures Inv(Wake(p))
  {
    if p.thread.Waiting? && Ready(p) && !p.drop && p.fifo != [] {
      TakeKeeps(p);
    }
  }

  lemma RenderedKeeps(p: Player, ok: bool)
    requires Inv(p)
    ensures Inv(Rendered(p, ok))
  {
    if p.thread.Holding? {
      FlattenAppend(p.stream.slots, p.thread.slot);
      PrefixFull(p.stream.slots, p.thread.slot);
      hide Flatten;
      var q := Rendered(p, ok);
      assert ok ==> TakenSlots(q) == TakenSlots(p);
      assert Phases(q) && Closing(q) && Settled(q) && InOrder(q);
    }
  }

  lemma ObserveKeeps(p: Player)
    requires Inv(p)
    ensures Inv(Observe(p))
  {
  }

  lemma CompleteKeeps(p: Player, drained: bool)
    requires Inv(p)
    ensures Inv(Complete(p, drained))
  {
  }

  lemma StepKeeps(p: Player, op: Op)
    requires Inv(p)
    ensures Inv(Step(p, op))
  {
    hide Inv, Begin, Queue, End, Drop, Underrun, Wake, Rendered, Observe, Complete;
    match op {
      case BeginOp(prepared) => BeginKeeps(p, prepared);
      case QueueOp(bytes, sequence) => QueueKeeps(p, bytes, sequence);
      case EndOp => EndKeeps(p);
      case DropOp => DropKeeps(p);
      case UnderrunOp => UnderrunKeeps(p);
      case WakeOp => WakeKeeps(p);
      case RenderedOp(ok) => RenderedKeeps(p, ok);
      case ObserveOp => ObserveKeeps(p);
      case CompleteOp(drained) => CompleteKeeps(p, drained);
    }
  }

  lemma {:induction false} RunKeeps(p: Player, ops: seq<Op>)
    requires Inv(p)
    ensures Inv(Run(p, ops))
    decreases |ops|
  {
    hide Inv, Step;
    if ops != [] {
      StepKeeps(p, ops[0]);
      RunKeeps(Step(p, ops[0]), ops[1..]);
    }
  }

  /** What was rendered, measured against the bytes accepted. */
  ghost predicate Faithful(p: Player) {
    var s := p.stream;
    && Decoded(s) && |p.fifo| <= CAPACITY
    && Flatten(s.slots) <= s.accepted && FullButLast(s.slots) && WaitedEnough(s, s.slots)
    && (p.done && !s.dropped && !p.failed ==> Flatten(s.slots) == s.accepted)
  }

  /**
   * However the two threads interleave: what was rendered is a prefix of what
   * was accepted, in full slots but for the last; nothing was rendered before
   * the initial buffer, or after an underrun before the second one, unless the
   * answer had ended; and an answer that finishes without a drop or a failure
   * was rendered to its last sample.
   */
  lemma RenderedInOrder(ops: seq<Op>)
    ensures Faithful(Run(Idle(), ops))
  {
    RunKeeps(Idle(), ops);
    var p := Run(Idle(), ops);
    hide Run, FullButLast, Decode;
    if p.thread.Holding? {
      FlattenAppend(p.stream.slots, p.thread.slot);
      PrefixFull(p.stream.slots, p.thread.slot);
    }
  }
}
