/** The playback half of the audio engine as the device keeps it, proved against the player. */
module AudioEngine {
  import opened WireTypes
  import opened Rings
  import opened TtsRing
  import P = Playback

  class Engine {
    const tts: array<TtsSlot>
    var head: nat
    var tail: nat
    var count: nat
    var queued: nat
    var sequenceSet: bool
    var nextSequence: nat
    var active: bool
    var ending: bool
    var started: bool
    var rebuffering: bool
    var drop: bool
    var rebuffers: nat
    var done: bool
    var failed: bool
    var thread: P.Thread
    ghost var fifo: seq<P.Sample>
    ghost var stream: P.Stream

    ghost predicate Ring()
      reads this`head, this`tail, this`count, this`fifo, tts
    {
      && tts.Length == 75 && head < 75 && count <= 75 && tail == Wrap(head + count, 75)
      && Packed(Window(tts[..], head, 75), count, fifo)
    }

    ghost predicate Valid()
      reads this`head, this`tail, this`count, this`fifo, this`queued, tts
    {
      Ring() && queued == |fifo| && queued <= P.CAPACITY
    }

    ghost function View(): P.Player
      reads this
    {
      P.Player(fifo, sequenceSet, nextSequence, active, ending, started, rebuffering, drop, rebuffers,
               done, failed, thread, stream)
    }

    constructor ()
      ensures Valid() && fresh(tts) && View() == P.Idle()
    {
      tts := new TtsSlot[75](_ => BlankSlot());
      head, tail, count, queued, fifo := 0, 0, 0, 0, [];
      sequenceSet, nextSequence, active, ending, started, rebuffering := false, 0, false, false, false, false;
      drop, rebuffers, done, failed, thread, stream := false, 0, true, false, P.Waiting, P.NO_STREAM;
      new;
      AllBlank(Window(tts[..], 0, 75));
    }

    method ClearQueue()
      requires Valid()
      modifies this`head, this`tail, this`count, this`queued, this`fifo, tts
      ensures Valid() && View() == old(View()).(fifo := [])
    {
      for i := 0 to tts.Length
        invariant forall k :: 0 <= k < i ==> Blank(tts[k])
      {
        tts[i] := BlankSlot();
      }
      head, tail, count, queued, fifo := 0, 0, 0, 0, [];
      AllBlank(Window(tts[..], 0, 75));
    }

    method ClearFlags()
      requires Valid()
      modifies this`ending, this`drop, this`started, this`rebuffering, this`rebuffers
      ensures Valid()
      ensures View() == old(View()).(ending := false, drop := false, started := false, rebuffering := false,
              rebuffers := 0)
    {
      hide Valid, Ring;
      ending, drop, started, rebuffering := false, false, false, false;
      rebuffers := 0;
    }

    method OpenStream()
      requires Valid()
      modifies this`sequenceSet, this`active, this`failed, this`done, this`stream
      ensures Valid()
      ensures View() == old(View()).(sequenceSet := false, active := true, failed := false, done := false,
                                     stream := P.NO_STREAM)
    {
      hide Valid, Ring;
      sequenceSet, active, failed, done := false, true, false, false;
      stream := P.NO_STREAM;
    }

    method BeginPlayback(prepared: bool) returns (ok: bool)
      requires Valid()
      modifies this, tts
      ensures Valid() && (View(), ok) == P.Begin(old(View()), prepared)
    {
      Marks();
      hide View, Valid, Ring;
      if active {
        return false;
      }
      ClearQueue();
      if !prepared {
        return false;
      }
      ClearFlags();
      OpenStream();
      return true;
    }

    /** The view's components, for methods that branch on them. */
    lemma Marks()
      ensures var p := View();
              && p.fifo == fifo && p.active == active && p.ending == ending && p.started == started
              && p.rebuffering == rebuffering && p.drop == drop && p.done == done && p.failed == failed
              && p.thread == thread && p.sequenceSet == sequenceSet && p.nextSequence == nextSequence
              && p.stream == stream
    {
    }

    /** Copies one sample into a slot's buffer. */
    method Put(at: nat, i: nat, low: byte, high: byte)
      requires at < tts.Length && i < |tts[at].pcm|
      modifies tts
      ensures tts[..] == old(tts[..])[at := old(tts[at]).(pcm := old(tts[at]).pcm[i := P.ToSample(low, high)])]
    {
      tts[at] := tts[at].(pcm := tts[at].pcm[i := P.ToSample(low, high)]);
    }

    /** Copies what fits into one slot; the FIFO grows by what was copied. */
    method Fill(at: nat, bytes: seq<byte>, source: nat, copied: nat)
      requires tts.Length == 75 && at < 75 && |tts[at].pcm| == 480 && 0 < copied <= 480 - tts[at].used
      requires |bytes| % 2 == 0 && source + copied <= |bytes| / 2
      modifies tts
      ensures var u := old(tts[at]).used;
              && tts[..] == old(tts[..])[at := tts[at]]
              && |tts[at].pcm| == 480 && tts[at].used == u + copied
              && tts[at].pcm[..u] == old(tts[at]).pcm[..u]
              && tts[at].pcm[u..u + copied] == P.Decode(bytes)[source..source + copied]
    {
      ghost var u, d := tts[at].used, P.Decode(bytes);
      hide P.Decode;
      for i := 0 to copied
        invariant tts[..] == old(tts[..])[at := tts[at]]
        invariant |tts[at].pcm| == 480 && tts[at].used == u
        invariant tts[at].pcm[..u] == old(tts[at]).pcm[..u]
        invariant tts[at].pcm[u..u + i] == d[source..source + i]
      {
        var offset := 2 * (source + i);
        ghost var pcm := tts[at].pcm;
        P.DecodeAt(bytes, source + i);
        Put(at, tts[at].used + i, bytes[offset], bytes[offset + 1]);
        assert tts[at].pcm[u..u + i + 1] == pcm[u..u + i] + [d[source + i]];
        assert d[source..source + i + 1] == d[source..source + i] + [d[source + i]];
      }
      tts[at] := tts[at].(used := tts[at].used + copied);
    }

    /** Where the next sample goes, in terms of the slots. */
    lemma TailFacts()
      requires Ring() && |fifo| < P.CAPACITY
      ensures tts.Length == 75 && head < 75 && count <= 75 && tail == Wrap(head + count, 75)
      ensures if count == 0 || tts[Wrap(head + (count - 1), 75)].used == 480
              then count < 75 && Opened(tts[tail], count + 1, fifo)
              else Opened(tts[Wrap(head + (count - 1), 75)], count, fifo)
    {
      var w := Window(tts[..], head, 75);
      OpenTail(w, count, fifo);
      hide Packed, Opened;
      if count < 75 { assert w[count] == tts[Wrap(head + count, 75)]; }
      if 0 < count { assert w[count - 1] == tts[Wrap(head + (count - 1), 75)]; }
    }

    /** The slot the next sample goes to, opening one when the tail slot is full. */
    method TailSlot() returns (at: nat)
      requires Ring() && |fifo| < P.CAPACITY
      modifies this`tail, this`count
      ensures head < 75 && old(count) <= 75 && 0 < count <= 75 && old(count) <= count <= old(count) + 1
      ensures tts.Length == 75 && at == Wrap(head + (count - 1), 75) && tail == Wrap(head + count, 75)
      ensures Opened(tts[at], count, fifo)
    {
      TailFacts();
      hide Ring, Opened;
      assert 0 < count ==> (tail + 74) % 75 == Wrap(head + (count - 1), 75);
      if count == 0 || tts[(tail + 74) % 75].used == 480 {
        tail := (tail + 1) % 75;
        count := count + 1;
      }
      at := (tail + 74) % 75;
    }

    /** Copying into the tail slot extends what the ring carries. */
    static lemma Copied(was: seq<TtsSlot>, now: seq<TtsSlot>, head: nat, count: nat, next: nat, at: nat,
                        fifo: seq<P.Sample>, chunk: seq<P.Sample>)
      requires |was| == 75 && head < 75 && 0 < next <= 75 && count <= next <= count + 1
      requires at == Wrap(head + (next - 1), 75)
      requires Packed(Window(was, head, 75), count, fifo) && Opened(was[at], next, fifo)
      requires 0 < |chunk| <= 480 - was[at].used && |now| == 75 && now == was[at := now[at]]
      requires |now[at].pcm| == 480 && now[at].used == was[at].used + |chunk|
      requires now[at].pcm[..was[at].used] == was[at].pcm[..was[at].used]
      requires now[at].pcm[was[at].used..was[at].used + |chunk|] == chunk
      ensures Packed(Window(now, head, 75), next, fifo + chunk)
    {
      var w := Window(was, head, 75);
      assert w[next - 1] == was[at];
      LapSet(was, head, next - 1, now[at]);
      hide Packed, Window, Opened;
      Extend(w, count, next, fifo, now[at], chunk);
    }

    lemma Assemble()
      requires tts.Length == 75 && head < 75 && count <= 75 && tail == Wrap(head + count, 75)
      requires Packed(Window(tts[..], head, 75), count, fifo)
      ensures Ring()
    {
    }

    lemma Disassemble()
      requires Ring()
      ensures tts.Length == 75 && head < 75 && count <= 75 && tail == Wrap(head + count, 75)
      ensures Packed(Window(tts[..], head, 75), count, fifo)
    {
    }

    method CopyChunk(bytes: seq<byte>, source: nat) returns (next: nat)
      requires Ring() && |bytes| % 2 == 0 && source < |bytes| / 2 && |fifo| < P.CAPACITY
      modifies this`tail, this`count, this`fifo, tts
      ensures Ring() && source < next <= |bytes| / 2
      ensures fifo == old(fifo) + P.Decode(bytes)[source..next]
    {
      Disassemble();
      ghost var was, n, d := tts[..], count, P.Decode(bytes);
      hide Packed, P.Decode, Window, Ring;
      var at := TailSlot();
      var room := 480 - tts[at].used;
      var copied := if |bytes| / 2 - source < room then |bytes| / 2 - source else room;
      next := source + copied;
      Fill(at, bytes, source, copied);
      hide Opened;
      Copied(was, tts[..], head, n, count, at, fifo, d[source..next]);
      fifo := fifo + d[source..next];
      Assemble();
    }

    /** Copies all samples, slot by slot. */
    method CopyAll(bytes: seq<byte>)
      requires Valid() && |bytes| % 2 == 0 && queued + |bytes| / 2 <= P.CAPACITY
      modifies this`tail, this`count, this`fifo, this`queued, tts
      ensures Valid() && fifo == old(fifo) + P.Decode(bytes)
    {
      ghost var d := P.Decode(bytes);
      hide Packed, P.Decode;
      var samples, source := |bytes| / 2, 0;
      while source < samples
        invariant source <= samples && Ring() && queued == |old(fifo)|
        invariant fifo == old(fifo) + d[..source]
      {
        ghost var from := source;
        source := CopyChunk(bytes, source);
        assert d[..source] == d[..from] + d[from..source];
      }
      assert d[..samples] == d;
      queued := queued + samples;
    }

    method QueueTts24k(bytes: seq<byte>, sequence: nat) returns (ok: bool)
      requires Valid()
      modifies this, tts
      ensures Valid() && (View(), ok) == P.Queue(old(View()), bytes, sequence)
    {
      hide Ring, P.Decode;
      if bytes == [] || |bytes| % 2 != 0 {
        return false;
      }
      if !active || ending || |bytes| / 2 > P.CAPACITY - queued || (sequenceSet && sequence != nextSequence) {
        return false;
      }
      Accept(bytes, sequence);
      return true;
    }

    method Accept(bytes: seq<byte>, sequence: nat)
      requires Valid() && |bytes| % 2 == 0 && queued + |bytes| / 2 <= P.CAPACITY
      modifies this`tail, this`count, this`fifo, this`queued, this`sequenceSet, this`nextSequence, this`stream, tts
      ensures Valid()
      ensures var p := old(View());
              View() == p.(fifo := p.fifo + P.Decode(bytes), sequenceSet := true, nextSequence := sequence + 1,
                           stream := p.stream.(bytes := p.stream.bytes + bytes,
                                               accepted := p.stream.accepted + P.Decode(bytes)))
    {
      hide Packed, P.Decode;
      CopyAll(bytes);
      sequenceSet, nextSequence := true, sequence + 1;
      stream := stream.(bytes := stream.bytes + bytes, accepted := stream.accepted + P.Decode(bytes));
    }

    method EndPlayback() returns (ok: bool)
      requires Valid()
      modifies this`ending, this`stream
      ensures Valid() && (View(), ok) == P.End(old(View()))
    {
      if !active || ending {
        return false;
      }
      ending := true;
      stream := stream.(ended := true);
      return true;
    }

    method DropPlayback()
      requires Valid()
      modifies this, tts
      ensures Valid() && View() == P.Drop(old(View()))
    {
      hide Packed;
      if active {
        drop := true;
        ClearQueue();
        stream := stream.(dropped := true);
      }
    }

    // -------------------------------------------------------------------
    // The playback thread
    // -------------------------------------------------------------------

    /** The grace period ran out with nothing to play. */
    method GraceExpired()
      requires Valid()
      modifies this`rebuffering, this`rebuffers, this`stream
      ensures Valid() && View() == P.Underrun(old(View()))
    {
      Level();
      hide Packed;
      if thread.Waiting? && active && started && count == 0 && !ending && !drop && !rebuffering {
        rebuffering := true;
        rebuffers := rebuffers + 1;
        stream := stream.(dry := Some(|stream.accepted|));
      }
    }

    /** What the slot count and the head slot say about the queue. */
    lemma Level()
      requires Valid()
      ensures count == 0 <==> fifo == []
      ensures 0 < count ==> tts[head].used == if |fifo| < 480 then |fifo| else 480
      ensures 0 < count ==> (count == 1 <==> |fifo| <= 480)
    {
      if 0 < count {
        assert Window(tts[..], head, 75)[0] == tts[head];
        Remove(Window(tts[..], head, 75), count, fifo, BlankSlot());
      }
    }

    /** Taking the head slot leaves a ring that carries the rest. */
    static lemma Taken(was: seq<TtsSlot>, head: nat, count: nat, fifo: seq<P.Sample>, blank: TtsSlot)
      requires |was| == 75 && head < 75 && 0 < count <= 75 && Blank(blank) && Packed(Window(was, head, 75), count, fifo)
      ensures var s := was[head];
              && s.used <= |s.pcm| && s.used == (if |fifo| < 480 then |fifo| else 480)
              && s.pcm[..s.used] == fifo[..s.used] && (count == 1 <==> s.used == |fifo|)
              && Packed(Window(was[head := blank], Wrap(head + 1, 75), 75), count - 1, fifo[s.used..])
    {
      var w := Window(was, head, 75);
      assert w[0] == was[head];
      Remove(w, count, fifo, blank);
      LapNext(was, head, blank);
    }

    method TakeSlot() returns (s: TtsSlot)
      requires Valid() && 0 < count
      modifies this`head, this`count, this`queued, this`fifo, tts
      ensures Valid() && s.used <= |s.pcm| && s.used == (if |old(fifo)| < 480 then |old(fifo)| else 480)
      ensures s.pcm[..s.used] == old(fifo)[..s.used] && fifo == old(fifo)[s.used..]
      ensures count == 0 <==> fifo == []
    {
      Disassemble();
      ghost var was := tts[..];
      var blank := BlankSlot();
      hide Packed, Window, Ring, Blank;
      Taken(was, head, count, fifo, blank);
      s := tts[head];
      queued := queued - s.used;
      tts[head] := blank;
      assert tts[..] == was[head := blank];
      assert (head + 1) % 75 == Wrap(head + 1, 75);
      head := (head + 1) % 75;
      count := count - 1;
      fifo := fifo[s.used..];
      Assemble();
    }

    /** Whether the wait is over. */
    method Ready() returns (ready: bool)
      requires Valid()
      ensures ready == P.Ready(View())
    {
      Level();
      hide Packed;
      var bufferReady := if started then !rebuffering || queued >= P.REBUFFER_SAMPLES || ending
                         else queued >= P.INITIAL_SAMPLES || ending;
      ready := drop || (active && ((count != 0 && (tts[head].used == 480 || ending) && bufferReady)
                                   || (ending && count == 0)));
    }

    method SetThread(t: P.Thread)
      requires Valid()
      modifies this`thread
      ensures Valid() && View() == old(View()).(thread := t)
    {
      hide Packed;
      thread := t;
    }

    method MarkStarted()
      requires Valid()
      modifies this`rebuffering, this`started
      ensures Valid() && View() == old(View()).(rebuffering := false, started := true)
    {
      hide Valid, Ring;
      rebuffering := false;
      started := true;
    }

    method HoldSlot()
      requires Valid() && 0 < count
      modifies this`head, this`count, this`queued, this`fifo, this`rebuffering, this`started, this`thread, tts
      ensures Valid()
      ensures var p := old(View());
              var n := P.HeadSamples(p);
              View() == p.(fifo := p.fifo[n..], rebuffering := false, started := true,
                           thread := P.Holding(p.fifo[..n], p.ending && |p.fifo| == n))
    {
      hide Ring, Packed;
      MarkStarted();
      var s := TakeSlot();
      SetThread(P.Holding(s.pcm[..s.used], ending && count == 0));
    }

    /** One passage through the wait; nothing happens while there is nothing to do. */
    method Wake()
      requires Valid()
      modifies this, tts
      ensures Valid() && View() == P.Wake(old(View()))
    {
      Level();
      Marks();
      hide Packed, View, Ring, P.Ready;
      if !thread.Waiting? {
        return;
      }
      var ready := Ready();
      if !ready {
        return;
      }
      if drop {
        SetThread(P.Finishing(true, false));
      } else if count == 0 {
        SetThread(P.Finishing(false, false));
      } else {
        HoldSlot();
      }
    }

    method Rendered(ok: bool)
      requires Valid()
      modifies this`thread, this`stream
      ensures Valid() && View() == P.Rendered(old(View()), ok)
    {
      hide Packed;
      if thread.Holding? {
        var finish := thread.finish;
        if ok {
          stream := stream.(slots := stream.slots + [thread.slot]);
        }
        thread := if finish || !ok then P.Finishing(false, !ok) else P.Waiting;
      }
    }

    method Observe()
      requires Valid()
      modifies this`thread
      ensures Valid() && View() == P.Observe(old(View()))
    {
      hide Packed;
      if thread.Finishing? {
        thread := if drop then P.Draining(true, false) else P.Draining(thread.discard, thread.failed);
      }
    }

    method CloseStream(bad: bool)
      requires Valid()
      modifies this`active, this`failed, this`done, this`thread
      ensures Valid() && View() == old(View()).(active := false, failed := bad, done := true, thread := P.Waiting)
    {
      hide Valid, Ring;
      active, failed, done := false, bad, true;
      thread := P.Waiting;
    }

    method Complete(drained: bool)
      requires Valid()
      modifies this, tts
      ensures Valid() && View() == P.Complete(old(View()), drained)
    {
      Marks();
      hide Valid, View, Ring;
      if thread.Draining? {
        var discard := thread.discard;
        var bad := if discard || thread.failed then thread.failed else !drained;
        if drop && !discard {
          discard, bad := true, false;
        }
        ClearQueue();
        ClearFlags();
        CloseStream(bad);
      }
    }
  }
}
