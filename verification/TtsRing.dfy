/** 75 slots of 480 samples with a partly filled tail hold the FIFO of the player. */
module TtsRing {
  import opened WireTypes
  import opened Rings
  import opened Playback

  datatype TtsSlot = TtsSlot(pcm: seq<Sample>, used: nat)

  predicate Blank(s: TtsSlot) {
    |s.pcm| == SLOT_SAMPLES && s.used == 0 && forall i :: 0 <= i < |s.pcm| ==> s.pcm[i] == 0
  }

  function BlankSlot(): (s: TtsSlot)
    ensures Blank(s)
  {
    TtsSlot(seq(SLOT_SAMPLES, _ => 0), 0)
  }

  /** The `i`-th slot from the head holds its 480 samples, or what is left. */
  ghost predicate Carries(s: TtsSlot, fifo: seq<Sample>, i: nat) {
    && |s.pcm| == SLOT_SAMPLES && 480 * i < |fifo|
    && s.used == (if |fifo| - 480 * i < 480 then |fifo| - 480 * i else 480)
    && s.pcm[..s.used] == fifo[480 * i..480 * i + s.used]
  }

  /** Counted from the head: the first `count` slots carry the FIFO, the others are blank. */
  ghost predicate Packed(w: seq<TtsSlot>, count: nat, fifo: seq<Sample>) {
    && |w| == TTS_SLOTS && count <= TTS_SLOTS
    && 480 * count < |fifo| + 480 && |fifo| <= 480 * count
    && (forall i :: 0 <= i < count ==> Carries(w[i], fifo, i))
    && (forall i :: count <= i < TTS_SLOTS ==> Blank(w[i]))
  }

  ghost function UsedFrom(w: seq<TtsSlot>, k: nat): nat
    requires k <= |w|
    decreases |w| - k
  {
    if k == |w| then 0 else w[k].used + UsedFrom(w, k + 1)
  }

  lemma {:induction false} UsedSum(w: seq<TtsSlot>, count: nat, fifo: seq<Sample>, k: nat)
    requires Packed(w, count, fifo) && k <= TTS_SLOTS
    ensures UsedFrom(w, k) == if |fifo| < 480 * k then 0 else |fifo| - 480 * k
    decreases TTS_SLOTS - k
  {
    if k < count {
      assert Carries(w[k], fifo, k);
      UsedSum(w, count, fifo, k + 1);
    } else if k < TTS_SLOTS {
      assert Blank(w[k]);
      UsedSum(w, count, fifo, k + 1);
    }
  }

  /** All slots in use but the last are full, the rest are blank, and the fill levels add up to the samples queued. */
  lemma RingShape(w: seq<TtsSlot>, count: nat, fifo: seq<Sample>)
    requires Packed(w, count, fifo)
    ensures forall i :: 0 <= i < count - 1 ==> w[i].used == SLOT_SAMPLES
    ensures forall i :: 0 <= i < count ==> 0 < w[i].used <= SLOT_SAMPLES
    ensures forall i :: count <= i < TTS_SLOTS ==> w[i].used == 0
    ensures UsedFrom(w, 0) == |fifo|
  {
    forall i | 0 <= i < count
      ensures 0 < w[i].used <= SLOT_SAMPLES && (i < count - 1 ==> w[i].used == SLOT_SAMPLES)
    {
      assert Carries(w[i], fifo, i);
    }
    UsedSum(w, count, fifo, 0);
  }

  /** While one more sample fits by count, a slot is free for it: a 76th is never opened. */
  lemma SlotForSample(w: seq<TtsSlot>, count: nat, fifo: seq<Sample>)
    requires Packed(w, count, fifo) && |fifo| < CAPACITY
    ensures count < TTS_SLOTS || w[count - 1].used < SLOT_SAMPLES
  {
    if count == TTS_SLOTS {
      assert Carries(w[74], fifo, 74);
    }
  }

  /** Where the next sample goes: behind the tail slot's fill level, or into a blank slot. */
  ghost predicate Opened(s: TtsSlot, next: nat, fifo: seq<Sample>)
  {
    0 < next && |s.pcm| == 480 && 480 * (next - 1) <= |fifo| < 480 * next
    && s.used == |fifo| - 480 * (next - 1) && s.pcm[..s.used] == fifo[480 * (next - 1)..]
  }

  /** The slot behind the tail, opened when the last one is full. */
  lemma OpenTail(w: seq<TtsSlot>, count: nat, fifo: seq<Sample>)
    requires Packed(w, count, fifo) && |fifo| < CAPACITY
    ensures var next := if count == 0 || w[count - 1].used == SLOT_SAMPLES then count + 1 else count;
            0 < next <= TTS_SLOTS && Opened(w[next - 1], next, fifo)
  {
    SlotForSample(w, count, fifo);
    if 0 < count {
      assert Carries(w[count - 1], fifo, count - 1);
    }
    if count == 0 || w[count - 1].used == SLOT_SAMPLES {
      assert Blank(w[count]);
    }
  }

  /** Samples copied behind the fill level extend the FIFO. */
  lemma Extend(w: seq<TtsSlot>, count: nat, next: nat, fifo: seq<Sample>, s: TtsSlot, chunk: seq<Sample>)
    requires Packed(w, count, fifo) && 0 < next <= TTS_SLOTS && count <= next <= count + 1
    requires Opened(w[next - 1], next, fifo) && 0 < |chunk| <= 480 - w[next - 1].used
    requires var u := w[next - 1].used;
             && |s.pcm| == 480 && s.used == u + |chunk|
             && s.pcm[..u] == w[next - 1].pcm[..u] && s.pcm[u..u + |chunk|] == chunk
    ensures Packed(w[next - 1 := s], next, fifo + chunk)
  {
    var now, all, u := w[next - 1 := s], fifo + chunk, w[next - 1].used;
    forall i | 0 <= i < next ensures Carries(now[i], all, i) {
      if i < next - 1 {
        assert Carries(w[i], fifo, i);
        assert all[480 * i..480 * i + 480] == fifo[480 * i..480 * i + 480];
      } else {
        assert s.pcm[..s.used] == s.pcm[..u] + s.pcm[u..u + |chunk|];
        assert all[480 * i..480 * i + s.used] == fifo[480 * i..] + chunk;
      }
    }
  }

  /** Blanking the head slot and moving on takes its samples off the FIFO. */
  lemma Remove(w: seq<TtsSlot>, count: nat, fifo: seq<Sample>, blank: TtsSlot)
    requires Packed(w, count, fifo) && 0 < count && Blank(blank)
    ensures |w[0].pcm| == 480 && w[0].used == (if |fifo| < 480 then |fifo| else 480)
    ensures w[0].pcm[..w[0].used] == fifo[..w[0].used]
    ensures Packed(w[1..] + [blank], count - 1, fifo[w[0].used..])
  {
    assert Carries(w[0], fifo, 0);
    var now, rest := w[1..] + [blank], fifo[w[0].used..];
    forall i | 0 <= i < count - 1 ensures Carries(now[i], rest, i) {
      assert Carries(w[i + 1], fifo, i + 1);
      var u := w[i + 1].used;
      assert rest[480 * i..480 * i + u] == fifo[480 * (i + 1)..480 * (i + 1) + u];
    }
  }

  lemma AllBlank(w: seq<TtsSlot>)
    requires |w| == TTS_SLOTS && forall i :: 0 <= i < TTS_SLOTS ==> Blank(w[i])
    ensures Packed(w, 0, [])
  {
  }

  // ---------------------------------------------------------------------
  // The ring as one lap from the head
  // ---------------------------------------------------------------------

  lemma LapSet(tts: seq<TtsSlot>, head: nat, i: nat, s: TtsSlot)
    requires |tts| == TTS_SLOTS && head < TTS_SLOTS && i < TTS_SLOTS
    ensures Window(tts[Wrap(head + i, TTS_SLOTS) := s], head, TTS_SLOTS) == Window(tts, head, TTS_SLOTS)[i := s]
  {
  }

  lemma LapNext(tts: seq<TtsSlot>, head: nat, s: TtsSlot)
    requires |tts| == TTS_SLOTS && head < TTS_SLOTS
    ensures Window(tts[head := s], Wrap(head + 1, TTS_SLOTS), TTS_SLOTS) == Window(tts, head, TTS_SLOTS)[1..] + [s]
  {
  }
}
