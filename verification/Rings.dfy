/** The fixed rings of the device: a head, a count, and slots that wrap around. */
module Rings {
  /** An index one lap at most past the end. */
  function Wrap(i: nat, n: nat): (w: nat)
    requires i < 2 * n
    ensures w < n
  {
    if i < n then i else i - n
  }

  /** The `count` elements from `head` on, wrapping at the end of the slots. */
  ghost function Window<T>(slots: seq<T>, head: nat, count: nat): (w: seq<T>)
    requires head < |slots| && count <= |slots|
    ensures |w| == count
    ensures forall i :: 0 <= i < count ==> w[i] == slots[Wrap(head + i, |slots|)]
  {
    if head + count <= |slots| then slots[head..head + count]
    else slots[head..] + slots[..head + count - |slots|]
  }

  /** Writing behind the window appends. */
  lemma WindowPush<T>(slots: seq<T>, head: nat, count: nat, x: T)
    requires head < |slots| && count < |slots|
    ensures Window(slots[Wrap(head + count, |slots|) := x], head, count + 1) == Window(slots, head, count) + [x]
  {
  }

  /** Moving the head forward drops the oldest, whatever is left in its slot. */
  lemma WindowPop<T>(slots: seq<T>, head: nat, count: nat, x: T)
    requires head < |slots| && 0 < count <= |slots|
    ensures Window(slots[head := x], Wrap(head + 1, |slots|), count - 1) == Window(slots, head, count)[1..]
    ensures Window(slots, Wrap(head + 1, |slots|), count - 1) == Window(slots, head, count)[1..]
  {
  }

  /** Overwriting behind a window and moving its head by one slides it. */
  lemma WindowSlide<T>(slots: seq<T>, head: nat, count: nat, x: T)
    requires head < |slots| && 0 < count <= |slots|
    ensures Window(slots[Wrap(head + count, |slots|) := x], Wrap(head + 1, |slots|), count) ==
            (Window(slots, head, count) + [x])[1..]
  {
  }

  /** Moving the head forward by several keeps the newest. */
  lemma WindowKeep<T>(slots: seq<T>, head: nat, count: nat, keep: nat)
    requires head < |slots| && keep <= count <= |slots|
    ensures Window(slots, Wrap(head + count - keep, |slots|), keep) == Window(slots, head, count)[count - keep..]
  {
  }
}
