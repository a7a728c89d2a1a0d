/** The actor's two rings, updated in place: the event queue and the pre-roll. */
module DeviceRings {
  import opened WireTypes
  import opened Rings
  import T = ClientTransport
  import VoiceActor

  /** 64 slots between the network thread and the actor; a full queue marks the loss instead of overwriting. */
  class EventQueue {
    const slots: array<T.Inbound>
    var head: nat
    var tail: nat
    var count: nat
    var overflow: bool
    ghost var good: nat

    ghost predicate Valid()
      reads this
    {
      slots.Length == 64 && head < 64 && count <= 64 && tail == Wrap(head + count, 64)
    }

    ghost function View(): VoiceActor.Queue
      reads this, slots
      requires Valid()
    {
      VoiceActor.Queue(Window(slots[..], head, count), overflow, good)
    }

    constructor ()
      ensures Valid() && fresh(slots) && View() == VoiceActor.EMPTY_QUEUE
    {
      slots := new T.Inbound[64](_ => T.Heartbeat(ZERO_IDS));
      head, tail, count, overflow, good := 0, 0, 0, false, 0;
    }

    method Push(e: T.Inbound) returns (ok: bool)
      requires Valid()
      modifies this, slots
      ensures Valid() && View() == VoiceActor.Push(old(View()), e)
      ensures ok <==> |old(View()).items| < 64
    {
      if count == slots.Length {
        overflow := true;
        return false;
      }
      hide Window;
      ghost var was := slots[..];
      WindowPush(was, head, count, e);
      slots[tail] := e;
      assert slots[..] == was[Wrap(head + count, 64) := e];
      tail := (tail + 1) % 64;
      count := count + 1;
      good := if overflow then good else good + 1;
      return true;
    }

    method Pop() returns (r: Option<T.Inbound>)
      requires Valid()
      modifies this, slots
      ensures Valid()
      ensures if old(View()).items == [] then r == None && View() == old(View())
              else r == Some(old(View()).items[0]) && View() == VoiceActor.Pop(old(View()))
    {
      if count == 0 {
        return None;
      }
      var e := TakeHead();
      good := if good == 0 then 0 else good - 1;
      return Some(e);
    }

    method TakeHead() returns (e: T.Inbound)
      requires Valid() && 0 < count
      modifies this`head, this`count, slots
      ensures Valid() && e == old(View()).items[0] && View() == old(View()).(items := old(View()).items[1..])
    {
      e := slots[head];
      ghost var was := slots[..];
      assert Window(was, head, count)[0] == e;
      WindowPop(was, head, count, T.Heartbeat(ZERO_IDS));
      hide Window;
      slots[head] := T.Heartbeat(ZERO_IDS);
      assert slots[..] == was[head := T.Heartbeat(ZERO_IDS)];
      assert (head + 1) % 64 == Wrap(head + 1, 64);
      head := (head + 1) % 64;
      count := count - 1;
    }

    method Clear()
      requires Valid()
      modifies this, slots
      ensures Valid() && View() == VoiceActor.EMPTY_QUEUE
    {
      for i := 0 to slots.Length
        invariant head == old(head) && count == old(count) && tail == old(tail)
      {
        slots[i] := T.Heartbeat(ZERO_IDS);
      }
      head, tail, count := 0, 0, 0;
      overflow, good := false, 0;
    }
  }

  /** 67 slots of captured frames, oldest first. */
  class PreRollRing {
    const slots: array<VoiceActor.Frame>
    var head: nat
    var count: nat

    ghost predicate Valid()
      reads this
    {
      slots.Length == 67 && head < 67 && count <= 67
    }

    ghost function Contents(): (s: seq<VoiceActor.Frame>)
      reads this, slots
      requires Valid()
      ensures |s| == count
    {
      Window(slots[..], head, count)
    }

    constructor (blank: VoiceActor.Frame)
      ensures Valid() && fresh(slots) && Contents() == []
    {
      slots := new VoiceActor.Frame[67](_ => blank);
      head, count := 0, 0;
    }

    /** Writes behind the newest frame, over the oldest when all slots are taken. */
    method WriteTail(f: VoiceActor.Frame)
      requires Valid()
      modifies slots
      ensures slots[..] == old(slots[..])[Wrap(head + count, 67) := f]
    {
      var tail := (head + count) % 67;
      assert tail == Wrap(head + count, 67);
      slots[tail] := f;
    }

    /** Appends; at the limit the oldest frame gives way. */
    method Append(f: VoiceActor.Frame, limit: nat)
      requires Valid() && 0 < limit <= 67
      modifies this, slots
      ensures Valid()
      ensures Contents() == if |old(Contents())| < limit then old(Contents()) + [f]
                            else (old(Contents()) + [f])[1..]
    {
      hide Window;
      ghost var was := slots[..];
      WriteTail(f);
      if count < limit {
        WindowPush(was, head, count, f);
        count := count + 1;
      } else {
        WindowSlide(was, head, count, f);
        assert (head + 1) % 67 == Wrap(head + 1, 67);
        head := (head + 1) % 67;
      }
    }

    method KeepNewest(n: nat)
      requires Valid()
      modifies this
      ensures Valid()
      ensures Contents() == if |old(Contents())| <= n then old(Contents())
                            else old(Contents())[|old(Contents())| - n..]
    {
      hide Window;
      var keep := if n < count then n else count;
      assert (head + count - keep) % 67 == Wrap(head + count - keep, 67);
      WindowKeep(slots[..], head, count, keep);
      head := (head + count - keep) % 67;
      count := keep;
    }

    method Clear()
      requires Valid()
      modifies this
      ensures Valid() && Contents() == []
    {
      head, count := 0, 0;
    }

    method At(i: nat) returns (f: VoiceActor.Frame)
      requires Valid() && i < count
      ensures f == Contents()[i]
    {
      f := slots[(head + i) % 67];
    }
  }
}
