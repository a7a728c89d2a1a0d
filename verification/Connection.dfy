/** The device connection's reader and receiver as one object with their shared queues and lock. */
module Connection {
  import opened WireTypes
  import F = CongestionFence

  /** What one call of Receive gives back; with an empty queue it waits until its caller gives up. */
  datatype Received = Item(item: F.Item) | Closed | Nothing

  /** What the reader, or a failing socket, does beside the receiver. */
  predicate ReaderOp(op: F.Op) { op.Read? || op.UnblockReader? || op.CloseLink? }

  ghost predicate AllReaders(reader: seq<seq<F.Op>>) {
    forall k, i :: 0 <= k < |reader| && 0 <= i < |reader[k]| ==> ReaderOp(reader[k][i])
  }

  function ReaderPart(ops: seq<F.Op>): seq<F.Op> {
    if ops == [] then [] else (if ReaderOp(ops[0]) then [ops[0]] else []) + ReaderPart(ops[1..])
  }

  lemma {:induction false} PartJoin(p: seq<F.Op>, q: seq<F.Op>)
    ensures ReaderPart(p + q) == ReaderPart(p) + ReaderPart(q)
  {
    if p == [] {
      assert p + q == q;
    } else {
      var first := if ReaderOp(p[0]) then [p[0]] else [];
      var rest := p[1..] + q;
      assert (p + q)[1..] == rest && (p + q)[0] == p[0];
      assert ReaderPart(p + q) == first + ReaderPart(rest) && ReaderPart(p) == first + ReaderPart(p[1..]);
      hide ReaderPart, ReaderOp;
      PartJoin(p[1..], q);
      assert (first + ReaderPart(p[1..])) + ReaderPart(q) == first + (ReaderPart(p[1..]) + ReaderPart(q));
    }
  }

  lemma {:induction false} PartWhole(ops: seq<F.Op>)
    requires forall i :: 0 <= i < |ops| ==> ReaderOp(ops[i])
    ensures ReaderPart(ops) == ops
  {
    if ops != [] {
      PartWhole(ops[1..]);
    }
  }

  class Link {
    var queue: seq<F.Message>
    var errors: seq<F.Item>
    var congested: Option<F.Turn>
    var closed: bool
    var saturated: Option<F.Turn>
    var waiting: Option<F.Message>
    var failed: bool
    var pc: F.Pc
    /** What came from the socket; only its length is looked at, to number the messages. */
    var read: seq<F.Message>
    ghost var returned: seq<F.Item>
    ghost var reported: seq<F.Turn>

    ghost function View(): F.Link
      reads this
    {
      F.Link(queue, errors, congested, closed, saturated, waiting, failed, pc, read, returned, reported)
    }

    constructor ()
      ensures View() == F.OPEN
    {
      queue, errors, congested, closed, saturated, waiting, failed := [], [], None, false, None, None, false;
      pc, read, returned, reported := F.Top, [], [], [];
    }

    method SignalTurnCongestion(x: F.Turn, stream: nat) returns (ok: bool)
      modifies this`errors, this`congested, this`reported
      ensures (View(), ok) == F.Signal(old(View()), x, stream)
    {
      if congested.Some? {
        return congested.value == x;
      }
      if errors != [] {
        return false;
      }
      errors, congested, reported := [F.Congestion(x, stream)], Some(x), reported + [x];
      return true;
    }

    method Cancel()
      modifies this`closed, this`failed
      ensures View() == old(View()).(closed := true, failed := true)
    {
      closed, failed := true, true;
    }

    method Overflow(m: F.Message)
      modifies this
      ensures View() == F.Overflow(old(View()), m)
    {
      hide F.Signal;
      var ok := false;
      if F.Identity(m).Some? {
        ok := SignalTurnCongestion(F.Identity(m).value, m.stream);
      }
      if ok {
        saturated := F.Identity(m);
      } else {
        Cancel();
      }
    }

    /** One pass of the read pump; the message's serial is its place on the socket. */
    method ReadPump(wire: F.Message)
      modifies this
      ensures View() == F.ReadOne(old(View()), wire)
    {
      hide F.Overflow;
      if failed || waiting.Some? {
        return;
      }
      var m := wire.(serial := |read|);
      read := read + [m];
      var fence := false;
      if saturated.Some? {
        var identity := F.Identity(m);
        if identity == saturated {
          return;
        }
        fence := identity.Some? && F.IsTurnStart(m);
      }
      if fence {
        waiting := Some(m);
      } else if |queue| < F.RECEIVE_QUEUE {
        queue := queue + [m];
      } else {
        Overflow(m);
      }
    }

    method PlaceWaiting()
      modifies this`queue, this`waiting, this`saturated
      ensures View() == F.Unblock(old(View()))
    {
      if waiting.Some? && |queue| < F.RECEIVE_QUEUE {
        queue, waiting, saturated := queue + [waiting.value], None, None;
      }
    }

    /** True when the message belongs to the congested turn; another turn's turn.start ends the congestion. */
    method DiscardCongested(m: F.Message) returns (discard: bool)
      modifies this`congested
      ensures discard <==> F.Discards(old(View()), m)
      ensures View() == old(View()).(congested := if !discard && F.Lifts(old(View()), m) then None else old(congested))
    {
      var identity := F.Identity(m);
      if congested.None? || identity.None? {
        return false;
      }
      if identity == congested {
        return true;
      }
      if F.IsTurnStart(m) {
        congested := None;
      }
      return false;
    }

    method ReturnError() returns (i: F.Item)
      requires errors != []
      modifies this`pc, this`errors, this`returned
      ensures View() == F.ReturnError(old(View())) && View().returned == old(View()).returned + [i]
    {
      i := errors[0];
      pc, errors, returned := F.Top, errors[1..], returned + [i];
    }

    method SetPc(p: F.Pc)
      modifies this`pc
      ensures View() == old(View()).(pc := p)
    {
      pc := p;
    }

    method TakeHead()
      requires queue != []
      modifies this`pc, this`queue
      ensures View() == old(View()).(pc := F.Holding(old(queue)[0]), queue := old(queue)[1..])
    {
      pc, queue := F.Holding(queue[0]), queue[1..];
    }

    /** The message in hand is dropped or returned. */
    method Settle() returns (kept: bool)
      requires pc.Holding?
      modifies this`pc, this`congested, this`returned
      ensures View() == F.Settle(old(View()))
      ensures View().pc == F.Top && View().queue == old(View()).queue && View().closed == old(View()).closed
      ensures View().returned ==
              if kept then old(View()).returned + [F.Got(old(View()).pc.message)] else old(View()).returned
    {
      var m := pc.message;
      var discard := DiscardCongested(m);
      pc := F.Top;
      if !discard {
        returned := returned + [F.Got(m)];
      }
      return !discard;
    }

    lemma Then(start: F.Link, ops: seq<F.Op>, l: F.Link, op: F.Op)
      requires l == F.Run(start, ops)
      ensures F.Run(start, ops + [op]) == F.Step(l, op)
    {
      hide F.Step;
      F.RunJoin(start, ops, [op]);
      assert F.Run(l, [op]) == F.Run(F.Step(l, op), [op][1..]) && [op][1..] == [];
    }

    lemma ThenAll(start: F.Link, ops: seq<F.Op>, l: F.Link, batch: seq<F.Op>)
      requires l == F.Run(start, ops)
      ensures F.Run(start, ops + batch) == F.Run(l, batch)
      ensures ReaderPart(ops + batch) == ReaderPart(ops) + ReaderPart(batch)
    {
      F.RunJoin(start, ops, batch);
      PartJoin(ops, batch);
    }

    /** What the reader does while the receiver is between two steps. */
    method Interfere(batch: seq<F.Op>)
      requires forall i :: 0 <= i < |batch| ==> ReaderOp(batch[i])
      modifies this
      ensures View() == F.Run(old(View()), batch) && pc == old(pc) && returned == old(returned)
    {
      ghost var start := View();
      assert batch[..0] == [];
      for k := 0 to |batch|
        invariant View() == F.Run(start, batch[..k]) && pc == old(pc) && returned == old(returned)
      {
        Then(start, batch[..k], View(), batch[k]);
        assert batch[..k + 1] == batch[..k] + [batch[k]];
        hide F.Run, F.ReadOne, F.Unblock;
        ReaderLeaves(View(), batch[k]);
        match batch[k] {
          case Read(m) => ReadPump(m);
          case UnblockReader => PlaceWaiting();
          case CloseLink => closed := true;
        }
      }
      assert batch[..|batch|] == batch;
    }

    lemma ReaderLeaves(l: F.Link, op: F.Op)
      requires ReaderOp(op)
      ensures F.Step(l, op).pc == l.pc && F.Step(l, op).returned == l.returned
    {
    }

    /** The reader's next batch, if there is one left. */
    method Yield(reader: seq<seq<F.Op>>, k: nat, ghost start: F.Link, ghost before: seq<F.Op>)
      returns (next: nat, ghost ops: seq<F.Op>)
      requires k <= |reader| && AllReaders(reader)
      requires View() == F.Run(start, before) && ReaderPart(before) == Flatten(reader[..k])
      modifies this
      ensures View() == F.Run(start, ops) && pc == old(pc) && returned == old(returned)
      ensures next <= |reader| && ReaderPart(ops) == Flatten(reader[..next])
      ensures if k < |reader| then next > k else next == k && View() == old(View())
    {
      if k == |reader| {
        return k, before;
      }
      ThenAll(start, before, View(), reader[k]);
      PartWhole(reader[k]);
      assert reader[..k + 1] == reader[..k] + [reader[k]];
      FlattenAppend(reader[..k], reader[k]);
      hide F.Run, ReaderPart, Flatten;
      Interfere(reader[k]);
      return k + 1, before + reader[k];
    }

    /** One step of the receiver more. */
    lemma Mine(start: F.Link, before: seq<F.Op>, l: F.Link, op: F.Op)
      requires l == F.Run(start, before) && !ReaderOp(op)
      ensures F.Run(start, before + [op]) == F.Step(l, op) && ReaderPart(before + [op]) == ReaderPart(before)
    {
      Then(start, before, l, op);
      PartJoin(before, [op]);
      assert [op][1..] == [];
      hide F.Step;
    }

    /** The select found a message: it is dropped or returned, the reader coming in between. */
    method TakeMessage(reader: seq<seq<F.Op>>, k: nat, ghost start: F.Link, ghost before: seq<F.Op>)
      returns (r: Received, used: nat, ghost ops: seq<F.Op>)
      requires pc == F.Selecting && queue != [] && k <= |reader| && AllReaders(reader)
      requires View() == F.Run(start, before) && ReaderPart(before) == Flatten(reader[..k])
      modifies this
      ensures View() == F.Run(start, ops) && pc == F.Top
      ensures k <= used <= |reader| && ReaderPart(ops) == Flatten(reader[..used])
      ensures used == k ==> |queue| < |old(queue)|
      ensures r != Closed && returned == if r.Item? then old(returned) + [r.item] else old(returned)
    {
      hide F.Run, ReaderPart, Flatten, AllReaders, F.Settle;
      var m := queue[0];
      Mine(start, before, View(), F.SelectMessage);
      TakeHead();
      used, ops := Yield(reader, k, start, before + [F.SelectMessage]);
      Mine(start, ops, View(), F.SettleHeld);
      var kept := Settle();
      r, ops := if kept then Item(F.Got(m)) else Nothing, ops + [F.SettleHeld];
    }

    /** From the top of the loop to its select, unless the connection is closed or a report waits. */
    method LookAtErrors(reader: seq<seq<F.Op>>, k: nat, ghost start: F.Link, ghost before: seq<F.Op>)
      returns (r: Received, used: nat, ghost ops: seq<F.Op>)
      requires pc == F.Top && k <= |reader| && AllReaders(reader)
      requires View() == F.Run(start, before) && ReaderPart(before) == Flatten(reader[..k])
      modifies this
      ensures View() == F.Run(start, ops) && pc == if r == Nothing then F.Selecting else F.Top
      ensures k <= used <= |reader| && ReaderPart(ops) == Flatten(reader[..used])
      ensures used == k ==> queue == old(queue)
      ensures returned == if r.Item? then old(returned) + [r.item] else old(returned)
      ensures r == Closed ==> closed
    {
      hide F.Run, ReaderPart, Flatten, AllReaders;
      used, ops := Yield(reader, k, start, before);
      if closed {
        return Closed, used, ops;
      }
      Mine(start, ops, View(), F.CheckOpen);
      SetPc(F.Preferring);
      used, ops := Yield(reader, used, start, ops + [F.CheckOpen]);
      Mine(start, ops, View(), F.Prefer);
      if errors != [] {
        var i := ReturnError();
        return Item(i), used, ops + [F.Prefer];
      }
      SetPc(F.Selecting);
      return Nothing, used, ops + [F.Prefer];
    }

    /** Nothing to take yet: the receiver waits while the reader works. */
    method Await(reader: seq<seq<F.Op>>, k: nat, ghost start: F.Link, ghost before: seq<F.Op>)
      returns (used: nat, ghost ops: seq<F.Op>)
      requires pc == F.Selecting && k <= |reader| && AllReaders(reader)
      requires View() == F.Run(start, before) && ReaderPart(before) == Flatten(reader[..k])
      modifies this
      ensures View() == F.Run(start, ops) && pc == F.Selecting && returned == old(returned)
      ensures k <= used <= |reader| && ReaderPart(ops) == Flatten(reader[..used])
      ensures used == k ==> View() == old(View())
      ensures errors != [] || queue != [] || closed || used == |reader|
    {
      hide F.Run, ReaderPart, Flatten, AllReaders;
      used, ops := k, before;
      while errors == [] && queue == [] && !closed && used < |reader|
        invariant View() == F.Run(start, ops) && pc == F.Selecting && returned == old(returned)
        invariant k <= used <= |reader| && ReaderPart(ops) == Flatten(reader[..used])
        invariant used == k ==> View() == old(View())
        decreases |reader| - used
      {
        used, ops := Yield(reader, used, start, ops);
      }
    }

    /** The select: the caller gives up, or the connection ends, or a report or a message is taken. */
    method Select(reader: seq<seq<F.Op>>, gaveUp: bool, k: nat, ghost start: F.Link, ghost before: seq<F.Op>)
      returns (r: Received, again: bool, used: nat, ghost ops: seq<F.Op>)
      requires pc == F.Selecting && k <= |reader| && AllReaders(reader)
      requires View() == F.Run(start, before) && ReaderPart(before) == Flatten(reader[..k])
      modifies this
      ensures View() == F.Run(start, ops) && pc == F.Top
      ensures k <= used <= |reader| && ReaderPart(ops) == Flatten(reader[..used])
      ensures again && used == k ==> |queue| < |old(queue)|
      ensures returned == if r.Item? then old(returned) + [r.item] else old(returned)
      ensures (again ==> r == Nothing) && (r == Closed ==> closed)
      ensures r == Nothing && !again ==> gaveUp || Idle(used == |reader|)
    {
      hide F.Run, ReaderPart, Flatten, AllReaders;
      used, ops := Yield(reader, k, start, before);
      if !gaveUp {
        used, ops := Await(reader, used, start, ops);
      }
      if
      case gaveUp || closed || (errors == [] && queue == []) =>
        Mine(start, ops, View(), F.GiveUp);
        SetPc(F.Top);
        return if closed then Closed else Nothing, false, used, ops + [F.GiveUp];
      case errors != [] =>
        Mine(start, ops, View(), F.SelectError);
        var i := ReturnError();
        return Item(i), false, used, ops + [F.SelectError];
      case queue != [] =>
        r, used, ops := TakeMessage(reader, used, start, ops);
        again := !r.Item?;
    }

    /** Nothing was there to be taken, and the reader has nothing more to do. */
    ghost predicate Idle(over: bool)
      reads this
    {
      errors == [] && queue == [] && !closed && over
    }

    /**
     * Receive while the reader works on: `reader` says what it does before each
     * step of the receiver.  The whole is a run of the model; of what the select
     * could choose from, it may choose any.  Only a caller that gave up, or for
     * whom nothing came, gets nothing.
     */
    method Receive(reader: seq<seq<F.Op>>, gaveUp: bool) returns (r: Received, used: nat, ghost ops: seq<F.Op>)
      requires pc == F.Top && AllReaders(reader)
      modifies this
      ensures View() == F.Run(old(View()), ops) && pc == F.Top
      ensures used <= |reader| && ReaderPart(ops) == Flatten(reader[..used])
      ensures returned == if r.Item? then old(returned) + [r.item] else old(returned)
      ensures r == Closed ==> closed
      ensures r == Nothing ==> gaveUp || Idle(used == |reader|)
    {
      r, ops, used := Nothing, [], 0;
      ghost var start := View();
      assert reader[..0] == [];
      var again := true;
      while again
        invariant pc == F.Top && View() == F.Run(start, ops)
        invariant used <= |reader| && ReaderPart(ops) == Flatten(reader[..used])
        invariant again ==> returned == old(returned)
        invariant !again ==> returned == if r.Item? then old(returned) + [r.item] else old(returned)
        invariant !again && r == Closed ==> closed
        invariant !again && r == Nothing ==> gaveUp || Idle(used == |reader|)
        decreases again, |reader| - used, |queue|
      {
        hide F.Run, ReaderPart, Flatten, AllReaders, View;
        r, used, ops := LookAtErrors(reader, used, start, ops);
        again := r == Nothing;
        if again {
          r, again, used, ops := Select(reader, gaveUp, used, start, ops);
        }
      }
    }
  }
}
