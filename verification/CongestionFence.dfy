/**
 * The server's bounded receive queue.  A turn that overflows it is cut off and
 * reported once; the next turn.start of another turn is the fence behind which
 * it is forgotten.  Reader and receiver interleave at every lock and channel.
 */
module CongestionFence {
  import opened WireTypes

  const RECEIVE_QUEUE: nat := 32

  datatype Turn = Turn(session: nat, turn: nat, epoch: nat)

  /** A control or PCM message; `serial` is its place on the socket, which nobody looks at. */
  datatype Message = Message(control: bool, start: bool, session: nat, turn: nat, stream: nat, epoch: nat, serial: nat)

  function Identity(m: Message): Option<Turn> {
    if m.session == 0 || m.turn == 0 || m.epoch == 0 then None
    else Some(Turn(m.session, m.turn, m.epoch))
  }

  predicate IsTurnStart(m: Message) { m.control && m.start }

  /** What Receive returned: a message, or the report of a congested turn. */
  datatype Item = Got(message: Message) | Congestion(of: Turn, stream: nat)

  /** Where the receiver stands between its atomic steps. */
  datatype Pc = Top | Preferring | Selecting | Holding(message: Message)

  /**
   * `saturated` and `waiting` are the reader's: the turn it is dropping, and
   * the turn.start it cannot place yet.  `read`, `returned` and `reported` log
   * what came from the socket, what Receive returned, and the turns reported.
   */
  datatype Link = Link(
    queue: seq<Message>, errors: seq<Item>, congested: Option<Turn>, closed: bool,
    saturated: Option<Turn>, waiting: Option<Message>, failed: bool,
    pc: Pc, read: seq<Message>, returned: seq<Item>, reported: seq<Turn>)

  const OPEN := Link([], [], None, false, None, None, false, Top, [], [], [])

  // ---------------------------------------------------------------------
  // The reader
  // ---------------------------------------------------------------------

  /** signalTurnCongestion; false when another turn is congested or its report is still unread. */
  function Signal(l: Link, x: Turn, stream: nat): (r: (Link, bool)) {
    if l.congested.Some? then (l, l.congested.value == x)
    else if l.errors != [] then (l, false)
    else (l.(errors := [Congestion(x, stream)], congested := Some(x), reported := l.reported + [x]), true)
  }

  /** The queue is full: the message's turn is cut off, or the connection is. */
  function Overflow(l: Link, m: Message): Link {
    if Identity(m).None? then l.(closed := true, failed := true)
    else
      var (l1, ok) := Signal(l, Identity(m).value, m.stream);
      if ok then l1.(saturated := Identity(m)) else l1.(closed := true, failed := true)
  }

  /** One message comes off the socket. */
  function ReadOne(l: Link, wire: Message): Link {
    if l.failed || l.waiting.Some? then l
    else
      var m := wire.(serial := |l.read|);
      var l1 := l.(read := l.read + [m]);
      if l.saturated.Some? && Identity(m) == l.saturated then l1
      else if l.saturated.Some? && Identity(m).Some? && IsTurnStart(m) then l1.(waiting := Some(m))
      else if |l.queue| < RECEIVE_QUEUE then l1.(queue := l1.queue + [m])
      else Overflow(l1, m)
  }

  /** The turn.start that lifts the reader's own block gets its slot. */
  function Unblock(l: Link): Link {
    if l.waiting.Some? && |l.queue| < RECEIVE_QUEUE
    then l.(queue := l.queue + [l.waiting.value], waiting := None, saturated := None) else l
  }

  // ---------------------------------------------------------------------
  // The receiver
  // ---------------------------------------------------------------------

  predicate Discards(l: Link, m: Message) {
    l.congested.Some? && Identity(m) == l.congested
  }

  /** A turn.start of another turn than the congested one. */
  predicate Lifts(l: Link, m: Message) {
    l.congested.Some? && Identity(m).Some? && Identity(m) != l.congested && IsTurnStart(m)
  }

  /** discardCongested, and what Receive does with its answer. */
  function Settle(l: Link): Link {
    if !l.pc.Holding? then l
    else
      var m := l.pc.message;
      if Discards(l, m) then l.(pc := Top)
      else l.(pc := Top, returned := l.returned + [Got(m)], congested := if Lifts(l, m) then None else l.congested)
  }

  function ReturnError(l: Link): Link
    requires l.errors != []
  {
    l.(pc := Top, returned := l.returned + [l.errors[0]], errors := l.errors[1..])
  }

  datatype Op =
    | Read(message: Message)
    | UnblockReader
    | CloseLink
    | CheckOpen
    | Prefer
    | SelectError
    | SelectMessage
    | GiveUp
    | SettleHeld

  function Step(l: Link, op: Op): Link {
    match op
    case Read(m) => ReadOne(l, m)
    case UnblockReader => Unblock(l)
    case CloseLink => l.(closed := true)
    case CheckOpen => if l.pc == Top && !l.closed then l.(pc := Preferring) else l
    case Prefer =>
      if l.pc != Preferring then l
      else if l.errors != [] then ReturnError(l)
      else l.(pc := Selecting)
    case SelectError => if l.pc == Selecting && l.errors != [] then ReturnError(l) else l
    case SelectMessage =>
      if l.pc == Selecting && l.queue != [] then l.(pc := Holding(l.queue[0]), queue := l.queue[1..]) else l
    case GiveUp => if l.pc == Selecting then l.(pc := Top) else l
    case SettleHeld => Settle(l)
  }

  function Run(l: Link, ops: seq<Op>): Link
    decreases |ops|
  {
    if ops == [] then l else Run(Step(l, ops[0]), ops[1..])
  }

  // ---------------------------------------------------------------------
  // Nothing is lost, reordered or invented
  // ---------------------------------------------------------------------

  function Messages(items: seq<Item>): (ms: seq<Message>)
    ensures |ms| <= |items|
  {
    if items == [] then []
    else
      var last := items[|items| - 1];
      Messages(items[..|items| - 1]) + if last.Got? then [last.message] else []
  }

  lemma MessagesAppend(items: seq<Item>, i: Item)
    ensures Messages(items + [i]) == Messages(items) + if i.Got? then [i.message] else []
  {
    assert (items + [i])[..|items|] == items;
  }

  /** On their way through the receiver, oldest first: returned, in hand, queued, waiting for room. */
  function Flow(l: Link): seq<Message> {
    Messages(l.returned) + (if l.pc.Holding? then [l.pc.message] else []) + l.queue
    + (if l.waiting.Some? then [l.waiting.value] else [])
  }

  ghost predicate SocketOrder(ms: seq<Message>) {
    forall i, j :: 0 <= i < j < |ms| ==> ms[i].serial < ms[j].serial
  }

  ghost predicate Cut(l: Link, m: Message) {
    Identity(m).Some? && Identity(m).value in l.reported
  }

  /** Each message read is in the flow or belongs to a turn reported as congested; the flow is in socket order. */
  ghost predicate Accounted(l: Link) {
    && (forall k :: 0 <= k < |l.read| ==> l.read[k].serial == k)
    && (forall m :: m in Flow(l) ==> m in l.read)
    && SocketOrder(Flow(l))
    && (!l.failed ==> forall k :: 0 <= k < |l.read| ==> l.read[k] in Flow(l) || Cut(l, l.read[k]))
  }

  /** Reports belong to turns that were signalled; the reader drops only those. */
  ghost predicate Reports(l: Link) {
    && |l.queue| <= RECEIVE_QUEUE && |l.errors| <= 1
    && (l.saturated.Some? ==> l.saturated.value in l.reported)
    && (l.congested.Some? ==> l.congested.value in l.reported)
    && (l.waiting.Some? ==> l.saturated.Some?)
    && (forall i :: 0 <= i < |l.errors| ==> l.errors[i].Congestion? && l.errors[i].of in l.reported)
  }

  ghost predicate Inv(l: Link) { Accounted(l) && Reports(l) }

  /** The same flow, or one message more at its end. */
  lemma Grow(l: Link, k: Link, m: Message)
    requires Accounted(l) && !l.failed && m.serial == |l.read|
    requires k.read == l.read + [m] && l.reported <= k.reported
    requires Flow(k) == Flow(l) + [m] || (Flow(k) == Flow(l) && (Cut(k, m) || k.failed))
    ensures Accounted(k)
  {
    forall x | x in Flow(k) ensures x in k.read {
      if x in Flow(l) { assert x in l.read; } else { assert k.read[|l.read|] == x; }
    }
    forall i, j | 0 <= i < j < |Flow(k)| ensures Flow(k)[i].serial < Flow(k)[j].serial {
      if j == |Flow(l)| {
        assert Flow(l)[i] in l.read;
      }
    }
    if !k.failed {
      forall n | 0 <= n < |k.read| ensures k.read[n] in Flow(k) || Cut(k, k.read[n]) {
        if n < |l.read| {
          assert l.read[n] in Flow(l) || Cut(l, l.read[n]);
        } else if Flow(k) == Flow(l) + [m] {
          assert Flow(k)[|Flow(l)|] == m;
        }
      }
    }
  }

  /** What reading changes: the message is queued, or waits, or belongs to a reported turn. */
  lemma ReadEffect(l: Link, wire: Message)
    requires !l.failed && l.waiting.None? && Reports(l)
    ensures var m, k := wire.(serial := |l.read|), ReadOne(l, wire);
            && k.read == l.read + [m] && l.reported <= k.reported
            && k.returned == l.returned && k.pc == l.pc
            && (|| (k.queue == l.queue + [m] && k.waiting.None?)
                || (k.queue == l.queue && k.waiting == Some(m))
                || (k.queue == l.queue && k.waiting.None? && (Cut(k, m) || k.failed)))
  {
    var m := wire.(serial := |l.read|);
    var l1 := l.(read := l.read + [m]);
    if l.saturated.Some? && Identity(m) == l.saturated {
      assert ReadOne(l, wire) == l1;
    } else if l.saturated.Some? && Identity(m).Some? && IsTurnStart(m) {
      assert ReadOne(l, wire) == l1.(waiting := Some(m));
    } else if |l.queue| < RECEIVE_QUEUE {
      assert ReadOne(l, wire) == l1.(queue := l1.queue + [m]);
    } else {
      assert ReadOne(l, wire) == Overflow(l1, m);
      hide ReadOne;
      OverflowCuts(l1, m);
    }
  }

  /** A message that finds the queue full belongs to a reported turn, or the connection ends. */
  lemma OverflowCuts(l: Link, m: Message)
    requires l.congested.Some? ==> l.congested.value in l.reported
    ensures var k := Overflow(l, m);
            && k.read == l.read && l.reported <= k.reported && k.returned == l.returned && k.pc == l.pc
            && k.queue == l.queue && k.waiting == l.waiting && (Cut(k, m) || k.failed)
  {
  }

  lemma ReadReports(l: Link, wire: Message)
    requires Reports(l)
    ensures Reports(ReadOne(l, wire))
  {
  }

  /** The reader leaves the flow alone or puts the message at its end. */
  lemma ReadFlow(l: Link, wire: Message)
    requires !l.failed && l.waiting.None? && Reports(l)
    ensures var m, k := wire.(serial := |l.read|), ReadOne(l, wire);
            Flow(k) == Flow(l) + [m] || (Flow(k) == Flow(l) && (Cut(k, m) || k.failed))
  {
    ReadEffect(l, wire);
    hide Messages, ReadOne, Reports, Cut;
    var m, k := wire.(serial := |l.read|), ReadOne(l, wire);
    var front := Messages(l.returned) + (if l.pc.Holding? then [l.pc.message] else []);
    assert (front + l.queue) + [m] == front + (l.queue + [m]);
  }

  lemma ReadKeeps(l: Link, wire: Message)
    requires Inv(l)
    ensures Inv(ReadOne(l, wire))
  {
    if !l.failed && l.waiting.None? {
      ReadEffect(l, wire);
      ReadFlow(l, wire);
      ReadReports(l, wire);
      hide Accounted, Flow, ReadOne, Reports;
      Grow(l, ReadOne(l, wire), wire.(serial := |l.read|));
    }
  }

  /** A sequence with one element left out. */
  lemma LeftOut(f: seq<Message>, g: seq<Message>, at: nat)
    requires at < |f| && g == f[..at] + f[at + 1..]
    ensures SocketOrder(f) ==> SocketOrder(g)
    ensures forall m :: m in g ==> m in f
    ensures forall m :: m in f && m != f[at] ==> m in g
  {
    forall i | 0 <= i < |g| ensures g[i] == f[if i < at then i else i + 1] {
    }
    forall m | m in f && m != f[at] ensures m in g {
      var i :| 0 <= i < |f| && f[i] == m;
      assert g[if i < at then i else i - 1] == m;
    }
  }

  /** One message of a reported turn leaves the flow. */
  lemma Shrink(l: Link, k: Link, at: nat)
    requires Accounted(l) && at < |Flow(l)| && Cut(l, Flow(l)[at])
    requires k.read == l.read && k.reported == l.reported && k.failed == l.failed
    requires Flow(k) == Flow(l)[..at] + Flow(l)[at + 1..]
    ensures Accounted(k)
  {
    LeftOut(Flow(l), Flow(k), at);
    hide Flow, SocketOrder;
    forall n | 0 <= n < |k.read| && !k.failed ensures k.read[n] in Flow(k) || Cut(k, k.read[n]) {
      assert l.read[n] in Flow(l) || Cut(l, l.read[n]);
    }
  }

  lemma SameFlow(l: Link, k: Link)
    requires Accounted(l) && Flow(k) == Flow(l)
    requires k.read == l.read && k.reported == l.reported && k.failed == l.failed
    ensures Accounted(k)
  {
    hide Flow;
  }

  lemma HeldFlow(l: Link)
    requires l.pc.Holding?
    ensures var at := |Messages(l.returned)|;
            && at < |Flow(l)| && Flow(l)[at] == l.pc.message && Flow(l)[..at] == Messages(l.returned)
            && Flow(l)[at + 1..] == l.queue + (if l.waiting.Some? then [l.waiting.value] else [])
  {
    hide Messages;
  }

  lemma FreeFlow(l: Link)
    requires !l.pc.Holding?
    ensures Flow(l) == Messages(l.returned) + (l.queue + (if l.waiting.Some? then [l.waiting.value] else []))
  {
    hide Messages;
  }

  /** A message of the congested turn leaves the flow where it was in hand. */
  lemma DiscardFlow(l: Link)
    requires l.pc.Holding? && Discards(l, l.pc.message)
    ensures var at := |Messages(l.returned)|;
            && at < |Flow(l)| && Flow(l)[at] == l.pc.message
            && Flow(Settle(l)) == Flow(l)[..at] + Flow(l)[at + 1..]
  {
    var k := Settle(l);
    HeldFlow(l);
    FreeFlow(k);
    assert k.queue == l.queue && k.waiting == l.waiting && k.returned == l.returned;
    hide Messages, Flow, Discards, Settle, Lifts;
  }

  /** Any other is returned, and stays in the flow. */
  lemma ReturnFlow(l: Link)
    requires l.pc.Holding? && !Discards(l, l.pc.message)
    ensures Flow(Settle(l)) == Flow(l)
  {
    var m, k := l.pc.message, Settle(l);
    HeldFlow(l);
    FreeFlow(k);
    MessagesAppend(l.returned, Got(m));
    assert k.queue == l.queue && k.waiting == l.waiting && Messages(k.returned) == Messages(l.returned) + [m];
    var at, rest := |Messages(l.returned)|, l.queue + (if l.waiting.Some? then [l.waiting.value] else []);
    hide Messages, Flow, Discards, Settle, Lifts;
    assert Flow(l) == (Flow(l)[..at] + [m]) + Flow(l)[at + 1..];
  }

  lemma SettleKeeps(l: Link)
    requires Inv(l)
    ensures Inv(Settle(l))
  {
    if l.pc.Holding? {
      var k := Settle(l);
      assert k.read == l.read && k.reported == l.reported && k.failed == l.failed && Reports(k);
      if Discards(l, l.pc.message) {
        DiscardFlow(l);
        assert Cut(l, l.pc.message);
        hide Accounted, Flow, Messages, Settle, Reports;
        Shrink(l, k, |Messages(l.returned)|);
      } else {
        ReturnFlow(l);
        hide Accounted, Flow, Messages, Settle, Reports;
        SameFlow(l, k);
      }
    }
  }

  lemma ErrorKeeps(l: Link)
    requires Inv(l) && l.errors != [] && !l.pc.Holding?
    ensures Inv(ReturnError(l))
  {
    MessagesAppend(l.returned, l.errors[0]);
    hide Accounted, Messages;
    SameFlow(l, ReturnError(l));
  }

  lemma SelectKeeps(l: Link)
    requires Inv(l)
    ensures Inv(Step(l, SelectMessage))
  {
    if l.pc == Selecting && l.queue != [] {
      var k, tail := Step(l, SelectMessage), if l.waiting.Some? then [l.waiting.value] else [];
      FreeFlow(l);
      HeldFlow(k);
      var at := |Messages(l.returned)|;
      hide Accounted, Messages, Flow;
      assert l.queue + tail == [l.queue[0]] + (l.queue[1..] + tail);
      assert Flow(k) == (Flow(k)[..at] + [k.pc.message]) + Flow(k)[at + 1..];
      SameFlow(l, k);
    }
  }

  lemma UnblockKeeps(l: Link)
    requires Inv(l)
    ensures Inv(Unblock(l))
  {
    hide Accounted, Messages;
    var k := Unblock(l);
    if k != l {
      var front := Messages(l.returned) + (if l.pc.Holding? then [l.pc.message] else []);
      assert Flow(l) == front + l.queue + [l.waiting.value];
      assert Flow(k) == front + (l.queue + [l.waiting.value]);
      SameFlow(l, k);
    }
  }

  lemma StepKeeps(l: Link, op: Op)
    requires Inv(l)
    ensures Inv(Step(l, op))
  {
    hide Accounted, Messages, ReadOne, Settle, Unblock;
    match op {
      case Read(m) => ReadKeeps(l, m);
      case SettleHeld => SettleKeeps(l);
      case UnblockReader => UnblockKeeps(l);
      case CloseLink => SameFlow(l, Step(l, op));
      case CheckOpen => SameFlow(l, Step(l, op));
      case Prefer =>
        if l.pc == Preferring && l.errors != [] { ErrorKeeps(l); } else { SameFlow(l, Step(l, op)); }
      case SelectError =>
        if l.pc == Selecting && l.errors != [] { ErrorKeeps(l); }
      case SelectMessage => SelectKeeps(l);
      case GiveUp => SameFlow(l, Step(l, op));
    }
  }

  lemma {:induction false} RunKeeps(l: Link, ops: seq<Op>)
    requires Inv(l)
    ensures Inv(Run(l, ops))
    decreases |ops|
  {
    hide Inv, Step;
    if ops != [] {
      StepKeeps(l, ops[0]);
      RunKeeps(Step(l, ops[0]), ops[1..]);
    }
  }

  /**
   * While the connection is open, what Receive returned and what is still on
   * its way is in socket order, and whatever is missing belongs to a turn that
   * was reported as congested.
   */
  lemma EveryMessageAccountedFor(ops: seq<Op>)
    ensures var l := Run(OPEN, ops);
            && SocketOrder(Flow(l))
            && Messages(l.returned) <= Flow(l)
            && (!l.closed ==> forall k :: 0 <= k < |l.read| ==> l.read[k] in Flow(l) || Cut(l, l.read[k]))
  {
    RunKeeps(OPEN, ops);
    FailedClosed(OPEN, ops);
  }

  lemma {:induction false} FailedClosed(l: Link, ops: seq<Op>)
    requires l.failed ==> l.closed
    ensures Run(l, ops).failed ==> Run(l, ops).closed
    decreases |ops|
  {
    if ops != [] {
      FailedClosed(Step(l, ops[0]), ops[1..]);
    }
  }

  // ---------------------------------------------------------------------
  // The congested turn goes silent at once
  // ---------------------------------------------------------------------

  predicate OfTurn(m: Message, x: Turn) { Identity(m) == Some(x) }

  predicate OtherStart(i: Item, x: Turn) {
    i.Got? && Identity(i.message).Some? && !OfTurn(i.message, x) && IsTurnStart(i.message)
  }

  /** Until another turn starts, no message of `x` comes out. */
  ghost predicate Silent(items: seq<Item>, x: Turn) {
    forall i :: 0 <= i < |items| && items[i].Got? && OfTurn(items[i].message, x) ==>
      exists j :: 0 <= j < i && OtherStart(items[j], x)
  }

  /** No other turn starts before the report of `x`. */
  ghost predicate ReportedFirst(items: seq<Item>, x: Turn) {
    forall i :: 0 <= i < |items| && OtherStart(items[i], x) ==>
      exists j :: 0 <= j < i && items[j].Congestion? && items[j].of == x
  }

  /** The receiver is past its look at the errors, with another turn's start in hand or next in line. */
  predicate StartAtHand(l: Link, x: Turn) {
    || (l.pc.Holding? && OtherStart(Got(l.pc.message), x))
    || (l.pc == Selecting && l.queue != [] && OtherStart(Got(l.queue[0]), x))
  }

  /** The report is still to be returned; the receiver can take at most one more message, and not past the report. */
  ghost predicate Pending(l: Link, base: nat, x: Turn) {
    && base <= |l.returned| && l.congested == Some(x)
    && |l.errors| == 1 && l.errors[0].Congestion? && l.errors[0].of == x
    && (forall i :: base <= i < |l.returned| ==>
          l.returned[i].Got? && !OfTurn(l.returned[i].message, x) && !OtherStart(l.returned[i], x))
    && (l.pc == Selecting ==> l.queue != []) && !StartAtHand(l, x)
  }

  /** The report was returned; no other turn has started since. */
  ghost predicate Reported(l: Link, base: nat, x: Turn) {
    && base <= |l.returned| && l.congested == Some(x) && l.errors == []
    && (exists j :: base <= j < |l.returned| && l.returned[j].Congestion? && l.returned[j].of == x)
    && (forall i :: base <= i < |l.returned| && l.returned[i].Got? ==>
          !OfTurn(l.returned[i].message, x) && !OtherStart(l.returned[i], x))
  }

  /** Another turn started, after the report and before any message of `x`. */
  ghost predicate Lifted(l: Link, base: nat, x: Turn) {
    exists j, k :: base <= j < k < |l.returned| && l.returned[j].Congestion? && l.returned[j].of == x
      && OtherStart(l.returned[k], x)
      && forall i :: base <= i < k && l.returned[i].Got? ==>
           !OfTurn(l.returned[i].message, x) && !OtherStart(l.returned[i], x)
  }

  lemma PendingStep(l: Link, op: Op, base: nat, x: Turn)
    requires Pending(l, base, x)
    ensures Pending(Step(l, op), base, x) || Reported(Step(l, op), base, x)
  {
    var k := Step(l, op);
    if (op == Prefer && l.pc == Preferring) || (op == SelectError && l.pc == Selecting) {
      assert k.returned[|l.returned|] == l.errors[0];
    }
  }

  lemma LiftStep(l: Link, base: nat, x: Turn)
    requires Reported(l, base, x) && l.pc.Holding? && Lifts(l, l.pc.message)
    ensures Lifted(Settle(l), base, x)
  {
    var k, n := Settle(l), |l.returned|;
    var j :| base <= j < n && l.returned[j].Congestion? && l.returned[j].of == x;
    assert k.returned[j] == l.returned[j] && OtherStart(k.returned[n], x);
    assert forall i :: base <= i < n && k.returned[i].Got? ==>
      !OfTurn(k.returned[i].message, x) && !OtherStart(k.returned[i], x);
  }

  lemma ReportedStep(l: Link, op: Op, base: nat, x: Turn)
    requires Reported(l, base, x)
    ensures Reported(Step(l, op), base, x) || Lifted(Step(l, op), base, x)
  {
    hide Lifted;
    var k := Step(l, op);
    if op == SettleHeld && l.pc.Holding? && Lifts(l, l.pc.message) {
      LiftStep(l, base, x);
    } else {
      var j :| base <= j < |l.returned| && l.returned[j].Congestion? && l.returned[j].of == x;
      assert k.returned[j] == l.returned[j];
    }
  }

  lemma LiftedStep(l: Link, op: Op, base: nat, x: Turn)
    requires Lifted(l, base, x)
    ensures Lifted(Step(l, op), base, x)
  {
    var k := Step(l, op);
    assert l.returned <= k.returned;
  }

  ghost predicate Phase(l: Link, base: nat, x: Turn) {
    Pending(l, base, x) || Reported(l, base, x) || Lifted(l, base, x)
  }

  lemma {:induction false} RunPhase(l: Link, ops: seq<Op>, base: nat, x: Turn)
    requires Phase(l, base, x)
    ensures Phase(Run(l, ops), base, x)
    decreases |ops|
  {
    hide Step, Pending, Reported, Lifted;
    if ops != [] {
      if Lifted(l, base, x) {
        LiftedStep(l, ops[0], base, x);
      } else if Reported(l, base, x) {
        ReportedStep(l, ops[0], base, x);
      } else {
        PendingStep(l, ops[0], base, x);
      }
      RunPhase(Step(l, ops[0]), ops[1..], base, x);
    }
  }

  lemma PhaseMeans(l: Link, base: nat, x: Turn)
    requires Phase(l, base, x)
    ensures base <= |l.returned| && Silent(l.returned[base..], x) && ReportedFirst(l.returned[base..], x)
  {
    var items := l.returned[base..];
    if Lifted(l, base, x) {
      var j, k :| base <= j < k < |l.returned| && l.returned[j].Congestion? && l.returned[j].of == x
        && OtherStart(l.returned[k], x)
        && forall i :: base <= i < k && l.returned[i].Got? ==>
             !OfTurn(l.returned[i].message, x) && !OtherStart(l.returned[i], x);
      assert items[j - base] == l.returned[j] && items[k - base] == l.returned[k];
      forall i | 0 <= i < |items| && items[i].Got? && OfTurn(items[i].message, x)
        ensures exists n :: 0 <= n < i && OtherStart(items[n], x)
      {
        assert items[i] == l.returned[base + i] && k <= base + i;
      }
      forall i | 0 <= i < |items| && OtherStart(items[i], x)
        ensures exists n :: 0 <= n < i && items[n].Congestion? && items[n].of == x
      {
        assert items[i] == l.returned[base + i] && k <= base + i;
      }
    }
  }

  /** The next message of a named turn finds the queue full; no other turn is being cut off. */
  predicate Overflows(l: Link, m: Message) {
    && Identity(m).Some? && !l.failed && l.waiting.None? && |l.queue| == RECEIVE_QUEUE
    && (l.saturated.Some? ==> l.saturated != Identity(m) && !IsTurnStart(m))
    && l.congested.None? && l.errors == []
  }

  /** From the overflow on: the report of its turn, and only then a start of another; until then silence. */
  ghost predicate CutOff(l: Link, m: Message, ops: seq<Op>) {
    var later, x := Run(Step(l, Read(m)), ops), Identity(m);
    && x.Some? && l.returned <= later.returned
    && Silent(later.returned[|l.returned|..], x.value)
    && ReportedFirst(later.returned[|l.returned|..], x.value)
  }

  lemma OverflowCutsOff(l: Link, m: Message, ops: seq<Op>)
    requires Overflows(l, m) && !StartAtHand(l, Identity(m).value)
    ensures CutOff(l, m, ops)
  {
    hide Run;
    var base, k, x := |l.returned|, Step(l, Read(m)), Identity(m).value;
    assert Pending(k, base, x);
    RunPhase(k, ops, base, x);
    PhaseMeans(Run(k, ops), base, x);
    RunReturned(k, ops);
  }

  /** What is at hand comes out first. */
  lemma StartComesOut(l: Link, m: Message)
    requires Overflows(l, m) && StartAtHand(l, Identity(m).value)
    ensures !CutOff(l, m, [SelectMessage, SettleHeld])
  {
    var k, x := Step(l, Read(m)), Identity(m).value;
    var ops := [SelectMessage, SettleHeld];
    var later := Step(Step(k, SelectMessage), SettleHeld);
    assert |later.returned| == |l.returned| + 1 && OtherStart(later.returned[|l.returned|], x);
    hide Step;
    assert ops[1..][1..] == [] && Run(k, ops) == Run(Step(k, SelectMessage), ops[1..]) == Run(later, ops[1..][1..]);
    assert OtherStart(later.returned[|l.returned|..][0], x);
  }

  /**
   * A turn that overflows the queue is cut off in every continuation exactly
   * when the receiver does not have another turn's start at hand.
   */
  lemma CongestedTurnIsSilenced(l: Link, m: Message)
    requires Overflows(l, m)
    ensures (forall ops :: CutOff(l, m, ops)) <==> !StartAtHand(l, Identity(m).value)
  {
    if StartAtHand(l, Identity(m).value) {
      StartComesOut(l, m);
    } else {
      forall ops ensures CutOff(l, m, ops) {
        OverflowCutsOff(l, m, ops);
      }
    }
  }

  /**
   * The start at hand lifts the fence, comes out ahead of the report, and lets
   * the congested turn's queued messages through.
   */
  lemma StartInHandLiftsTheFence(l: Link, m: Message)
    requires Overflows(l, m) && !l.closed && OfTurn(l.queue[0], Identity(m).value)
             && l.pc.Holding? && OtherStart(Got(l.pc.message), Identity(m).value)
    ensures var x := Identity(m).value;
            var ops := [Read(m), SettleHeld, CheckOpen, Prefer, CheckOpen, Prefer, SelectMessage, SettleHeld];
            var later := Run(l, ops);
            && later.returned == l.returned + [Got(l.pc.message), Congestion(x, m.stream), Got(l.queue[0])]
            && !ReportedFirst(later.returned[|l.returned|..], x)
  {
    var x := Identity(m).value;
    var ops := [Read(m), SettleHeld, CheckOpen, Prefer, CheckOpen, Prefer, SelectMessage, SettleHeld];
    RunEight(l, ops);
    HeldStartFirst(l, m);
    var l4 := Step(Step(Step(Step(l, Read(m)), SettleHeld), CheckOpen), Prefer);
    QueuedMessageNext(l4);
    hide Step;
    var items := Run(l, ops).returned[|l.returned|..];
    assert OtherStart(items[0], x);
  }

  function Reads(m: Message, n: nat): seq<Op> {
    if n == 0 then [] else [Read(m)] + Reads(m, n - 1)
  }

  /** Messages of one turn fill the queue. */
  lemma {:induction false} ReadsFill(l: Link, m: Message, n: nat)
    requires |l.queue| + n <= RECEIVE_QUEUE && !l.failed && l.waiting.None? && l.saturated.None?
    ensures var k := Run(l, Reads(m, n));
            && k == l.(queue := k.queue, read := k.read) && |k.queue| == |l.queue| + n && l.queue <= k.queue
            && forall i :: |l.queue| <= i < |k.queue| ==> Identity(k.queue[i]) == Identity(m)
    decreases n
  {
    if n > 0 {
      var t := Step(l, Read(m));
      assert t == l.(queue := l.queue + [m.(serial := |l.read|)], read := l.read + [m.(serial := |l.read|)]);
      ReadsFill(t, m, n - 1);
      assert Reads(m, n)[1..] == Reads(m, n - 1);
    }
  }

  /** Such a start can be at hand: it is taken off the queue, then the other turn's messages fill it. */
  lemma StartAtHandHappens(y: Message, m: Message)
    requires Identity(m).Some? && OtherStart(Got(y), Identity(m).value)
    ensures var l := Run(OPEN, [Read(y), CheckOpen, Prefer, SelectMessage] + Reads(m, RECEIVE_QUEUE));
            && Overflows(l, m) && !l.closed && OfTurn(l.queue[0], Identity(m).value)
            && l.pc.Holding? && OtherStart(Got(l.pc.message), Identity(m).value)
  {
    var ops := [Read(y), CheckOpen, Prefer, SelectMessage];
    var held := Step(Step(Step(Step(OPEN, Read(y)), CheckOpen), Prefer), SelectMessage);
    assert held.pc == Holding(y.(serial := 0)) && held.queue == [] && held.returned == [];
    assert held == OPEN.(pc := held.pc, read := held.read);
    RunFour(OPEN, ops);
    ReadsFill(held, m, RECEIVE_QUEUE);
    RunJoin(OPEN, ops, Reads(m, RECEIVE_QUEUE));
  }

  lemma HeldStartFirst(l: Link, m: Message)
    requires Overflows(l, m) && !l.closed && l.pc.Holding? && OtherStart(Got(l.pc.message), Identity(m).value)
    ensures var k := Step(Step(Step(Step(l, Read(m)), SettleHeld), CheckOpen), Prefer);
            && k.returned == l.returned + [Got(l.pc.message), Congestion(Identity(m).value, m.stream)]
            && k.pc == Top && !k.closed && k.errors == [] && k.congested == None && k.queue == l.queue
  {
  }

  lemma QueuedMessageNext(l: Link)
    requires l.pc == Top && !l.closed && l.errors == [] && l.congested == None && l.queue != []
    ensures Step(Step(Step(Step(l, CheckOpen), Prefer), SelectMessage), SettleHeld).returned ==
            l.returned + [Got(l.queue[0])]
  {
  }

  lemma RunEight(l: Link, ops: seq<Op>)
    requires |ops| == 8
    ensures var m := Step(Step(Step(Step(l, ops[0]), ops[1]), ops[2]), ops[3]);
            Run(l, ops) == Step(Step(Step(Step(m, ops[4]), ops[5]), ops[6]), ops[7])
  {
    hide Step;
    RunFour(l, ops[..4]);
    RunFour(Run(l, ops[..4]), ops[4..]);
    RunJoin(l, ops[..4], ops[4..]);
    assert ops == ops[..4] + ops[4..];
  }

  lemma RunFour(l: Link, ops: seq<Op>)
    requires |ops| == 4
    ensures Run(l, ops) == Step(Step(Step(Step(l, ops[0]), ops[1]), ops[2]), ops[3])
  {
    hide Step;
    var l1 := Step(l, ops[0]);
    var l2 := Step(l1, ops[1]);
    var l3 := Step(l2, ops[2]);
    assert Run(l, ops) == Run(l1, ops[1..]);
    assert Run(l1, ops[1..]) == Run(l2, ops[1..][1..]) && ops[1..][1..] == ops[2..];
    assert Run(l2, ops[2..]) == Run(l3, ops[2..][1..]) && ops[2..][1..] == ops[3..];
    assert Run(l3, ops[3..]) == Run(Step(l3, ops[3]), ops[3..][1..]) && ops[3..][1..] == [];
  }

  lemma {:induction false} RunJoin(l: Link, p: seq<Op>, q: seq<Op>)
    ensures Run(l, p + q) == Run(Run(l, p), q)
    decreases |p|
  {
    hide Step;
    if p == [] {
      assert p + q == q;
    } else {
      assert (p + q)[1..] == p[1..] + q;
      RunJoin(Step(l, p[0]), p[1..], q);
    }
  }

  lemma {:induction false} RunReturned(l: Link, ops: seq<Op>)
    ensures l.returned <= Run(l, ops).returned
    decreases |ops|
  {
    if ops != [] {
      assert l.returned <= Step(l, ops[0]).returned;
      RunReturned(Step(l, ops[0]), ops[1..]);
    }
  }
}
