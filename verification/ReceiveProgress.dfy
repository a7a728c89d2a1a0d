/** The bounded receive queue keeps working: what ends the connection, and what gets through it. */
module ReceiveProgress {
  import opened WireTypes
  import opened CongestionFence

  // ---------------------------------------------------------------------
  // What the reader decides
  // ---------------------------------------------------------------------

  /** The reader takes messages off the socket. */
  predicate Reading(l: Link) { !l.failed && l.waiting.None? }

  /** The message is of the turn being dropped. */
  predicate Unwanted(l: Link, m: Message) { l.saturated.Some? && Identity(m) == l.saturated }

  /** The turn.start that ends the dropping of another turn. */
  predicate NextStart(l: Link, m: Message) {
    l.saturated.Some? && Identity(m).Some? && Identity(m) != l.saturated && IsTurnStart(m)
  }

  /** Its turn is the congested one, or can be reported as such now. */
  predicate Reportable(l: Link, m: Message) {
    Identity(m).Some? && (l.congested == Identity(m) || (l.congested.None? && l.errors == []))
  }

  /** The message finds the queue full. */
  predicate Crowded(l: Link, m: Message) {
    Reading(l) && !Unwanted(l, m) && !NextStart(l, m) && |l.queue| == RECEIVE_QUEUE
  }

  /** The one way a message ends the connection: there is no room, and no turn to put it down to. */
  predicate Fatal(l: Link, m: Message) { Crowded(l, m) && !Reportable(l, m) }

  /** A message joins the flow, is dropped with its turn, or ends the connection; only a full queue cuts a turn off. */
  lemma ReaderDecides(l: Link, m: Message)
    requires Inv(l) && Reading(l)
    ensures var k, numbered := Step(l, Read(m)), m.(serial := |l.read|);
            && (k.failed <==> Fatal(l, m)) && k.closed == (l.closed || Fatal(l, m))
            && Flow(k) == (if Unwanted(l, m) || Crowded(l, m) then Flow(l) else Flow(l) + [numbered])
            && (NextStart(l, m) ==> k.waiting == Some(numbered) && k.saturated == l.saturated)
            && k.reported == (if Crowded(l, m) && Reportable(l, m) && l.congested.None?
                              then l.reported + [Identity(m).value] else l.reported)
  {
    ReadFlow(l, m);
    ReadEffect(l, m);
    var k, numbered := Step(l, Read(m)), m.(serial := |l.read|);
    Outcome(l, m);
    hide ReadOne, Overflow, Signal, Inv, Messages, Flow, Cut;
    FlowEnds(l, k);
  }

  lemma Outcome(l: Link, m: Message)
    requires Reading(l) && |l.queue| <= RECEIVE_QUEUE
    ensures var k, numbered := Step(l, Read(m)), m.(serial := |l.read|);
            && (k.failed <==> Fatal(l, m)) && k.closed == (l.closed || Fatal(l, m))
            && (k.queue == if Unwanted(l, m) || Crowded(l, m) || NextStart(l, m) then l.queue else l.queue + [numbered])
            && (k.waiting == if NextStart(l, m) then Some(numbered) else None)
            && (NextStart(l, m) ==> k.saturated == l.saturated)
            && k.reported == (if Crowded(l, m) && Reportable(l, m) && l.congested.None?
                              then l.reported + [Identity(m).value] else l.reported)
  {
  }

  /** The flow ends in the queue and the message that waits. */
  lemma FlowEnds(l: Link, k: Link)
    requires k.returned == l.returned && k.pc == l.pc && l.waiting.None?
    ensures k.queue == l.queue && k.waiting.None? ==> Flow(k) == Flow(l)
    ensures forall m :: (k.queue == l.queue + [m] && k.waiting.None?) || (k.queue == l.queue && k.waiting == Some(m))
              ==> Flow(k) == Flow(l) + [m]
  {
    hide Messages;
    var front := Messages(l.returned) + (if l.pc.Holding? then [l.pc.message] else []);
    assert Flow(l) == front + l.queue;
    forall m | (k.queue == l.queue + [m] && k.waiting.None?) || (k.queue == l.queue && k.waiting == Some(m))
      ensures Flow(k) == Flow(l) + [m]
    {
      assert front + (l.queue + [m]) == (front + l.queue) + [m];
    }
  }

  /** One of the operations ended the connection. */
  predicate Died(l: Link, ops: seq<Op>)
    decreases |ops|
  {
    ops != [] && (|| ops[0].CloseLink?
                  || (ops[0].Read? && Fatal(l, ops[0].message))
                  || Died(Step(l, ops[0]), ops[1..]))
  }

  lemma {:induction false} ClosedIff(l: Link, ops: seq<Op>)
    requires Inv(l)
    ensures Run(l, ops).closed <==> l.closed || Died(l, ops)
    decreases |ops|
  {
    if ops != [] {
      StepKeeps(l, ops[0]);
      StepCloses(l, ops[0]);
      hide Inv, Step, Fatal;
      ClosedIff(Step(l, ops[0]), ops[1..]);
    }
  }

  lemma StepCloses(l: Link, op: Op)
    requires Inv(l)
    ensures Step(l, op).closed <==> l.closed || op.CloseLink? || (op.Read? && Fatal(l, op.message))
  {
    if op.Read? && Reading(l) {
      Outcome(l, op.message);
    }
    hide Overflow, Accounted, Flow;
  }

  /** The connection is closed only from outside, or by a message that finds no room and no turn to put it down to. */
  lemma ReaderClosesOnlyWhenStuck(ops: seq<Op>)
    ensures Run(OPEN, ops).closed <==> Died(OPEN, ops)
  {
    assert Inv(OPEN);
    ClosedIff(OPEN, ops);
  }

  /**
   * While a turn is being dropped the next turn's start never closes the link:
   * it goes to the end of the flow, and once there is room the reader queues it
   * and drops no more.
   */
  lemma NextStartGetsThrough(before: seq<Op>, m: Message, after: seq<Op>)
    requires var l := Run(OPEN, before); Reading(l) && NextStart(l, m)
    requires forall i :: 0 <= i < |after| ==> !after[i].UnblockReader?
    ensures var l, numbered := Run(OPEN, before), m.(serial := |Run(OPEN, before).read|);
            var k := Step(l, Read(m));
            var later := Run(k, after);
            && k.closed == l.closed && !k.failed && Flow(k) == Flow(l) + [numbered]
            && later.waiting == Some(numbered) && !later.failed
            && (|later.queue| < RECEIVE_QUEUE ==>
                  Step(later, UnblockReader) ==
                  later.(queue := later.queue + [numbered], waiting := None, saturated := None))
  {
    RunKeeps(OPEN, before);
    var l := Run(OPEN, before);
    ReaderDecides(l, m);
    hide Run, Inv, Flow;
    StillWaiting(Step(l, Read(m)), after);
  }

  lemma {:induction false} StillWaiting(l: Link, ops: seq<Op>)
    requires l.waiting.Some? && !l.failed && forall i :: 0 <= i < |ops| ==> !ops[i].UnblockReader?
    ensures Run(l, ops).waiting == l.waiting && !Run(l, ops).failed
    decreases |ops|
  {
    if ops != [] {
      assert Step(l, ops[0]).waiting == l.waiting && !Step(l, ops[0]).failed by { hide Overflow; }
      hide Step;
      assert forall i :: 0 <= i < |ops[1..]| ==> ops[1..][i] == ops[i + 1];
      StillWaiting(Step(l, ops[0]), ops[1..]);
    }
  }

  // ---------------------------------------------------------------------
  // Everything comes out
  // ---------------------------------------------------------------------

  /** One passage of the receiver, and the reader placing what waits. */
  const ROUND: seq<Op> := [SettleHeld, GiveUp, CheckOpen, Prefer, SelectMessage, SettleHeld, UnblockReader]

  function Rounds(n: nat): seq<Op> {
    if n == 0 then [] else ROUND + Rounds(n - 1)
  }

  function Front(l: Link): Link {
    Step(Step(Step(Step(l, SettleHeld), GiveUp), CheckOpen), Prefer)
  }

  function Round(l: Link): Link {
    Unblock(Settle(Step(Front(l), SelectMessage)))
  }

  lemma RunRound(l: Link)
    ensures Run(l, ROUND) == Round(l)
  {
    var front, back := [SettleHeld, GiveUp, CheckOpen, Prefer], [SelectMessage, SettleHeld, UnblockReader];
    assert ROUND == front + back;
    RunJoin(l, front, back);
    RunFour(l, front);
    var k := Front(l);
    var k1 := Step(k, SelectMessage);
    var k2 := Step(k1, SettleHeld);
    assert Step(k2, UnblockReader) == Round(l);
    hide Step, Round, Front;
    assert Run(k, back) == Run(k1, back[1..]) && back[1..][1..] == [UnblockReader];
    assert Run(k1, back[1..]) == Run(k2, back[1..][1..]) && [UnblockReader][1..] == [];
    assert Run(k2, [UnblockReader]) == Run(Step(k2, UnblockReader), [UnblockReader][1..]);
  }

  /** What is still to come out. */
  function Load(l: Link): nat {
    |l.errors| + |l.queue| + (if l.waiting.Some? then 2 else 0) + (if l.pc.Holding? then 1 else 0)
  }

  predicate Working(l: Link) { !l.closed && !l.failed && |l.queue| <= RECEIVE_QUEUE }

  /** Nothing but the way out moves. */
  predicate Onwards(l: Link, k: Link) {
    Working(k) && k.read == l.read && k.reported == l.reported
  }

  lemma FrontWorks(l: Link)
    requires Working(l)
    ensures var k := Front(l);
            && Onwards(l, k) && Load(k) <= Load(l)
            && ((k.pc == Selecting && k.errors == []) || (k.pc == Top && Load(k) < Load(l)))
  {
  }

  lemma BackWorks(l: Link)
    requires Working(l) && ((l.pc == Selecting && l.errors == []) || l.pc == Top)
    ensures var k := Unblock(Settle(Step(l, SelectMessage)));
            && Onwards(l, k) && !k.pc.Holding? && Load(k) <= Load(l)
            && (l.pc == Selecting && Load(l) > 0 ==> Load(k) < Load(l))
  {
  }

  lemma RoundWorks(l: Link)
    requires Working(l)
    ensures var k := Round(l); Onwards(l, k) && (if Load(l) > 0 then Load(k) < Load(l) else Load(k) == 0)
  {
    FrontWorks(l);
    hide Front, Unblock, Settle, Step;
    BackWorks(Front(l));
  }

  lemma {:induction false} RoundsWork(l: Link, n: nat)
    requires Working(l) && Load(l) <= n
    ensures Onwards(l, Run(l, Rounds(n))) && Load(Run(l, Rounds(n))) == 0
    decreases n
  {
    hide Round, Step;
    if n > 0 {
      RunJoin(l, ROUND, Rounds(n - 1));
      RunRound(l);
      RoundWorks(l);
      RoundsWork(Round(l), n - 1);
    }
  }

  lemma Emptied(l: Link)
    requires Accounted(l) && !l.failed && Load(l) == 0
    ensures forall i :: 0 <= i < |l.read| ==> l.read[i] in Messages(l.returned) || Cut(l, l.read[i])
  {
    hide Messages, Cut;
    assert Flow(l) == Messages(l.returned);
  }

  /**
   * From every state of an open connection: once the receiver has had its
   * passages, everything read from the socket has been returned, but for the
   * messages of turns that were reported as congested, and every report is out.
   */
  lemma EveryMessageComesOut(ops: seq<Op>, n: nat)
    requires !Run(OPEN, ops).closed && n >= RECEIVE_QUEUE + 4
    ensures var l := Run(OPEN, ops);
            var k := Run(l, Rounds(n));
            && !k.closed && k.read == l.read && k.reported == l.reported && k.errors == []
            && forall i :: 0 <= i < |l.read| ==> l.read[i] in Messages(k.returned) || Cut(l, l.read[i])
  {
    var l := Run(OPEN, ops);
    RunKeeps(OPEN, ops);
    FailedClosed(OPEN, ops);
    RunKeeps(l, Rounds(n));
    assert |l.errors| <= 1 && Working(l);
    RoundsWork(l, n);
    hide Run, Accounted, Flow, Messages, Rounds;
    Emptied(Run(l, Rounds(n)));
  }
}
