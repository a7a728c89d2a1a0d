/** The turn actor keeps taking turns: what it accepts, and that an answer gets through to its end. */
module SessionProgress {
  import opened WireTypes
  import opened SessionActor
  import V = SessionDelivery

  const YES := Provider(true, true, true)

  // ---------------------------------------------------------------------
  // Which turns are accepted
  // ---------------------------------------------------------------------

  /** The epochs of the starts that were accepted, in order. */
  function Starts(s: Session, ops: seq<Op>): seq<nat>
    decreases |ops|
  {
    if ops == [] then []
    else
      (if ops[0].Command? && ops[0].op == StartTurn && Step(s, ops[0]) != s then [ops[0].epoch] else [])
      + Starts(Step(s, ops[0]), ops[1..])
  }

  /** `latest` is the newest of them. */
  ghost predicate Newest(s: Session, starts: seq<nat>) {
    && (forall i :: 0 <= i < |starts| ==> starts[i] <= s.latest)
    && (if starts == [] then s.latest == 0 else starts[|starts| - 1] == s.latest)
  }

  lemma StepNewest(s: Session, op: Op, starts: seq<nat>)
    requires Newest(s, starts)
    ensures Newest(Step(s, op),
                   starts + if op.Command? && op.op == StartTurn && Step(s, op) != s then [op.epoch] else [])
  {
    assert starts + [] == starts;
    hide Retire, Accept;
  }

  lemma {:induction false} RunNewest(s: Session, ops: seq<Op>, starts: seq<nat>)
    requires Newest(s, starts)
    ensures Newest(Run(s, ops), starts + Starts(s, ops))
    decreases |ops|
  {
    if ops == [] {
      assert starts + [] == starts;
    } else {
      var now := if ops[0].Command? && ops[0].op == StartTurn && Step(s, ops[0]) != s then [ops[0].epoch] else [];
      StepNewest(s, ops[0], starts);
      var rest := Starts(Step(s, ops[0]), ops[1..]);
      hide Newest, Step;
      RunNewest(Step(s, ops[0]), ops[1..], starts + now);
      assert (starts + now) + rest == starts + (now + rest);
    }
  }

  /** An idle session takes exactly the epochs above every turn it ever took; in a turn it takes none. */
  lemma NewEpochsAreTaken(ops: seq<Op>, epoch: nat)
    requires epoch != 0
    ensures var s, starts := Run(NEW_SESSION, ops), Starts(NEW_SESSION, ops);
            var (t, r) := ApplyStart(s, epoch);
            && (r == Accepted <==> s.phase == Idle && forall i :: 0 <= i < |starts| ==> starts[i] < epoch)
            && (r == Accepted ==> t.phase == Listening && t.epoch == epoch && t.frames == 0 && t.out == s.out)
            && (r != Accepted ==> t == s)
  {
    RunNewest(NEW_SESSION, ops, []);
    assert [] + Starts(NEW_SESSION, ops) == Starts(NEW_SESSION, ops);
    hide Run, Starts;
  }

  /**
   * A cancel is taken exactly for the turns the session ever took: it ends the
   * active one in every phase, changes nothing for an earlier one, and is refused
   * for one that never started.
   */
  lemma CancelIsTaken(ops: seq<Op>)
    ensures var s := Run(NEW_SESSION, ops);
            && (!s.stopped ==> forall e: nat :: ApplyCancel(s, e, YES).1 == Accepted <==> e <= s.latest)
            && (forall e: nat :: ApplyCancel(s, e, YES).1 != Accepted ==> ApplyCancel(s, e, YES).0 == s)
            && (s.phase != Idle ==> ApplyCancel(s, s.epoch, YES).1 == Accepted
                                    && ApplyCancel(s, s.epoch, YES).0.phase == Idle)
            && (forall e: nat :: e <= s.latest && (s.phase == Idle || e < s.epoch) ==>
                  ApplyCancel(s, e, YES) == (s, Accepted))
  {
    RunKeeps(NEW_SESSION, ops);
    hide Run, Ordered, Stream, Bound;
  }

  /** A command whose caller has given up, or that reaches an actor that is over, does nothing. */
  lemma AbandonedCommandsDoNothing(ops: seq<Op>, o: Operation, epoch: nat, expired: bool, p: Provider)
    ensures var s := Run(NEW_SESSION, ops);
            expired || s.stopped ==> Step(s, Command(o, epoch, expired, p)) == s
    ensures var s := Run(NEW_SESSION, ops); s.stopped ==> Step(s, Urgent(epoch, p)) == s
  {
    hide Run;
  }

  /** A provider that breaks off or talks nonsense ends the turn with an error, and the session is idle or over. */
  lemma ProviderFaultIsReported(ops: seq<Op>)
    ensures var s := Run(NEW_SESSION, ops);
            !s.stopped && s.pending.None? && Active(s) ==>
              && (s.incoming != [] && !WellFormed(s.incoming[0]) ==>
                    var t := Step(Step(s, TakeEvent(true)), Emit);
                    t.out == s.out + [SessionError(s.epoch)] && t.phase == Idle && !t.stopped)
              && (s.incoming == [] && s.closed ==>
                    var t := Step(s, TakeEvent(true)); t.out == s.out + [SessionError(s.epoch)] && t.stopped)
  {
    hide Run;
  }

  // ---------------------------------------------------------------------
  // An answer gets through
  // ---------------------------------------------------------------------

  /** What a provider says to one commit: one response, well formed, ended by its last event. */
  predicate Answer(raws: seq<Raw>, epoch: nat) {
    && raws != [] && raws[0].responseId != ""
    && (forall i :: 0 <= i < |raws| ==>
          WellFormed(raws[i]) && raws[i].origin == epoch && raws[i].responseId == raws[0].responseId)
    && (forall i :: 0 <= i < |raws| ==> (Terminal(raws[i]) <==> i == |raws| - 1))
  }

  /** The provider queues its answer event by event; the actor takes and passes on as it likes. */
  predicate Queues(ops: seq<Op>, raws: seq<Raw>)
    decreases |ops|
  {
    if ops == [] then raws == []
    else match ops[0]
      case Enqueue(raw) => raws != [] && raw == raws[0] && Queues(ops[1..], raws[1..])
      case TakeEvent(_) => Queues(ops[1..], raws)
      case Emit => Queues(ops[1..], raws)
      case _ => false
  }

  /** `rest` of the answer is still to come; what came is out, in hand or queued. */
  ghost predicate Answering(s: Session, base: seq<Event>, epoch: nat, all: seq<Raw>, rest: seq<Raw>) {
    && all != [] && !s.stopped && !s.closed && s.epoch == epoch && |rest| <= |all| && all[|all| - |rest|..] == rest
    && V.Total(s) == base + V.Lift(all[..|all| - |rest|])
    && (if rest == [] && s.incoming == [] then s.phase == Idle else Active(s))
    && (Active(s) ==> s.responseId == "" || s.responseId == all[0].responseId)
    && (forall i :: 0 <= i < |s.incoming| ==> s.incoming[i] in all)
    && (forall i :: 0 <= i < |s.incoming| && Terminal(s.incoming[i]) ==> rest == [] && i == |s.incoming| - 1)
    && (s.incoming != [] && rest == [] ==> Terminal(s.incoming[|s.incoming| - 1]))
    && (s.pending.Some? && Terminal(s.pending.value.raw) ==> rest == [] && s.incoming == [])
  }

  lemma EnqueueAnswers(s: Session, base: seq<Event>, epoch: nat, all: seq<Raw>, rest: seq<Raw>)
    requires Answer(all, epoch) && Answering(s, base, epoch, all, rest) && rest != []
    ensures Answering(Step(s, Enqueue(rest[0])), base, epoch, all, rest[1..])
  {
    var t, raw, n := Step(s, Enqueue(rest[0])), rest[0], |all| - |rest|;
    assert all[n] == raw && all[n + 1..] == rest[1..];
    assert all[..n + 1] == all[..n] + [raw];
    V.LiftMore(all[..n], raw);
    V.LiftMore(s.incoming, raw);
    V.EnqueueTotal(s, raw);
    hide V.Lift, V.Total;
    assert (base + V.Lift(all[..n])) + [Event(epoch, raw)] == base + (V.Lift(all[..n]) + [Event(epoch, raw)]);
  }

  lemma TakeAnswers(s: Session, base: seq<Event>, epoch: nat, all: seq<Raw>, rest: seq<Raw>)
    requires Answer(all, epoch) && Answering(s, base, epoch, all, rest) && s.pending.None? && s.incoming != []
    ensures Answering(TakeOne(s), base, epoch, all, rest)
    ensures TakeOne(s).incoming == s.incoming[1..] && TakeOne(s).pending.Some?
  {
    var t, raw := TakeOne(s), s.incoming[0];
    V.LiftFirst(s.incoming);
    assert raw in all && WellFormed(raw) && raw.origin == epoch && raw.responseId == all[0].responseId;
    assert t.pending == Some(Event(epoch, raw)) && t.incoming == s.incoming[1..];
    hide V.Lift, TakeOne;
    assert s.out + ([Event(epoch, raw)] + V.Lift(t.incoming)) == (s.out + [Event(epoch, raw)]) + V.Lift(t.incoming);
    assert s.out + [] == s.out;
    TakePhase(s, epoch, all, rest, base);
  }

  lemma TakePhase(s: Session, epoch: nat, all: seq<Raw>, rest: seq<Raw>, base: seq<Event>)
    requires Answer(all, epoch) && Answering(s, base, epoch, all, rest) && s.pending.None? && s.incoming != []
    ensures var t := TakeOne(s);
            && !t.stopped && !t.closed && t.epoch == epoch
            && (if rest == [] && t.incoming == [] then t.phase == Idle else Active(t))
            && (Active(t) ==> t.responseId == "" || t.responseId == all[0].responseId)
            && (t.incoming != [] && rest == [] ==> Terminal(t.incoming[|t.incoming| - 1]))
            && (t.pending.Some? && Terminal(t.pending.value.raw) ==> rest == [] && t.incoming == [])
  {
    var raw := s.incoming[0];
    assert raw in all && WellFormed(raw);
    hide V.Lift, V.Total;
  }

  lemma EmitAnswers(s: Session, base: seq<Event>, epoch: nat, all: seq<Raw>, rest: seq<Raw>)
    requires Answering(s, base, epoch, all, rest)
    ensures Answering(Step(s, Emit), base, epoch, all, rest)
  {
    hide V.Lift;
    var t := Step(s, Emit);
    assert V.Total(t) == V.Total(s);
  }

  lemma {:induction false} QueuesAnswer(
    s: Session, ops: seq<Op>, base: seq<Event>, epoch: nat, all: seq<Raw>, rest: seq<Raw>)
    requires Answer(all, epoch) && Answering(s, base, epoch, all, rest) && Queues(ops, rest)
    ensures Answering(Run(s, ops), base, epoch, all, [])
    decreases |ops|
  {
    if ops != [] {
      var after := if ops[0].Enqueue? then rest[1..] else rest;
      match ops[0] {
        case Enqueue(raw) => EnqueueAnswers(s, base, epoch, all, rest);
        case TakeEvent(room) =>
          if s.pending.None? && s.incoming != [] { TakeAnswers(s, base, epoch, all, rest); }
          assert !s.closed;
        case Emit => EmitAnswers(s, base, epoch, all, rest);
        case _ =>
      }
      assert Queues(ops[1..], after);
      hide Answering, Answer, Step;
      QueuesAnswer(Step(s, ops[0]), ops[1..], base, epoch, all, after);
    }
  }

  /** The actor's own passes. */
  function Passes(n: nat): seq<Op> {
    if n == 0 then [] else [Emit, TakeEvent(true)] + Passes(n - 1)
  }

  lemma {:induction false} PassesDrain(s: Session, n: nat, base: seq<Event>, epoch: nat, all: seq<Raw>)
    requires Answer(all, epoch) && Answering(s, base, epoch, all, []) && n > |s.incoming|
    ensures var t := Run(s, Passes(n));
            && t.phase == Idle && t.pending.None? && t.incoming == [] && !t.stopped && !t.closed
            && t.out == base + V.Lift(all)
    decreases n
  {
    var s1 := Step(s, Emit);
    EmitAnswers(s, base, epoch, all, []);
    var s2 := Step(s1, TakeEvent(true));
    RunTwo(s, n);
    if s1.incoming != [] {
      TakeAnswers(s1, base, epoch, all, []);
      hide Answering, Answer, Passes, Step, Run;
      PassesDrain(s2, n - 1, base, epoch, all);
    } else {
      assert s2 == s1 && all[..|all|] == all && V.Total(s1) == s1.out + [] + [];
      assert s1.out == base + V.Lift(all);
      hide Answering, V.Lift, V.Total;
      Rests(s1, n - 1);
    }
  }

  lemma RunTwo(s: Session, n: nat)
    requires n > 0
    ensures Run(s, Passes(n)) == Run(Step(Step(s, Emit), TakeEvent(true)), Passes(n - 1))
  {
    hide Step;
    var ops := Passes(n);
    assert ops[1..][1..] == Passes(n - 1);
    assert Run(s, ops) == Run(Step(s, Emit), ops[1..]);
  }

  lemma {:induction false} Rests(s: Session, n: nat)
    requires s.pending.None? && s.incoming == [] && !s.closed
    ensures Run(s, Passes(n)) == s
    decreases n
  {
    if n > 0 {
      RunTwo(s, n);
      assert Step(Step(s, Emit), TakeEvent(true)) == s;
      Rests(s, n - 1);
    }
  }

  /** Commands of a turn with `n` frames. */
  function TurnOps(epoch: nat, n: nat): seq<Op> {
    [Command(StartTurn, epoch, false, YES)] + Frames(epoch, n) + [Command(Commit, epoch, false, YES)]
  }

  function Frames(epoch: nat, n: nat): seq<Op> {
    if n == 0 then [] else [Command(AppendPcm, epoch, false, YES)] + Frames(epoch, n - 1)
  }

  lemma {:induction false} FramesTaken(s: Session, epoch: nat, n: nat)
    requires s.phase == Listening && s.epoch == epoch && epoch != 0 && !s.stopped
    ensures Run(s, Frames(epoch, n)) == s.(frames := s.frames + n)
    decreases n
  {
    if n > 0 {
      var op := Command(AppendPcm, epoch, false, YES);
      assert Frames(epoch, n)[1..] == Frames(epoch, n - 1);
      assert Step(s, op) == s.(frames := s.frames + 1);
      FramesTaken(Step(s, op), epoch, n - 1);
    }
  }

  lemma {:induction false} RunJoin(s: Session, p: seq<Op>, q: seq<Op>)
    ensures Run(s, p + q) == Run(Run(s, p), q)
    decreases |p|
  {
    hide Step;
    if p == [] {
      assert p + q == q;
    } else {
      assert (p + q)[1..] == p[1..] + q;
      RunJoin(Step(s, p[0]), p[1..], q);
    }
  }

  /** The turn is started, its frames appended, the commit given to the provider. */
  lemma TurnIsCommitted(s: Session, epoch: nat, n: nat)
    requires s.phase == Idle && !s.stopped && epoch > s.latest && n > 0
    ensures Run(s, TurnOps(epoch, n)) ==
            s.(phase := Thinking, latest := epoch, epoch := epoch, responseId := "", frames := n)
  {
    var start, commit := Command(StartTurn, epoch, false, YES), Command(Commit, epoch, false, YES);
    var t := Step(s, start);
    assert t == s.(phase := Listening, latest := epoch, epoch := epoch, responseId := "", frames := 0);
    FramesTaken(t, epoch, n);
    var u := t.(frames := n);
    assert Step(u, commit) == u.(phase := Thinking);
    hide Step;
    RunJoin(s, [start] + Frames(epoch, n), [commit]);
    RunJoin(s, [start], Frames(epoch, n));
    assert Run(s, [start]) == Run(t, [start][1..]) && [start][1..] == [];
    assert Run(u, [commit]) == Run(Step(u, commit), [commit][1..]) && [commit][1..] == [];
  }

  /**
   * From every state between turns, with a provider that says yes: a turn with a
   * new epoch is started, fed and committed, and whatever its answer is and
   * however it is queued, all of it comes out under that epoch, in order, and
   * the session is ready for the next turn.
   */
  lemma TurnIsAnswered(before: seq<Op>, epoch: nat, n: nat, raws: seq<Raw>, ops: seq<Op>, passes: nat)
    requires var s := Run(NEW_SESSION, before);
             && s.phase == Idle && s.pending.None? && s.incoming == [] && !s.stopped && !s.closed && epoch > s.latest
    requires n > 0 && Answer(raws, epoch) && Queues(ops, raws) && passes > |raws|
    ensures var s := Run(NEW_SESSION, before);
            var t := Run(Run(Run(s, TurnOps(epoch, n)), ops), Passes(passes));
            && t.out == s.out + V.Lift(raws) && t.latest == epoch
            && t.phase == Idle && t.pending.None? && t.incoming == [] && !t.stopped && !t.closed
  {
    var s := Run(NEW_SESSION, before);
    TurnIsCommitted(s, epoch, n);
    var u := Run(s, TurnOps(epoch, n));
    assert raws[..0] == [] && raws[0..] == raws && V.Lift([]) == [];
    assert V.Total(u) == s.out + [] + [] == s.out + V.Lift(raws[..0]);
    assert Answering(u, s.out, epoch, raws, raws);
    hide Run, TurnOps;
    QueuesAnswer(u, ops, s.out, epoch, raws, raws);
    var v := Run(u, ops);
    SameLatest(u, ops, raws);
    LengthBounded(v, s.out, epoch, raws);
    PassesDrain(v, passes, s.out, epoch, raws);
    PassesLatest(v, passes);
  }

  lemma LengthBounded(s: Session, base: seq<Event>, epoch: nat, all: seq<Raw>)
    requires Answering(s, base, epoch, all, []) && |base| <= |s.out|
    ensures |s.incoming| <= |all|
  {
  }

  lemma {:induction false} SameLatest(s: Session, ops: seq<Op>, raws: seq<Raw>)
    requires Queues(ops, raws)
    ensures Run(s, ops).latest == s.latest && |Run(s, ops).out| >= |s.out|
    decreases |ops|
  {
    if ops != [] {
      assert Step(s, ops[0]).latest == s.latest && |Step(s, ops[0]).out| >= |s.out|;
      SameLatest(Step(s, ops[0]), ops[1..], if ops[0].Enqueue? then raws[1..] else raws);
    }
  }

  lemma {:induction false} PassesLatest(s: Session, n: nat)
    ensures Run(s, Passes(n)).latest == s.latest
    decreases n
  {
    if n > 0 {
      RunTwo(s, n);
      PassesLatest(Step(Step(s, Emit), TakeEvent(true)), n - 1);
    }
  }
}
