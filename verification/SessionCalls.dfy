/** What the turn actor asks of the provider. */
module SessionCalls {
  import opened SessionActor

  datatype Call = SendAudio(epoch: nat) | CommitCall(epoch: nat)

  /** The call that one step makes and the provider grants. */
  function CallOf(s: Session, op: Op): seq<Call> {
    if !op.Command? || s.stopped || op.epoch == 0 || op.expired then []
    else if op.op == AppendPcm && ApplyAppend(s, op.epoch, op.provider).1 == Accepted then [SendAudio(op.epoch)]
    else if op.op == Commit && ApplyCommit(s, op.epoch, op.provider).1 == Accepted then [CommitCall(op.epoch)]
    else []
  }

  function Calls(s: Session, ops: seq<Op>): seq<Call>
    decreases |ops|
  {
    if ops == [] then [] else CallOf(s, ops[0]) + Calls(Step(s, ops[0]), ops[1..])
  }

  /** Epochs never go back, and a committed epoch gets nothing more. */
  predicate InTurn(a: Call, b: Call) {
    a.epoch <= b.epoch && (a.CommitCall? ==> a.epoch < b.epoch)
  }

  ghost predicate Orderly(cs: seq<Call>) {
    && (forall i, j :: 0 <= i < j < |cs| ==> InTurn(cs[i], cs[j]))
    && (forall j :: 0 <= j < |cs| && cs[j].CommitCall? ==>
          exists i :: 0 <= i < j && cs[i] == SendAudio(cs[j].epoch))
  }

  /** Where the turn stands says which calls it has made. */
  ghost predicate Placed(s: Session, cs: seq<Call>) {
    && s.epoch <= s.latest && (s.phase != Idle ==> s.epoch == s.latest)
    && (forall i :: 0 <= i < |cs| ==> cs[i].epoch <= s.latest)
    && (s.phase == Listening ==>
          && CommitCall(s.epoch) !in cs
          && (s.frames > 0 <==> SendAudio(s.epoch) in cs))
  }

  /** A turn begins with a new epoch and no frames, and only then. */
  ghost predicate Moves(s: Session, op: Op) {
    var t := Step(s, op);
    && t.latest >= s.latest && t.epoch <= t.latest && (t.phase != Idle ==> t.epoch == t.latest)
    && (t.phase == Listening ==>
          || (s.phase == Listening && t.epoch == s.epoch)
          || (t.epoch > s.latest && t.frames == 0))
    && (t.phase == Listening && s.phase == Listening ==>
          t.frames == if CallOf(s, op) == [SendAudio(s.epoch)] then s.frames + 1 else s.frames)
  }

  lemma Moved(s: Session, op: Op)
    requires s.epoch <= s.latest && (s.phase != Idle ==> s.epoch == s.latest)
    ensures Moves(s, op)
  {
  }

  /** A call is made for the listening turn only; a commit ends its listening. */
  lemma Made(s: Session, op: Op)
    requires CallOf(s, op) != []
    ensures s.phase == Listening && |CallOf(s, op)| == 1 && CallOf(s, op)[0].epoch == s.epoch
    ensures CallOf(s, op)[0].CommitCall? ==> s.frames > 0 && Step(s, op).phase != Listening
  {
  }

  lemma CallKeeps(s: Session, op: Op, cs: seq<Call>)
    requires Placed(s, cs) && Orderly(cs)
    ensures Orderly(cs + CallOf(s, op))
    ensures Placed(Step(s, op), cs + CallOf(s, op))
  {
    var made, t := CallOf(s, op), Step(s, op);
    Moved(s, op);
    if made != [] {
      Made(s, op);
      assert made == [made[0]] && made[0] in cs + made;
    }
    hide CallOf, Step;
    if made == [] {
      assert cs + made == cs;
    } else {
      OrderlyMore(cs, made[0]);
    }
  }

  lemma OrderlyMore(cs: seq<Call>, c: Call)
    requires Orderly(cs) && (forall i :: 0 <= i < |cs| ==> InTurn(cs[i], c))
    requires c.CommitCall? ==> SendAudio(c.epoch) in cs
    ensures Orderly(cs + [c])
  {
    var ds := cs + [c];
    forall j | 0 <= j < |ds| && ds[j].CommitCall? ensures exists i :: 0 <= i < j && ds[i] == SendAudio(ds[j].epoch) {
      if j < |cs| {
        var i :| 0 <= i < j && cs[i] == SendAudio(cs[j].epoch);
        assert ds[i] == cs[i];
      } else {
        var i :| 0 <= i < |cs| && cs[i] == SendAudio(c.epoch);
        assert ds[i] == cs[i];
      }
    }
  }

  lemma {:induction false} RunKeeps(s: Session, ops: seq<Op>, cs: seq<Call>)
    requires Placed(s, cs) && Orderly(cs)
    ensures Orderly(cs + Calls(s, ops))
    decreases |ops|
  {
    hide Placed, Orderly, Step, CallOf;
    if ops == [] {
      assert cs + [] == cs;
    } else {
      CallKeeps(s, ops[0], cs);
      RunKeeps(Step(s, ops[0]), ops[1..], cs + CallOf(s, ops[0]));
      assert (cs + CallOf(s, ops[0])) + Calls(Step(s, ops[0]), ops[1..]) == cs + Calls(s, ops);
    }
  }

  /**
   * However commands, cancels and provider events interleave, the provider gets
   * audio of one turn at a time, in increasing epochs, at most one commit for
   * each, never without audio before it, and nothing for a turn behind its commit.
   */
  lemma ProviderCallsAreOrderly(ops: seq<Op>)
    ensures Orderly(Calls(NEW_SESSION, ops))
  {
    RunKeeps(NEW_SESSION, ops, []);
    assert [] + Calls(NEW_SESSION, ops) == Calls(NEW_SESSION, ops);
  }
}
