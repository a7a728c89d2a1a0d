/** An answer that nothing interrupts is taken to its end, and the conversation goes on. */
module AnswerProgress {
  import opened WireTypes
  import opened ClientTransport
  import opened VoiceActor
  import B = BargeIn
  import G = BargeProgress
  import I = ActorInvariant
  import K = Interruptions
  import L = ActorPlayer
  import S = ActorSafety
  import T = CaptureTimeline
  import U = BargeUpload

  // ---------------------------------------------------------------------
  // What does not end a turn
  // ---------------------------------------------------------------------

  /** The player answers the next `n` questions with yes. */
  predicate Yes(a: Actor, n: nat) { |a.audio| >= n && forall i :: 0 <= i < n ==> a.audio[i] }

  /** The player does what the event asks of it; a done may also find it with nothing to end. */
  predicate PlayerTakes(a: Actor, e: Inbound) {
    match e
    case AudioStart(_) => Yes(a, 1)
    case Pcm(_, _, _, _) => Yes(a, 1)
    case Done(_) => Yes(a, 2) || (a.audio != [] && !a.audio[0])
    case _ => true
  }

  /** No error, no touch, no deadline, no gap, no overflow, no interruption, no refusal by the player. */
  predicate Undisturbed(s: System, op: Op) {
    match op
    case Take => Step(s, Take) != s ==> !s.a.queue.items[0].Error? && PlayerTakes(s.a, s.a.queue.items[0])
    case Poll(u) => u != Interrupt
    case CheckOverflow => !s.a.queue.overflow
    case Finish(c, f) =>
      K.InTime(s.a, c) && (f.Some? ==> !T.Breaks(s.a, f.value) && !Confirms(G.Ringed(s.a, f.value), f.value))
    case _ => true
  }

  /** Waiting for the answer, playing it, or playing out the rest of it. */
  predicate Answering(a: Actor) { a.state == WaitingForResponse || B.Sounding(a.state) }

  /** The state moves with the audio's start and the answer's end. */
  function Moved(state: State, e: Inbound): State {
    if e.AudioStart? then PlayingResponse else if e.Done? then DrainingPlayback else state
  }

  function StateAfter(state: State, xs: seq<Acted>): State {
    if xs == [] then state else Moved(StateAfter(state, xs[..|xs| - 1]), xs[|xs| - 1].event)
  }

  /** The turn goes on: nothing was sent, nothing given up. */
  ghost predicate GoesOn(a: Actor, b: Actor) {
    && a.link.Some? && b.link.Some? && b.turn == a.turn && U.Log(b) == U.Log(a)
    && b.helloSent == a.helloSent && b.listenerFailed == a.listenerFailed
  }

  lemma EventGoesOn(a: Actor, e: Inbound)
    requires Answering(a) && a.link.Some? && !e.Error? && !e.Cancelled? && !e.HelloAck? && PlayerTakes(a, e)
    ensures var b := HandleEvent(a, e);
            GoesOn(a, b) && b.hist.acted == a.hist.acted && b.state == Moved(a.state, e)
  {
    hide AbortCurrent, LoseConnection, FinishTurn, CompleteCancel, HandleError, HandleDone;
    if e.Done? {
      DoneGoesOn(a);
      assert HandleEvent(a, e) == HandleDone(a);
    } else if e.AudioStart? {
      S.AudioStartEffect(a, e);
      hide HandleEvent;
    } else if e.Pcm? {
      var d := Ask(Call(a, QueueTts(e.audio, e.sequence)));
      assert HandleEvent(a, e) == d.0;
      hide HandleEvent;
    }
  }

  lemma DoneGoesOn(a: Actor)
    requires a.link.Some? && (Yes(a, 2) || (a.audio != [] && !a.audio[0]))
    ensures var b := HandleDone(a);
            GoesOn(a, b) && b.hist.acted == a.hist.acted && b.state == DrainingPlayback
  {
    hide LoseConnection;
  }

  lemma TakeGoesOn(s: System)
    requires S.Safe(s) && Answering(s.a) && Undisturbed(s, Take)
    ensures var b := Step(s, Take).a;
            && GoesOn(s.a, b)
            && (b == s.a || (|b.hist.acted| == |s.a.hist.acted| + 1
                             && b.hist.acted[..|s.a.hist.acted|] == s.a.hist.acted
                             && b.state == Moved(s.a.state, b.hist.acted[|s.a.hist.acted|].event)))
  {
    K.SessionIsUp(s.a, S.Taken(s.pc));
    if Step(s, Take) != s {
      var e, n := s.a.queue.items[0], S.Noted(s.a);
      Proper(s.a, s.pc.pops);
      NotedShape(s);
      hide HandleEvent, S.Noted, S.Ok, Step;
      EventGoesOn(n, e);
    }
  }

  lemma NotedShape(s: System)
    requires Step(s, Take) != s
    ensures var n, e := S.Noted(s.a), s.a.queue.items[0];
            && Step(s, Take).a == HandleEvent(n, e)
            && n == s.a.(queue := n.queue, hist := n.hist) && n.hist.calls == s.a.hist.calls
            && n.hist.acted == s.a.hist.acted + [Acted(e, s.a.turn, s.a.state, s.a.queue.good)]
  {
    hide HandleEvent;
  }

  /** In an open turn no greeting and no acknowledgement is in hand. */
  lemma Proper(a: Actor, k: nat)
    requires S.Ok(a, k) && Answering(a) && a.queue.items != [] && k < EVENTS_PER_FRAME
    ensures !a.queue.items[0].Cancelled? && !a.queue.items[0].HelloAck?
  {
    S.OpenTurn(a, k);
    InTurn(a, k);
    S.Oldest(a.link.value, a.queue, a.turn, a.response, a.state, k);
    hide S.Ok, I.Core;
  }

  lemma InTurn(a: Actor, k: nat)
    requires S.Live(a, k) && S.In(a)
    ensures a.link.Some? && a.turn.session != 0 && I.Core(a.link.value, a.queue, a.turn, a.response, a.state, k)
  {
    hide I.Core, S.HistOk;
  }

  lemma NetworkGoesOn(a: Actor, n: NetEvent, k: nat)
    requires S.Ok(a, k) && Answering(a)
    ensures var b := Receive(a, n); GoesOn(a, b) && b.state == a.state && b.hist == a.hist
  {
    S.OpenTurn(a, k);
    InTurn(a, k);
    S.CoreSound(a.link.value, a.queue, a.turn, a.response, a.state, k);
    hide S.Ok, I.Core, OnNet;
    I.EventEffect(a.link.value, n);
  }

  lemma FrameGoesOn(a: Actor, f: Frame)
    requires Answering(a) && a.link.Some? && a.turn.session != 0
    requires !T.Breaks(a, f) && !Confirms(G.Ringed(a, f), f)
    ensures var b := OnFrame(a, f); GoesOn(a, b) && b.state == a.state && b.hist.acted == a.hist.acted
  {
    if a.state == WaitingForResponse {
      WaitingFrame(a, f);
    } else {
      SoundingFrame(a, f);
    }
  }

  lemma WaitingFrame(a: Actor, f: Frame)
    requires a.state == WaitingForResponse && a.link.Some? && a.turn.session != 0 && !T.Breaks(a, f)
    ensures var b := OnFrame(a, f); GoesOn(a, b) && b.state == a.state && b.hist.acted == a.hist.acted
  {
    var c := a.(nextCapture := f.sequence + 1, hist := a.hist.(heard := a.hist.heard + [f]));
    B.SaveEffect(c, f);
    hide SavePreRoll;
    assert OnFrame(a, f) == SavePreRoll(c, f);
  }

  lemma SoundingFrame(a: Actor, f: Frame)
    requires B.Sounding(a.state) && a.link.Some? && a.turn.session != 0 && !T.Breaks(a, f)
    requires !Confirms(G.Ringed(a, f), f)
    ensures var b := OnFrame(a, f); GoesOn(a, b) && b.state == a.state && b.hist.acted == a.hist.acted
  {
    var c := a.(nextCapture := f.sequence + 1, hist := a.hist.(heard := a.hist.heard + [f]));
    B.SaveEffect(c, f);
    var b := G.Ringed(a, f);
    assert GoesOn(a, b) && b.state == a.state && b.hist.acted == a.hist.acted by { hide SavePreRoll; }
    G.SoundingFrame(a, f);
    hide OnFrame, G.Ringed, SavePreRoll, Confirms;
    ProbeGoesOn(b, f);
  }

  lemma ProbeGoesOn(a: Actor, f: Frame)
    requires a.link.Some? && !Confirms(a, f)
    ensures var b := HandleBarge(a, f); GoesOn(a, b) && b.state == a.state && b.hist.acted == a.hist.acted
  {
    L.ProbesOnly(a, f);
    IdleOnly(a, f);
    hide ProbeIdle, ProbeReference, ProbeClear, ProbeVerify, ConfirmBarge, Confirms;
    var b := HandleBarge(a, f);
    assert b == a.(barge := b.barge, pre := b.pre);
    hide HandleBarge;
  }

  lemma IdleOnly(a: Actor, f: Frame)
    ensures var b := ProbeIdle(a, f); b == a.(barge := b.barge, pre := b.pre)
  {
    var p := BeginProbe(a);
    assert p == a.(barge := p.barge, pre := p.pre);
    hide BeginProbe, BargeVoice;
  }

  // ---------------------------------------------------------------------
  // The whole answer
  // ---------------------------------------------------------------------

  predicate AllUndisturbed(s: System, ops: seq<Op>)
    decreases |ops|
  {
    ops == [] || (Undisturbed(s, ops[0]) && AllUndisturbed(Step(s, ops[0]), ops[1..]))
  }

  /** The actor is in an answer, has greeted the server, and its listener works. */
  predicate Engaged(s: System) { Answering(s.a) && s.a.link.Some? && s.a.helloSent && !s.a.listenerFailed }

  /** At most one event was taken, and the state moved with it. */
  ghost predicate MovesBy(a: Actor, b: Actor, xs: seq<Acted>) {
    b.hist.acted == a.hist.acted + xs && b.state == StateAfter(a.state, xs)
  }

  lemma OneMoves(a: Actor, b: Actor) returns (xs: seq<Acted>)
    requires if |b.hist.acted| == |a.hist.acted| + 1
             then b.hist.acted[..|a.hist.acted|] == a.hist.acted
                  && b.state == Moved(a.state, b.hist.acted[|a.hist.acted|].event)
             else b.hist.acted == a.hist.acted && b.state == a.state
    ensures MovesBy(a, b, xs)
  {
    xs := b.hist.acted[|a.hist.acted|..];
    if |b.hist.acted| == |a.hist.acted| + 1 {
      assert xs == [b.hist.acted[|a.hist.acted|]] && xs[..0] == [];
    } else {
      assert xs == [];
    }
  }

  lemma StepGoesOn(s: System, op: Op) returns (xs: seq<Acted>)
    requires S.Safe(s) && Engaged(s) && Undisturbed(s, op)
    ensures var t := Step(s, op);
            GoesOn(s.a, t.a) && Engaged(t) && MovesBy(s.a, t.a, xs)
  {
    var a, k := s.a, S.Taken(s.pc);
    var t := Step(s, op);
    K.SessionIsUp(a, k);
    match op {
      case Network(n) => hide S.Ok; NetworkGoesOn(a, n, k);
      case Begin(connect, started) => hide S.Ok, LoseConnection, SendControl;
      case Take => hide S.Ok, Step, Undisturbed; TakeGoesOn(s);
      case Poll(u) => hide S.Ok, AbortCurrent;
      case CheckOverflow => hide S.Ok, LoseConnection;
      case Finish(c, f) => hide S.Ok; FinishGoesOn(s, c, f);
    }
    xs := OneMoves(a, t.a);
  }

  lemma FinishGoesOn(s: System, c: Clock, f: Option<Frame>)
    requires Engaged(s) && s.a.turn.session != 0 && Undisturbed(s, Finish(c, f))
    ensures var t := Step(s, Finish(c, f));
            GoesOn(s.a, t.a) && t.a.state == s.a.state && t.a.hist.acted == s.a.hist.acted
  {
    hide OnFrame, AdvanceDeadlines, T.Breaks, G.Ringed, Confirms;
    K.InTimeGoesOn(s.a, c);
    if f.Some? { FrameGoesOn(s.a, f.value); }
  }

  lemma MovesOn(a: Actor, b: Actor, c: Actor, xs: seq<Acted>, ys: seq<Acted>)
    requires MovesBy(a, b, xs) && MovesBy(b, c, ys)
    ensures MovesBy(a, c, xs + ys)
  {
    StateJoins(a.state, xs, ys);
    assert a.hist.acted + xs + ys == a.hist.acted + (xs + ys);
  }

  lemma {:induction false} StateJoins(state: State, xs: seq<Acted>, ys: seq<Acted>)
    ensures StateAfter(state, xs + ys) == StateAfter(StateAfter(state, xs), ys)
    decreases |ys|
  {
    if ys == [] {
      assert xs + ys == xs;
    } else {
      var n := |ys| - 1;
      assert (xs + ys)[..|xs + ys| - 1] == xs + ys[..n] && (xs + ys)[|xs + ys| - 1] == ys[n];
      StateJoins(state, xs, ys[..n]);
    }
  }

  lemma {:induction false} RunGoesOn(s: System, ops: seq<Op>) returns (xs: seq<Acted>)
    requires S.Safe(s) && Engaged(s) && AllUndisturbed(s, ops)
    ensures var t := Run(s, ops); GoesOn(s.a, t.a) && MovesBy(s.a, t.a, xs)
    decreases |ops|
  {
    hide S.Safe, Step, Undisturbed, Engaged, MovesBy;
    if ops == [] {
      xs := [];
      NothingMoves(s);
    } else {
      var t := Step(s, ops[0]);
      S.StepSafe(s, ops[0]);
      var first := StepGoesOn(s, ops[0]);
      var rest := RunGoesOn(t, ops[1..]);
      xs := first + rest;
      MovesOn(s.a, t.a, Run(t, ops[1..]).a, first, rest);
    }
  }

  lemma NothingMoves(s: System)
    requires Engaged(s)
    ensures GoesOn(s.a, s.a) && MovesBy(s.a, s.a, [])
  {
    assert s.a.hist.acted + [] == s.a.hist.acted;
  }

  /**
   * An answer that nothing disturbs is taken as it comes: the actor stays in its
   * turn, sends nothing, starts to play with the audio's start and plays out with
   * the answer's end.
   */
  lemma AnswerIsTakenToItsEnd(config: Config, net: seq<Slot>, audio: seq<bool>, ops: seq<Op>, more: seq<Op>)
    requires var s := S.Device(config, net, audio, ops); Engaged(s) && AllUndisturbed(s, more)
    ensures var s := S.Device(config, net, audio, ops);
            var t := Run(s, more);
            && GoesOn(s.a, t.a) && s.a.hist.acted <= t.a.hist.acted
            && t.a.state == StateAfter(s.a.state, t.a.hist.acted[|s.a.hist.acted|..])
  {
    S.DeviceSafe(config, net, audio, ops);
    var s := S.Device(config, net, audio, ops);
    hide S.Device, S.Safe, AllUndisturbed, Engaged;
    var xs := RunGoesOn(s, more);
    assert Run(s, more).a.hist.acted[|s.a.hist.acted|..] == xs;
    hide Run;
  }
}
