/** The actor as the device runs it: one object, updated in place, proved step by step against the model. */
module VoiceClient {
  import opened WireTypes
  import opened ClientTransport
  import opened VoiceActor
  import opened DeviceRings
  import V = VoiceTransport
  import B = BargeIn

  /** What the network does before the steps of one turn of the loop; `drain` before each look at the queue. */
  datatype Arrivals = Arrivals(
    begin: seq<NetEvent>, drain: seq<seq<NetEvent>>, poll: seq<NetEvent>, check: seq<NetEvent>, finish: seq<NetEvent>)

  function Burst(busy: seq<seq<NetEvent>>, i: nat): seq<NetEvent> {
    if i < |busy| then busy[i] else []
  }

  ghost function Nets(ns: seq<NetEvent>): seq<Op> {
    if ns == [] then [] else [Network(ns[0])] + Nets(ns[1..])
  }

  ghost function Takes(busy: seq<seq<NetEvent>>, n: nat): seq<Op> {
    if n == 0 then [] else Takes(busy, n - 1) + Nets(Burst(busy, n - 1)) + [Take]
  }

  ghost function Iteration(
    connect: bool, started: bool, u: UiAction, clock: Clock, frame: Option<Frame>, w: Arrivals, tries: nat): seq<Op>
  {
    Nets(w.begin) + [Begin(connect, started)] + Takes(w.drain, tries) + Nets(w.poll) + [Poll(u)]
    + Nets(w.check) + [CheckOverflow] + Nets(w.finish) + [Finish(clock, frame)]
  }

  lemma BrokenOff(
    connect: bool, started: bool, u: UiAction, clock: Clock, frame: Option<Frame>, w: Arrivals, tries: nat)
    ensures var whole := Iteration(connect, started, u, clock, frame, w, tries);
            var begun := Nets(w.begin) + [Begin(connect, started)];
            var polled := begun + Takes(w.drain, tries) + Nets(w.poll) + [Poll(u)];
            && begun <= whole && polled <= whole
            && polled + Nets(w.check) + [CheckOverflow] + Nets(w.finish) + [Finish(clock, frame)] == whole
  {
    hide Nets, Takes;
  }

  lemma {:induction false} RunJoin(s: System, p: seq<Op>, q: seq<Op>)
    ensures Run(s, p + q) == Run(Run(s, p), q)
    decreases |p|
  {
    hide Step;
    if p == [] {
      assert p + q == q;
    } else {
      assert (p + q)[1..] == p[1..] + q;
      RunJoin(Step(s, p[0]), p[1..], q);
    }
  }

  lemma {:induction false} NetsRun(a: Actor, pc: Pc, ns: seq<NetEvent>)
    ensures Run(System(a, pc), Nets(ns)) == System(ReceiveAll(a, ns), pc)
    decreases |ns|
  {
    if ns != [] {
      var s := System(a, pc);
      assert Step(s, Network(ns[0])) == System(Receive(a, ns[0]), pc);
      hide Receive, Step;
      assert Nets(ns)[1..] == Nets(ns[1..]);
      NetsRun(Receive(a, ns[0]), pc, ns[1..]);
    }
  }

  /** A run goes on with some network events and one step of the loop. */
  lemma Onward(start: System, ops: seq<Op>, a: Actor, pc: Pc, ns: seq<NetEvent>, op: Op)
    requires Run(start, ops) == System(a, pc)
    ensures Run(start, ops + Nets(ns) + [op]) == Step(System(ReceiveAll(a, ns), pc), op)
    ensures ops == [] ==> Run(start, Nets(ns) + [op]) == Step(System(ReceiveAll(a, ns), pc), op)
  {
    hide Step, ReceiveAll, Nets;
    var t := System(ReceiveAll(a, ns), pc);
    NetsRun(a, pc, ns);
    RunJoin(start, ops, Nets(ns));
    RunJoin(start, ops + Nets(ns), [op]);
    assert Run(t, [op]) == Run(Step(t, op), [op][1..]) && [op][1..] == [];
    assert [] + Nets(ns) == Nets(ns);
  }

  lemma NoTakes(start: System, busy: seq<seq<NetEvent>>)
    ensures Run(start, Takes(busy, 0)) == Run(start, []) == start
  {
  }

  lemma TakesMore(start: System, busy: seq<seq<NetEvent>>, n: nat, a: Actor, pops: nat)
    requires Run(start, Takes(busy, n)) == System(a, Draining(pops))
    ensures Run(start, Takes(busy, n + 1)) == Step(System(ReceiveAll(a, Burst(busy, n)), Draining(pops)), Take)
  {
    Onward(start, Takes(busy, n), a, Draining(pops), Burst(busy, n), Take);
    hide Run, Step, ReceiveAll;
  }

  lemma TakeEffect(a: Actor, ns: seq<NetEvent>, pops: nat)
    requires a.link.Some? && !a.listenerFailed && pops < EVENTS_PER_FRAME
    ensures var b := ReceiveAll(a, ns);
            Step(System(b, Draining(pops)), Take) ==
            if b.queue.items == [] then System(b, Draining(pops)) else System(HandleOne(b), Draining(pops + 1))
  {
    B.ReceiveAllSame(a, ns);
    hide ReceiveAll, HandleOne;
  }

  class Client {
    const config: Config
    const events: EventQueue
    const pre: PreRollRing
    var transport: V.Impl?
    var turn: WireIds
    var response: WireIds
    var state: State
    var nextCapture: nat
    var upSeq: nat
    var followUpNear: nat
    var barge: Barge
    var finishAfterAck: bool
    var manualWake: bool
    var listenerFailed: bool
    var helloSent: bool
    var net: seq<Slot>
    var audio: seq<bool>
    ghost var hist: History

    ghost predicate Valid()
      reads this, events, pre
    {
      && events.Valid() && pre.Valid()
      && events.slots as object != pre.slots as object
    }

    ghost function Footprint(): set<object>
      reads this
    {
      {this, events, events.slots, pre, pre.slots} + (if transport == null then {} else {transport})
    }

    ghost function Link(): Option<Transport>
      reads this, transport
    {
      if transport == null then None else Some(transport.View())
    }

    ghost function View(): Actor
      reads this, events, pre, Footprint()
      requires Valid()
    {
      Actor(config, Link(), events.View(), pre.Contents(), turn, response, state,
            nextCapture, upSeq, followUpNear, barge, finishAfterAck, manualWake, listenerFailed, helloSent,
            net, audio, hist)
    }

    // -------------------------------------------------------------------
    // The environment
    // -------------------------------------------------------------------

    /** The transport's part of a network event, under its lock. */
    method Consume(n: NetEvent) returns (pushed: Option<Inbound>)
      requires Valid() && transport != null
      modifies transport
      ensures Valid()
      ensures var (t, e) := OnNet(old(transport.View()), n);
              View() == old(View()).(link := Some(t)) && pushed == e
    {
      hide OnText, OnBinary;
      match n {
        case Opened => transport.connected := true; pushed := None;
        case Ping => pushed := Some(ClientTransport.Heartbeat(ZERO_IDS));
        case Broken => transport.connected := false; pushed := Some(TRANSPORT_ERROR);
        case Text(m) =>
          var v := transport.HandleText(m);
          pushed := Pushed(v);
        case Binary(b) =>
          var v := transport.HandleBinary(b);
          pushed := Pushed(v);
      }
    }

    method Store(e: Inbound)
      requires Valid()
      modifies events, events.slots
      ensures Valid() && View() == old(View()).(queue := VoiceActor.Push(old(View()).queue, e))
    {
      var stored := events.Push(e);
    }

    /** The network thread handles one event. */
    method OnNetwork(n: NetEvent)
      requires Valid()
      modifies Footprint()
      ensures Valid() && transport == old(transport) && View() == Receive(old(View()), n)
    {
      LinkField();
      hide View, Valid, OnNet;
      if transport != null {
        var pushed := Consume(n);
        if pushed.Some? {
          Store(pushed.value);
        }
      }
    }

    lemma LinkField()
      requires Valid()
      ensures View().link == Link()
    {
    }

    static function Pushed(v: Verdict): (e: Option<Inbound>)
      ensures forall t :: Delivered((t, v)) == (t, e)
    {
      match v
      case Emit(e) => Some(e)
      case Ignore => None
      case Violation => Some(TRANSPORT_ERROR)
    }

    constructor (config: Config, net: seq<Slot>, audio: seq<bool>)
      ensures Valid() && fresh(Footprint()) && View() == Initial(config, net, audio)
    {
      this.config := config;
      this.net, this.audio := net, audio;
      events := new EventQueue();
      pre := new PreRollRing(Frame([], 0, 0.0, false, false, false, false, false, false));
      transport := null;
      turn, response, state := ZERO_IDS, ZERO_IDS, WaitingForWake;
      nextCapture, upSeq, followUpNear, barge := 0, 0, 0, NO_BARGE;
      finishAfterAck, manualWake, listenerFailed, helloSent := false, false, false, false;
      hist := History([], false, [], [], [], [], []);
    }

    /** The network thread gets in with some events. */
    method Interfere(ns: seq<NetEvent>)
      requires Valid()
      modifies Footprint()
      ensures Valid() && transport == old(transport) && View() == ReceiveAll(old(View()), ns)
    {
      hide Receive;
      ghost var start := View();
      for i := 0 to |ns|
        invariant Valid() && transport == old(transport)
        invariant ReceiveAll(start, ns) == ReceiveAll(View(), ns[i..])
      {
        assert ns[i..][1..] == ns[i + 1..];
        OnNetwork(ns[i]);
      }
      assert ns[|ns|..] == [];
    }

    /** The next transport call gets as far as holding the protocol lock. */
    method Lock() returns (reply: NetReply)
      requires Valid() && transport != null
      modifies Footprint()
      ensures Valid() && transport == old(transport)
      ensures View() == Locked(old(View())) && reply == NextSlot(old(View())).reply
    {
      var before := [];
      reply := Down;
      if net != [] {
        before, reply := net[0].before, net[0].reply;
        net := net[1..];
      }
      hide ReceiveAll;
      Interfere(before);
    }

    method SendControl(kind: ControlKind, ids: WireIds) returns (ok: bool)
      requires Valid()
      modifies Footprint()
      ensures Valid() && transport == old(transport)
      ensures var (a, r) := VoiceActor.SendControl(old(View()), kind, ids);
              View() == a && (ok <==> r == Accepted)
    {
      if transport == null {
        return false;
      }
      Fields();
      hide View, Valid, Locked, Send;
      var reply := Lock();
      ok := Transmit(kind, ids, reply);
    }

    /** One control message under the protocol lock. */
    method Transmit(kind: ControlKind, ids: WireIds, reply: NetReply) returns (ok: bool)
      requires Valid() && transport != null
      modifies transport
      ensures Valid()
      ensures var a := old(View());
              var (t, r) := Send(a.link.value, Control(kind, ids, a.config.tokenValid), reply);
              View() == a.(link := Some(t)) && (ok <==> r == Accepted)
    {
      hide Send;
      ok := transport.SendControl(Control(kind, ids, config.tokenValid), reply);
    }

    method Ask() returns (answer: bool)
      requires Valid()
      modifies this`audio
      ensures Valid()
      ensures var (a, r) := VoiceActor.Ask(old(View())); View() == a && answer == r
    {
      if audio == [] {
        return false;
      }
      answer := audio[0];
      audio := audio[1..];
    }

    // -------------------------------------------------------------------
    // Shared transitions
    // -------------------------------------------------------------------

    method ResetListener()
      requires Valid()
      modifies this`audio, this`listenerFailed
      ensures Valid() && View() == VoiceActor.ResetListener(old(View()))
    {
      var ok := Ask();
      if !ok {
        listenerFailed := true;
      }
    }

    method SetState(s: State)
      requires Valid()
      modifies this`state
      ensures Valid() && View() == old(View()).(state := s)
    {
      state := s;
    }

    method SetBarge(b: Barge)
      requires Valid()
      modifies this`barge
      ensures Valid() && View() == old(View()).(barge := b)
    {
      barge := b;
    }

    /** The call the actor is about to make. */
    ghost method Note(c: PlayerCall)
      requires Valid()
      modifies this`hist
      ensures Valid() && View() == Call(old(View()), c)
    {
      hist := hist.(calls := hist.calls + [c]);
    }

    /** The transport is closed and everything that came through it is dropped. */
    method DropLink()
      requires Valid()
      modifies this`transport, events, events.slots, pre
      ensures Valid() && transport == null
      ensures View() == old(View()).(link := None, queue := EMPTY_QUEUE, pre := [])
    {
      transport := null;
      events.Clear();
      pre.Clear();
    }

    method ForgetSession()
      requires Valid()
      modifies this`state, this`turn, this`response
      ensures Valid()
      ensures View() == old(View()).(state := WaitingForWake, turn := ZERO_IDS, response := ZERO_IDS)
    {
      state := WaitingForWake;
      turn, response := ZERO_IDS, ZERO_IDS;
    }

    method ForgetMarks()
      requires Valid()
      modifies this`barge, this`finishAfterAck, this`manualWake
      ensures Valid()
      ensures View() == old(View()).(barge := NO_BARGE, finishAfterAck := false, manualWake := false)
    {
      barge := NO_BARGE;
      finishAfterAck, manualWake := false, false;
    }

    method LoseConnection()
      requires Valid()
      modifies Footprint()
      ensures Valid() && transport == null
      ensures View() == VoiceActor.LoseConnection(old(View()))
    {
      hide View, Valid, VoiceActor.ResetListener;
      Note(DropPlayback);
      DropLink();
      ForgetSession();
      ForgetMarks();
      ResetListener();
    }

    method PrepareAbort()
      requires Valid()
      modifies this`barge, this`finishAfterAck
      ensures Valid() && View() == old(View()).(barge := NO_BARGE, finishAfterAck := true)
    {
      barge := NO_BARGE;
      finishAfterAck := true;
    }

    method AbortCurrent()
      requires Valid()
      modifies Footprint()
      ensures Valid() && (transport == old(transport) || transport == null)
      ensures View() == VoiceActor.AbortCurrent(old(View()))
    {
      Fields();
      hide View, Valid, VoiceActor.SendControl, VoiceActor.LoseConnection;
      Note(DropPlayback);
      PrepareAbort();
      var ok: bool;
      if response.session != 0 {
        ok := SendControl(ResponseCancel, response);
      } else {
        ok := SendControl(TurnCancel, turn);
      }
      if !ok {
        LoseConnection();
        return;
      }
      SetState(CancelPending);
    }

    /** The view's components, for methods that branch on them. */
    lemma Fields()
      requires Valid()
      ensures var a := View();
              && a.config == config && a.link.None? == (transport == null)
              && a.turn == turn && a.response == response && a.state == state
              && a.nextCapture == nextCapture && a.upSeq == upSeq && a.followUpNear == followUpNear
              && a.barge == barge && a.finishAfterAck == finishAfterAck && a.manualWake == manualWake
              && a.listenerFailed == listenerFailed && a.helloSent == helloSent
              && a.hist == hist && |a.pre| == pre.count
    {
    }

    method AdvanceTurn()
      requires Valid()
      modifies this`turn, this`response
      ensures Valid() && View() == VoiceActor.AdvanceTurn(old(View()))
    {
      turn := WireIds(turn.session, turn.turn + 1, turn.stream + 1, turn.epoch + 1);
      response := ZERO_IDS;
    }

    method ClearTurnMarks()
      requires Valid()
      modifies this`barge, this`followUpNear, this`finishAfterAck
      ensures Valid()
      ensures View() == old(View()).(barge := NO_BARGE, followUpNear := 0, finishAfterAck := false)
    {
      barge := NO_BARGE;
      followUpNear := 0;
      finishAfterAck := false;
    }

    method FinishTurn()
      requires Valid()
      modifies Footprint()
      ensures Valid() && transport == old(transport)
      ensures View() == VoiceActor.FinishTurn(old(View()))
    {
      hide View, Valid, VoiceActor.EndTurn;
      Note(DropPlayback);
      EndTurn();
    }

    method EndTurn()
      requires Valid()
      modifies Footprint()
      ensures Valid() && transport == old(transport)
      ensures View() == VoiceActor.EndTurn(old(View()))
    {
      hide View, Valid, VoiceActor.ResetListener, VoiceActor.AdvanceTurn;
      ClearTurnMarks();
      AdvanceTurn();
      ResetListener();
      SetState(WaitingForFollowUp);
    }

    method SendAudio(frame: Frame, end: bool) returns (outcome: SendOutcome)
      requires Valid()
      modifies Footprint()
      ensures Valid() && transport == old(transport)
      ensures var (a, r) := VoiceActor.SendAudio(old(View()), frame, end);
              View() == a && outcome == r
    {
      Fields();
      if transport == null {
        return Rejected;
      }
      LockedUpSeq();
      hide View, Valid, Locked, SendPcm;
      var reply := Lock();
      outcome := Speak(frame, end, reply);
    }

    /** One frame under the protocol lock. */
    method Speak(frame: Frame, end: bool, reply: NetReply) returns (outcome: SendOutcome)
      requires Valid() && transport != null
      modifies this`upSeq, transport
      ensures Valid()
      ensures var a := old(View());
              var (t, r) := SendPcm(a.link.value, a.turn, Flags(a.upSeq == 0, end), a.upSeq, frame.pcm, reply);
              && View() == a.(link := Some(t), upSeq := if r == Ok then a.upSeq + 1 else a.upSeq)
              && outcome == r
    {
      hide SendPcm;
      outcome := transport.SendPcm64(turn, Flags(upSeq == 0, end), upSeq, frame.pcm, reply);
      if outcome == Ok {
        upSeq := upSeq + 1;
      }
    }

    /** Waiting for the lock changes nothing the actor owns. */
    lemma LockedUpSeq()
      requires Valid()
      ensures var b := Locked(View());
              b == View().(link := b.link, queue := b.queue, net := b.net)
    {
      hide View, ReceiveAll;
      var a := View();
      B.ReceiveAllSame(a.(net := if a.net == [] then [] else a.net[1..]), NextSlot(a).before);
    }

    /** Backpressure gives up the turn; a refused frame gives up the connection. */
    method SendAudioOrRecover(frame: Frame, end: bool) returns (ok: bool)
      requires Valid()
      modifies Footprint()
      ensures Valid() && (transport == old(transport) || transport == null)
      ensures var (a, r) := VoiceActor.SendAudioOrRecover(old(View()), frame, end);
              View() == a && ok == r
    {
      hide View, Valid, VoiceActor.SendAudio, VoiceActor.AbortCurrent, VoiceActor.LoseConnection;
      var outcome := SendAudio(frame, end);
      if outcome == Ok {
        return true;
      }
      if outcome == Backpressure {
        AbortCurrent();
      } else {
        LoseConnection();
      }
      return false;
    }

    // -------------------------------------------------------------------
    // Turns
    // -------------------------------------------------------------------

    method ClearPre()
      requires Valid()
      modifies pre
      ensures Valid() && View() == old(View()).(pre := [])
    {
      pre.Clear();
    }

    method SendCommit()
      requires Valid()
      modifies Footprint()
      ensures Valid() && (transport == old(transport) || transport == null)
      ensures View() == VoiceActor.SendCommit(old(View()))
    {
      Fields();
      hide View, Valid, VoiceActor.SendControl, VoiceActor.LoseConnection;
      var ok := SendControl(TurnCommit, turn);
      if !ok {
        LoseConnection();
        return;
      }
      SetState(WaitingForResponse);
    }

    ghost method NoteStart(ids: WireIds, r: SendResult)
      requires Valid()
      modifies this`hist
      ensures Valid()
      ensures View() == old(View()).(hist := old(View()).hist.(starts := old(View()).hist.starts + [ids],
                                                              refused := old(View()).hist.refused || r == Refused))
    {
      hist := hist.(starts := hist.starts + [ids], refused := hist.refused || r == Refused);
    }

    method IssueStart() returns (ok: bool)
      requires Valid()
      modifies Footprint()
      ensures Valid() && transport == old(transport)
      ensures var (a, r) := VoiceActor.IssueStart(old(View())); View() == a && (ok <==> r == Accepted)
    {
      Fields();
      hide View, Valid, VoiceActor.SendControl;
      ghost var ids, r := turn, VoiceActor.SendControl(View(), TurnStart, turn).1;
      ok := SendControl(TurnStart, turn);
      NoteStart(ids, r);
    }

    method BufferedFrame(i: nat) returns (f: Frame)
      requires Valid() && i < |View().pre|
      ensures f == View().pre[i]
    {
      f := pre.At(i);
    }

    lemma SentKeepsRing(a: Actor, f: Frame, end: bool)
      ensures var (b, ok) := VoiceActor.SendAudioOrRecover(a, f, end); ok ==> b.pre == a.pre
    {
      hide VoiceActor.SendAudio, VoiceActor.AbortCurrent, VoiceActor.LoseConnection;
      B.SendAudioSame(a, f, end);
    }

    lemma UploadNext(a: Actor, frames: seq<Frame>, i: nat, ended: bool)
      requires i < |frames| && a.pre == frames
      ensures var (b, ok) := VoiceActor.SendAudioOrRecover(a, frames[i], ended && i + 1 == |frames|);
              && (ok ==> b.pre == frames)
              && Upload(a, frames, i, ended) == if ok then Upload(b, frames, i + 1, ended) else (b, false)
    {
      hide VoiceActor.SendAudioOrRecover;
      SentKeepsRing(a, frames[i], ended && i + 1 == |frames|);
    }

    lemma UploadEnd(a: Actor, frames: seq<Frame>, ended: bool)
      ensures Upload(a, frames, |frames|, ended) == (a, true)
    {
    }

    method UploadOne(i: nat, ended: bool, ghost frames: seq<Frame>) returns (ok: bool)
      requires Valid() && View().pre == frames && i < |frames| == pre.count
      modifies Footprint()
      ensures Valid() && (transport == old(transport) || transport == null)
      ensures Upload(old(View()), frames, i, ended) ==
              if ok then Upload(View(), frames, i + 1, ended) else (View(), false)
      ensures ok ==> View().pre == frames
    {
      hide View, Valid, VoiceActor.SendAudioOrRecover, Upload;
      UploadNext(View(), frames, i, ended);
      var f := BufferedFrame(i);
      ok := SendAudioOrRecover(f, ended && i + 1 == pre.count);
    }

    method UploadFrames(ended: bool) returns (ok: bool)
      requires Valid()
      modifies Footprint()
      ensures Valid() && (transport == old(transport) || transport == null)
      ensures (View(), ok) == Upload(old(View()), old(View()).pre, 0, ended)
    {
      Fields();
      hide View, Valid, VoiceActor.SendAudioOrRecover, Upload;
      var count := pre.count;
      ghost var start := View();
      ghost var frames := start.pre;
      for i := 0 to count
        invariant Valid() && (transport == old(transport) || transport == null)
        invariant View().pre == frames && |frames| == count
        invariant Upload(start, frames, 0, ended) == Upload(View(), frames, i, ended)
      {
        Fields();
        ok := UploadOne(i, ended, frames);
        if !ok {
          return;
        }
      }
      ok := true;
      UploadEnd(View(), frames, ended);
    }

    method UploadBuffered(ended: bool)
      requires Valid()
      modifies Footprint()
      ensures Valid() && (transport == old(transport) || transport == null)
      ensures View() == VoiceActor.UploadBuffered(old(View()), ended)
    {
      Fields();
      hide View, Valid, Upload, VoiceActor.LoseConnection, VoiceActor.SendCommit;
      if ended && pre.count == 0 {
        LoseConnection();
        return;
      }
      var ok := UploadFrames(ended);
      if !ok {
        return;
      }
      ClearPre();
      if ended {
        SendCommit();
      }
    }

    method OpenCapture()
      requires Valid()
      modifies this`upSeq, this`state
      ensures Valid() && View() == old(View()).(upSeq := 0, state := CapturingSpeech)
    {
      upSeq := 0;
      state := CapturingSpeech;
    }

    method StartTurn(ended: bool)
      requires Valid()
      modifies Footprint()
      ensures Valid() && (transport == old(transport) || transport == null)
      ensures View() == VoiceActor.StartTurn(old(View()), ended)
    {
      Fields();
      hide View, Valid, VoiceActor.IssueStart, VoiceActor.LoseConnection, VoiceActor.UploadBuffered;
      if turn.session == 0 {
        LoseConnection();
        return;
      }
      var ok := IssueStart();
      if !ok {
        LoseConnection();
        return;
      }
      OpenCapture();
      UploadBuffered(ended);
    }

    method Commit(frame: Frame)
      requires Valid()
      modifies Footprint()
      ensures Valid() && (transport == old(transport) || transport == null)
      ensures View() == VoiceActor.Commit(old(View()), frame)
    {
      hide View, Valid, VoiceActor.SendAudioOrRecover, VoiceActor.SendCommit;
      var ok := SendAudioOrRecover(frame, true);
      if ok {
        SendCommit();
      }
    }

    method AdmitNext()
      requires Valid()
      modifies this`barge, this`finishAfterAck
      ensures Valid()
      ensures View() == old(View()).(barge := old(View()).barge.(admitted := false, ended := false),
              finishAfterAck := false)
    {
      barge := barge.(admitted := false, ended := false);
      finishAfterAck := false;
    }

    method ResumeAfterBarge()
      requires Valid()
      modifies Footprint()
      ensures Valid() && (transport == old(transport) || transport == null)
      ensures View() == VoiceActor.ResumeAfterBarge(old(View()))
    {
      Fields();
      hide View, Valid, VoiceActor.FinishTurn, VoiceActor.StartTurn, VoiceActor.AdvanceTurn;
      if !barge.admitted {
        FinishTurn();
        return;
      }
      var ended := barge.ended;
      Note(DropPlayback);
      AdmitNext();
      AdvanceTurn();
      StartTurn(ended);
    }

    method CompleteCancel()
      requires Valid()
      modifies Footprint()
      ensures Valid() && (transport == old(transport) || transport == null)
      ensures View() == VoiceActor.CompleteCancel(old(View()))
    {
      Fields();
      hide View, Valid, VoiceActor.FinishTurn, VoiceActor.ResumeAfterBarge;
      if finishAfterAck {
        FinishTurn();
        return;
      }
      if barge.admitted && !barge.overflow {
        ResumeAfterBarge();
        return;
      }
      ClearPre();
      FinishTurn();
    }

    // -------------------------------------------------------------------
    // Events
    // -------------------------------------------------------------------

    method HandleError(e: Inbound)
      requires Valid() && e.Error?
      modifies Footprint()
      ensures Valid() && (transport == old(transport) || transport == null)
      ensures View() == VoiceActor.HandleError(old(View()), e)
    {
      Fields();
      hide View, Valid, VoiceActor.FinishTurn, VoiceActor.CompleteCancel, VoiceActor.AbortCurrent,
           VoiceActor.LoseConnection;
      if e.code == "transport" || turn.session == 0 {
        LoseConnection();
      } else if e.ids.turn == 0 {
        LoseConnection();
      } else if e.code == "downlink_discontinuity" {
        if state != CancelPending {
          AbortCurrent();
        }
      } else if state == CancelPending {
        CompleteCancel();
      } else {
        FinishTurn();
      }
    }

    method HandleDone()
      requires Valid()
      modifies Footprint()
      ensures Valid() && (transport == old(transport) || transport == null)
      ensures View() == VoiceActor.HandleDone(old(View()))
    {
      hide View, Valid, VoiceActor.LoseConnection, VoiceActor.Ask;
      var playing := Ask();
      var ended := true;
      if playing {
        ended := Ask();
      }
      Note(EndPlayback);
      if playing && !ended {
        LoseConnection();
      } else {
        SetState(DrainingPlayback);
      }
    }

    method Greet(ids: WireIds)
      requires Valid()
      modifies this`turn, pre
      ensures Valid() && View() == old(View()).(turn := WireIds(ids.session, 1, 1, ids.epoch), pre := [])
    {
      turn := WireIds(ids.session, 1, 1, ids.epoch);
      pre.Clear();
    }

    method SetResponse(ids: WireIds)
      requires Valid()
      modifies this`response
      ensures Valid() && View() == old(View()).(response := ids)
    {
      response := ids;
    }

    method ResetBargeProbe()
      requires Valid()
      modifies this`barge
      ensures Valid() && View() == VoiceActor.ResetBargeProbe(old(View()))
    {
      barge := barge.(probe := Idle, probeFrames := 0, cooldown := 0);
    }

    method HandleEvent(e: Inbound)
      requires Valid()
      modifies Footprint()
      ensures Valid() && (transport == old(transport) || transport == null)
      ensures View() == VoiceActor.HandleEvent(old(View()), e)
    {
      Fields();
      hide View, Valid, VoiceActor.HandleError, VoiceActor.HandleDone, VoiceActor.FinishTurn, VoiceActor.CompleteCancel;
      hide VoiceActor.AbortCurrent, VoiceActor.LoseConnection, VoiceActor.ResetListener, VoiceActor.Ask,
           VoiceActor.ResetBargeProbe;
      if e.Error? {
        HandleError(e);
        return;
      }
      if e.Heartbeat? {
        return;
      }
      if state == CancelPending && !e.Cancelled? {
        return;
      }
      match e {
        case HelloAck(ids) => Greet(ids); ResetListener();
        case ResponseStart(ids) => SetResponse(ids);
        case TextDelta(_, _) =>
        case AudioStart(_) => HandleAudioStart();
        case Pcm(_, _, sequence, audio) =>
          Note(QueueTts(audio, sequence));
          var ok := Ask();
          if !ok { AbortCurrent(); }
        case Done(_) => HandleDone();
        case Cancelled(_) => if state == CancelPending { CompleteCancel(); } else { FinishTurn(); }
        case _ =>
      }
    }

    method HandleAudioStart()
      requires Valid()
      modifies Footprint()
      ensures Valid() && (transport == old(transport) || transport == null)
      ensures var (a1, ok) := VoiceActor.Ask(Call(old(View()), BeginPlayback));
              View() == if !ok then VoiceActor.LoseConnection(a1)
                        else VoiceActor.ResetBargeProbe(a1.(state := PlayingResponse))
    {
      hide View, Valid, VoiceActor.LoseConnection, VoiceActor.Ask, VoiceActor.ResetBargeProbe;
      Note(BeginPlayback);
      var ok := Ask();
      if !ok {
        LoseConnection();
        return;
      }
      SetState(PlayingResponse);
      ResetBargeProbe();
    }

    method TakeEvent() returns (e: Option<Inbound>)
      requires Valid()
      modifies events, events.slots
      ensures Valid()
      ensures var q := old(View()).queue;
              if q.items == [] then e == None && View() == old(View())
              else e == Some(q.items[0]) && View() == old(View()).(queue := VoiceActor.Pop(q))
    {
      e := events.Pop();
    }

    ghost method NoteActed(x: Acted)
      requires Valid()
      modifies this`hist
      ensures Valid()
      ensures View() == old(View()).(hist := old(View()).hist.(acted := old(View()).hist.acted + [x]))
    {
      hist := hist.(acted := hist.acted + [x]);
    }

    /** Takes the oldest event, if there is one, and acts on it. */
    method HandleOne() returns (taken: bool)
      requires Valid()
      modifies Footprint()
      ensures Valid() && (transport == old(transport) || transport == null)
      ensures taken <==> old(View()).queue.items != []
      ensures View() == if taken then VoiceActor.HandleOne(old(View())) else old(View())
    {
      Fields();
      hide View, Valid, VoiceActor.HandleEvent;
      ghost var a := View();
      var e := TakeEvent();
      if e.None? {
        return false;
      }
      NoteActed(Acted(e.value, a.turn, a.state, a.queue.good));
      HandleEvent(e.value);
      return true;
    }

    // -------------------------------------------------------------------
    // Frames
    // -------------------------------------------------------------------

    ghost method NoteHeard(f: Frame)
      requires Valid()
      modifies this`hist
      ensures Valid()
      ensures var h := old(View()).hist;
              View() == old(View()).(hist := h.(heard := h.heard + [f],
                since := if old(View()).state == CancelPending then h.since + [f] else h.since))
    {
      hist := hist.(heard := hist.heard + [f],
                    since := if state == CancelPending then hist.since + [f] else hist.since);
    }

    method AppendPre(f: Frame, limit: nat)
      requires Valid() && 0 < limit <= 67
      modifies pre, pre.slots
      ensures Valid()
      ensures var a := old(View());
              View() == a.(pre := if |a.pre| < limit then a.pre + [f] else (a.pre + [f])[1..])
    {
      pre.Append(f, limit);
    }

    method SavePreRoll(f: Frame)
      requires Valid()
      modifies this`barge, pre, pre.slots
      ensures Valid() && View() == VoiceActor.SavePreRoll(old(View()), f)
    {
      Fields();
      hide View, Valid;
      var keeping := state == CancelPending && barge.admitted;
      if keeping && pre.count == BARGE_BUFFER_FRAMES {
        SetBarge(barge.(overflow := true));
        return;
      }
      AppendPre(f, if barge.probe != Idle || keeping then BARGE_BUFFER_FRAMES else PRE_ROLL_FRAMES);
    }

    method KeepNewestPreRoll(count: nat)
      requires Valid()
      modifies pre
      ensures Valid() && View() == VoiceActor.KeepNewestPreRoll(old(View()), count)
    {
      pre.KeepNewest(count);
    }

    method TrackBargeUtterance(f: Frame)
      requires Valid()
      modifies this`barge
      ensures Valid() && View() == VoiceActor.TrackBargeUtterance(old(View()), f)
    {
      if f.nearVoice {
        barge := barge.(silence := 0);
      } else if barge.silence < BARGE_TAIL_FREEZE_FRAMES {
        barge := barge.(silence := barge.silence + 1);
      }
      if f.vadEnded {
        barge := barge.(ended := true);
      }
    }

    method AdmitBarge()
      requires Valid()
      modifies this`barge, this`finishAfterAck, this`hist
      ensures Valid()
      ensures var a := old(View());
              View() == a.(barge := a.barge.(probe := Idle, probeFrames := 0, cooldown := 0,
                                             admitted := true, ended := false, silence := 0, overflow := false),
                           finishAfterAck := false,
                           hist := a.hist.(atConfirm := a.pre, since := []))
    {
      ghost var held := pre.Contents();
      barge := barge.(probe := Idle, probeFrames := 0, cooldown := 0,
                      admitted := true, ended := false, silence := 0, overflow := false);
      finishAfterAck := false;
      hist := hist.(atConfirm := held, since := []);
    }

    method ConfirmBarge()
      requires Valid()
      modifies Footprint()
      ensures Valid() && (transport == old(transport) || transport == null)
      ensures View() == VoiceActor.ConfirmBarge(old(View()))
    {
      Fields();
      hide View, Valid, VoiceActor.SendControl, VoiceActor.LoseConnection;
      Note(DropPlayback);
      AdmitBarge();
      var ok := SendControl(ResponseCancel, response);
      if !ok {
        LoseConnection();
        return;
      }
      SetState(CancelPending);
    }

    method RejectBargeProbe()
      requires Valid()
      modifies this`barge
      ensures Valid() && View() == VoiceActor.RejectBargeProbe(old(View()))
    {
      barge := NO_BARGE.(cooldown := BARGE_RETRY_COOLDOWN_FRAMES);
    }

    method ProbeIdle(f: Frame)
      requires Valid()
      modifies this`barge, pre
      ensures Valid() && View() == VoiceActor.ProbeIdle(old(View()), f)
    {
      Fields();
      hide View, Valid, VoiceActor.KeepNewestPreRoll;
      if barge.cooldown != 0 {
        SetBarge(barge.(cooldown := barge.cooldown - 1));
        return;
      }
      if !BargeVoice(config, f) {
        SetBarge(barge.(probeFrames := 0));
        return;
      }
      if barge.probeFrames + 1 < BARGE_CANDIDATE_FRAMES {
        SetBarge(barge.(probeFrames := barge.probeFrames + 1));
        return;
      }
      var cooldown := barge.cooldown;
      KeepNewestPreRoll(BARGE_CANDIDATE_FRAMES);
      SetBarge(NO_BARGE.(probe := WaitReferenceLow, cooldown := cooldown));
    }

    method CountReference(active: bool)
      requires Valid()
      modifies this`barge
      ensures Valid()
      ensures var a := old(View());
              var b := a.barge;
              var quiet := if active then 0 else b.quiet + 1;
              View() == if quiet < BARGE_REFERENCE_LOW_FRAMES
                        then a.(barge := b.(probeFrames := b.probeFrames + 1, quiet := quiet))
                        else a.(barge := b.(probeFrames := 0, quiet := quiet, probe := Clear))
    {
      var quiet := if active then 0 else barge.quiet + 1;
      if quiet < BARGE_REFERENCE_LOW_FRAMES {
        barge := barge.(probeFrames := barge.probeFrames + 1, quiet := quiet);
      } else {
        barge := barge.(probeFrames := 0, quiet := quiet, probe := Clear);
      }
    }

    method ProbeReference(f: Frame)
      requires Valid()
      modifies this`barge
      ensures Valid() && View() == VoiceActor.ProbeReference(old(View()), f)
    {
      Fields();
      hide View, Valid, VoiceActor.RejectBargeProbe;
      if barge.probeFrames + 1 > BARGE_REFERENCE_WAIT_FRAMES {
        RejectBargeProbe();
        return;
      }
      CountReference(f.referenceActive);
    }

    method ProbeClear(f: Frame)
      requires Valid()
      modifies this`barge
      ensures Valid() && View() == VoiceActor.ProbeClear(old(View()), f)
    {
      Fields();
      hide View, Valid, VoiceActor.RejectBargeProbe;
      if f.referenceActive {
        RejectBargeProbe();
        return;
      }
      if barge.probeFrames + 1 < BARGE_ECHO_CLEAR_FRAMES {
        CountVoiced();
        return;
      }
      SetBarge(barge.(probeFrames := 0, probe := Verify));
    }

    method CountVoiced()
      requires Valid()
      modifies this`barge
      ensures Valid()
      ensures View() == old(View()).(barge := old(View()).barge.(probeFrames := old(View()).barge.probeFrames + 1))
    {
      barge := barge.(probeFrames := barge.probeFrames + 1);
    }

    lemma Verdict(a: Actor, f: Frame)
      requires a.config.bargeIn && a.barge.probe == Verify
      ensures var voiced := !f.referenceActive && BargeVoice(a.config, f);
              && VoiceActor.ProbeVerify(a, f) ==
                 (if voiced then a.(barge := a.barge.(probeFrames := a.barge.probeFrames + 1))
                  else VoiceActor.RejectBargeProbe(a))
              && (Confirms(a, f) <==> voiced && a.barge.probeFrames + 1 >= BARGE_CONFIRM_FRAMES)
    {
    }

    method ProbeVerify(f: Frame)
      requires Valid() && config.bargeIn && barge.probe == Verify
      modifies Footprint()
      ensures Valid() && (transport == old(transport) || transport == null)
      ensures var a := old(View());
              View() == if Confirms(a, f) then VoiceActor.ConfirmBarge(VoiceActor.ProbeVerify(a, f))
                        else VoiceActor.ProbeVerify(a, f)
    {
      Fields();
      hide View, Valid, VoiceActor.RejectBargeProbe, VoiceActor.ConfirmBarge;
      Verdict(View(), f);
      hide BargeVoice, Confirms, VoiceActor.ProbeVerify;
      if f.referenceActive || !BargeVoice(config, f) {
        RejectBargeProbe();
        return;
      }
      var frames := barge.probeFrames + 1;
      CountVoiced();
      if frames >= BARGE_CONFIRM_FRAMES {
        ConfirmBarge();
      }
    }

    method HandleBarge(f: Frame)
      requires Valid()
      modifies Footprint()
      ensures Valid() && (transport == old(transport) || transport == null)
      ensures View() == VoiceActor.HandleBarge(old(View()), f)
    {
      Fields();
      hide View, Valid, Confirms, VoiceActor.ResetBargeProbe, VoiceActor.ConfirmBarge;
      hide VoiceActor.ProbeIdle, VoiceActor.ProbeReference, VoiceActor.ProbeClear, VoiceActor.ProbeVerify;
      if !config.bargeIn {
        ResetBargeProbe();
        return;
      }
      match barge.probe {
        case Idle => ProbeIdle(f);
        case WaitReferenceLow => ProbeReference(f);
        case Clear => ProbeClear(f);
        case Verify => ProbeVerify(f);
      }
    }

    method DiscardUtterance()
      requires Valid()
      modifies this`barge, this`finishAfterAck
      ensures Valid() && View() == ResetBargeTurn(old(View())).(finishAfterAck := true)
    {
      barge := barge.(ended := false, admitted := false, overflow := false, quiet := 0, silence := 0);
      finishAfterAck := true;
    }

    method StartTimelineAnew()
      requires Valid()
      modifies this`hist
      ensures Valid() && View() == Restart(old(View()))
    {
      hist := hist.(heard := []);
    }

    method Rest()
      requires Valid()
      modifies this`state, this`audio, this`listenerFailed, this`hist
      ensures Valid() && View() == VoiceActor.ResetListener(Call(old(View()), DropPlayback).(state := WaitingForWake))
    {
      hide View, Valid, VoiceActor.ResetListener;
      Note(DropPlayback);
      SetState(WaitingForWake);
      ResetListener();
    }

    method GiveUp()
      requires Valid()
      modifies Footprint()
      ensures Valid() && (transport == old(transport) || transport == null)
      ensures View() == VoiceActor.GiveUp(old(View()))
    {
      Fields();
      hide View, Valid, VoiceActor.AbortCurrent, VoiceActor.ResetListener, ResetBargeTurn;
      match state {
        case CancelPending => DiscardUtterance();
        case WaitingForWake => Rest();
        case WaitingForSpeech => Rest();
        case WaitingForFollowUp => Rest();
        case _ => AbortCurrent();
      }
    }

    /** The capture stream broke before this frame. */
    method OnBreak()
      requires Valid()
      modifies Footprint()
      ensures Valid() && (transport == old(transport) || transport == null)
      ensures View() == VoiceActor.OnBreak(old(View()))
    {
      hide View, Valid, VoiceActor.GiveUp, Restart;
      ClearPre();
      StartTimelineAnew();
      GiveUp();
    }

    method Thaw(f: Frame)
      requires Valid()
      modifies this`barge
      ensures Valid() && View() == VoiceActor.Thaw(old(View()), f)
    {
      if state == CancelPending && !barge.ended && f.nearVoice {
        barge := barge.(silence := 0);
      }
    }

    method Buffer(f: Frame)
      requires Valid()
      modifies this`barge, this`hist, pre, pre.slots
      ensures Valid() && View() == VoiceActor.Buffer(old(View()), f)
    {
      Fields();
      hide View, Valid, VoiceActor.SavePreRoll;
      NoteHeard(f);
      var frozen := state == CancelPending && (barge.ended || barge.silence >= BARGE_TAIL_FREEZE_FRAMES);
      if state != CapturingSpeech && !frozen {
        SavePreRoll(f);
      }
    }

    method BeginListening()
      requires Valid()
      modifies this`state, this`audio, this`listenerFailed
      ensures Valid() && View() == VoiceActor.BeginListening(old(View()))
    {
      hide View, Valid, VoiceActor.ResetListener;
      SetState(WaitingForSpeech);
      ResetListener();
    }

    method OnCapturing(f: Frame)
      requires Valid()
      modifies Footprint()
      ensures Valid() && (transport == old(transport) || transport == null)
      ensures View() == VoiceActor.OnCapturing(old(View()), f)
    {
      Fields();
      hide View, Valid, VoiceActor.Commit, VoiceActor.SendAudioOrRecover;
      if upSeq + 1 >= MAXIMUM_TURN_FRAMES {
        Commit(f);
      } else if barge.ended || f.vadEnded {
        SetBarge(barge.(ended := false));
        Commit(f);
      } else {
        var ok := SendAudioOrRecover(f, false);
      }
    }

    method SetManualWake(on: bool)
      requires Valid()
      modifies this`manualWake
      ensures Valid() && View() == old(View()).(manualWake := on)
    {
      manualWake := on;
    }

    method CountNear(near: bool)
      requires Valid()
      modifies this`followUpNear
      ensures Valid()
      ensures View() == old(View()).(followUpNear := if near then old(View()).followUpNear + 1 else 0)
    {
      followUpNear := if near then followUpNear + 1 else 0;
    }

    method ListenForWake(f: Frame)
      requires Valid()
      modifies this`manualWake, this`state, this`audio, this`listenerFailed
      ensures Valid()
      ensures var a := old(View());
              View() == if a.manualWake then VoiceActor.BeginListening(a.(manualWake := false))
                        else if f.wake then VoiceActor.BeginListening(a) else a
    {
      Fields();
      hide View, Valid, VoiceActor.BeginListening;
      if manualWake {
        SetManualWake(false);
        BeginListening();
      } else if f.wake {
        BeginListening();
      }
    }

    method FollowUp(f: Frame)
      requires Valid()
      modifies Footprint()
      ensures Valid() && (transport == old(transport) || transport == null)
      ensures var a := old(View());
              View() == if !f.nearVoice then a.(followUpNear := 0)
                        else if a.followUpNear + 1 >= FOLLOW_UP_NEAR_FRAMES then
                          VoiceActor.StartTurn(a.(followUpNear := a.followUpNear + 1), false)
                        else a.(followUpNear := a.followUpNear + 1)
    {
      Fields();
      hide View, Valid, VoiceActor.StartTurn;
      CountNear(f.nearVoice);
      Fields();
      if f.nearVoice && followUpNear >= FOLLOW_UP_NEAR_FRAMES {
        StartTurn(false);
      }
    }

    method Dispatch(f: Frame)
      requires Valid()
      modifies Footprint()
      ensures Valid() && (transport == old(transport) || transport == null)
      ensures View() == VoiceActor.Dispatch(old(View()), f)
    {
      Fields();
      hide View, Valid, VoiceActor.StartTurn, VoiceActor.BeginListening, VoiceActor.OnCapturing;
      hide VoiceActor.HandleBarge, VoiceActor.TrackBargeUtterance, VoiceActor.ResetListener;
      if turn.session == 0 {
        if f.wake {
          ResetListener();
        }
        return;
      }
      match state {
        case WaitingForWake => ListenForWake(f);
        case WaitingForSpeech => if f.vadStarted { StartTurn(false); }
        case WaitingForFollowUp => FollowUp(f);
        case CapturingSpeech => OnCapturing(f);
        case PlayingResponse => HandleBarge(f);
        case CancelPending => TrackBargeUtterance(f);
        case DrainingPlayback => HandleBarge(f);
        case WaitingForResponse =>
      }
    }

    method ExpectAfter(f: Frame)
      requires Valid()
      modifies this`nextCapture
      ensures Valid() && View() == old(View()).(nextCapture := f.sequence + 1)
    {
      nextCapture := f.sequence + 1;
    }

    lemma OneFrame(a: Actor, f: Frame)
      ensures var a1 := a.(nextCapture := f.sequence + 1);
              VoiceActor.OnFrame(a, f) ==
              if f.discontinuity || f.sequence != a.nextCapture then VoiceActor.OnBreak(a1)
              else VoiceActor.Dispatch(VoiceActor.Buffer(VoiceActor.Thaw(a1, f), f), f)
    {
      hide VoiceActor.OnBreak, VoiceActor.Dispatch, VoiceActor.Buffer, VoiceActor.Thaw;
    }

    /** The one entry for captured frames. */
    method OnFrame(f: Frame)
      requires Valid()
      modifies Footprint()
      ensures Valid() && (transport == old(transport) || transport == null)
      ensures View() == VoiceActor.OnFrame(old(View()), f)
    {
      Fields();
      OneFrame(View(), f);
      hide View, Valid, VoiceActor.OnFrame, VoiceActor.OnBreak, VoiceActor.Dispatch, VoiceActor.Buffer, VoiceActor.Thaw;
      var gap := f.sequence != nextCapture;
      ExpectAfter(f);
      if f.discontinuity || gap {
        OnBreak();
        return;
      }
      Hear(f);
    }

    method Hear(f: Frame)
      requires Valid()
      modifies Footprint()
      ensures Valid() && (transport == old(transport) || transport == null)
      ensures View() == VoiceActor.Dispatch(VoiceActor.Buffer(VoiceActor.Thaw(old(View()), f), f), f)
    {
      hide View, Valid, VoiceActor.Dispatch, VoiceActor.Buffer, VoiceActor.Thaw;
      Thaw(f);
      Buffer(f);
      Dispatch(f);
    }

    // -------------------------------------------------------------------
    // The loop
    // -------------------------------------------------------------------

    method PollUi(u: UiAction)
      requires Valid()
      modifies Footprint()
      ensures Valid() && (transport == old(transport) || transport == null)
      ensures View() == VoiceActor.PollUi(old(View()), u)
    {
      Fields();
      hide View, Valid, VoiceActor.AbortCurrent;
      match u {
        case NoAction =>
        case Wake => if state == WaitingForWake && turn.session != 0 { SetManualWake(true); }
        case Interrupt => if state == PlayingResponse || state == DrainingPlayback { AbortCurrent(); }
      }
    }

    method FailListener()
      requires Valid()
      modifies this`listenerFailed
      ensures Valid() && View() == old(View()).(listenerFailed := true)
    {
      listenerFailed := true;
    }

    method StopListening()
      requires Valid()
      modifies this`state, this`audio, this`listenerFailed, pre
      ensures Valid()
      ensures View() == VoiceActor.ResetListener(old(View()).(state := WaitingForWake, pre := []))
    {
      hide View, Valid, VoiceActor.ResetListener;
      SetState(WaitingForWake);
      ClearPre();
      ResetListener();
    }

    method ExpireState()
      requires Valid()
      modifies Footprint()
      ensures Valid() && (transport == old(transport) || transport == null)
      ensures var a := old(View());
              View() == match a.state
                        case WaitingForSpeech => VoiceActor.ResetListener(a.(state := WaitingForWake, pre := []))
                        case WaitingForFollowUp => VoiceActor.ResetListener(a.(state := WaitingForWake, pre := []))
                        case CancelPending => VoiceActor.LoseConnection(a)
                        case _ => VoiceActor.AbortCurrent(a)
    {
      Fields();
      hide View, Valid, VoiceActor.AbortCurrent, VoiceActor.LoseConnection, VoiceActor.ResetListener;
      if state == WaitingForSpeech || state == WaitingForFollowUp {
        StopListening();
      } else if state == CancelPending {
        LoseConnection();
      } else {
        AbortCurrent();
      }
    }

    method AdvanceDeadlines(c: Clock) returns (current: bool)
      requires Valid()
      modifies Footprint()
      ensures Valid() && (transport == old(transport) || transport == null)
      ensures (View(), current) == VoiceActor.AdvanceDeadlines(old(View()), c)
    {
      Fields();
      hide View, Valid, VoiceActor.AbortCurrent, VoiceActor.LoseConnection, VoiceActor.ResetListener,
           VoiceActor.EndTurn;
      if turn.session == 0 {
        if transport == null || !c.stateExpired {
          return true;
        }
        LoseConnection();
        return false;
      }
      if c.heartbeatExpired {
        LoseConnection();
        return false;
      }
      if state == DrainingPlayback && c.playbackDone {
        if c.playbackFailed {
          FailListener();
        } else {
          EndTurn();
        }
        return false;
      }
      if state != WaitingForWake && c.stateExpired {
        ExpireState();
        return false;
      }
      return true;
    }

    method OpenLink()
      requires Valid()
      modifies this`transport, this`helloSent, this`hist
      ensures Valid() && transport != null && fresh(transport)
      ensures var a := old(View());
              View() == a.(link := Some(Fresh(a.config.uuid)), helloSent := false, hist := a.hist.(starts := []))
    {
      transport := new V.Impl(config.uuid);
      helloSent := false;
      hist := hist.(starts := []);
    }

    method StartConnect(started: bool)
      requires Valid()
      modifies Footprint()
      ensures Valid() && (transport == null || fresh(transport))
      ensures View() == VoiceActor.StartConnect(old(View()), started)
    {
      hide View, Valid, VoiceActor.LoseConnection, Fresh;
      OpenLink();
      if !started {
        LoseConnection();
      }
    }

    method Connected() returns (yes: bool)
      requires Valid() && transport != null
      ensures View().link.Some? && yes == View().link.value.connected
    {
      yes := transport.connected;
    }

    method MarkHello()
      requires Valid()
      modifies this`helloSent
      ensures Valid() && View() == old(View()).(helloSent := true)
    {
      helloSent := true;
    }

    method FinishConnect()
      requires Valid()
      modifies Footprint()
      ensures Valid() && (transport == old(transport) || transport == null)
      ensures View() == VoiceActor.FinishConnect(old(View()))
    {
      Fields();
      hide View, Valid, VoiceActor.SendControl, VoiceActor.LoseConnection;
      if transport == null || helloSent {
        return;
      }
      var open := Connected();
      if !open {
        return;
      }
      var ok := SendControl(Hello, ZERO_IDS);
      if ok {
        MarkHello();
      } else {
        LoseConnection();
      }
    }

    /** What the network did meanwhile, and then a look at the queue. */
    method TakeStep(ns: seq<NetEvent>, handled: nat) returns (taken: bool)
      requires Valid() && handled < EVENTS_PER_FRAME && transport != null && !listenerFailed
      modifies Footprint()
      ensures Valid() && (transport == old(transport) || transport == null)
      ensures Step(System(ReceiveAll(old(View()), ns), Draining(handled)), Take)
              == System(View(), Draining(if taken then handled + 1 else handled))
      ensures !taken ==> View().queue.items == []
    {
      Fields();
      TakeEffect(View(), ns, handled);
      hide View, Valid, Step, ReceiveAll, VoiceActor.HandleOne;
      Interfere(ns);
      taken := HandleOne();
    }

    /** At most eight events per captured frame; stops at a lost link, a failed listener or an empty queue. */
    method DrainEvents(busy: seq<seq<NetEvent>>) returns (ghost pops: nat, ghost tries: nat)
      requires Valid()
      modifies Footprint()
      ensures Valid() && (transport == old(transport) || transport == null)
      ensures pops <= tries <= 8
      ensures Run(System(old(View()), Draining(0)), Takes(busy, tries)) == System(View(), Draining(pops))
      ensures pops == 8 || View().link.None? || View().listenerFailed || View().queue.items == []
    {
      hide View, Valid, Step, ReceiveAll, Run, Takes;
      ghost var start := System(View(), Draining(0));
      var handled := 0;
      pops, tries := 0, 0;
      NoTakes(start, busy);
      while handled < EVENTS_PER_FRAME
        invariant pops == tries == handled <= 8
        invariant Valid() && (transport == old(transport) || transport == null)
        invariant Run(start, Takes(busy, tries)) == System(View(), Draining(pops))
      {
        Fields();
        if transport == null || listenerFailed {
          return;
        }
        TakesMore(start, busy, tries, View(), pops);
        tries := tries + 1;
        var taken := TakeStep(Burst(busy, handled), handled);
        if !taken {
          return;
        }
        handled := handled + 1;
        pops := handled;
      }
    }

    method Overflowed() returns (yes: bool)
      requires Valid()
      ensures yes == View().queue.overflow
    {
      yes := events.overflow;
    }

    method BeginIteration(connect: bool, started: bool) returns (running: bool)
      requires Valid()
      modifies Footprint()
      ensures Valid() && (transport == old(transport) || transport == null || fresh(transport))
      ensures System(View(), if running then Draining(0) else Stopped) ==
              Step(System(old(View()), Top), Begin(connect, started))
    {
      Fields();
      hide View, Valid, VoiceActor.StartConnect, VoiceActor.FinishConnect;
      if connect && transport == null {
        StartConnect(started);
      }
      Fields();
      if listenerFailed {
        return false;
      }
      FinishConnect();
      return true;
    }

    method CheckQueue()
      requires Valid()
      modifies Footprint()
      ensures Valid() && (transport == old(transport) || transport == null)
      ensures View() == if old(View()).queue.overflow then VoiceActor.LoseConnection(old(View())) else old(View())
    {
      hide View, Valid, VoiceActor.LoseConnection;
      var overflow := Overflowed();
      if overflow {
        LoseConnection();
      }
    }

    method EndIteration(clock: Clock, frame: Option<Frame>) returns (running: bool)
      requires Valid()
      modifies Footprint()
      ensures Valid() && (transport == old(transport) || transport == null)
      ensures System(View(), if running then Top else Stopped)
              == Step(System(old(View()), Checked), Finish(clock, frame))
    {
      hide View, Valid, VoiceActor.AdvanceDeadlines, VoiceActor.OnFrame, Restart;
      var current := AdvanceDeadlines(clock);
      Fields();
      if listenerFailed {
        return false;
      }
      if frame.None? {
        return true;
      }
      if !current {
        ExpectAfter(frame.value);
        StartTimelineAnew();
        return true;
      }
      OnFrame(frame.value);
      Fields();
      return !listenerFailed;
    }

    method Opening(ghost start: System, connect: bool, started: bool, ns: seq<NetEvent>)
      returns (running: bool, ghost ops: seq<Op>)
      requires Valid() && start == System(View(), Top)
      modifies Footprint()
      ensures Valid() && (transport == old(transport) || transport == null || fresh(transport))
      ensures Run(start, ops) == System(View(), if running then Draining(0) else Stopped)
      ensures ops == Nets(ns) + [Begin(connect, started)]
    {
      NoTakes(start, []);
      Onward(start, [], View(), Top, ns, Begin(connect, started));
      hide View, Valid, Step, Run, ReceiveAll, Nets;
      Interfere(ns);
      running := BeginIteration(connect, started);
      ops := Nets(ns) + [Begin(connect, started)];
    }

    method Drain(ghost start: System, ghost before: seq<Op>, busy: seq<seq<NetEvent>>)
      returns (ghost pops: nat, ghost tries: nat, ghost ops: seq<Op>)
      requires Valid() && Run(start, before) == System(View(), Draining(0))
      modifies Footprint()
      ensures Valid() && (transport == old(transport) || transport == null) && tries <= 8
      ensures Run(start, ops) == System(View(), Draining(pops)) && ops == before + Takes(busy, tries)
    {
      hide View, Valid, Run, Takes;
      pops, tries := DrainEvents(busy);
      RunJoin(start, before, Takes(busy, tries));
      ops := before + Takes(busy, tries);
    }

    method PollStep(ghost start: System, ghost before: seq<Op>, ghost pops: nat, u: UiAction, ns: seq<NetEvent>)
      returns (running: bool, ghost ops: seq<Op>)
      requires Valid() && Run(start, before) == System(View(), Draining(pops))
      modifies Footprint()
      ensures Valid() && (transport == old(transport) || transport == null)
      ensures Run(start, ops) == System(View(), if running then Polled else Stopped)
      ensures ops == before + Nets(ns) + [Poll(u)]
    {
      hide View, Valid, Run, ReceiveAll, Nets, VoiceActor.PollUi;
      Onward(start, before, View(), Draining(pops), ns, Poll(u));
      Interfere(ns);
      PollUi(u);
      Fields();
      running, ops := !listenerFailed, before + Nets(ns) + [Poll(u)];
    }

    method CheckStep(ghost start: System, ghost before: seq<Op>, ns: seq<NetEvent>) returns (ghost ops: seq<Op>)
      requires Valid() && Run(start, before) == System(View(), Polled)
      modifies Footprint()
      ensures Valid() && (transport == old(transport) || transport == null)
      ensures Run(start, ops) == System(View(), Checked) && ops == before + Nets(ns) + [CheckOverflow]
    {
      hide View, Valid, Run, ReceiveAll, Nets, VoiceActor.LoseConnection;
      Onward(start, before, View(), Polled, ns, CheckOverflow);
      Interfere(ns);
      CheckQueue();
      ops := before + Nets(ns) + [CheckOverflow];
    }

    method Closing(ghost start: System, ghost before: seq<Op>, clock: Clock, frame: Option<Frame>, ns: seq<NetEvent>)
      returns (running: bool, ghost ops: seq<Op>)
      requires Valid() && Run(start, before) == System(View(), Checked)
      modifies Footprint()
      ensures Valid() && (transport == old(transport) || transport == null)
      ensures Run(start, ops) == System(View(), if running then Top else Stopped)
      ensures ops == before + Nets(ns) + [Finish(clock, frame)]
    {
      hide View, Valid, Run, Step, ReceiveAll, Nets;
      Onward(start, before, View(), Checked, ns, Finish(clock, frame));
      Interfere(ns);
      running := EndIteration(clock, frame);
      ops := before + Nets(ns) + [Finish(clock, frame)];
    }

    /**
     * One turn of the loop is one run of the model, the network getting in
     * before each of its steps; it breaks off when the listener fails.
     */
    method Iterate(connect: bool, started: bool, u: UiAction, clock: Clock, frame: Option<Frame>, w: Arrivals)
      returns (running: bool, ghost tries: nat, ghost ops: seq<Op>)
      requires Valid()
      modifies Footprint()
      ensures Valid() && tries <= 8
      ensures System(View(), if running then Top else Stopped) == Run(System(old(View()), Top), ops)
      ensures var whole := Iteration(connect, started, u, clock, frame, w, tries);
              ops <= whole && (running ==> ops == whole)
    {
      hide View, Valid, Run, Takes, Nets, Iteration;
      ghost var start := System(View(), Top);
      tries := 0;
      running, ops := Opening(start, connect, started, w.begin);
      if !running {
        BrokenOff(connect, started, u, clock, frame, w, tries);
        return;
      }
      ghost var pops;
      pops, tries, ops := Drain(start, ops, w.drain);
      BrokenOff(connect, started, u, clock, frame, w, tries);
      running, ops := PollStep(start, ops, pops, u, w.poll);
      if !running {
        return;
      }
      ops := CheckStep(start, ops, w.check);
      running, ops := Closing(start, ops, clock, frame, w.finish);
    }
  }
}
