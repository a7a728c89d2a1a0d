/** Every operation of the actor keeps the joint invariant. */
module ActorSafety {
  import opened WireTypes
  import opened ClientTransport
  import opened VoiceActor
  import opened ActorInvariant
  import opened ActorResponse
  import P = TransportProofs

  ghost predicate StartsOk(starts: seq<WireIds>, link: Option<Transport>) {
    && (forall i, j :: 0 <= i < j < |starts| ==> starts[i].epoch < starts[j].epoch)
    && (link.Some? ==> forall i :: 0 <= i < |starts| ==> starts[i].epoch <= link.value.turn.epoch)
  }

  /**
   * No event is taken past a lost one, and whatever belongs to a turn names the
   * actor's own.  Response data is ignored while a cancel is out; otherwise it,
   * and the end of the response, find the actor waiting for the response or
   * playing it, and audio finds it playing.  An acknowledgement meets the cancel it answers, a greeting
   * meets an actor without a session.
   */
  ghost predicate ActedRightly(x: Acted) {
    && x.good >= 1
    && (Belongs(x.event) ==> SameTurn(x.event.ids, x.turn) && x.turn.session != 0)
    && ((IsData(x.event) || x.event.Done?) && x.state != CancelPending ==>
          x.state == WaitingForResponse || x.state == PlayingResponse)
    && (x.event.Pcm? ==> x.state == PlayingResponse || x.state == CancelPending)
    && (x.event.Cancelled? ==> x.state == CancelPending)
    && (x.event.HelloAck? ==> x.turn.session == 0)
  }

  ghost predicate HistOk(a: Actor) {
    && StartsOk(a.hist.starts, a.link) && !a.hist.refused
    && (forall i :: 0 <= i < |a.hist.acted| ==> ActedRightly(a.hist.acted[i]))
    && Answered(a.hist.acted, a.turn, a.response)
  }

  ghost predicate Live(a: Actor, k: nat) {
    a.link.Some? && HistOk(a) && Core(a.link.value, a.queue, a.turn, a.response, a.state, k)
  }

  ghost predicate Lost(a: Actor) {
    && a.link.None? && HistOk(a) && a.queue == EMPTY_QUEUE
    && a.turn == ZERO_IDS && a.response == ZERO_IDS && a.state == WaitingForWake
  }

  ghost predicate In(a: Actor) {
    a.link.Some? && Within(a.link.value, a.queue.items, a.turn, a.state)
  }

  ghost predicate Out(a: Actor) {
    a.link.Some? && Between(a.link.value, a.queue.items, a.turn, a.response)
  }

  /** What the actor knows of its response agrees with its transport and its queue. */
  ghost predicate Told(a: Actor) {
    && a.link.Some? && Tracks(a.link.value, a.queue, a.turn, a.response, a.state)
    && (a.state == CapturingSpeech ==> a.link.value.upSeq == a.upSeq)
  }

  /** A turn being captured can still take frames. */
  predicate Unended(a: Actor) { a.state == CapturingSpeech && a.link.Some? ==> !a.link.value.uplinkEnded }

  ghost predicate Ok(a: Actor, k: nat) {
    Lost(a) || (Live(a, k) && Told(a) && Unended(a) && (a.state == CancelPending ==> In(a)))
  }

  /** Only the connection moved, and not what the actor has sent on it. */
  ghost predicate Moved(a: Actor, b: Actor) {
    && b == a.(link := b.link, queue := b.queue, net := b.net)
    && a.link.Some? && b.link.Some?
    && b.link.value.turn == a.link.value.turn && b.link.value.sent == a.link.value.sent
    && b.link.value.upSeq == a.link.value.upSeq && b.link.value.uplinkEnded == a.link.value.uplinkEnded
  }

  lemma EventCore(t: Transport, q: Queue, turn: WireIds, response: WireIds, state: State, n: NetEvent, k: nat)
    requires Core(t, q, turn, response, state, k)
    ensures var (u, e) := OnNet(t, n);
            && u.turn == t.turn && u.sent == t.sent && u.upSeq == t.upSeq && u.uplinkEnded == t.uplinkEnded
            && Core(u, Queued(q, e), turn, response, state, k)
            && (Within(t, q.items, turn, state) ==> Within(u, Queued(q, e).items, turn, state))
            && (Between(t, q.items, turn, response) ==> Between(u, Queued(q, e).items, turn, response))
            && (Tracks(t, q, turn, response, state) ==> Tracks(u, Queued(q, e), turn, response, state))
  {
    EventEffect(t, n);
    P.SoundNet(t, n);
    var (u, e) := OnNet(t, n);
    CorePush(t, u, q, e, turn, response, state, k);
    if Tracks(t, q, turn, response, state) { TracksPush(t, u, q, e, turn, response, state, k); }
    hide OnNet, Core, Within, Between, P.Sound, Tracks;
  }

  lemma ReceiveOk(a: Actor, n: NetEvent, k: nat)
    requires Live(a, k)
    ensures var b := Receive(a, n);
            Live(b, k) && Moved(a, b) && (In(a) ==> In(b)) && (Out(a) ==> Out(b)) && (Told(a) ==> Told(b))
  {
    hide OnNet, Core, Within, Between, Tracks, Answered;
    EventCore(a.link.value, a.queue, a.turn, a.response, a.state, n, k);
  }

  lemma {:induction false} ReceiveAllOk(a: Actor, ns: seq<NetEvent>, k: nat)
    requires Live(a, k)
    ensures var b := ReceiveAll(a, ns);
            Live(b, k) && Moved(a, b) && (In(a) ==> In(b)) && (Out(a) ==> Out(b)) && (Told(a) ==> Told(b))
    decreases |ns|
  {
    hide Live, In, Out, Told, Receive;
    if ns != [] {
      ReceiveOk(a, ns[0], k);
      ReceiveAllOk(Receive(a, ns[0]), ns[1..], k);
    } else {
      assert Moved(a, a) by { assert a.link.Some? by { LiveLinked(a, k); } }
    }
  }

  lemma LiveLinked(a: Actor, k: nat)
    requires Live(a, k)
    ensures a.link.Some?
  {
  }

  lemma LockedOk(a: Actor, k: nat)
    requires Live(a, k)
    ensures var b := Locked(a);
            Live(b, k) && Moved(a, b) && (In(a) ==> In(b)) && (Out(a) ==> Out(b)) && (Told(a) ==> Told(b))
  {
    var a1 := a.(net := if a.net == [] then [] else a.net[1..]);
    ReceiveAllOk(a1, NextSlot(a).before, k);
  }

  lemma LoseOk(a: Actor, k: nat)
    requires HistOk(a.(link := None))
    ensures Ok(LoseConnection(a), k) && Lost(LoseConnection(a))
  {
  }

  lemma HistForgets(a: Actor)
    requires HistOk(a)
    ensures HistOk(a.(link := None))
  {
  }

  /** Fields the invariant does not look at. */
  ghost predicate SameCore(a: Actor, b: Actor) {
    && a.link == b.link && a.queue == b.queue && a.turn == b.turn && a.response == b.response
    && a.state == b.state && a.hist.starts == b.hist.starts
    && a.hist.refused == b.hist.refused && a.hist.acted == b.hist.acted && a.upSeq == b.upSeq
  }

  lemma SameCoreOk(a: Actor, b: Actor, k: nat)
    requires Ok(a, k) && SameCore(a, b)
    ensures Ok(b, k)
  {
    hide Core, Within;
  }

  lemma SameHist(a: Actor, b: Actor)
    requires HistOk(a.(link := None)) && SameCore(a, b)
    ensures HistOk(b.(link := None))
  {
  }

  lemma DropOk(a: Actor, k: nat)
    requires Ok(a, k)
    ensures Ok(LoseConnection(a), k)
  {
    hide Core, Within;
    HistForgets(a);
    LoseOk(a, k);
  }

  // ---------------------------------------------------------------------
  // Cancelling
  // ---------------------------------------------------------------------

  lemma CoreCancel(t: Transport, t': Transport, q: Queue, turn: WireIds, response: WireIds, state: State, k: nat)
    requires Core(t, q, turn, response, state, k) && Within(t, q.items, turn, state)
    requires state != CancelPending
    requires P.Sound(t') && t' == t.(cancelSent := true, sent := t'.sent)
    ensures Core(t', q, turn, response, CancelPending, k) && Within(t', q.items, turn, CancelPending)
  {
    hide P.Sound, Closing, Belongs;
    forall i | 0 <= i < |q.items|
      ensures Fits(q.items[i], t', CancelPending)
    {
      assert Fits(q.items[i], t, state);
    }
  }

  lemma CancelSent(t: Transport, c: Control, net: NetReply, q: Queue, turn: WireIds, response: WireIds,
                   state: State, k: nat)
    requires Core(t, q, turn, response, state, k) && Within(t, q.items, turn, state)
    requires state != CancelPending && IsCancel(c.kind)
    ensures var (u, r) := Send(t, c, net);
            && u.turn == t.turn
            && (r == Accepted ==>
                  Core(u, q, turn, response, CancelPending, k) && Within(u, q.items, turn, CancelPending))
  {
    CoreSound(t, q, turn, response, state, k);
    P.SoundSend(t, c, net);
    var (u, r) := Send(t, c, net);
    assert r == Accepted ==> u == t.(cancelSent := true, sent := u.sent);
    hide Core, Within, P.Sound, Send;
    if r == Accepted {
      CoreCancel(t, u, q, turn, response, state, k);
    }
  }

  /** A cancel taken by the transport, followed by the actor's wait for its answer. */
  lemma CancelOk(a: Actor, kind: ControlKind, ids: WireIds, k: nat)
    requires Live(a, k) && In(a) && a.state != CancelPending && IsCancel(kind)
    ensures var (b, r) := SendControl(a, kind, ids);
            && HistOk(b)
            && (r == Accepted ==> Ok(b.(state := CancelPending), k) && In(b.(state := CancelPending)))
  {
    hide Core, Within, Locked, Answered, Follows, Send;
    LockedOk(a, k);
    var a1 := Locked(a);
    CancelSent(a1.link.value, Control(kind, ids, a.config.tokenValid), NextSlot(a).reply,
               a1.queue, a.turn, a.response, a.state, k);
  }

  lemma CoreSound(t: Transport, q: Queue, turn: WireIds, response: WireIds, state: State, k: nat)
    requires Core(t, q, turn, response, state, k)
    ensures P.Sound(t)
  {
  }

  lemma AbortOk(a: Actor, k: nat)
    requires Live(a, k) && In(a) && a.state != CancelPending
    ensures Ok(AbortCurrent(a), k)
  {
    hide Core, Within, SendControl;
    var a1 := Call(a, DropPlayback).(barge := NO_BARGE, finishAfterAck := true);
    var kind := if a.response.session != 0 then ResponseCancel else TurnCancel;
    var ids := if a.response.session != 0 then a.response else a.turn;
    CancelOk(a1, kind, ids, k);
    HistForgets(SendControl(a1, kind, ids).0);
    LoseOk(SendControl(a1, kind, ids).0, k);
  }

  // ---------------------------------------------------------------------
  // Uploading a turn
  // ---------------------------------------------------------------------

  lemma CoreSpeak(t: Transport, t': Transport, q: Queue, turn: WireIds, response: WireIds, state: State, k: nat)
    requires Core(t, q, turn, response, state, k)
    requires P.Sound(t') && t' == t.(upSeq := t'.upSeq, uplinkEnded := t'.uplinkEnded, sent := t'.sent)
    ensures Core(t', q, turn, response, state, k)
    ensures Within(t, q.items, turn, state) ==> Within(t', q.items, turn, state)
  {
    hide P.Sound, Closing, Belongs;
    forall i | 0 <= i < |q.items|
      ensures Fits(q.items[i], t', state)
    {
      assert Fits(q.items[i], t, state);
    }
  }

  lemma SendAudioOk(a: Actor, f: Frame, end: bool, k: nat)
    requires Live(a, k) && In(a)
    ensures var b := SendAudio(a, f, end).0;
            && Live(b, k) && In(b) && (Told(a) ==> Told(b)) && (!end && Unended(a) ==> Unended(b))
            && b == a.(link := b.link, queue := b.queue, net := b.net, upSeq := b.upSeq)
  {
    hide Core, Within, P.Sound, Locked, SendPcm;
    LockedOk(a, k);
    var a1 := Locked(a);
    var t := a1.link.value;
    var flags := Flags(a.upSeq == 0, end);
    var t' := SendPcm(t, a.turn, flags, a.upSeq, f.pcm, NextSlot(a).reply).0;
    CoreSound(t, a1.queue, a.turn, a.response, a.state, k);
    SpeakEffect(t, a.turn, flags, a.upSeq, f.pcm, NextSlot(a).reply);
    CoreSpeak(t, t', a1.queue, a.turn, a.response, a.state, k);
    if Told(a) { TracksQuietly(t, t', a1.queue, a.turn, a.response, a.state); }
    hide Tracks;
  }

  lemma SpeakEffect(t: Transport, ids: WireIds, flags: u16, sequence: nat, pcm: seq<byte>, net: NetReply)
    requires P.Sound(t)
    ensures var t' := SendPcm(t, ids, flags, sequence, pcm, net).0;
            P.Sound(t') && t' == t.(upSeq := t'.upSeq, uplinkEnded := t'.uplinkEnded, sent := t'.sent)
    ensures var (t', r) := SendPcm(t, ids, flags, sequence, pcm, net);
            if r == SendOutcome.Ok then t'.upSeq == t.upSeq + 1 && t'.uplinkEnded == EndFlag(flags) else t' == t
  {
  }

  lemma SendOrRecoverOk(a: Actor, f: Frame, end: bool, k: nat)
    requires Live(a, k) && In(a) && Told(a) && a.state == CapturingSpeech
    ensures var (b, ok) := SendAudioOrRecover(a, f, end);
            && (!ok || (!end && Unended(a)) ==> Ok(b, k)) && (ok && !end && Unended(a) ==> Unended(b))
            && (ok ==> Live(b, k) && In(b) && Told(b) && b.state == CapturingSpeech && b.turn == a.turn)
  {
    hide Core, Within, Tracks, SendAudio, AbortCurrent;
    SendAudioOk(a, f, end, k);
    var b := SendAudio(a, f, end).0;
    AbortOk(b, k);
    HistForgets(b);
    LoseOk(b, k);
  }

  lemma CapturingOk(a: Actor, k: nat)
    requires Live(a, k) && In(a) && Told(a) && Unended(a)
    ensures Ok(a, k)
  {
  }

  lemma {:induction false} UploadOk(a: Actor, frames: seq<Frame>, i: nat, ended: bool, k: nat)
    requires i <= |frames|
    requires Live(a, k) && In(a) && Told(a) && a.state == CapturingSpeech
    ensures var (b, ok) := Upload(a, frames, i, ended);
            && (!ok || (!ended && Unended(a)) ==> Ok(b, k))
            && (ok ==> Live(b, k) && In(b) && Told(b) && b.state == CapturingSpeech && b.turn == a.turn)
    decreases |frames| - i
  {
    hide Ok, Live, In, Told, Unended, SendAudioOrRecover;
    if Unended(a) { CapturingOk(a, k); }
    if i < |frames| {
      var end := ended && i + 1 == |frames|;
      SendOrRecoverOk(a, frames[i], end, k);
      var (b, ok) := SendAudioOrRecover(a, frames[i], end);
      if ok {
        UploadOk(b, frames, i + 1, ended, k);
      }
    }
  }

  lemma CoreCommit(t: Transport, t': Transport, q: Queue, turn: WireIds, response: WireIds, k: nat)
    requires Core(t, q, turn, response, CapturingSpeech, k)
    requires P.Sound(t') && t' == t.(committed := true, sent := t'.sent)
    ensures Core(t', q, turn, response, WaitingForResponse, k)
  {
    hide P.Sound, Closing, Belongs;
    forall i | 0 <= i < |q.items|
      ensures Fits(q.items[i], t', WaitingForResponse)
    {
      assert Fits(q.items[i], t, CapturingSpeech);
    }
  }

  lemma SendCommitOk(a: Actor, k: nat)
    requires Live(a, k) && In(a) && Told(a) && a.state == CapturingSpeech
    ensures Ok(SendCommit(a), k)
  {
    hide Core, Within, P.Sound, Locked, Answered;
    LockedOk(a, k);
    var a1 := Locked(a);
    var t := a1.link.value;
    var c := Control(TurnCommit, a.turn, a.config.tokenValid);
    CoreSound(t, a1.queue, a.turn, a.response, a.state, k);
    P.SoundSend(t, c, NextSlot(a).reply);
    var (b, r) := SendControl(a, TurnCommit, a.turn);
    HistForgets(b);
    LoseOk(b, k);
    if r == Accepted {
      CoreCommit(t, b.link.value, a1.queue, a.turn, a.response, k);
      hide Follows;
      FollowsQuietly(t, b.link.value, a1.queue, a.response, CapturingSpeech, WaitingForResponse);
    }
  }

  lemma CommitOk(a: Actor, f: Frame, k: nat)
    requires Live(a, k) && In(a) && Told(a) && a.state == CapturingSpeech
    ensures Ok(Commit(a, f), k)
  {
    hide Live, In, Told, SendAudioOrRecover, SendCommit;
    SendOrRecoverOk(a, f, true, k);
    var (b, ok) := SendAudioOrRecover(a, f, true);
    if ok {
      SendCommitOk(b, k);
    }
  }

  // ---------------------------------------------------------------------
  // Starting a turn
  // ---------------------------------------------------------------------

  /** Between turns the transport has no reason to refuse the next one. */
  lemma NextTurnAllowed(t: Transport, q: Queue, turn: WireIds, response: WireIds, state: State, k: nat)
    requires Core(t, q, turn, response, state, k) && Between(t, q.items, turn, response)
    requires turn.session != 0
    ensures TurnStartAllowed(t, turn) && turn.epoch > t.turn.epoch
  {
  }

  lemma CoreOpen(t: Transport, t': Transport, q: Queue, turn: WireIds, response: WireIds, state: State, k: nat)
    requires Core(t, q, turn, response, state, k) && Between(t, q.items, turn, response)
    requires turn.session != 0
    requires P.Sound(t') && t' == AfterControl(t, Control(TurnStart, turn, true)).(sent := t'.sent)
    ensures Core(t', q, turn, response, CapturingSpeech, k)
    ensures Within(t', q.items, turn, CapturingSpeech)
  {
    hide P.Sound;
  }

  lemma IssueStartOk(a: Actor, k: nat)
    requires Live(a, k) && Out(a) && a.turn.session != 0
    ensures var (b, r) := IssueStart(a);
            && r != Refused && HistOk(b.(link := None))
            && (r == Accepted ==>
                var c := b.(upSeq := 0, state := CapturingSpeech);
                Live(c, k) && In(c) && Told(c) && Unended(c))
  {
    hide Core, Within, Between, P.Sound, Locked;
    LockedOk(a, k);
    var a1 := Locked(a);
    var t := a1.link.value;
    var c := Control(TurnStart, a.turn, a.config.tokenValid);
    CoreSound(t, a1.queue, a.turn, a.response, a.state, k);
    NextTurnAllowed(t, a1.queue, a.turn, a.response, a.state, k);
    P.SoundSend(t, c, NextSlot(a).reply);
    var (b, r) := IssueStart(a);
    if r == Accepted {
      CoreOpen(t, b.link.value, a1.queue, a.turn, a.response, a.state, k);
      OpenFacts(t, a1.queue.items, a.turn, a.response);
      hide Follows, Clean;
      FollowsOpen(b.link.value, a1.queue, CapturingSpeech);
    }
  }

  lemma OpenFacts(t: Transport, items: seq<Inbound>, turn: WireIds, response: WireIds)
    requires Between(t, items, turn, response)
    ensures Clean(items) && response == ZERO_IDS
  {
  }

  lemma UploadBufferedOk(a: Actor, ended: bool, k: nat)
    requires Live(a, k) && In(a) && Told(a) && Unended(a) && a.state == CapturingSpeech
    ensures Ok(UploadBuffered(a, ended), k)
  {
    hide Ok, Live, In, Told, Unended, Upload, SendCommit, LoseConnection, SameCore;
    CapturingOk(a, k);
    DropOk(a, k);
    UploadOk(a, a.pre, 0, ended, k);
    var (b, ok) := Upload(a, a.pre, 0, ended);
    var c := b.(pre := []);
    ForgetPre(b);
    if ok && ended {
      StillIn(b, c, k);
      SendCommitOk(c, k);
    } else if ok {
      SameCoreOk(b, c, k);
    }
  }

  lemma ForgetPre(a: Actor)
    ensures SameCore(a, a.(pre := []))
  {
  }

  lemma StartTurnOk(a: Actor, ended: bool, k: nat)
    requires Live(a, k) && Out(a) && a.turn.session != 0
    ensures Ok(StartTurn(a, ended), k)
  {
    hide Core, Within, Between, IssueStart, UploadBuffered;
    IssueStartOk(a, k);
    var (a1, r) := IssueStart(a);
    LoseOk(a1, k);
    if r == Accepted {
      UploadBufferedOk(a1.(upSeq := 0, state := CapturingSpeech), ended, k);
    }
  }

  // ---------------------------------------------------------------------
  // Ending a turn
  // ---------------------------------------------------------------------

  /** The transport has nothing more to say about the turn the actor is in. */
  ghost predicate Settled(a: Actor) {
    && In(a) && !a.link.value.active && Clean(a.queue.items)
    && !(a.link.value.responseDone && a.link.value.cancelSent)
  }

  lemma CoreAdvance(t: Transport, q: Queue, turn: WireIds, response: WireIds, state: State, state': State, k: nat)
    requires Core(t, q, turn, response, state, k) && Within(t, q.items, turn, state)
    requires !t.active && Clean(q.items) && !(t.responseDone && t.cancelSent)
    requires state' == CancelPending || Resting(state')
    ensures var next := WireIds(turn.session, turn.turn + 1, turn.stream + 1, turn.epoch + 1);
            Core(t, q, next, ZERO_IDS, state', k) && Between(t, q.items, next, ZERO_IDS) && next.session != 0
  {
    hide P.Sound;
    assert ValidIds(turn);
  }

  lemma AdvanceOk(a: Actor, state': State, k: nat)
    requires Live(a, k) && Settled(a)
    requires state' == CancelPending || Resting(state')
    ensures var b := AdvanceTurn(a).(state := state');
            Live(b, k) && Out(b) && b.turn.session != 0
  {
    hide Core, Within, Between;
    CoreAdvance(a.link.value, a.queue, a.turn, a.response, a.state, state', k);
    NextTurnUnheard(a.hist.acted, a.turn.epoch, AdvanceTurn(a).turn);
    hide Recorded, UpTo;
  }

  lemma EndTurnOk(a: Actor, k: nat)
    requires Live(a, k) && Settled(a)
    ensures Ok(EndTurn(a), k)
  {
    hide Core, Within, Between;
    var a1 := a.(barge := NO_BARGE, followUpNear := 0, finishAfterAck := false);
    AdvanceOk(a1, WaitingForFollowUp, k);
    var b := EndTurn(a);
    RestingTracks(b.link.value, b.queue, b.turn, b.response, b.state, k);
    hide Tracks;
  }

  lemma FinishTurnOk(a: Actor, k: nat)
    requires Live(a, k) && Settled(a)
    ensures Ok(FinishTurn(a), k)
  {
    hide EndTurn, Core, Within;
    EndTurnOk(Call(a, DropPlayback), k);
  }

  lemma CompleteCancelOk(a: Actor, k: nat)
    requires Live(a, k) && Settled(a) && a.state == CancelPending
    ensures Ok(CompleteCancel(a), k)
  {
    hide Core, Within, Between, FinishTurn, StartTurn;
    FinishTurnOk(a, k);
    FinishTurnOk(a.(pre := []), k);
    var a1 := Call(a, DropPlayback).(barge := a.barge.(admitted := false, ended := false), finishAfterAck := false);
    AdvanceOk(a1, CancelPending, k);
    StartTurnOk(AdvanceTurn(a1), a.barge.ended, k);
  }

  // ---------------------------------------------------------------------
  // Events
  // ---------------------------------------------------------------------

  /** Taking the oldest event keeps the invariant, with one more event counted as taken. */
  lemma CorePop(t: Transport, q: Queue, turn: WireIds, response: WireIds, state: State, k: nat)
    requires Core(t, q, turn, response, state, k) && q.items != []
    ensures Core(t, Pop(q), turn, response, state, k + 1)
    ensures Within(t, q.items, turn, state) ==> Within(t, Pop(q).items, turn, state)
    ensures Between(t, q.items, turn, response) ==> Between(t, Pop(q).items, turn, response)
  {
    hide P.Sound, Closing, Belongs, Fits;
  }

  lemma DoneCommitted(t: Transport)
    requires P.Sound(t)
    ensures t.responseDone ==> t.committed
  {
  }

  /** What the oldest event says about the state it is found in. */
  lemma Oldest(t: Transport, q: Queue, turn: WireIds, response: WireIds, state: State, k: nat)
    requires Core(t, q, turn, response, state, k) && q.items != [] && k < EVENTS_PER_FRAME
    ensures var e := q.items[0];
            && q.good >= 1
            && (Belongs(e) ==> Within(t, q.items, turn, state))
            && (Belongs(e) ==> SameTurn(e.ids, turn) && turn.session != 0)
            && ((IsData(e) || e.Done?) && state != CancelPending ==>
                state == WaitingForResponse || state == PlayingResponse)
            && (Closing(e) && !e.Done? ==>
                !t.active && Clean(q.items[1..]) && !(t.responseDone && t.cancelSent))
            && (e.Cancelled? ==> state == CancelPending)
            && (e.Done? && state != CancelPending ==>
                t.responseDone && !t.active && Clean(q.items[1..]))
            && (e.HelloAck? ==> turn.session == 0)
  {
    DoneCommitted(t);
    hide P.Sound;
    var e := q.items[0];
    assert Fits(e, t, state);
    forall j | 0 < j < |q.items| && Closing(e) && Belongs(q.items[j])
      ensures e.Done? && q.items[j].Cancelled?
    {
    }
    forall j | 0 < j < |q.items| && q.items[j].Cancelled?
      ensures state == CancelPending
    {
      assert Fits(q.items[j], t, state);
    }
  }

  lemma CoreHello(t: Transport, q: Queue, e: Inbound, turn: WireIds, response: WireIds, state: State, k: nat)
    requires Core(t, q, turn, response, state, k) && q.items != [] && q.items[0] == e && e.HelloAck?
    ensures var next := WireIds(e.ids.session, 1, 1, e.ids.epoch);
            Core(t, Pop(q), next, response, state, k + 1)
            && (state == CancelPending ==> Within(t, Pop(q).items, next, state))
  {
    hide P.Sound, Closing, Belongs, Fits;
    CorePop(t, q, turn, response, state, k);
  }

  /** The response start changes which identities a later cancel names, and nothing else. */
  lemma CoreResponse(t: Transport, q: Queue, turn: WireIds, response: WireIds, response': WireIds, state: State, k: nat)
    requires Core(t, q, turn, response, state, k) && Within(t, q.items, turn, state)
    requires !Resting(state)
    ensures Core(t, q, turn, response', state, k)
  {
    hide P.Sound, Closing, Belongs, Fits;
  }

  lemma CorePlaying(t: Transport, q: Queue, turn: WireIds, response: WireIds, state: State, k: nat)
    requires Core(t, q, turn, response, state, k) && Within(t, q.items, turn, state)
    requires state == WaitingForResponse || state == PlayingResponse
    ensures Core(t, q, turn, response, PlayingResponse, k)
    ensures !t.active && t.responseDone && Clean(q.items) ==>
              Core(t, q, turn, response, DrainingPlayback, k)
  {
    hide P.Sound, Closing, Belongs;
    forall i | 0 <= i < |q.items|
      ensures Fits(q.items[i], t, PlayingResponse) && Fits(q.items[i], t, DrainingPlayback)
    {
      assert Fits(q.items[i], t, state);
    }
  }

  /** Done arrives in any state of an open turn; the queue behind it holds nothing of that turn. */
  lemma CoreDraining(t: Transport, q: Queue, turn: WireIds, response: WireIds, state: State, k: nat)
    requires Core(t, q, turn, response, state, k) && Within(t, q.items, turn, state)
    requires state != CancelPending && !t.active && t.responseDone && Clean(q.items)
    ensures Core(t, q, turn, response, DrainingPlayback, k)
  {
    hide P.Sound;
  }

  lemma HandleErrorOk(a: Actor, e: Inbound, k: nat)
    requires e.Error? && Live(a, k) && (a.state == CancelPending ==> In(a))
    requires Belongs(e) ==> In(a)
    requires TurnError(e) ==> Settled(a)
    ensures Ok(HandleError(a, e), k)
  {
    hide Core, Within, Between, Follows, AbortCurrent, CompleteCancel, FinishTurn, Clean;
    HistForgets(a);
    LoseOk(a, k);
    if e.code == "transport" || a.turn.session == 0 || e.ids.turn == 0 {
    } else if e.code == "downlink_discontinuity" {
      if a.state != CancelPending { AbortOk(a, k); }
    } else if a.state == CancelPending {
      CompleteCancelOk(a, k);
    } else {
      FinishTurnOk(a, k);
    }
  }

  lemma DrainingOk(a: Actor, k: nat)
    requires Live(a, k) && In(a) && a.state != CancelPending && Told(a.(state := DrainingPlayback))
    requires !a.link.value.active && a.link.value.responseDone && Clean(a.queue.items)
    ensures Ok(a.(state := DrainingPlayback), k)
  {
    hide Core, Within, Clean, Tracks;
    CoreDraining(a.link.value, a.queue, a.turn, a.response, a.state, k);
  }

  /** The player's answers change nothing else. */
  lemma DoneEffect(a: Actor)
    ensures var (a1, playing) := Ask(a);
            var (a2, ended) := if playing then Ask(a1) else (a1, true);
            var a3 := Call(a2, EndPlayback);
            && SameCore(a, a3)
            && SameCore(a.(state := DrainingPlayback), a3.(state := DrainingPlayback))
            && (HandleDone(a) == LoseConnection(a3) || HandleDone(a) == a3.(state := DrainingPlayback))
  {
    hide LoseConnection;
  }

  lemma HandleDoneOk(a: Actor, k: nat)
    requires Live(a, k) && In(a) && a.state != CancelPending && Told(a.(state := DrainingPlayback))
    requires !a.link.value.active && a.link.value.responseDone && Clean(a.queue.items)
    ensures Ok(HandleDone(a), k)
  {
    DrainingOk(a, k);
    DoneEffect(a);
    var (a1, playing) := Ask(a);
    var (a2, ended) := if playing then Ask(a1) else (a1, true);
    var a3 := Call(a2, EndPlayback);
    HistForgets(a);
    SameHist(a, a3);
    LoseOk(a3, k);
    hide Ok, Live, In, Clean, LoseConnection, HandleDone, Ask, SameCore;
    SameCoreOk(a.(state := DrainingPlayback), a3.(state := DrainingPlayback), k);
  }

  /** Response data behind its start, outside a pending cancel. */
  lemma HandlePcmOk(a: Actor, e: Inbound, k: nat)
    requires e.Pcm? && Live(a, k) && In(a) && Told(a)
    requires a.state == WaitingForResponse || a.state == PlayingResponse
    ensures Ok(HandleEvent(a, e), k)
  {
    CapturingOk(a, k);
    var a1 := Ask(Call(a, QueueTts(e.audio, e.sequence))).0;
    assert SameCore(a, a1);
    assert HandleEvent(a, e) == if Ask(Call(a, QueueTts(e.audio, e.sequence))).1 then a1 else AbortCurrent(a1);
    hide Ok, Live, In, Told, AbortCurrent, SameCore, HandleEvent, Ask, Call;
    SameCoreOk(a, a1, k);
    OpenTurn(a1, k);
    AbortOk(a1, k);
  }

  lemma AudioStartSame(a: Actor)
    ensures var b := Ask(Call(a, BeginPlayback)).0;
            SameCore(a, b) && SameCore(a.(state := PlayingResponse), ResetBargeProbe(b.(state := PlayingResponse)))
  {
  }

  lemma AudioStartEffect(a: Actor, e: Inbound)
    requires e.AudioStart? && a.state != CancelPending
    ensures var (b, ok) := Ask(Call(a, BeginPlayback));
            HandleEvent(a, e) ==
            if ok then ResetBargeProbe(b.(state := PlayingResponse)) else LoseConnection(b)
  {
    hide ResetBargeProbe, LoseConnection;
  }

  lemma HandleAudioStartOk(a: Actor, e: Inbound, k: nat)
    requires e.AudioStart? && Live(a, k) && In(a) && Told(a.(state := PlayingResponse))
    requires a.state == WaitingForResponse || a.state == PlayingResponse
    ensures Ok(HandleEvent(a, e), k)
  {
    PlayingOk(a, k);
    AudioStartSame(a);
    AudioStartEffect(a, e);
    HistForgets(a);
    SameHist(a, Ask(Call(a, BeginPlayback)).0);
    LoseOk(Ask(Call(a, BeginPlayback)).0, k);
    hide Ok, Live, In, Told, SameCore, Ask, Call, ResetBargeProbe, LoseConnection, HandleEvent;
    var b := Ask(Call(a, BeginPlayback)).0;
    SameCoreOk(a.(state := PlayingResponse), ResetBargeProbe(b.(state := PlayingResponse)), k);
  }

  lemma HandleDataOk(a: Actor, e: Inbound, k: nat)
    requires IsData(e) && !e.ResponseStart? && Live(a, k) && In(a)
    requires if e.AudioStart? then Told(a.(state := PlayingResponse)) else Told(a)
    requires a.state == WaitingForResponse || a.state == PlayingResponse
    ensures Ok(HandleEvent(a, e), k)
  {
    if e.Pcm? {
      HandlePcmOk(a, e, k);
    } else if e.AudioStart? {
      HandleAudioStartOk(a, e, k);
    } else {
      CapturingOk(a, k);
      assert HandleEvent(a, e) == a;
    }
  }

  lemma PlayingOk(a: Actor, k: nat)
    requires Live(a, k) && In(a) && Told(a.(state := PlayingResponse))
    requires a.state == WaitingForResponse || a.state == PlayingResponse
    ensures Ok(a.(state := PlayingResponse), k)
  {
    hide Core, Within, Tracks;
    CorePlaying(a.link.value, a.queue, a.turn, a.response, a.state, k);
  }

  /** The actor's history after taking an event. */
  function Noted(a: Actor): Actor
    requires a.queue.items != []
  {
    var e := a.queue.items[0];
    var a1 := a.(queue := Pop(a.queue));
    a1.(hist := a1.hist.(acted := a1.hist.acted + [Acted(e, a.turn, a.state, a.queue.good)]))
  }

  /** The start of a response that the actor will take over. */
  predicate TakesOver(a: Actor) {
    a.queue.items != [] && a.queue.items[0].ResponseStart? && a.state != CancelPending
  }

  lemma NotedAnswered(a: Actor)
    requires Answered(a.hist.acted, a.turn, a.response) && a.queue.items != []
    ensures !TakesOver(a) && (a.queue.items[0].HelloAck? ==> a.turn.session == 0) ==>
              Answered(Noted(a).hist.acted, a.turn, a.response)
    ensures TakesOver(a) ==> Answered(Noted(a).hist.acted, a.turn, a.queue.items[0].ids)
  {
    var x := Acted(a.queue.items[0], a.turn, a.state, a.queue.good);
    RecordedMore(a.hist.acted, x, a.turn);
    UpToMore(a.hist.acted, x, a.turn.epoch);
    hide Recorded, UpTo;
  }

  lemma NotedOk(a: Actor, k: nat)
    requires Live(a, k) && Told(a) && (a.state == CancelPending ==> In(a)) && a.queue.items != []
    requires k < EVENTS_PER_FRAME && !TakesOver(a)
    ensures Live(Noted(a), k + 1) && (In(a) ==> In(Noted(a)))
    ensures HandleOne(a) == HandleEvent(Noted(a), a.queue.items[0])
  {
    hide HandleEvent;
    AudioPlays(a, k);
    Oldest(a.link.value, a.queue, a.turn, a.response, a.state, k);
    CorePop(a.link.value, a.queue, a.turn, a.response, a.state, k);
    NotedAnswered(a);
    hide Core, Within, Between, Answered;
  }

  lemma AudioPlays(a: Actor, k: nat)
    requires Live(a, k) && Told(a) && a.queue.items != [] && k < EVENTS_PER_FRAME
    ensures a.queue.items[0].Pcm? ==> a.state == PlayingResponse || a.state == CancelPending
  {
    if a.queue.items[0].Pcm? && a.state != CancelPending {
      Oldest(a.link.value, a.queue, a.turn, a.response, a.state, k);
      CountedGood(a.link.value, a.queue, a.turn, a.response, a.state, k);
      AudioFindsPlaying(a.link.value, a.queue, a.response, a.state);
    }
  }

  lemma OkAudioPlays(a: Actor, k: nat)
    requires Ok(a, k) && a.queue.items != [] && a.queue.items[0].Pcm? && k < EVENTS_PER_FRAME
    ensures a.state == PlayingResponse || a.state == CancelPending
  {
    hide Core, Within, Tracks, HistOk;
    AudioPlays(a, k);
  }

  /** Taking an event other than a start, a done or an error of the turn leaves the actor informed. */
  lemma NotedTold(a: Actor, k: nat)
    requires Live(a, k) && Told(a) && a.queue.items != [] && !TakesOver(a)
    requires a.state == CancelPending
             || (!a.queue.items[0].Done? && !OfTurn(a.queue.items[0])
                 && (a.queue.items[0].AudioStart? ==> !Unplayed(a.state)))
    ensures Told(Noted(a))
  {
    var t, q := a.link.value, a.queue;
    if Within(t, Pop(q).items, a.turn, a.state) && a.state != CancelPending {
      StillWithin(t, q, a.turn, a.response, a.state, k);
      hide Follows, Within, Core;
      FollowsPop(t, q, a.response, a.state);
    }
  }

  lemma StillWithin(t: Transport, q: Queue, turn: WireIds, response: WireIds, state: State, k: nat)
    requires Core(t, q, turn, response, state, k) && q.items != [] && Within(t, Pop(q).items, turn, state)
    ensures Within(t, q.items, turn, state) && q.good <= |q.items|
  {
    hide Ordered, Greeted, P.Sound;
  }

  /** A piece of the response behind its start: the actor may start playing. */
  lemma DataTold(a: Actor, k: nat)
    requires Live(a, k) && In(a) && Told(a) && a.queue.items != [] && NeedsStart(a.queue.items[0])
    requires k < EVENTS_PER_FRAME && (a.state == WaitingForResponse || a.state == PlayingResponse)
    ensures a.queue.items[0].AudioStart? ==> Told(Noted(a).(state := PlayingResponse))
    ensures a.queue.items[0].TextDelta? || a.queue.items[0].Pcm? ==> Told(Noted(a))
    ensures a.queue.items[0].Done? ==> Told(Noted(a).(state := DrainingPlayback))
  {
    var t, q := a.link.value, a.queue;
    Oldest(t, q, a.turn, a.response, a.state, k);
    CountedGood(t, q, a.turn, a.response, a.state, k);
    hide Core, Within, Follows, Knows;
    HeadKnows(t, q, a.response, a.state);
    if q.items[0].Done? {
      FollowsDone(t, q, a.response, a.state);
    } else if q.items[0].AudioStart? {
      FollowsAudio(t, q, a.response, a.state);
    } else {
      FollowsPop(t, q, a.response, a.state);
    }
  }

  lemma CountedGood(t: Transport, q: Queue, turn: WireIds, response: WireIds, state: State, k: nat)
    requires Core(t, q, turn, response, state, k)
    ensures q.good <= |q.items|
  {
  }

  /** The actor takes over the identities of its response. */
  lemma HandleStartOk(a: Actor, k: nat)
    requires Ok(a, k) && TakesOver(a) && k < EVENTS_PER_FRAME
    ensures Ok(HandleOne(a), k + 1)
  {
    var t, q, e := a.link.value, a.queue, a.queue.items[0];
    Oldest(t, q, a.turn, a.response, a.state, k);
    CountedGood(t, q, a.turn, a.response, a.state, k);
    CorePop(t, q, a.turn, a.response, a.state, k);
    CoreResponse(t, Pop(q), a.turn, a.response, e.ids, a.state, k + 1);
    NotedAnswered(a);
    assert Belongs(e);
    hide Core, Within, Follows, Answered, Noted, Belongs;
    FollowsStart(t, q, a.response, a.state);
    StartEffect(a);
  }

  lemma StartEffect(a: Actor)
    requires TakesOver(a)
    ensures HandleOne(a) == Noted(a).(response := a.queue.items[0].ids)
    ensures Noted(a) == a.(queue := Pop(a.queue), hist := a.hist.(acted := Noted(a).hist.acted))
  {
  }

  lemma HandleHelloOk(a: Actor, e: Inbound, k: nat)
    requires Ok(a, k) && a.queue.items != [] && a.queue.items[0] == e && e.HelloAck? && k < EVENTS_PER_FRAME
    ensures Ok(HandleEvent(Noted(a), e), k + 1)
  {
    assert a.state == WaitingForWake && a.turn.session == 0 by {
      Oldest(a.link.value, a.queue, a.turn, a.response, a.state, k);
    }
    var next := WireIds(e.ids.session, 1, 1, e.ids.epoch);
    GreetedFacts(a.link.value, a.queue, a.turn, a.response, a.state, k);
    CoreHello(a.link.value, a.queue, e, a.turn, a.response, a.state, k);
    RestingTracks(a.link.value, Pop(a.queue), next, a.response, a.state, k + 1);
    NotedOk(a, k);
    HelloAnswered(a, next);
    hide Core, Within, Tracks, Answered;
    var a1 := Noted(a).(turn := next);
    assert Ok(a1, k + 1);
    hide Ok, Live, HistOk;
    SameCoreOk(a1, HandleEvent(Noted(a), e), k + 1);
  }

  lemma GreetedFacts(t: Transport, q: Queue, turn: WireIds, response: WireIds, state: State, k: nat)
    requires Core(t, q, turn, response, state, k)
    ensures turn.session == 0 ==> response == ZERO_IDS
  {
  }

  /** A new session has heard of no response. */
  lemma HelloAnswered(a: Actor, next: WireIds)
    requires a.queue.items != [] && a.queue.items[0].HelloAck? && a.response == ZERO_IDS
    ensures Answered(Noted(a).hist.acted, next, a.response)
  {
    var x := Acted(a.queue.items[0], a.turn, a.state, a.queue.good);
    RecordedMore(a.hist.acted, x, next);
    UpToMore(a.hist.acted, x, next.epoch);
  }

  lemma NotedFacts(a: Actor, k: nat)
    requires Live(a, k) && Told(a) && (a.state == CancelPending ==> In(a)) && a.queue.items != []
    requires k < EVENTS_PER_FRAME && !TakesOver(a)
    ensures var e := a.queue.items[0];
            && (Belongs(e) ==> In(Noted(a)))
            && (Closing(e) && !e.Done? ==> Settled(Noted(a)))
            && (e.Cancelled? ==> a.state == CancelPending)
            && (IsData(e) && a.state != CancelPending ==>
                a.state == WaitingForResponse || a.state == PlayingResponse)
            && (e.Done? && a.state != CancelPending ==>
                (a.state == WaitingForResponse || a.state == PlayingResponse)
                && In(Noted(a)) && Noted(a).link.value.responseDone && !Noted(a).link.value.active
                && Clean(Noted(a).queue.items))
  {
    hide Core, Within, Between, Clean;
    NotedOk(a, k);
    Oldest(a.link.value, a.queue, a.turn, a.response, a.state, k);
  }

  lemma HandleOneOk(a: Actor, k: nat)
    requires Ok(a, k) && a.queue.items != [] && k < EVENTS_PER_FRAME
    ensures Ok(HandleOne(a), k + 1)
  {
    var e := a.queue.items[0];
    if TakesOver(a) {
      HandleStartOk(a, k);
    } else if e.HelloAck? {
      HandleHelloOk(a, e, k);
      NotedOk(a, k);
    } else if e.Error? {
      TakeErrorOk(a, k);
    } else {
      TakeOtherOk(a, k);
    }
  }

  lemma TakeErrorOk(a: Actor, k: nat)
    requires Ok(a, k) && a.queue.items != [] && a.queue.items[0].Error? && k < EVENTS_PER_FRAME
    ensures Ok(HandleOne(a), k + 1)
  {
    var e := a.queue.items[0];
    NotedOk(a, k);
    NotedFacts(a, k);
    TurnErrorCloses(e);
    hide Ok, Live, In, Told, Settled, Clean, Closing, HandleError;
    HandleErrorOk(Noted(a), e, k + 1);
  }

  lemma TakeOtherOk(a: Actor, k: nat)
    requires Ok(a, k) && a.queue.items != [] && k < EVENTS_PER_FRAME && !TakesOver(a)
    requires var e := a.queue.items[0]; !e.HelloAck? && !e.Error?
    ensures Ok(HandleOne(a), k + 1)
  {
    var e, b := a.queue.items[0], Noted(a);
    NotedOk(a, k);
    NotedFacts(a, k);
    if (!e.Done? && !e.AudioStart?) || a.state == CancelPending { NotedTold(a, k); }
    if NeedsStart(e) && a.state != CancelPending { InBefore(a, k); DataTold(a, k); }
    assert a.state == CancelPending ==> In(b);
    hide In, Told, Live, Settled, Clean, Closing, CompleteCancel, FinishTurn, HandleDone, Noted;
    if e.Cancelled? {
      CancelledCloses(e);
      CompleteCancelOk(b, k + 1);
    } else if e.Done? {
      if a.state != CancelPending { HandleDoneOk(b, k + 1); }
    } else if IsData(e) {
      if a.state != CancelPending { HandleDataOk(b, e, k + 1); }
    }
  }

  lemma InBefore(a: Actor, k: nat)
    requires Live(a, k) && a.queue.items != [] && Belongs(a.queue.items[0]) && k < EVENTS_PER_FRAME
    ensures In(a)
  {
    Oldest(a.link.value, a.queue, a.turn, a.response, a.state, k);
  }

  lemma TurnErrorCloses(e: Inbound)
    requires e.Error?
    ensures TurnError(e) ==> Closing(e)
  {
  }

  lemma CancelledCloses(e: Inbound)
    requires e.Cancelled?
    ensures Closing(e)
  {
  }

  // ---------------------------------------------------------------------
  // Frames
  // ---------------------------------------------------------------------

  lemma ConfirmBargeOk(a: Actor, k: nat)
    requires Live(a, k) && In(a) && a.state != CancelPending
    ensures Ok(ConfirmBarge(a), k)
  {
    hide Core, Within, SendControl;
    var d := Call(a, DropPlayback);
    var a1 := d.(barge := a.barge.(probe := Idle, probeFrames := 0, cooldown := 0,
                                   admitted := true, ended := false, silence := 0, overflow := false),
                 finishAfterAck := false,
                 hist := d.hist.(atConfirm := a.pre, since := []));
    CancelOk(a1, ResponseCancel, a.response, k);
    HistForgets(SendControl(a1, ResponseCancel, a.response).0);
    LoseOk(SendControl(a1, ResponseCancel, a.response).0, k);
  }

  lemma BeginProbeSame(a: Actor)
    ensures SameCore(a, BeginProbe(a))
  {
  }

  lemma ProbeIdleSame(a: Actor, f: Frame)
    ensures SameCore(a, ProbeIdle(a, f))
  {
    hide BeginProbe;
    BeginProbeSame(a);
  }

  lemma ProbeReferenceSame(a: Actor, f: Frame)
    ensures SameCore(a, ProbeReference(a, f))
  {
  }

  lemma ProbeClearSame(a: Actor, f: Frame)
    ensures SameCore(a, ProbeClear(a, f))
  {
  }

  lemma ProbeVerifySame(a: Actor, f: Frame)
    ensures SameCore(a, ProbeVerify(a, f))
  {
  }

  lemma HandleBargeOk(a: Actor, f: Frame, k: nat)
    requires Live(a, k) && In(a) && Told(a) && Unended(a) && a.state != CancelPending
    ensures Ok(HandleBarge(a, f), k)
  {
    ProbeIdleSame(a, f);
    ProbeReferenceSame(a, f);
    ProbeClearSame(a, f);
    ProbeVerifySame(a, f);
    assert SameCore(a, ResetBargeProbe(a));
    CapturingOk(a, k);
    hide Ok, Live, In, Told, Unended, ConfirmBarge, ProbeIdle, ProbeReference, ProbeClear, ProbeVerify, ResetBargeProbe;
    SameCoreOk(a, ProbeIdle(a, f), k);
    SameCoreOk(a, ProbeReference(a, f), k);
    SameCoreOk(a, ProbeClear(a, f), k);
    SameCoreOk(a, ResetBargeProbe(a), k);
    var a1 := ProbeVerify(a, f);
    SameCoreOk(a, a1, k);
    StillIn(a, a1, k);
    ConfirmBargeOk(a1, k);
  }

  lemma StillIn(a: Actor, b: Actor, k: nat)
    requires Live(a, k) && In(a) && SameCore(a, b)
    ensures Live(b, k) && In(b) && (Told(a) ==> Told(b))
  {
    hide Core, Within;
  }

  lemma CoreWake(t: Transport, q: Queue, turn: WireIds, response: WireIds, state: State, state': State, k: nat)
    requires Core(t, q, turn, response, state, k) && Resting(state)
    requires state' == WaitingForWake || (state' == WaitingForSpeech && turn.session != 0)
    ensures Core(t, q, turn, response, state', k)
  {
    hide P.Sound, Closing, Belongs;
    forall i | 0 <= i < |q.items|
      ensures Fits(q.items[i], t, state')
    {
      assert Fits(q.items[i], t, state);
    }
  }

  lemma RestOk(a: Actor, state': State, k: nat)
    requires Ok(a, k) && Resting(a.state)
    requires state' == WaitingForWake || (state' == WaitingForSpeech && a.turn.session != 0)
    ensures Ok(a.(state := state'), k)
  {
    if Live(a, k) {
      CoreWake(a.link.value, a.queue, a.turn, a.response, a.state, state', k);
      RestingTracks(a.link.value, a.queue, a.turn, a.response, state', k);
    }
    hide Core, Within, Tracks;
  }

  /** In an open turn the link is up and both sides are in it. */
  lemma OpenTurn(a: Actor, k: nat)
    requires Ok(a, k) && !Resting(a.state)
    ensures Live(a, k) && In(a) && Told(a) && Unended(a)
  {
    hide P.Sound, Ordered, Greeted, Counted;
  }

  lemma RestingTurn(a: Actor, k: nat)
    requires Ok(a, k) && Resting(a.state) && a.turn.session != 0
    ensures Live(a, k) && Out(a)
  {
    hide P.Sound, Ordered, Greeted, Counted;
  }

  lemma GiveUpOk(a: Actor, k: nat)
    requires Ok(a, k)
    ensures Ok(GiveUp(a), k)
  {
    hide Ok, Live, In, AbortCurrent;
    if a.state == CancelPending {
      SameCoreOk(a, GiveUp(a), k);
    } else if !Resting(a.state) {
      OpenTurn(a, k);
      AbortOk(a, k);
    } else {
      RestOk(a, WaitingForWake, k);
      SameCoreOk(a.(state := WaitingForWake), GiveUp(a), k);
    }
  }

  lemma OnBreakOk(a: Actor, k: nat)
    requires Ok(a, k)
    ensures Ok(OnBreak(a), k)
  {
    hide Ok, GiveUp;
    SameCoreOk(a, Restart(a.(pre := [])), k);
    GiveUpOk(Restart(a.(pre := [])), k);
  }

  lemma ListenOk(a: Actor, k: nat)
    requires Ok(a, k) && Resting(a.state) && a.turn.session != 0
    ensures Ok(BeginListening(a), k)
  {
    hide Ok;
    RestOk(a, WaitingForSpeech, k);
    SameCoreOk(a.(state := WaitingForSpeech), BeginListening(a), k);
  }

  lemma OnCapturingOk(a: Actor, f: Frame, k: nat)
    requires Ok(a, k) && a.state == CapturingSpeech
    ensures Ok(OnCapturing(a, f), k)
  {
    hide Ok, Live, In, Told, Unended, Commit, SendAudioOrRecover;
    OpenTurn(a, k);
    CommitOk(a, f, k);
    var a1 := a.(barge := a.barge.(ended := false));
    SameCoreOk(a, a1, k);
    OpenTurn(a1, k);
    CommitOk(a1, f, k);
    SendOrRecoverOk(a, f, false, k);
  }

  lemma StartFromRest(a: Actor, k: nat)
    requires Ok(a, k) && Resting(a.state) && a.turn.session != 0
    ensures Ok(StartTurn(a, false), k)
  {
    RestingTurn(a, k);
    hide Live, Out, StartTurn;
    StartTurnOk(a, false, k);
  }

  lemma DispatchOk(a: Actor, f: Frame, k: nat)
    requires Ok(a, k)
    ensures Ok(Dispatch(a, f), k)
  {
    hide Ok, Live, In, StartTurn, BeginListening, OnCapturing, HandleBarge;
    if a.turn.session == 0 {
      SameCoreOk(a, Dispatch(a, f), k);
    } else {
      match a.state
      case WaitingForWake =>
        SameCoreOk(a, a.(manualWake := false), k);
        ListenOk(a.(manualWake := false), k);
        ListenOk(a, k);
      case WaitingForSpeech => StartFromRest(a, k);
      case WaitingForFollowUp =>
        var a1 := a.(followUpNear := a.followUpNear + 1);
        SameCoreOk(a, a1, k);
        SameCoreOk(a, a.(followUpNear := 0), k);
        StartFromRest(a1, k);
      case CapturingSpeech => OnCapturingOk(a, f, k);
      case PlayingResponse => OpenTurn(a, k); HandleBargeOk(a, f, k);
      case DrainingPlayback => OpenTurn(a, k); HandleBargeOk(a, f, k);
      case CancelPending => SameCoreOk(a, TrackBargeUtterance(a, f), k);
      case WaitingForResponse =>
    }
  }

  lemma SavedSame(a: Actor, f: Frame)
    ensures SameCore(a, SavePreRoll(a, f))
  {
  }

  lemma BufferSame(a: Actor, f: Frame)
    ensures SameCore(a, Buffer(a, f))
  {
    hide SavePreRoll;
    var a1 := a.(hist := a.hist.(heard := a.hist.heard + [f]));
    var a2 := if a.state == CancelPending then a1.(hist := a1.hist.(since := a1.hist.since + [f])) else a1;
    SavedSame(a2, f);
  }

  lemma OnFrameOk(a: Actor, f: Frame, k: nat)
    requires Ok(a, k)
    ensures Ok(OnFrame(a, f), k)
  {
    hide Ok, Dispatch, OnBreak, Buffer;
    var a1 := a.(nextCapture := f.sequence + 1);
    SameCoreOk(a, a1, k);
    OnBreakOk(a1, k);
    var a2 := Thaw(a1, f);
    SameCoreOk(a1, a2, k);
    BufferSame(a2, f);
    SameCoreOk(a2, Buffer(a2, f), k);
    DispatchOk(Buffer(a2, f), f, k);
  }

  // ---------------------------------------------------------------------
  // The loop
  // ---------------------------------------------------------------------

  lemma DrainedOk(a: Actor, k: nat)
    requires Ok(a, k) && a.state == DrainingPlayback
    ensures Live(a, k) && Settled(a)
  {
    hide P.Sound, Ordered, Greeted, Counted;
  }

  lemma DeadlinesOk(a: Actor, c: Clock, k: nat)
    requires Ok(a, k)
    ensures Ok(AdvanceDeadlines(a, c).0, k)
  {
    hide Ok, Live, In, LoseConnection, EndTurn, AbortCurrent, Settled;
    DropOk(a, k);
    if a.turn.session == 0 || c.heartbeatExpired {
    } else if a.state == DrainingPlayback && c.playbackDone {
      DrainedOk(a, k);
      EndTurnOk(a, k);
      SameCoreOk(a, a.(listenerFailed := true), k);
    } else if a.state != WaitingForWake && c.stateExpired {
      if Resting(a.state) {
        RestOk(a, WaitingForWake, k);
        SameCoreOk(a.(state := WaitingForWake), ResetListener(a.(state := WaitingForWake, pre := [])), k);
      } else if a.state != CancelPending {
        OpenTurn(a, k);
        AbortOk(a, k);
      }
    }
  }

  lemma PollOk(a: Actor, u: UiAction, k: nat)
    requires Ok(a, k)
    ensures Ok(PollUi(a, u), k)
  {
    hide Ok, Live, In, AbortCurrent;
    SameCoreOk(a, a.(manualWake := true), k);
    if a.state == PlayingResponse || a.state == DrainingPlayback {
      OpenTurn(a, k);
      AbortOk(a, k);
    }
  }

  lemma ConnectOk(a: Actor, started: bool, k: nat)
    requires Ok(a, k) && a.link.None? && k <= EVENT_SLOTS
    ensures Ok(StartConnect(a, started), k)
  {
    var a1 := a.(link := Some(Fresh(a.config.uuid)), helloSent := false, hist := a.hist.(starts := []));
    assert Ok(a1, k);
    DropOk(a1, k);
  }

  lemma HelloLink(t: Transport, token: bool, net: NetReply, q: Queue, turn: WireIds, response: WireIds,
                  state: State, k: nat)
    requires Core(t, q, turn, response, state, k)
    ensures var (u, r) := Send(t, Control(Hello, ZERO_IDS, token), net);
            && u == t.(sent := u.sent) && Core(u, q, turn, response, state, k)
            && (Tracks(t, q, turn, response, state) ==> Tracks(u, q, turn, response, state))
            && (Within(t, q.items, turn, state) ==> Within(u, q.items, turn, state))
  {
    var u := Send(t, Control(Hello, ZERO_IDS, token), net).0;
    assert u == t.(sent := u.sent);
    CoreSound(t, q, turn, response, state, k);
    P.SoundSend(t, Control(Hello, ZERO_IDS, token), net);
    hide Send, P.Sound;
    CoreSpeak(t, u, q, turn, response, state, k);
    if Tracks(t, q, turn, response, state) { TracksQuietly(t, u, q, turn, response, state); }
    hide Tracks, Core;
  }

  lemma HelloSent(a: Actor, k: nat)
    requires Live(a, k) && Told(a) && Unended(a) && (a.state == CancelPending ==> In(a))
    ensures var (b, r) := SendControl(a, Hello, ZERO_IDS);
            HistOk(b.(link := None)) && (r == Accepted ==> Ok(b, k))
  {
    hide Core, Within, Between, Locked, Tracks, Answered, Send;
    LockedOk(a, k);
    var a1 := Locked(a);
    HelloLink(a1.link.value, a.config.tokenValid, NextSlot(a).reply, a1.queue, a.turn, a.response, a.state, k);
  }

  lemma FinishConnectOk(a: Actor, k: nat)
    requires Ok(a, k)
    ensures Ok(FinishConnect(a), k)
  {
    if a.link.Some? && !a.helloSent && a.link.value.connected {
      HelloSent(a, k);
      hide Live, Told, In, Unended, HistOk, SendControl, LoseConnection;
      var (b, r) := SendControl(a, Hello, ZERO_IDS);
      LoseOk(b, k);
      if r == Accepted { SameCoreOk(b, b.(helloSent := true), k); }
    }
  }

  /** The whole system: the queue count is tied to where the loop stands. */
  ghost predicate Safe(s: System) {
    (s.pc.Draining? ==> s.pc.pops <= EVENTS_PER_FRAME) && Ok(s.a, Taken(s.pc))
  }

  /** Events taken since the overflow flag was last looked at. */
  function Taken(pc: Pc): nat {
    match pc
    case Draining(pops) => pops
    case Top => 0
    case Checked => 0
    case _ => EVENTS_PER_FRAME
  }

  /** Looking at the overflow flag restarts the count: either nothing was lost or the link is dropped. */
  lemma CheckedOk(a: Actor, k: nat)
    requires Ok(a, k) && !a.queue.overflow
    ensures Ok(a, 0)
  {
    if Live(a, k) {
      CoreChecked(a.link.value, a.queue, a.turn, a.response, a.state, k);
    }
    hide Core, Within;
  }

  lemma CoreChecked(t: Transport, q: Queue, turn: WireIds, response: WireIds, state: State, k: nat)
    requires Core(t, q, turn, response, state, k) && !q.overflow
    ensures Core(t, q, turn, response, state, 0)
  {
    hide P.Sound, Ordered, Greeted, Between, Within;
  }

  lemma MoreTaken(a: Actor, k: nat, k': nat)
    requires Ok(a, k) && k <= k'
    ensures Ok(a, k')
  {
    if Live(a, k) {
      CoreMore(a.link.value, a.queue, a.turn, a.response, a.state, k, k');
    }
    hide Core, Within;
  }

  lemma CoreMore(t: Transport, q: Queue, turn: WireIds, response: WireIds, state: State, k: nat, k': nat)
    requires Core(t, q, turn, response, state, k) && k <= k'
    ensures Core(t, q, turn, response, state, k')
  {
    hide P.Sound, Ordered, Greeted, Between, Within;
  }

  lemma NetworkOk(a: Actor, n: NetEvent, k: nat)
    requires Ok(a, k)
    ensures Ok(Receive(a, n), k)
  {
    if Live(a, k) {
      ReceiveOk(a, n, k);
    }
    hide Live, In, OnNet;
  }

  lemma BeginSafe(s: System, connect: bool, started: bool)
    requires Safe(s)
    ensures Safe(Step(s, Begin(connect, started)))
  {
    hide Ok, StartConnect, FinishConnect;
    if s.pc == Top {
      if connect && s.a.link.None? { ConnectOk(s.a, started, 0); }
      var a1 := if connect && s.a.link.None? then StartConnect(s.a, started) else s.a;
      MoreTaken(a1, 0, EVENTS_PER_FRAME);
      FinishConnectOk(a1, 0);
    }
  }

  lemma FinishSafe(s: System, clock: Clock, frame: Option<Frame>)
    requires Safe(s)
    ensures Safe(Step(s, Finish(clock, frame)))
  {
    hide Ok, AdvanceDeadlines, OnFrame;
    if s.pc == Checked {
      DeadlinesOk(s.a, clock, 0);
      var a1 := AdvanceDeadlines(s.a, clock).0;
      MoreTaken(a1, 0, EVENTS_PER_FRAME);
      if frame.Some? {
        SameCoreOk(a1, Skip(a1, frame.value), 0);
        OnFrameOk(a1, frame.value, 0);
        MoreTaken(OnFrame(a1, frame.value), 0, EVENTS_PER_FRAME);
      }
    }
  }

  lemma TakeSafe(s: System)
    requires Safe(s)
    ensures Safe(Step(s, Take))
  {
    hide Ok, HandleOne;
    if s.pc.Draining? && s.pc.pops < EVENTS_PER_FRAME && s.a.link.Some? && !s.a.listenerFailed
      && s.a.queue.items != [] {
      HandleOneOk(s.a, s.pc.pops);
    }
  }

  lemma PollSafe(s: System, u: UiAction)
    requires Safe(s)
    ensures Safe(Step(s, Poll(u)))
  {
    hide Ok, PollUi;
    if s.pc.Draining? {
      PollOk(s.a, u, s.pc.pops);
      MoreTaken(PollUi(s.a, u), s.pc.pops, EVENTS_PER_FRAME);
    }
  }

  lemma CheckSafe(s: System)
    requires Safe(s)
    ensures Safe(Step(s, CheckOverflow))
  {
    hide Ok, LoseConnection;
    if s.pc == Polled {
      DroppedIsFresh(s.a);
      if !s.a.queue.overflow { CheckedOk(s.a, EVENTS_PER_FRAME); }
    }
  }

  lemma StepSafe(s: System, op: Op)
    requires Safe(s)
    ensures Safe(Step(s, op))
  {
    match op
    case Begin(connect, started) => hide Safe; BeginSafe(s, connect, started);
    case Finish(clock, frame) => hide Safe; FinishSafe(s, clock, frame);
    case Take => hide Safe; TakeSafe(s);
    case Poll(u) => hide Safe; PollSafe(s, u);
    case CheckOverflow => hide Safe; CheckSafe(s);
    case Network(n) =>
      hide Ok, Receive;
      NetworkOk(s.a, n, Taken(s.pc));
  }

  lemma DroppedIsFresh(a: Actor)
    requires Ok(a, EVENTS_PER_FRAME)
    ensures Ok(LoseConnection(a), 0)
  {
    DropOk(a, EVENTS_PER_FRAME);
    HistForgets(a);
    LoseOk(a, 0);
  }

  lemma {:induction false} RunSafe(s: System, ops: seq<Op>)
    requires Safe(s)
    ensures Safe(Run(s, ops))
    decreases |ops|
  {
    hide Safe, Step;
    if ops != [] {
      StepSafe(s, ops[0]);
      RunSafe(Step(s, ops[0]), ops[1..]);
    }
  }

  // ---------------------------------------------------------------------
  // Main results
  // ---------------------------------------------------------------------

  /** A run of the device from power-up: any schedule, any server, any network and audio answers. */
  function Device(config: Config, net: seq<Slot>, audio: seq<bool>, ops: seq<Op>): System {
    Run(System(Initial(config, net, audio), Top), ops)
  }

  lemma DeviceSafe(config: Config, net: seq<Slot>, audio: seq<bool>, ops: seq<Op>)
    ensures Safe(Device(config, net, audio, ops))
  {
    RunSafe(System(Initial(config, net, audio), Top), ops);
  }

  /**
   * Whatever arrives, and however the two threads interleave, every event the
   * actor takes was queued before any event was lost, and whatever belongs to a
   * turn belongs to the turn the actor is in; every piece of a response taken
   * outside a cancel finds it waiting for that response or playing it.
   */
  lemma ActsOnCurrentTurnOnly(config: Config, net: seq<Slot>, audio: seq<bool>, ops: seq<Op>, i: nat)
    requires i < |Device(config, net, audio, ops).a.hist.acted|
    ensures ActedRightly(Device(config, net, audio, ops).a.hist.acted[i])
  {
    hide Run, Core;
    DeviceSafe(config, net, audio, ops);
  }

  /** While a cancel is out, response data changes nothing. */
  lemma CancelledDataIsIgnored(a: Actor, e: Inbound)
    requires a.state == CancelPending && IsData(e)
    ensures HandleEvent(a, e) == a
  {
  }

  /**
   * Every turn.start issued on a connection carries a larger epoch than all
   * before it, and the transport never turns one down for protocol reasons.
   */
  lemma TurnStartsAdvance(config: Config, net: seq<Slot>, audio: seq<bool>, ops: seq<Op>)
    ensures var h := Device(config, net, audio, ops).a.hist;
            && !h.refused
            && (forall i, j :: 0 <= i < j < |h.starts| ==> h.starts[i].epoch < h.starts[j].epoch)
  {
    hide Run, Core;
    DeviceSafe(config, net, audio, ops);
  }

  /** Whenever the actor is about to open a turn, its transport has none open. */
  lemma ReadyMeansIdle(config: Config, net: seq<Slot>, audio: seq<bool>, ops: seq<Op>)
    ensures var a := Device(config, net, audio, ops).a;
            Resting(a.state) && a.link.Some? && a.turn.session != 0 ==>
              TurnStartAllowed(a.link.value, a.turn) && Clean(a.queue.items)
  {
    DeviceSafe(config, net, audio, ops);
    var s := Device(config, net, audio, ops);
    IdleAtRest(s.a, Taken(s.pc));
    hide Run, Core, Between, Clean;
  }

  lemma IdleAtRest(a: Actor, k: nat)
    requires Ok(a, k)
    ensures Resting(a.state) && a.link.Some? && a.turn.session != 0 ==>
              TurnStartAllowed(a.link.value, a.turn) && Clean(a.queue.items)
  {
    if Resting(a.state) && a.link.Some? && a.turn.session != 0 {
      RestingTurn(a, k);
      hide Core;
      NextTurnAllowed(a.link.value, a.queue, a.turn, a.response, a.state, k);
    }
  }

  /**
   * In every run, while a session is up, the actor is in the response whose start
   * it took in its present turn outside a cancel, and in none if it took none.
   */
  lemma KnowsItsResponse(config: Config, net: seq<Slot>, audio: seq<bool>, ops: seq<Op>)
    ensures var a := Device(config, net, audio, ops).a;
            a.turn.session != 0 ==> a.response == Recorded(a.hist.acted, a.turn)
  {
    hide Run, Core, Recorded;
    DeviceSafe(config, net, audio, ops);
  }

  /** The end of the turn is among the queued events, or was lost with others. */
  ghost predicate EndComing(q: Queue, done: bool) {
    q.overflow || TurnBroken(q.items) || (done && Finished(q.items))
  }

  lemma CancelTaken(a: Actor, k: nat)
    requires Ok(a, k) && !Resting(a.state) && a.state != CancelPending
    ensures var (kind, ids) := CancelOf(a.turn, a.response);
            && (SendControl(a, kind, ids).1 == Refused ==> EndComing(Locked(a).queue, a.response == ZERO_IDS))
            && (a.state == PlayingResponse || a.state == DrainingPlayback ==> kind == ResponseCancel)
  {
    OpenTurn(a, k);
    LockedOk(a, k);
    var b := Locked(a);
    InFacts(b, k);
    var (kind, ids) := CancelOf(a.turn, a.response);
    CancelAllowed(b.link.value, b.queue, b.turn, b.response, b.state, a.config.tokenValid);
    hide Locked, Live, In, Told, Follows, Within, P.Sound, Allowed;
  }

  lemma InFacts(a: Actor, k: nat)
    requires Live(a, k) && In(a) && Told(a) && a.state != CancelPending
    ensures P.Sound(a.link.value) && Within(a.link.value, a.queue.items, a.turn, a.state) && ValidIds(a.turn)
    ensures Follows(a.link.value, a.queue, a.response, a.state)
    ensures a.response.session != 0 <==> a.response != ZERO_IDS
  {
    hide Announced, TurnBroken, Finished, Clean, Ordered;
  }

  /**
   * The companion for cancels: in every run, the cancel the actor sends for its
   * turn or its response is never turned down, unless an error of that turn, or
   * the done of a response it has not heard of, is already on its way to it.
   * While it plays, the cancel names the response.
   */
  lemma CancelsAreTaken(config: Config, net: seq<Slot>, audio: seq<bool>, ops: seq<Op>)
    ensures var a := Device(config, net, audio, ops).a;
            !Resting(a.state) && a.state != CancelPending ==>
              var (kind, ids) := CancelOf(a.turn, a.response);
              && (SendControl(a, kind, ids).1 == Refused ==> EndComing(Locked(a).queue, a.response == ZERO_IDS))
              && (a.state == PlayingResponse || a.state == DrainingPlayback ==> kind == ResponseCancel)
  {
    DeviceSafe(config, net, audio, ops);
    var s := Device(config, net, audio, ops);
    if !Resting(s.a.state) && s.a.state != CancelPending {
      CancelTaken(s.a, Taken(s.pc));
    }
    hide Run, Core, SendControl, EndComing;
  }
}
