/**
 * The server's turn actor: it owns the phase of the one active turn, passes
 * audio to the provider and tags what the provider answers with the epoch.
 */
module SessionActor {
  import opened WireTypes

  datatype Kind = Unknown | Started | TextDelta | Audio | Done | Failed

  /**
   * A provider event.  `origin` is the epoch whose commit made the provider
   * produce it; the actor never looks at it.
   */
  datatype Raw = Raw(kind: Kind, responseId: string, text: string, pcm: seq<byte>, rate: int, err: bool, origin: nat)

  datatype Event = Event(epoch: nat, raw: Raw)

  datatype Phase = Idle | Listening | Thinking | Speaking

  /** Replies to a command. */
  datatype Reply = Accepted | InvalidTransition | StaleEpoch | ProviderError | Expired

  /** The actor, the provider's event channel and the events handed to the device side. */
  datatype Session = Session(
    phase: Phase, latest: nat, epoch: nat, responseId: string, frames: nat, pending: Option<Event>,
    incoming: seq<Raw>, closed: bool, out: seq<Event>, stopped: bool)

  const NEW_SESSION := Session(Idle, 0, 0, "", 0, None, [], false, [], false)

  datatype Operation = StartTurn | AppendPcm | Commit | CancelTurn

  /** What the provider answers to the calls one command makes; `discards` is the optional capability. */
  datatype Provider = Provider(ok: bool, discards: bool, discardOk: bool)

  predicate Active(s: Session) { s.phase == Thinking || s.phase == Speaking }

  predicate Stale(s: Session, epoch: nat) {
    epoch < s.epoch || (s.phase == Idle && epoch <= s.latest)
  }

  function ApplyStart(s: Session, epoch: nat): (r: (Session, Reply)) {
    if s.phase != Idle then (s, InvalidTransition)
    else if epoch <= s.latest then (s, StaleEpoch)
    else (s.(phase := Listening, latest := epoch, epoch := epoch, responseId := "", frames := 0), Accepted)
  }

  function ApplyAppend(s: Session, epoch: nat, p: Provider): (r: (Session, Reply)) {
    if Stale(s, epoch) then (s, StaleEpoch)
    else if s.phase != Listening || epoch != s.epoch then (s, InvalidTransition)
    else if !p.ok then (s, ProviderError)
    else (s.(frames := s.frames + 1), Accepted)
  }

  function ApplyCommit(s: Session, epoch: nat, p: Provider): (r: (Session, Reply)) {
    if Stale(s, epoch) then (s, StaleEpoch)
    else if s.phase != Listening || epoch != s.epoch || s.frames == 0 then (s, InvalidTransition)
    else if !p.ok then (s, ProviderError)
    else (s.(phase := Thinking), Accepted)
  }

  /** The channel is emptied, the event in hand is dropped if it is the retired turn's, the turn is over. */
  function Retire(s: Session): Session {
    s.(phase := Idle, epoch := 0, responseId := "", frames := 0, incoming := [],
       pending := if s.pending.Some? && s.pending.value.epoch == s.epoch then None else s.pending)
  }

  function ApplyCancel(s: Session, epoch: nat, p: Provider): (r: (Session, Reply)) {
    if s.phase == Idle then
      if epoch < s.latest then (s, Accepted)
      else if epoch != s.latest then (s, InvalidTransition)
      else if p.discards && !p.discardOk then (s, ProviderError)
      else (s, Accepted)
    else if epoch < s.epoch then (s, Accepted)
    else if epoch != s.epoch then (s, InvalidTransition)
    else if !p.ok then (s, ProviderError)
    else if Active(s) && p.discards && !p.discardOk then (s, ProviderError)
    else (Retire(s), Accepted)
  }

  function Apply(s: Session, op: Operation, epoch: nat, p: Provider): (r: (Session, Reply)) {
    match op
    case StartTurn => ApplyStart(s, epoch)
    case AppendPcm => ApplyAppend(s, epoch, p)
    case Commit => ApplyCommit(s, epoch, p)
    case CancelTurn => ApplyCancel(s, epoch, p)
  }

  predicate WellFormed(r: Raw) {
    match r.kind
    case Unknown => false
    case Started => r.responseId != ""
    case TextDelta => r.responseId != "" && r.text != ""
    case Audio => r.responseId != "" && r.pcm != [] && r.rate > 0
    case Done => r.responseId != ""
    case Failed => r.err
  }

  predicate Terminal(r: Raw) { r.kind == Done || r.kind == Failed }

  /** An error the actor reports on its own. */
  function SessionError(epoch: nat): Event {
    Event(epoch, Raw(Failed, "", "", [], 0, true, epoch))
  }

  function Accept(s: Session, raw: Raw): (r: (Session, Option<Event>)) {
    if !Active(s) then (s, None)
    else if !WellFormed(raw) then (s.(phase := Idle, responseId := ""), Some(SessionError(s.epoch)))
    else
      var id := if s.responseId == "" then raw.responseId else s.responseId;
      if raw.responseId != "" && raw.responseId != id then (s.(responseId := id), None)
      else if Terminal(raw) then (s.(phase := Idle, responseId := ""), Some(Event(s.epoch, raw)))
      else
        (s.(phase := if raw.kind == Audio then Speaking else s.phase, responseId := id),
         Some(Event(s.epoch, raw)))
  }

  // ---------------------------------------------------------------------
  // The loop
  // ---------------------------------------------------------------------

  datatype Op =
    | Enqueue(raw: Raw)
    | CloseStream
    | Urgent(epoch: nat, provider: Provider)
    | Command(op: Operation, epoch: nat, expired: bool, provider: Provider)
    | TakeEvent(room: bool)
    | Emit
    | Stop

  /** The provider's channel was closed: an active turn gets an error, past `pending`, if there is room. */
  function ReportClosed(s: Session, room: bool): Session {
    if s.phase == Idle || !room then s.(stopped := true)
    else s.(out := s.out + [SessionError(s.epoch)], stopped := true)
  }

  function TakeOne(s: Session): Session
    requires s.incoming != []
  {
    var (s1, e) := Accept(s.(incoming := s.incoming[1..]), s.incoming[0]);
    s1.(pending := e)
  }

  /** One step of the provider or one pass of the actor's select; commands never name epoch 0. */
  function Step(s: Session, op: Op): Session {
    match op
    case Enqueue(raw) => if s.closed then s else s.(incoming := s.incoming + [raw])
    case CloseStream => s.(closed := true)
    case Urgent(epoch, p) => if s.stopped || epoch == 0 then s else ApplyCancel(s, epoch, p).0
    case Command(o, epoch, expired, p) =>
      if s.stopped || epoch == 0 || o == CancelTurn || expired then s else Apply(s, o, epoch, p).0
    case TakeEvent(room) =>
      if s.stopped || s.pending.Some? then s
      else if s.incoming != [] then TakeOne(s)
      else if s.closed then ReportClosed(s, room) else s
    case Emit =>
      if s.stopped || s.pending.None? then s
      else s.(out := s.out + [s.pending.value], pending := None)
    case Stop => s.(stopped := true)
  }

  function Run(s: Session, ops: seq<Op>): Session
    decreases |ops|
  {
    if ops == [] then s else Run(Step(s, ops[0]), ops[1..])
  }

  // ---------------------------------------------------------------------
  // The stream of events
  // ---------------------------------------------------------------------

  /** What may follow `a`: a later epoch, or more of the same response. */
  predicate MayFollow(a: Event, b: Event) {
    a.epoch <= b.epoch
    && (a.epoch == b.epoch ==>
          !Terminal(a.raw)
          && (a.raw.responseId == b.raw.responseId || (b.raw.kind == Failed && b.raw.responseId == "")))
  }

  ghost predicate Ordered(es: seq<Event>) {
    && (forall i :: 0 <= i < |es| ==> Named(es[i]))
    && (forall i, j :: 0 <= i < j < |es| ==> MayFollow(es[i], es[j]))
  }

  /** Only an error may lack a response id. */
  predicate Named(e: Event) {
    e.epoch != 0 && (e.raw.responseId == "" ==> e.raw.kind == Failed)
  }

  /** The events so far, with the one in hand. */
  ghost function Stream(s: Session): seq<Event> {
    if s.pending.Some? then s.out + [s.pending.value] else s.out
  }

  /** What the active turn has already shown binds what it may show next. */
  ghost predicate Bound(s: Session, e: Event) {
    && e.epoch <= s.latest
    && (s.phase != Idle ==> e.epoch <= s.epoch)
    && (s.phase == Listening ==> e.epoch < s.epoch)
    && (Active(s) && e.epoch == s.epoch ==>
          !Terminal(e.raw) && e.raw.responseId == s.responseId && s.responseId != "")
  }

  ghost predicate Inv(s: Session) {
    && Ordered(Stream(s))
    && (forall i :: 0 <= i < |Stream(s)| ==> Bound(s, Stream(s)[i]))
    && s.epoch <= s.latest
    && (s.phase != Idle ==> s.epoch == s.latest && s.epoch != 0)
  }

  lemma OrderedAppend(es: seq<Event>, e: Event)
    requires Ordered(es) && Named(e)
    requires forall i :: 0 <= i < |es| ==> MayFollow(es[i], e)
    ensures Ordered(es + [e])
  {
  }

  lemma ApplyKeeps(s: Session, op: Operation, epoch: nat, p: Provider)
    requires Inv(s) && epoch != 0
    ensures Inv(Apply(s, op, epoch, p).0)
  {
    var t := Apply(s, op, epoch, p).0;
    forall i | 0 <= i < |Stream(t)| ensures Stream(t)[i] == Stream(s)[i] && Bound(t, Stream(t)[i]) {
      assert Bound(s, Stream(s)[i]);
    }
  }

  /** What the actor takes next may follow all it has shown. */
  lemma TakeFollows(s: Session, shown: Event)
    requires Bound(s, shown) && s.pending.None? && s.incoming != []
             && (s.phase != Idle ==> s.epoch == s.latest && s.epoch != 0)
    ensures var t := TakeOne(s);
            && Bound(t, shown) && t.out == s.out
            && (t.pending.Some? ==> MayFollow(shown, t.pending.value))
  {
  }

  lemma TakeFits(s: Session)
    requires s.pending.None? && s.incoming != [] && (s.phase != Idle ==> s.epoch == s.latest && s.epoch != 0)
    ensures var t := TakeOne(s);
            && t.out == s.out && t.latest == s.latest && t.epoch == s.epoch && (t.phase != Idle ==> s.phase != Idle)
            && (t.pending.Some? ==> Named(t.pending.value) && Bound(t, t.pending.value))
  {
  }

  lemma TakeKeeps(s: Session)
    requires Inv(s) && s.pending.None? && s.incoming != []
    ensures Inv(TakeOne(s))
  {
    var t := TakeOne(s);
    TakeFits(s);
    forall i | 0 <= i < |s.out| ensures Bound(t, s.out[i])
        && (t.pending.Some? ==> MayFollow(s.out[i], t.pending.value)) {
      TakeFollows(s, s.out[i]);
    }
    hide TakeOne, Bound, MayFollow;
    if t.pending.Some? {
      OrderedAppend(s.out, t.pending.value);
    }
  }

  lemma ReportKeeps(s: Session, room: bool)
    requires Inv(s) && s.pending.None?
    ensures Ordered(ReportClosed(s, room).out)
    ensures ReportClosed(s, room).pending.None?
  {
    if s.phase != Idle && room {
      forall i | 0 <= i < |s.out| ensures MayFollow(s.out[i], SessionError(s.epoch)) {
        assert Bound(s, Stream(s)[i]);
      }
      OrderedAppend(s.out, SessionError(s.epoch));
    }
  }

  /** The stream is in order; while the actor lives, the turn state says what may come next. */
  ghost predicate Kept(s: Session) {
    Ordered(s.out) && (!s.stopped ==> Inv(s))
  }

  lemma OutOrdered(s: Session)
    requires Ordered(Stream(s))
    ensures Ordered(s.out)
  {
    forall i | 0 <= i < |s.out| ensures Named(s.out[i]) {
      assert Stream(s)[i] == s.out[i];
    }
    forall i, j | 0 <= i < j < |s.out| ensures MayFollow(s.out[i], s.out[j]) {
      assert Stream(s)[i] == s.out[i] && Stream(s)[j] == s.out[j];
    }
  }

  lemma StepKeeps(s: Session, op: Op)
    requires Kept(s)
    ensures Kept(Step(s, op))
  {
    if s.stopped {
      return;
    }
    hide Ordered;
    match op {
      case Enqueue(raw) => assert Stream(Step(s, op)) == Stream(s);
      case CloseStream => assert Stream(Step(s, op)) == Stream(s);
      case Urgent(epoch, p) =>
        if epoch != 0 { ApplyKeeps(s, CancelTurn, epoch, p); }
        OutOrdered(Step(s, op));
      case Command(o, epoch, expired, p) =>
        if epoch != 0 { ApplyKeeps(s, o, epoch, p); }
        OutOrdered(Step(s, op));
      case TakeEvent(room) =>
        if s.pending.None? && s.incoming != [] {
          TakeKeeps(s);
          OutOrdered(Step(s, op));
        } else if s.pending.None? && s.closed {
          ReportKeeps(s, room);
        }
      case Emit => assert Stream(Step(s, op)) == Stream(s);
      case Stop =>
    }
  }

  lemma {:induction false} RunKeeps(s: Session, ops: seq<Op>)
    requires Kept(s)
    ensures Kept(Run(s, ops))
    decreases |ops|
  {
    hide Kept, Step;
    if ops != [] {
      StepKeeps(s, ops[0]);
      RunKeeps(Step(s, ops[0]), ops[1..]);
    }
  }

  /**
   * Whatever the provider sends and however commands interleave, epochs never
   * go back, an epoch shows one response, and nothing follows its terminal event.
   */
  lemma StreamIsOrdered(ops: seq<Op>)
    ensures Ordered(Run(NEW_SESSION, ops).out)
  {
    RunKeeps(NEW_SESSION, ops);
  }

  // ---------------------------------------------------------------------
  // Cancellation as a fence
  // ---------------------------------------------------------------------

  function Enqueued(ops: seq<Op>): seq<Raw> {
    if ops == [] then [] else (if ops[0].Enqueue? then [ops[0].raw] else []) + Enqueued(ops[1..])
  }

  /**
   * What may come out after the cancel of `e`: the event of an earlier turn
   * that was in hand, or one of a later turn that the provider queued since.
   */
  ghost predicate Past(ev: Event, e: nat, held: Option<Event>, fed: seq<Raw>) {
    || (ev.epoch < e && held == Some(ev))
    || (ev.epoch > e && (ev == SessionError(ev.epoch) || ev.raw in fed))
  }

  ghost predicate Fenced(s: Session, e: nat, before: nat, held: Option<Event>, fed: seq<Raw>) {
    && e <= s.latest && (s.phase != Idle ==> s.epoch > e)
    && (forall i :: 0 <= i < |s.incoming| ==> s.incoming[i] in fed)
    && before <= |s.out|
    && (forall i :: before <= i < |s.out| ==> Past(s.out[i], e, held, fed))
    && (s.pending.Some? ==> Past(s.pending.value, e, held, fed))
  }

  lemma FencedMore(s: Session, e: nat, before: nat, held: Option<Event>, fed: seq<Raw>, more: seq<Raw>)
    requires Fenced(s, e, before, held, fed)
    ensures Fenced(s, e, before, held, fed + more)
  {
  }

  lemma StepFenced(s: Session, op: Op, e: nat, before: nat, held: Option<Event>, fed: seq<Raw>)
    requires Fenced(s, e, before, held, fed)
    requires op.Enqueue? ==> op.raw in fed
    ensures Fenced(Step(s, op), e, before, held, fed) && s.out <= Step(s, op).out
  {
    if op.Command? {
      ApplyFenced(s, op.op, op.epoch, op.provider, e, before, held, fed);
    } else if op.Urgent? {
      ApplyFenced(s, CancelTurn, op.epoch, op.provider, e, before, held, fed);
    }
  }

  lemma ApplyFenced(s: Session, op: Operation, epoch: nat, p: Provider, e: nat, before: nat,
      held: Option<Event>, fed: seq<Raw>)
    requires Fenced(s, e, before, held, fed)
    ensures Fenced(Apply(s, op, epoch, p).0, e, before, held, fed) && Apply(s, op, epoch, p).0.out == s.out
  {
  }

  lemma {:induction false} RunFenced(s: Session, ops: seq<Op>, e: nat, before: nat, held: Option<Event>, fed: seq<Raw>)
    requires Fenced(s, e, before, held, fed)
    ensures Fenced(Run(s, ops), e, before, held, fed + Enqueued(ops)) && s.out <= Run(s, ops).out
    decreases |ops|
  {
    hide Fenced, Step;
    if ops == [] {
      assert fed + [] == fed;
    } else {
      var one := if ops[0].Enqueue? then [ops[0].raw] else [];
      FencedMore(s, e, before, held, fed, one);
      StepFenced(s, ops[0], e, before, held, fed + one);
      var t, rest := Step(s, ops[0]), Enqueued(ops[1..]);
      RunFenced(t, ops[1..], e, before, held, fed + one);
      assert Enqueued(ops) == one + rest && Run(s, ops) == Run(t, ops[1..]);
      hide Enqueued, Run;
      assert (fed + one) + rest == fed + (one + rest);
    }
  }

  /**
   * Once the cancel of the active epoch is applied, that epoch never enters the
   * output again, and nothing the provider had queued before it is tagged with
   * a later epoch.
   */
  lemma CancelIsAFence(before: seq<Op>, provider: Provider, ops: seq<Op>)
    requires var s := Run(NEW_SESSION, before);
             !s.stopped && s.phase != Idle && ApplyCancel(s, s.epoch, provider).1 == Accepted
    ensures var s := Run(NEW_SESSION, before);
            var cancelled := Step(s, Urgent(s.epoch, provider));
            var later := Run(cancelled, ops);
            && s.out <= later.out
            && forall i :: |s.out| <= i < |later.out| ==>
                 Past(later.out[i], s.epoch, s.pending, Enqueued(ops))
  {
    RunKeeps(NEW_SESSION, before);
    var s := Run(NEW_SESSION, before);
    hide Run, Ordered;
    var cancelled := Step(s, Urgent(s.epoch, provider));
    assert s.pending.Some? ==> Bound(s, s.pending.value) by {
      assert s.pending.Some? ==> Stream(s)[|s.out|] == s.pending.value;
    }
    assert Fenced(cancelled, s.epoch, |s.out|, s.pending, []);
    RunFenced(cancelled, ops, s.epoch, |s.out|, s.pending, []);
    assert [] + Enqueued(ops) == Enqueued(ops);
  }

  // ---------------------------------------------------------------------
  // A provider that keeps its contract
  // ---------------------------------------------------------------------

  /** The commit reaches the provider and succeeds. */
  predicate Commits(s: Session, op: Op) {
    op.Command? && op.op == Commit && !s.stopped && op.epoch != 0 && !op.expired
    && ApplyCommit(s, op.epoch, op.provider).1 == Accepted
  }

  /** The provider's Cancel is called and returns: the fence is up, whatever the actor does next. */
  predicate Fences(s: Session, op: Op) {
    op.Urgent? && !s.stopped && op.epoch != 0 && s.phase != Idle && op.epoch == s.epoch && op.provider.ok
  }

  /** The epoch whose response the provider may still be producing. */
  function Live(live: Option<nat>, s: Session, op: Op): Option<nat> {
    if Commits(s, op) then Some(op.epoch)
    else if Fences(s, op) then None
    else if op.Enqueue? && Terminal(op.raw) then None
    else live
  }

  /** Events are well formed, belong to the live response, and end with a terminal one. */
  predicate Honest(live: Option<nat>, op: Op) {
    op.Enqueue? ==> WellFormed(op.raw) && live == Some(op.raw.origin)
  }

  predicate HonestRun(live: Option<nat>, s: Session, ops: seq<Op>)
    decreases |ops|
  {
    ops == [] || (Honest(live, ops[0]) && HonestRun(Live(live, s, ops[0]), Step(s, ops[0]), ops[1..]))
  }

  ghost predicate Attributed(live: Option<nat>, s: Session) {
    && (!Active(s) ==> live == None && s.incoming == [])
    && (live.Some? ==> live.value == s.epoch)
    && (forall i :: 0 <= i < |s.incoming| ==> WellFormed(s.incoming[i]) && s.incoming[i].origin == s.epoch)
    && (forall i :: 0 <= i < |s.incoming| && Terminal(s.incoming[i]) ==> i == |s.incoming| - 1 && live == None)
    && (forall i :: 0 <= i < |s.out| ==> s.out[i].raw.origin == s.out[i].epoch)
    && (s.pending.Some? ==> s.pending.value.raw.origin == s.pending.value.epoch)
  }

  lemma StepAttributed(live: Option<nat>, s: Session, op: Op)
    requires Attributed(live, s) && Honest(live, op) && !s.stopped
    ensures Attributed(Live(live, s, op), Step(s, op)) || Step(s, op).stopped
    ensures forall i :: 0 <= i < |Step(s, op).out| ==> Step(s, op).out[i].raw.origin == Step(s, op).out[i].epoch
  {
  }

  lemma {:induction false} StoppedStays(s: Session, ops: seq<Op>)
    requires s.stopped
    ensures Run(s, ops).out == s.out
    decreases |ops|
  {
    if ops != [] {
      StoppedStays(Step(s, ops[0]), ops[1..]);
    }
  }

  lemma {:induction false} RunAttributed(live: Option<nat>, s: Session, ops: seq<Op>)
    requires Attributed(live, s) && HonestRun(live, s, ops)
    ensures forall i :: 0 <= i < |Run(s, ops).out| ==> Run(s, ops).out[i].raw.origin == Run(s, ops).out[i].epoch
    decreases |ops|
  {
    if s.stopped {
      StoppedStays(s, ops);
      return;
    }
    if ops != [] {
      StepAttributed(live, s, ops[0]);
      hide Step, Attributed;
      var t := Step(s, ops[0]);
      if t.stopped {
        StoppedStays(t, ops[1..]);
      } else {
        RunAttributed(Live(live, s, ops[0]), t, ops[1..]);
      }
    }
  }

  /** With such a provider every event carries the epoch whose commit caused it. */
  lemma EventsCarryTheirEpoch(ops: seq<Op>)
    requires HonestRun(None, NEW_SESSION, ops)
    ensures forall i :: 0 <= i < |Run(NEW_SESSION, ops).out| ==>
              Run(NEW_SESSION, ops).out[i].raw.origin == Run(NEW_SESSION, ops).out[i].epoch
  {
    RunAttributed(None, NEW_SESSION, ops);
  }
}
