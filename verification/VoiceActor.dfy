/**
 * The conversation actor of the device: the state machine that owns a turn from
 * wake word to follow-up, and the network thread that feeds its event queue.
 *
 * The environment is explicit.  `net` lists what happens at each transport call
 * still to come: the network events that slip in before the call takes the
 * protocol lock, and then the network's answer.  `audio` lists the answers of
 * the audio engine.  All results hold for every such list.
 */
module VoiceActor {
  import opened WireTypes
  import opened ClientTransport
  import Codec = PcmCodec

  const EVENT_SLOTS: nat := 64
  const EVENTS_PER_FRAME: nat := 8
  const PRE_ROLL_FRAMES: nat := 25
  const BARGE_BUFFER_FRAMES: nat := 67
  const BARGE_CANDIDATE_FRAMES: nat := 6
  const BARGE_REFERENCE_LOW_FRAMES: nat := 3
  const BARGE_REFERENCE_WAIT_FRAMES: nat := 15
  const BARGE_ECHO_CLEAR_FRAMES: nat := 3
  const BARGE_CONFIRM_FRAMES: nat := 3
  const BARGE_TAIL_FREEZE_FRAMES: nat := 10
  const BARGE_RETRY_COOLDOWN_FRAMES: nat := 15
  const MAXIMUM_TURN_FRAMES: nat := 3000
  const FOLLOW_UP_NEAR_FRAMES: nat := 20

  /** One captured 20 ms frame with the verdicts of the audio back end. */
  datatype Frame = Frame(
    pcm: seq<byte>, sequence: nat, voiceDbfs: real,
    wake: bool, vadStarted: bool, vadEnded: bool,
    discontinuity: bool, nearVoice: bool, referenceActive: bool)

  datatype State =
    | WaitingForWake | WaitingForSpeech | CapturingSpeech | WaitingForResponse
    | PlayingResponse | CancelPending | DrainingPlayback | WaitingForFollowUp

  datatype Probe = Idle | WaitReferenceLow | Clear | Verify

  datatype Barge = Barge(
    probe: Probe, probeFrames: nat, cooldown: nat, quiet: nat, silence: nat,
    ended: bool, admitted: bool, overflow: bool)

  const NO_BARGE := Barge(Idle, 0, 0, 0, 0, false, false, false)

  /**
   * The event queue between the two threads.  `good` counts the queued events
   * that were pushed before any event was dropped.
   */
  datatype Queue = Queue(items: seq<Inbound>, overflow: bool, good: nat)

  const EMPTY_QUEUE := Queue([], false, 0)

  function Push(q: Queue, e: Inbound): Queue {
    if |q.items| == EVENT_SLOTS then q.(overflow := true)
    else q.(items := q.items + [e], good := if q.overflow then q.good else q.good + 1)
  }

  function Pop(q: Queue): Queue
    requires q.items != []
  {
    q.(items := q.items[1..], good := if q.good == 0 then 0 else q.good - 1)
  }

  /** What comes with one transport call. */
  datatype Slot = Slot(before: seq<NetEvent>, reply: NetReply)

  datatype Config = Config(uuid: Codec.Uuid, bargeIn: bool, bargeMinDbfs: real, tokenValid: bool)

  /** An event the actor took, with the turn and state it found; `good` says whether it was queued before any loss. */
  datatype Acted = Acted(event: Inbound, turn: WireIds, state: State, good: nat)

  /** What the actor asks of the player; `EndPlayback` ends what plays, if anything does. */
  datatype PlayerCall = BeginPlayback | QueueTts(audio: seq<byte>, sequence: nat) | EndPlayback | DropPlayback

  /**
   * What happened so far, for stating properties; nothing reads it back.
   * `heard` starts anew when the capture timeline breaks.
   */
  datatype History = History(
    starts: seq<WireIds>, refused: bool, acted: seq<Acted>,
    heard: seq<Frame>, atConfirm: seq<Frame>, since: seq<Frame>, calls: seq<PlayerCall>)

  datatype Actor = Actor(
    config: Config,
    link: Option<Transport>, queue: Queue,
    pre: seq<Frame>, turn: WireIds, response: WireIds, state: State,
    nextCapture: nat, upSeq: nat, followUpNear: nat, barge: Barge,
    finishAfterAck: bool, manualWake: bool, listenerFailed: bool, helloSent: bool,
    net: seq<Slot>, audio: seq<bool>, hist: History)

  function Initial(config: Config, net: seq<Slot>, audio: seq<bool>): Actor {
    Actor(config, None, EMPTY_QUEUE, [], ZERO_IDS, ZERO_IDS, WaitingForWake, 0, 0, 0, NO_BARGE,
          false, false, false, false, net, audio, History([], false, [], [], [], [], []))
  }

  // ---------------------------------------------------------------------
  // The two environments
  // ---------------------------------------------------------------------

  /** The network thread handles one event. */
  function Receive(a: Actor, n: NetEvent): (r: Actor) {
    if a.link.None? then a
    else
      var (t, e) := OnNet(a.link.value, n);
      a.(link := Some(t), queue := if e.Some? then Push(a.queue, e.value) else a.queue)
  }

  function ReceiveAll(a: Actor, ns: seq<NetEvent>): (r: Actor)
    ensures r.link.Some? == a.link.Some?
    decreases |ns|
  {
    if ns == [] then a else ReceiveAll(Receive(a, ns[0]), ns[1..])
  }

  function NextSlot(a: Actor): Slot {
    if a.net == [] then Slot([], Down) else a.net[0]
  }

  /** Up to the moment a transport call holds the protocol lock. */
  function Locked(a: Actor): (r: Actor)
    ensures r.link.Some? == a.link.Some?
  {
    ReceiveAll(a.(net := if a.net == [] then [] else a.net[1..]), NextSlot(a).before)
  }

  function SendControl(a: Actor, kind: ControlKind, ids: WireIds): (Actor, SendResult) {
    if a.link.None? then (a, Undelivered)
    else
      var a1 := Locked(a);
      var (t, r) := Send(a1.link.value, Control(kind, ids, a.config.tokenValid), NextSlot(a).reply);
      (a1.(link := Some(t)), r)
  }

  /** One yes-or-no answer of the audio engine. */
  function Ask(a: Actor): (Actor, bool) {
    if a.audio == [] then (a, false) else (a.(audio := a.audio[1..]), a.audio[0])
  }

  // ---------------------------------------------------------------------
  // Shared transitions
  // ---------------------------------------------------------------------

  function ResetListener(a: Actor): Actor {
    var (a1, ok) := Ask(a);
    if ok then a1 else a1.(listenerFailed := true)
  }

  function ResetBargeProbe(a: Actor): Actor {
    a.(barge := a.barge.(probe := Idle, probeFrames := 0, cooldown := 0))
  }

  function ResetBargeTurn(a: Actor): Actor {
    a.(barge := a.barge.(ended := false, admitted := false, overflow := false, quiet := 0, silence := 0))
  }

  function RejectBargeProbe(a: Actor): Actor {
    a.(barge := NO_BARGE.(cooldown := BARGE_RETRY_COOLDOWN_FRAMES))
  }

  function Call(a: Actor, c: PlayerCall): Actor { a.(hist := a.hist.(calls := a.hist.calls + [c])) }

  function LoseConnection(a: Actor): Actor {
    ResetListener(
      Call(a, DropPlayback).(link := None, queue := EMPTY_QUEUE, state := WaitingForWake,
         turn := ZERO_IDS, response := ZERO_IDS, pre := [], barge := NO_BARGE,
         finishAfterAck := false, manualWake := false))
  }

  function AbortCurrent(a: Actor): Actor {
    var a1 := Call(a, DropPlayback).(barge := NO_BARGE, finishAfterAck := true);
    var hasResponse := a.response.session != 0;
    var (a2, r) := SendControl(a1, if hasResponse then ResponseCancel else TurnCancel,
                               if hasResponse then a.response else a.turn);
    if r != Accepted then LoseConnection(a2) else a2.(state := CancelPending)
  }

  function AdvanceTurn(a: Actor): Actor {
    a.(turn := WireIds(a.turn.session, a.turn.turn + 1, a.turn.stream + 1, a.turn.epoch + 1),
       response := ZERO_IDS)
  }

  /** The turn ended; its playback, if any, is over. */
  function EndTurn(a: Actor): Actor {
    var a1 := AdvanceTurn(a.(barge := NO_BARGE, followUpNear := 0, finishAfterAck := false));
    ResetListener(a1).(state := WaitingForFollowUp)
  }

  /** The turn is given up with whatever is still playing. */
  function FinishTurn(a: Actor): Actor { EndTurn(Call(a, DropPlayback)) }

  function SendAudio(a: Actor, frame: Frame, end: bool): (Actor, SendOutcome) {
    if a.link.None? then (a, Rejected)
    else
      var a1 := Locked(a);
      var (t, r) := SendPcm(a1.link.value, a.turn, Flags(a.upSeq == 0, end), a.upSeq, frame.pcm,
                            NextSlot(a).reply);
      (a1.(link := Some(t), upSeq := if r == Ok then a.upSeq + 1 else a.upSeq), r)
  }

  function SendAudioOrRecover(a: Actor, frame: Frame, end: bool): (Actor, bool) {
    var (a1, r) := SendAudio(a, frame, end);
    match r
    case Ok => (a1, true)
    case Backpressure => (AbortCurrent(a1), false)
    case Rejected => (LoseConnection(a1), false)
  }

  /** Sends the buffered frames from index `i` on; the last one may carry END. */
  function Upload(a: Actor, frames: seq<Frame>, i: nat, ended: bool): (Actor, bool)
    requires i <= |frames|
    decreases |frames| - i
  {
    if i == |frames| then (a, true)
    else
      var (a1, ok) := SendAudioOrRecover(a, frames[i], ended && i + 1 == |frames|);
      if !ok then (a1, false) else Upload(a1, frames, i + 1, ended)
  }

  /** Commits the turn whose last frame was sent. */
  function SendCommit(a: Actor): Actor {
    var (a1, r) := SendControl(a, TurnCommit, a.turn);
    if r != Accepted then LoseConnection(a1) else a1.(state := WaitingForResponse)
  }

  /** Sends turn.start and notes that it was issued. */
  function IssueStart(a: Actor): (Actor, SendResult) {
    var (a1, r) := SendControl(a, TurnStart, a.turn);
    (a1.(hist := a1.hist.(starts := a1.hist.starts + [a.turn], refused := a1.hist.refused || r == Refused)), r)
  }

  /** The open turn gets the buffered frames first; a finished utterance is committed at once. */
  function UploadBuffered(a: Actor, ended: bool): Actor {
    if ended && a.pre == [] then LoseConnection(a)
    else
      var (a1, ok) := Upload(a, a.pre, 0, ended);
      if !ok then a1
      else if ended then SendCommit(a1.(pre := []))
      else a1.(pre := [])
  }

  function StartTurn(a: Actor, ended: bool): Actor {
    if a.turn.session == 0 then LoseConnection(a)
    else
      var (a1, r) := IssueStart(a);
      if r != Accepted then LoseConnection(a1)
      else UploadBuffered(a1.(upSeq := 0, state := CapturingSpeech), ended)
  }

  function Commit(a: Actor, frame: Frame): Actor {
    var (a1, ok) := SendAudioOrRecover(a, frame, true);
    if !ok then a1 else SendCommit(a1)
  }

  function ResumeAfterBarge(a: Actor): Actor {
    if !a.barge.admitted then FinishTurn(a)
    else
      StartTurn(AdvanceTurn(Call(a, DropPlayback).(barge := a.barge.(admitted := false, ended := false),
                                                    finishAfterAck := false)),
                a.barge.ended)
  }

  function CompleteCancel(a: Actor): Actor {
    if a.finishAfterAck then FinishTurn(a)
    else if a.barge.admitted && !a.barge.overflow then ResumeAfterBarge(a)
    else FinishTurn(a.(pre := []))
  }

  // ---------------------------------------------------------------------
  // Events
  // ---------------------------------------------------------------------

  function HandleError(a: Actor, e: Inbound): Actor
    requires e.Error?
  {
    if e.code == "transport" || a.turn.session == 0 then LoseConnection(a)
    else if e.ids.turn == 0 then LoseConnection(a)
    else if e.code == "downlink_discontinuity" then
      if a.state != CancelPending then AbortCurrent(a) else a
    else if a.state == CancelPending then CompleteCancel(a)
    else FinishTurn(a)
  }

  function HandleDone(a: Actor): Actor {
    var (a1, playing) := Ask(a);
    var (a2, ended) := if playing then Ask(a1) else (a1, true);
    var a3 := Call(a2, EndPlayback);
    if playing && !ended then LoseConnection(a3) else a3.(state := DrainingPlayback)
  }

  function HandleEvent(a: Actor, e: Inbound): Actor {
    if e.Error? then HandleError(a, e)
    else if e.Heartbeat? then a
    else if a.state == CancelPending && !e.Cancelled? then a
    else match e
      case HelloAck(ids) =>
        ResetListener(a.(turn := WireIds(ids.session, 1, 1, ids.epoch), pre := []))
      case ResponseStart(ids) => a.(response := ids)
      case TextDelta(_, _) => a
      case AudioStart(_) =>
        var (a1, ok) := Ask(Call(a, BeginPlayback));
        if !ok then LoseConnection(a1) else ResetBargeProbe(a1.(state := PlayingResponse))
      case Pcm(_, _, sequence, audio) =>
        var (a1, ok) := Ask(Call(a, QueueTts(audio, sequence)));
        if !ok then AbortCurrent(a1) else a1
      case Done(_) => HandleDone(a)
      case Cancelled(_) => if a.state == CancelPending then CompleteCancel(a) else FinishTurn(a)
      case _ => a
  }

  /** Takes the oldest event and acts on it. */
  function HandleOne(a: Actor): Actor
    requires a.queue.items != []
  {
    var e := a.queue.items[0];
    var a1 := a.(queue := Pop(a.queue));
    HandleEvent(a1.(hist := a1.hist.(acted := a1.hist.acted + [Acted(e, a.turn, a.state, a.queue.good)])), e)
  }

  // ---------------------------------------------------------------------
  // Frames
  // ---------------------------------------------------------------------

  predicate BargeVoice(c: Config, f: Frame) { f.nearVoice && f.voiceDbfs >= c.bargeMinDbfs }

  function SavePreRoll(a: Actor, f: Frame): Actor {
    var keeping := a.state == CancelPending && a.barge.admitted;
    if keeping && |a.pre| == BARGE_BUFFER_FRAMES then a.(barge := a.barge.(overflow := true))
    else
      var limit := if a.barge.probe != Idle || keeping then BARGE_BUFFER_FRAMES else PRE_ROLL_FRAMES;
      if |a.pre| < limit then a.(pre := a.pre + [f]) else a.(pre := (a.pre + [f])[1..])
  }

  function KeepNewestPreRoll(a: Actor, count: nat): Actor {
    if |a.pre| <= count then a else a.(pre := a.pre[|a.pre| - count..])
  }

  function TrackBargeUtterance(a: Actor, f: Frame): Actor {
    var silence :=
      if f.nearVoice then 0
      else if a.barge.silence < BARGE_TAIL_FREEZE_FRAMES then a.barge.silence + 1
      else a.barge.silence;
    a.(barge := a.barge.(silence := silence, ended := a.barge.ended || f.vadEnded))
  }

  function ConfirmBarge(a: Actor): Actor {
    var d := Call(a, DropPlayback);
    var a1 := d.(barge := a.barge.(probe := Idle, probeFrames := 0, cooldown := 0,
                                   admitted := true, ended := false, silence := 0, overflow := false),
                 finishAfterAck := false,
                 hist := d.hist.(atConfirm := a.pre, since := []));
    var (a2, r) := SendControl(a1, ResponseCancel, a.response);
    if r != Accepted then LoseConnection(a2) else a2.(state := CancelPending)
  }

  /** Playback at normal volume: six voiced frames in a row make a candidate. */
  function ProbeIdle(a: Actor, f: Frame): Actor {
    var b := a.barge;
    if b.cooldown != 0 then a.(barge := b.(cooldown := b.cooldown - 1))
    else if !BargeVoice(a.config, f) then a.(barge := b.(probeFrames := 0))
    else if b.probeFrames + 1 < BARGE_CANDIDATE_FRAMES then
      a.(barge := b.(probeFrames := b.probeFrames + 1))
    else BeginProbe(a)
  }

  /** The six candidate frames are kept and playback is muted. */
  function BeginProbe(a: Actor): Actor {
    KeepNewestPreRoll(a, BARGE_CANDIDATE_FRAMES)
      .(barge := NO_BARGE.(probe := WaitReferenceLow, cooldown := a.barge.cooldown))
  }

  /** Playback muted: wait for the echo reference to go quiet. */
  function ProbeReference(a: Actor, f: Frame): Actor {
    var b := a.barge;
    if b.probeFrames + 1 > BARGE_REFERENCE_WAIT_FRAMES then RejectBargeProbe(a)
    else
      var quiet := if f.referenceActive then 0 else b.quiet + 1;
      if quiet < BARGE_REFERENCE_LOW_FRAMES then
        a.(barge := b.(probeFrames := b.probeFrames + 1, quiet := quiet))
      else a.(barge := b.(probeFrames := 0, quiet := quiet, probe := Clear))
  }

  function ProbeClear(a: Actor, f: Frame): Actor {
    var b := a.barge;
    if f.referenceActive then RejectBargeProbe(a)
    else if b.probeFrames + 1 < BARGE_ECHO_CLEAR_FRAMES then
      a.(barge := b.(probeFrames := b.probeFrames + 1))
    else a.(barge := b.(probeFrames := 0, probe := Verify))
  }

  /** The frame completes the confirmation. */
  predicate Confirms(a: Actor, f: Frame) {
    && a.config.bargeIn && a.barge.probe == Verify && !f.referenceActive && BargeVoice(a.config, f)
    && a.barge.probeFrames + 1 >= BARGE_CONFIRM_FRAMES
  }

  function ProbeVerify(a: Actor, f: Frame): Actor {
    var b := a.barge;
    if f.referenceActive || !BargeVoice(a.config, f) then RejectBargeProbe(a)
    else a.(barge := b.(probeFrames := b.probeFrames + 1))
  }

  function HandleBarge(a: Actor, f: Frame): Actor {
    if !a.config.bargeIn then ResetBargeProbe(a)
    else match a.barge.probe
      case Idle => ProbeIdle(a, f)
      case WaitReferenceLow => ProbeReference(a, f)
      case Clear => ProbeClear(a, f)
      case Verify =>
        if Confirms(a, f) then ConfirmBarge(ProbeVerify(a, f)) else ProbeVerify(a, f)
  }

  /** What comes next does not follow what was heard before. */
  function Restart(a: Actor): Actor { a.(hist := a.hist.(heard := [])) }

  /** Whatever was under way without its frames is given up. */
  function GiveUp(a: Actor): Actor {
    match a.state
    case CancelPending => ResetBargeTurn(a).(finishAfterAck := true)
    case CapturingSpeech => AbortCurrent(a)
    case WaitingForResponse => AbortCurrent(a)
    case PlayingResponse => AbortCurrent(a)
    case DrainingPlayback => AbortCurrent(a)
    case _ => ResetListener(Call(a, DropPlayback).(state := WaitingForWake))
  }

  /** The capture stream broke before this frame. */
  function OnBreak(a: Actor): Actor { GiveUp(Restart(a.(pre := []))) }

  /** A pause in the interrupting utterance ends with its first voiced frame. */
  function Thaw(a: Actor, f: Frame): Actor {
    if a.state == CancelPending && !a.barge.ended && f.nearVoice
    then a.(barge := a.barge.(silence := 0)) else a
  }

  predicate Frozen(a: Actor) {
    a.state == CancelPending && (a.barge.ended || a.barge.silence >= BARGE_TAIL_FREEZE_FRAMES)
  }

  /** The frame is on the timeline; it is buffered unless it is sent or frozen out. */
  function Buffer(a: Actor, f: Frame): Actor {
    var a1 := a.(hist := a.hist.(heard := a.hist.heard + [f]));
    var a2 := if a.state == CancelPending then a1.(hist := a1.hist.(since := a1.hist.since + [f])) else a1;
    if a.state == CapturingSpeech || Frozen(a) then a2 else SavePreRoll(a2, f)
  }

  function BeginListening(a: Actor): Actor {
    ResetListener(a.(state := WaitingForSpeech))
  }

  function OnCapturing(a: Actor, f: Frame): Actor {
    if a.upSeq + 1 >= MAXIMUM_TURN_FRAMES then Commit(a, f)
    else if a.barge.ended || f.vadEnded then Commit(a.(barge := a.barge.(ended := false)), f)
    else SendAudioOrRecover(a, f, false).0
  }

  function Dispatch(a: Actor, f: Frame): Actor {
    if a.turn.session == 0 then (if f.wake then ResetListener(a) else a)
    else match a.state
      case WaitingForWake =>
        if a.manualWake then BeginListening(a.(manualWake := false))
        else if f.wake then BeginListening(a) else a
      case WaitingForSpeech => if f.vadStarted then StartTurn(a, false) else a
      case WaitingForFollowUp =>
        if !f.nearVoice then a.(followUpNear := 0)
        else if a.followUpNear + 1 >= FOLLOW_UP_NEAR_FRAMES then
          StartTurn(a.(followUpNear := a.followUpNear + 1), false)
        else a.(followUpNear := a.followUpNear + 1)
      case CapturingSpeech => OnCapturing(a, f)
      case PlayingResponse => HandleBarge(a, f)
      case CancelPending => TrackBargeUtterance(a, f)
      case DrainingPlayback => HandleBarge(a, f)
      case WaitingForResponse => a
  }

  /** A frame whose iteration was given to a deadline goes unheard. */
  function Skip(a: Actor, f: Frame): Actor { Restart(a.(nextCapture := f.sequence + 1)) }

  function OnFrame(a: Actor, f: Frame): Actor {
    var a1 := a.(nextCapture := f.sequence + 1);
    if f.discontinuity || f.sequence != a.nextCapture then OnBreak(a1)
    else Dispatch(Buffer(Thaw(a1, f), f), f)
  }

  // ---------------------------------------------------------------------
  // The actor's loop
  // ---------------------------------------------------------------------

  /** What the clock and the player say when deadlines are looked at. */
  datatype Clock = Clock(stateExpired: bool, heartbeatExpired: bool, playbackDone: bool, playbackFailed: bool)

  /** The second result says whether the frame in hand is still current. */
  function AdvanceDeadlines(a: Actor, c: Clock): (Actor, bool) {
    if a.turn.session == 0 then
      if a.link.None? || !c.stateExpired then (a, true) else (LoseConnection(a), false)
    else if c.heartbeatExpired then (LoseConnection(a), false)
    else if a.state == DrainingPlayback && c.playbackDone then
      (if c.playbackFailed then a.(listenerFailed := true) else EndTurn(a), false)
    else if a.state != WaitingForWake && c.stateExpired then
      (match a.state
       case WaitingForSpeech => ResetListener(a.(state := WaitingForWake, pre := []))
       case WaitingForFollowUp => ResetListener(a.(state := WaitingForWake, pre := []))
       case CancelPending => LoseConnection(a)
       case _ => AbortCurrent(a), false)
    else (a, true)
  }

  datatype UiAction = NoAction | Wake | Interrupt

  function PollUi(a: Actor, u: UiAction): Actor {
    match u
    case NoAction => a
    case Wake =>
      if a.state == WaitingForWake && a.turn.session != 0 then a.(manualWake := true) else a
    case Interrupt =>
      if a.state == PlayingResponse || a.state == DrainingPlayback then AbortCurrent(a) else a
  }

  function StartConnect(a: Actor, started: bool): Actor {
    var a1 := a.(link := Some(Fresh(a.config.uuid)), helloSent := false,
                 hist := a.hist.(starts := []));
    if started then a1 else LoseConnection(a1)
  }

  function FinishConnect(a: Actor): Actor {
    if a.link.None? || a.helloSent || !a.link.value.connected then a
    else
      var (a1, r) := SendControl(a, Hello, ZERO_IDS);
      if r != Accepted then LoseConnection(a1) else a1.(helloSent := true)
  }

  /** Where the loop stands; `Draining` counts the events taken in this iteration. */
  datatype Pc = Top | Draining(pops: nat) | Polled | Checked | Stopped

  datatype System = System(a: Actor, pc: Pc)

  datatype Op =
    | Network(event: NetEvent)
    | Begin(connect: bool, started: bool)
    | Take
    | Poll(action: UiAction)
    | CheckOverflow
    | Finish(clock: Clock, frame: Option<Frame>)

  function At(a: Actor, pc: Pc): System {
    System(a, if a.listenerFailed then Stopped else pc)
  }

  /** One atomic step; an operation that is not due leaves the system alone. */
  function Step(s: System, op: Op): System {
    match op
    case Network(n) => s.(a := Receive(s.a, n))
    case Begin(connect, started) =>
      if s.pc != Top then s
      else
        var a1 := if connect && s.a.link.None? then StartConnect(s.a, started) else s.a;
        if a1.listenerFailed then System(a1, Stopped)
        else System(FinishConnect(a1), Draining(0))
    case Take =>
      if s.pc.Draining? && s.pc.pops < EVENTS_PER_FRAME && s.a.link.Some? && !s.a.listenerFailed
        && s.a.queue.items != []
      then System(HandleOne(s.a), Draining(s.pc.pops + 1))
      else s
    case Poll(u) =>
      if s.pc.Draining? then At(PollUi(s.a, u), Polled) else s
    case CheckOverflow =>
      if s.pc != Polled then s
      else System(if s.a.queue.overflow then LoseConnection(s.a) else s.a, Checked)
    case Finish(clock, frame) =>
      if s.pc != Checked then s
      else
        var (a1, current) := AdvanceDeadlines(s.a, clock);
        if a1.listenerFailed then System(a1, Stopped)
        else if frame.None? then System(a1, Top)
        else if !current then System(Skip(a1, frame.value), Top)
        else At(OnFrame(a1, frame.value), Top)
  }

  function Run(s: System, ops: seq<Op>): System
    decreases |ops|
  {
    if ops == [] then s else Run(Step(s, ops[0]), ops[1..])
  }
}
