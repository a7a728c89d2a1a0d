/**
 * The server's way back: provider events become control messages and audio
 * frames of 20 ms, released at the pace of a speaker.  The forwarder runs
 * beside the handler that starts and retires turns; every lock region is one step.
 */
module Downlink {
  import opened WireTypes
  import S = SessionActor

  const MAX_BUFFERED: nat := 72000
  const MAX_DELTA: nat := 65536
  const READ_RESUME: nat := 6464
  /** Nanoseconds. */
  const FRAME_TIME: int := 20_000_000
  const MIN_SPACING: int := 15_000_000

  datatype Frame = Frame(sequence: nat, start: bool, end: bool, payload: seq<byte>, at: int)

  /** What goes out for one turn, in order. */
  datatype Wire =
    | ResponseStart(responseId: string)
    | TextDelta(responseId: string, text: string)
    | AudioStart(responseId: string, rate: int)
    | Audio(frame: Frame)
    | Done(responseId: string)

  /** The shared record of the turn: its downlink identities and what was sent for it. */
  datatype Turn = Turn(ids: WireIds, active: bool, outputSequence: nat, outputStarted: bool)

  datatype Pacer = Pacer(
    epoch: nat, turn: nat, responseId: string, pending: seq<byte>, providerDone: bool,
    nextFrameAt: Option<int>, wireFrames: nat)

  const IDLE_PACER := Pacer(0, 0, "", [], false, None, 0)

  /** The log of one response: its messages, the provider's bytes, and whether silence was added. */
  datatype Response = Response(ids: WireIds, messages: seq<Wire>, provided: seq<byte>, silenced: bool)

  /** `faults` lists the turns whose provider error was sent. */
  datatype Forwarder = Forwarder(
    turn: Turn, pacer: Pacer, selecting: bool, failed: bool, overflowed: bool,
    current: Response, completed: seq<Response>, faults: seq<WireIds>)

  function Initial(session: nat): Forwarder {
    Forwarder(Turn(WireIds(session, 0, 0, 1), false, 0, false), IDLE_PACER, false, false, false,
              Response(ZERO_IDS, [], [], false), [], [])
  }

  predicate BelongsTo(p: Pacer, t: Turn) {
    p.epoch != 0 && p.epoch == t.ids.epoch && p.turn == t.ids.turn
  }

  predicate Matches(p: Pacer, t: Turn, responseId: string) {
    BelongsTo(p, t) && p.responseId == responseId
  }

  predicate FrameReady(p: Pacer) {
    |p.pending| >= OUTPUT_FRAME_BYTES || (p.providerDone && p.pending != [])
  }

  predicate Due(p: Pacer, now: int) { p.nextFrameAt.None? || p.nextFrameAt.value <= now }

  function NextDeadline(previous: Option<int>, sentAt: int): (next: int) {
    if previous.None? || sentAt - previous.value >= FRAME_TIME then sentAt + FRAME_TIME
    else if previous.value + FRAME_TIME < sentAt + MIN_SPACING then sentAt + MIN_SPACING
    else previous.value + FRAME_TIME
  }

  // ---------------------------------------------------------------------
  // The handler's side
  // ---------------------------------------------------------------------

  /** turn.start; the session actor refuses epochs that are not new. */
  function StartTurn(f: Forwarder, ids: WireIds): Forwarder {
    if f.turn.active || !ValidIds(ids) || ids.session != f.turn.ids.session
      || (f.turn.ids.turn != 0 && ids.epoch <= f.turn.ids.epoch)
    then f
    else f.(turn := Turn(ids, true, 0, false))
  }

  /** A cancel, a retirement, a provider error. */
  function Retire(f: Forwarder): Forwarder { f.(turn := f.turn.(active := false)) }

  // ---------------------------------------------------------------------
  // Sending
  // ---------------------------------------------------------------------

  /**
   * How one send ends: it is queued; it fails because the turn was retired
   * meanwhile, or is skipped for that reason; it fails although the turn is active.
   */
  datatype Outcome = Sent | Lost | Broken

  function Log(f: Forwarder, m: Wire): Forwarder {
    f.(current := f.current.(messages := f.current.messages + [m]))
  }

  /** sendControlIfActive. */
  function SendControl(f: Forwarder, m: Wire, o: Outcome): Forwarder {
    match o
    case Sent => Log(f, m)
    case Lost => Retire(f)
    case Broken => f.(failed := true)
  }

  function Reset(f: Forwarder): Forwarder { f.(pacer := IDLE_PACER) }

  /** finishPacedResponse, and the reset behind it. */
  function Finish(f: Forwarder, o: Outcome): Forwarder {
    if !f.turn.active || !BelongsTo(f.pacer, f.turn) then Reset(f)
    else match o
      case Sent =>
        var g := Log(f, Done(f.pacer.responseId));
        Reset(Retire(g.(completed := g.completed + [g.current])))
      case Lost => Reset(Retire(f))
      case Broken => f.(failed := true)
  }

  /** The frame about to go: the sequence is reserved under the lock. */
  function NextFrame(f: Forwarder, at: int): Frame
    requires f.pacer.pending != []
  {
    var n := if |f.pacer.pending| < OUTPUT_FRAME_BYTES then |f.pacer.pending| else OUTPUT_FRAME_BYTES;
    Frame(f.turn.outputSequence, f.turn.outputSequence == 0, f.pacer.providerDone && n == |f.pacer.pending|,
          f.pacer.pending[..n], at)
  }

  function Reserve(f: Forwarder): Forwarder {
    f.(turn := f.turn.(outputSequence := f.turn.outputSequence + 1))
  }

  /** The frame was queued at `at`. */
  function Queued(f: Forwarder, at: int): Forwarder
    requires f.pacer.pending != []
  {
    var frame := NextFrame(f, at);
    var g := Log(Reserve(f), Audio(frame));
    g.(pacer := f.pacer.(pending := f.pacer.pending[|frame.payload|..], wireFrames := f.pacer.wireFrames + 1,
                         nextFrameAt := Some(NextDeadline(f.pacer.nextFrameAt, at))))
  }

  /** sendNextPacedFrame, and the finish behind the last frame. */
  function SendFrame(f: Forwarder, at: int, o: Outcome, finish: Outcome): Forwarder
    requires f.pacer.pending != []
  {
    if !f.turn.active || !BelongsTo(f.pacer, f.turn) then Reset(f)
    else match o
      case Sent =>
        if NextFrame(f, at).end then Finish(Queued(f, at), finish) else Queued(f, at)
      case Lost => Reset(Retire(Reserve(f)))
      case Broken => Reserve(f).(failed := true)
  }

  // ---------------------------------------------------------------------
  // The loop
  // ---------------------------------------------------------------------

  /** A response whose last frame left before it was known to be the last ends with one silent sample. */
  function AddSilence(f: Forwarder): Forwarder {
    if f.pacer.providerDone && f.pacer.pending == [] && f.pacer.wireFrames != 0
    then f.(pacer := f.pacer.(pending := [0, 0]), current := f.current.(silenced := true))
    else f
  }

  function DropStale(f: Forwarder): Forwarder {
    if f.pacer.epoch != 0 && (!f.turn.active || !BelongsTo(f.pacer, f.turn)) then Reset(f) else f
  }

  /**
   * From the top of the loop to its select, or to its next turn; a frame is queued `delay` after
   * the clock was read.
   */
  function Pass(f: Forwarder, now: int, delay: nat, o: Outcome, finish: Outcome): Forwarder {
    if f.selecting || f.failed then f
    else
      var g := AddSilence(DropStale(f));
      if g.pacer.providerDone && g.pacer.pending == [] then Finish(g, finish)
      else if FrameReady(g.pacer) && Due(g.pacer, now) then SendFrame(g, now + delay, o, finish)
      else g.(selecting := true)
  }

  predicate Gated(p: Pacer) { p.epoch != 0 && |p.pending| > READ_RESUME }

  predicate ValidAudio(raw: S.Raw) {
    raw.rate == OUTPUT_RATE && raw.pcm != [] && |raw.pcm| % BYTES_PER_SAMPLE == 0 && |raw.pcm| <= MAX_DELTA
  }

  function Fail(f: Forwarder): Forwarder { f.(failed := true) }

  function OnStarted(f: Forwarder, raw: S.Raw, o: Outcome): Forwarder {
    if f.pacer.epoch != 0 then Fail(f)
    else
      var ids := f.turn.ids;
      var p := IDLE_PACER.(epoch := ids.epoch, turn := ids.turn, responseId := raw.responseId);
      SendControl(f.(pacer := p, current := Response(ids, [], [], false)), ResponseStart(raw.responseId), o)
  }

  function OnText(f: Forwarder, raw: S.Raw, o: Outcome): Forwarder {
    if !Matches(f.pacer, f.turn, raw.responseId) then Fail(f)
    else SendControl(f, TextDelta(raw.responseId, raw.text), o)
  }

  function Buffer(f: Forwarder, pcm: seq<byte>): Forwarder {
    if f.failed then f
    else f.(pacer := f.pacer.(pending := f.pacer.pending + pcm),
            current := f.current.(provided := f.current.provided + pcm))
  }

  function OnAudio(f: Forwarder, raw: S.Raw, o: Outcome): Forwarder {
    if !ValidAudio(raw) || !Matches(f.pacer, f.turn, raw.responseId) then Fail(f)
    else if |f.pacer.pending| + |raw.pcm| > MAX_BUFFERED then Fail(f.(overflowed := true))
    else if f.turn.outputStarted then Buffer(f, raw.pcm)
    else
      Buffer(SendControl(f.(turn := f.turn.(outputStarted := true)), AudioStart(raw.responseId, raw.rate), o), raw.pcm)
  }

  function OnDone(f: Forwarder, raw: S.Raw): Forwarder {
    if !Matches(f.pacer, f.turn, raw.responseId) then Fail(f)
    else f.(pacer := f.pacer.(providerDone := true))
  }

  /** The turn is retired and its error sent, unless that fails. */
  function OnFailed(f: Forwarder, o: Outcome): Forwarder {
    if o == Broken then Retire(f).(failed := true)
    else Reset(Retire(f.(faults := f.faults + [f.turn.ids])))
  }

  /** An event of the session, taken at the select unless the buffer is too full to read one. */
  function TakeEvent(f: Forwarder, e: S.Event, o: Outcome): Forwarder {
    if !f.selecting || f.failed || Gated(f.pacer) then f
    else
      var g := f.(selecting := false);
      if !f.turn.active || e.epoch != f.turn.ids.epoch then g
      else match e.raw.kind
        case Started => OnStarted(g, e.raw, o)
        case TextDelta => OnText(g, e.raw, o)
        case Audio => OnAudio(g, e.raw, o)
        case Done => OnDone(g, e.raw)
        case Failed => OnFailed(g, o)
        case Unknown => g
  }

  datatype Op =
    | HandlerStart(ids: WireIds)
    | HandlerRetire
    | LoopPass(now: int, delay: nat, outcome: Outcome, finish: Outcome)
    | Timer
    | Event(event: S.Event, outcome: Outcome)

  function Step(f: Forwarder, op: Op): Forwarder {
    match op
    case HandlerStart(ids) => StartTurn(f, ids)
    case HandlerRetire => Retire(f)
    case LoopPass(now, delay, o, finish) => Pass(f, now, delay, o, finish)
    case Timer => if f.selecting then f.(selecting := false) else f
    case Event(e, o) => TakeEvent(f, e, o)
  }

  function Run(f: Forwarder, ops: seq<Op>): Forwarder
    decreases |ops|
  {
    if ops == [] then f else Run(Step(f, ops[0]), ops[1..])
  }

  /** The forwarder reads the event now. */
  predicate Reads(f: Forwarder, op: Op) {
    op.Event? && f.selecting && !f.failed && !Gated(f.pacer)
  }

  /** The events the forwarder read, in order. */
  function EventsRead(f: Forwarder, ops: seq<Op>): seq<S.Event>
    decreases |ops|
  {
    if ops == [] then []
    else (if Reads(f, ops[0]) then [ops[0].event] else []) + EventsRead(Step(f, ops[0]), ops[1..])
  }
}
