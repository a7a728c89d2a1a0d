# boomPI voice turns: model and proofs

boomPI is a voice assistant: a small device with microphones, a speaker and a
wake word, and a server that holds the session with a speech provider.  They
talk over one WebSocket with JSON control messages and binary PCM frames.  This
project models the turn protocol between them, the state machines on both
sides, and the bounded audio buffers at both ends, and proves what they keep in
every run.

The model is made of four connected parts.

* **Device protocol.**  `ClientTransport` is the transport's locked regions as
  a transition system, `VoiceTransport` the object that performs them.
  `VoiceActor` is the conversation actor with its event queue, pre-roll and
  barge-in state; `VoiceClient` and `DeviceRings` perform it in place, each
  handler proved equal to the function of the same name in `VoiceActor`.
  `TransportProofs`, `ActorInvariant`, `ActorResponse`, `ActorSafety`, `BargeIn`
  and `BargeUpload` say what never happens in any run; `ActorPlayer` what the
  player is asked for; `TransportProgress`, `CaptureProgress`, `Interruptions`,
  `BargeProgress`, `AnswerProgress` and `ConversationProgress` what does happen
  when nothing stands in the way, and what can.
* **Device audio.**  `Playback` is one spoken answer, from the first packet to
  the last rendered sample, with the two threads interleaved; `TtsRing` and
  `AudioEngine` show that 75 slots with a partly filled tail implement it;
  `PlaybackOutcome` is about its verdict and about answers that are heard whole.
  `CaptureQueue`, `CaptureLosses` and `CaptureTimeline` follow captured frames
  into the actor.
* **Server turns.**  `SessionActor` and `TurnActor` are the turn actor between
  commands and provider, `SessionCalls` what it asks of the provider,
  `SessionDelivery` what it makes of the answers and `SessionProgress` which
  turns it takes to their end; `ServerUplink`, `UplinkHandler`, `UplinkProofs`,
  `UplinkOrder` and `UplinkProgress` the microphone path; `Downlink`,
  `DownlinkHandler`, `DownlinkProofs`, `DownlinkSource`, `DownlinkProgress` and
  `StalePacer` the paced way back; `CongestionFence`, `ReceiveProgress` and
  `Connection` the bounded receive queue.
* **Wire.**  `PcmCodec` is the 64-byte header as both sides write and read it;
  `EndToEnd` follows a completed answer from the provider to the device's actor,
  `QuestionDelivery` a question from the microphone to the provider.

Concurrency is modelled by steps: every region under a lock, every channel
operation and every call that may block is one step, and a run is any sequence
of steps.  Each class method that the code runs under a lock is proved equal to
the step it performs.  The actor's view of the network is a list of slots, one
for each transport call still to come, holding the network events that slip in
before the call gets the lock and the network's answer; the audio engine's
answers are a second list.  All results hold for all such lists.  Logs (what was
sent, acted on, rendered, read, returned) are recorded beside the state and are
never read back.

Most results come in pairs.  One says what no run does: data of a cancelled turn
passed on, a start refused, a frame lost without a flag.  Its companion says
that the operation nevertheless does its work, so that refusing, dropping or
closing would not meet it: a proper message is taken, a cancel that can reach the
server is sent and answered, a question and an answer arrive whole, and the
connection ends only for the causes listed.

## Findings

Three statements one might expect are false of the code; the exact condition of
each is proved.

* A turn cancelled while the event forwarder waits for the provider, with less
  than one frame buffered, leaves the forwarder's pacer in place, because only
  the top of its loop resets it.  The next turn's first event is then taken for
  a duplicate response.start and ends the connection
  (`DownlinkProofs.CancelWhileWaitingEndsTheConnection` is such a run).  Over all
  runs that start is refused exactly when the loop has not gone over its top
  since the turn was retired, or its own message cannot be sent
  (`StalePacer.StartRefusedWithoutAPass`).
* A turn that overflows the receive queue is silenced at once exactly when the
  receiver does not have another turn's turn.start at hand
  (`CongestionFence.CongestedTurnIsSilenced`).  One taken off the queue before
  the overflow lifts the fence, comes out ahead of the report, and the congested
  turn's queued messages follow (`CongestionFence.StartInHandLiftsTheFence`); an
  open connection gets there (`CongestionFence.StartAtHandHappens`).
* An error the server sends for the session as a whole names no turn and the
  session's first epoch.  The device's transport checks for late messages first
  and, from the second turn on, takes it for one: it is passed on exactly while
  the transport's turn has no later epoch than the session
  (`TransportProgress.SessionErrorIsHeardUntilTheSecondTurn`).

## Model

| member | source | states |
|---|---|---|
| PcmCodec.ReadWritten | client/src/network/voice_transport.cpp:39-56 | reading an integer of any width back from its big-endian bytes gives the integer |
| PcmCodec.WriteRead | client/src/network/voice_transport.cpp:39-56 | writing the integer read from any bytes gives the same bytes, so no two values share an encoding |
| PcmCodec.Put | client/src/network/voice_transport.cpp:39-47 | the shifting loop leaves exactly the big-endian bytes at its place and touches no other byte |
| PcmCodec.Get | client/src/network/voice_transport.cpp:48-56 | the accumulating loop computes the big-endian value |
| PcmCodec.MarshalBinary | server/internal/protocol/pcm.go:150-172 | succeeds exactly on valid headers, and then the 64 bytes hold every field at its offset |
| PcmCodec.ParseIffLaidOut | server/internal/protocol/pcm.go:174-203 | parsing yields a header exactly on the bytes that lay that valid header out; with LayoutUnique a bijection between valid headers and accepted prefixes |
| PcmCodec.LayoutUnique | server/internal/protocol/pcm.go:150-172 | two 64-byte layouts of one header are equal |
| PcmCodec.Reencode | server/internal/protocol/pcm.go:150-203 | whatever parses re-encodes, to the same 64 bytes |
| PcmCodec.WriteUplinkFrame | client/src/network/voice_transport.cpp:359-365 | the device's own writer, with its literals and offsets, puts every field where the Go layout has it, and the samples behind |
| PcmCodec.PutFront | client/src/network/voice_transport.cpp:359-362 | the device's magic, version, kind, flags, header length, format, rate, payload length and sequence at its own offsets, none overwriting another |
| PcmCodec.PutBack | client/src/network/voice_transport.cpp:362-365 | timestamp, epoch, uuid, session, turn and stream at the device's own offsets, the rest untouched |
| PcmCodec.ServerReadsUplink | server/internal/protocol/pcm.go:205-215 | the server parses a device frame back to its header and samples, and exactly when payload, flags, identities and uuid are acceptable |
| PcmCodec.DeviceAgreesWithServer | client/src/network/voice_transport.cpp:554-566 | the device takes exactly the frames the server's parser takes that carry 24 kHz downlink audio of at most 20 ms for it, identities aside |
| PcmCodec.DeviceReadsServerFrame | client/src/network/voice_transport.cpp:554-566 | every field the server wrote is read back at the device's own offsets |
| TransportProofs.SoundRun | client/src/network/voice_transport.cpp:276-377 | in every run the response belongs to the committed turn, an open turn has valid identities, and no done turn is active |
| TransportProofs.CancelSilencesTurn | client/src/network/voice_transport.cpp:295-335 | after an accepted cancel no start, text, audio start or PCM of that turn is passed on for the rest of the connection, whatever the server sends |
| TransportProofs.AudioIsGapless | client/src/network/voice_transport.cpp:567-592 | the PCM passed on for a turn is numbered from zero without gap or repeat, START first, nothing after END |
| VoiceTransport.Impl.SendControl | client/src/network/voice_transport.cpp:276-336 | the locked region in place: new state and answer are those of the transition system, including refusals and the repeated cancel |
| VoiceTransport.Impl.SendText | client/src/network/voice_transport.cpp:338-350 | a full send buffer lets only a cancellation through |
| VoiceTransport.Impl.SendPcm64 | client/src/network/voice_transport.cpp:352-377 | a frame is sent, pushed back or rejected, and the sequence moves only when it is sent |
| VoiceTransport.Impl.HandleText | client/src/network/voice_transport.cpp:457-553 | a text message changes the protocol state and is passed on, ignored or answered by closing, as the transition system says |
| VoiceTransport.Impl.HandleHelloAck | client/src/network/voice_transport.cpp:466-474 | the acknowledgement is taken once, with the one audio contract |
| VoiceTransport.Impl.HandleResponseStart | client/src/network/voice_transport.cpp:475-491 | a response opens only for the committed active turn, silently when a cancel is out |
| VoiceTransport.Impl.HandleCancelled | client/src/network/voice_transport.cpp:492-505 | an acknowledgement counts only for a cancel that is out; that a proper one does count is TransportProgress.CancelIsAcknowledged |
| VoiceTransport.Impl.HandleError | client/src/network/voice_transport.cpp:506-516 | a turn error closes the turn, a session error does not |
| VoiceTransport.Impl.HandleResponsePart | client/src/network/voice_transport.cpp:517-548 | text, audio start and done of the open response, discarded or refused as the code does |
| VoiceTransport.Impl.HandlePcm | client/src/network/voice_transport.cpp:567-591 | a downlink frame is dropped, refused, reported as discontinuous or passed on in sequence |
| TransportProgress.CancelIsAccepted | client/src/network/voice_transport.cpp:295-335 | in every run, while the turn is active or its response done but not cancelled, the device's cancel is accepted, even by a full send buffer |
| TransportProgress.CancelIsAcknowledged | client/src/network/voice_transport.cpp:492-505 | in every run: after an accepted cancel, whatever of the response still follows (its opening, text, audio, done, pings, late messages, other sends), the acknowledgement that names the response, or any stream of a turn without one, is passed on, the connection stays up and the next turn may start |
| TransportProgress.EachTurnIsCancelledOnce | client/src/network/voice_transport.cpp:295-335 | in every run at most one cancel is sent for a turn and its response, however often it is asked for |
| TransportProgress.LateIsHarmless | client/src/network/voice_transport.cpp:394-398 | what is left of an earlier turn is dropped without a trace |
| TransportProgress.EndedResponseIsHarmless | client/src/network/voice_transport.cpp:394-398 | in every run so is what is left of a response that ended |
| TransportProgress.GreetingIsTaken | client/src/network/voice_transport.cpp:466-474 | the first proper greeting opens the session |
| TransportProgress.TurnErrorIsTaken | client/src/network/voice_transport.cpp:506-516 | a proper error of the open turn is passed on and ends it, the connection stays up |
| TransportProgress.SessionErrorIsHeardUntilTheSecondTurn | client/src/network/voice_transport.cpp:506-516 | in every run an error of the session leaves the connection up, and is passed on if and only if the present turn's epoch is not above the session's |
| TransportProgress.BrokenAudioIsReported | client/src/network/voice_transport.cpp:567-591 | a frame in its place that announces a gap is reported, and the rest of the response dropped |
| ActorSafety.ActsOnCurrentTurnOnly | client/src/application/voice_client.cpp:484-589 | in every run every event the actor takes, of whatever kind, was queued before any event was lost; whatever belongs to a turn (response data, done, acknowledgement, an error of the turn) names the turn the actor is in; data and done taken outside a cancel find it waiting for the response or playing it, audio finds it playing, and an acknowledgement finds the cancel it answers |
| ActorSafety.TurnStartsAdvance | client/src/application/voice_client.cpp:722-754 | the epochs of the turn.start messages of a connection strictly increase, and the transport refuses none of them |
| ActorSafety.ReadyMeansIdle | client/src/network/voice_transport.cpp:287-291 | whenever the actor rests between turns its transport would accept its next turn.start, and nothing of an older response is queued |
| ActorSafety.KnowsItsResponse | client/src/application/voice_client.cpp:548-551 | in every run the actor is in the response whose start it took in its present turn outside a cancel, and in none if it took none |
| ActorSafety.CancelsAreTaken | client/src/application/voice_client.cpp:496-509 | in every run the cancel the actor would send in an open turn is turned down by its transport only when an error of that turn, or the done of a response it has not heard of, is already queued or was lost; while it plays, that cancel names the response |
| ActorPlayer.PlayerGetsTheAnswer | client/src/application/voice_client.cpp:557-583 | in every run the player is asked for exactly the streams and packets of the events taken outside a cancel, in order; every packet goes into a stream begun and neither ended nor dropped; the stream is open while the actor plays, ended while it drains, dropped in a cancel and open in no other state |
| CaptureProgress.UtteranceGoesOut | client/src/application/voice_client.cpp:682-765 | from every state of a turn being captured, while the network takes what it is given and nothing ends the turn from outside: one message per frame, in order and numbered on; the frame that ends the utterance (voice detector, or the 3000th) carries END and is followed by the commit |
| CaptureProgress.QuestionGoesOut | client/src/application/voice_client.cpp:722-765 | the same from the frame that opens the turn: start, pre-roll, every frame, END on the last, commit, and the actor waits for the answer |
| QuestionDelivery.QuestionReachesTheProvider | server/internal/app/device_handler.go:583-742 | those messages, at a server whose session takes what it is given, hand the provider exactly the captured samples, pre-roll first, cut into full frames, and commit them |
| Interruptions.GivesUpWithACancel | client/src/application/voice_client.cpp:496-509 | in every run: whatever makes the actor give up an open turn (touch, deadline, gap in the capture, gap in the answer, a player that refuses), unless the connection is down or the turn has ended by then, the next message on the wire is the cancel of the response it is in, or of the turn if it has none, and it waits for the acknowledgement; a cancel that cannot be sent costs the connection |
| Interruptions.BackpressureGivesUpTheTurn | client/src/application/voice_client.cpp:697-708 | a frame the network pushes back costs the turn, by the same cancel, and not the connection |
| AnswerProgress.AnswerIsTakenToItsEnd | client/src/application/voice_client.cpp:512-583 | in every run, while an answer is not disturbed by one of the listed causes, the actor stays in its turn, sends nothing, plays from the audio's start and plays out from the answer's end, whatever is interleaved |
| ConversationProgress.ConnectingOpensALink | client/src/application/voice_client.cpp:423-447 | an attempt gives the actor a fresh transport, one that cannot be started leaves it without |
| ConversationProgress.HelloGoesOut | client/src/application/voice_client.cpp:450-459 | the first loop turn on an open connection sends the hello |
| ConversationProgress.GreetingOpensTheSession | client/src/application/voice_client.cpp:539-547 | the greeting taken gives the actor its transport's session, and the first turn of it may start |
| ConversationProgress.WakeListens | client/src/application/voice_client.cpp:891-898 | wake word or touch makes a resting actor listen, its pre-roll kept; a listener that cannot be reset stops the device |
| ConversationProgress.TouchIsNoted | client/src/application/voice_client.cpp:300-306 | a touch on a resting device is kept for the next frame |
| ConversationProgress.SpeakingAgainOpensATurn | client/src/application/voice_client.cpp:907-915 | after an answer a frame opens the next turn if and only if it is the twentieth in a row with the speaker near |
| ConversationProgress.RestingSendsNothing | client/src/application/voice_client.cpp:878-915 | in every run a device at rest sends nothing and stays as it is, whatever it hears, until a frame wakes it or opens a turn |
| ConversationProgress.ABreakEndsListening | client/src/application/voice_client.cpp:847-874 | a gap in the capture sends a listening device back to its wake word, in the same session |
| ConversationProgress.SilenceEndsListening | client/src/application/voice_client.cpp:346-352 | so does the deadline |
| ConversationProgress.PlayoutEndsTheTurn | client/src/application/voice_client.cpp:342-345 | an answer played to its end moves the actor to its next turn, which its transport would accept |
| ConversationProgress.PlaybackFailureStops | client/src/application/voice_client.cpp:342-344 | a player that reports a failure stops the device |
| ConversationProgress.AcknowledgementEndsTheTurn | client/src/application/voice_client.cpp:632-647 | so does the end of a cancel behind which nothing is to be said, and what was said over it is forgotten |
| ConversationProgress.ErrorEndsTheTurn | client/src/application/voice_client.cpp:513-526 | so does an error of the turn |
| ConversationProgress.OverdueEndsTheConnection | client/src/application/voice_client.cpp:332-357 | an overdue handshake, heartbeat or acknowledgement, a lost event, an error of the session or the network, a message that cannot be sent and a player that cannot start or end a stream end the connection: no session, nothing queued, the player silent |
| BargeUpload.ConfirmedSpeechIsHeld | client/src/application/voice_client.cpp:767-886 | a confirmed interruption holds its six voiced candidate frames, at most 27 in all, and every frame captured since, their sequence numbers consecutive up to the latest frame; the buffer then is exactly that list less what the freeze keeps out, and overflows only past 40 retained frames |
| BargeUpload.CancelEndsWithUtteranceOrSilence | client/src/application/voice_client.cpp:616-647 | when the cancel ends, one turn made of exactly those frames in order is uploaded, or nothing is |
| BargeProgress.InterruptionIsConfirmed | client/src/application/voice_client.cpp:767-844 | while the actor goes on playing, six voiced frames, up to twelve in which the muted answer is still heard, six without it and three voiced ones without it are enough: unless the connection is down or the turn over, the cancel of the very response that plays is the next message on the wire, and what was said is kept |
| BargeProgress.FalseAlarmCoolsDown | client/src/application/voice_client.cpp:373-391 | in every run a probe that heard the answer is given up with the frame that shows it; the next fifteen frames raise none, and then an interruption is listened for anew |
| BargeProgress.InterruptionGoesOut | client/src/application/voice_client.cpp:616-647 | when that cancel is answered and the network takes what it is given, the whole utterance goes out in a new turn, with END and commit if the speaker has finished |
| BargeIn.FrozenOut | client/src/application/voice_client.cpp:878-884 | the two running counters freeze out exactly the frames behind the end of the utterance or behind ten silent ones |
| BargeIn.TrailingCounts | client/src/application/voice_client.cpp:675-680 | the silence counter reaches n exactly when the last n frames were silent |
| VoiceClient.Client.OnNetwork | client/src/application/voice_client.cpp:423-447 | one network event in place: transport, then queue |
| VoiceClient.Client.Lock | client/src/application/voice_client.cpp:231-239 | the events the network handles before a transport call gets the lock, in order, and then the network's answer |
| VoiceClient.Client.SendControl | client/src/application/voice_client.cpp:231-239 | network events that slip in before the lock, then the send |
| VoiceClient.Client.UploadFrames | client/src/application/voice_client.cpp:741-744 | the buffered frames go out in order, the last with END when the utterance is over, stopping at the first failure |
| VoiceClient.Client.UploadBuffered | client/src/application/voice_client.cpp:735-753 | then the ring is emptied and a finished utterance committed |
| VoiceClient.Client.SavePreRoll | client/src/application/voice_client.cpp:650-662 | 25 rolling frames, 67 while speech is being kept, overflow marked when a confirmed utterance fills them |
| VoiceClient.Client.Buffer | client/src/application/voice_client.cpp:878-886 | frozen frames and frames of a running capture are not buffered |
| VoiceClient.Client.DrainEvents | client/src/application/voice_client.cpp:484-494 | with network events before every look at the queue: a run of the model that takes at most eight events and stops before that only at a lost link, a failed listener or an empty queue |
| VoiceClient.Client.Iterate | client/src/application/voice_client.cpp:181-216 | one turn of the main loop, the network getting in before each of its steps, is exactly one run of the model; it breaks off, at the step that failed, when the listener fails |
| DeviceRings.EventQueue.Push | client/src/application/voice_client.cpp:86-96 | FIFO append; a full queue marks the loss and keeps its contents |
| DeviceRings.EventQueue.Pop | client/src/application/voice_client.cpp:97-104 | FIFO removal |
| DeviceRings.EventQueue.Clear | client/src/application/voice_client.cpp:109-115 | empty, and the loss forgotten |
| DeviceRings.PreRollRing.Append | client/src/application/voice_client.cpp:650-662 | append, or slide by one at the limit |
| DeviceRings.PreRollRing.KeepNewest | client/src/application/voice_client.cpp:664-668 | the newest frames, in order |
| Rings.WindowSlide | client/src/application/voice_client.cpp:657-661 | overwriting behind a window and moving its head slides it |
| Playback.DecodeIsExact | client/src/audio/audio_engine.cpp:339-344 | the little-endian samples determine the bytes |
| Playback.DecodeJoins | client/src/audio/audio_engine.cpp:332-347 | packet boundaries do not change the samples |
| Playback.RenderedInOrder | client/src/audio/audio_engine.cpp:187-259 | for every interleaving: what is rendered is a prefix of the decoding of what was accepted, in full slots but the last; nothing before 4320 buffered samples, or 960 after an underrun, unless the answer ended; and all of it when playback finishes without drop or failure |
| PlaybackOutcome.VerdictIsTheBackEnds | client/src/audio/audio_engine.cpp:187-212 | in every run a done stream has failed exactly when a render, or the drain of a stream not being discarded, failed and no drop overrode it; with nothing going wrong all of it was rendered |
| PlaybackOutcome.AnswerIsPlayed | client/src/audio/audio_engine.cpp:187-353 | wherever the player stood before: an answer that streams in while it plays, is ended and not dropped is accepted packet by packet, rendered to its last sample and done without failure after enough rounds of the thread |
| PlaybackOutcome.DroppedAnswerStops | client/src/audio/audio_engine.cpp:187-259 | after a drop nothing is rendered but the slot in hand, and the stream is done and has not failed |
| PlaybackOutcome.PlaysOnceBuffered | client/src/audio/audio_engine.cpp:231-242 | in every run the waiting thread takes a slot if and only if enough is buffered for it |
| PlaybackOutcome.StarvedStreamRebuffers | client/src/audio/audio_engine.cpp:221-230 | in every run the grace period over a starved stream is noticed, counted once, and the next slot then waits for 40 ms of audio |
| TtsRing.RingShape | client/src/audio/audio_engine.cpp:246-252 | all slots in use but the last are full, all others empty, and the fill levels sum to the queued count |
| TtsRing.SlotForSample | client/src/audio/audio_engine.cpp:326-336 | the capacity check by samples implies that a 76th slot is never opened |
| TtsRing.Extend | client/src/audio/audio_engine.cpp:337-346 | samples copied behind the tail slot's fill level append to the FIFO |
| TtsRing.Remove | client/src/audio/audio_engine.cpp:247-252 | blanking the head slot takes its samples off the FIFO |
| AudioEngine.Engine.QueueTts24k | client/src/audio/audio_engine.cpp:320-353 | accepted exactly when open, aligned, in sequence and within 36 000 samples; then the FIFO grows by the decoding, for every packet size |
| AudioEngine.Engine.CopyChunk | client/src/audio/audio_engine.cpp:332-347 | one slot's share of the samples goes to the end of the FIFO |
| AudioEngine.Engine.BeginPlayback | client/src/audio/audio_engine.cpp:355-371 | a new stream opens unless one is active or the back end is not ready |
| AudioEngine.Engine.EndPlayback | client/src/audio/audio_engine.cpp:373-380 | at most once per stream |
| AudioEngine.Engine.DropPlayback | client/src/audio/audio_engine.cpp:388-398 | the queue is emptied and the drop marked |
| AudioEngine.Engine.GraceExpired | client/src/audio/audio_engine.cpp:221-230 | rebuffering begins only on a real underrun |
| AudioEngine.Engine.Wake | client/src/audio/audio_engine.cpp:231-255 | a slot is taken, or the end found, exactly when the wait condition holds |
| AudioEngine.Engine.Complete | client/src/audio/audio_engine.cpp:197-212 | a drop seen late still discards; the stream closes with the verdict PlaybackOutcome.VerdictIsTheBackEnds characterises |
| CaptureQueue.DequeuedFramesFollow | client/src/audio/audio_engine.cpp:150-168 | between frames dequeued in succession the sequence advances by one or the later frame is flagged |
| CaptureQueue.ChainUndecided | client/src/audio/audio_engine.cpp:84-90 | taking queued verdicts back leaves the timeline alone |
| CaptureLosses.NothingIsLostInSilence | client/src/audio/audio_engine.cpp:150-168 | in every run a frame is flagged exactly when it followed a break or found the queue full, is otherwise as captured, and a captured frame is missing only if a flagged one came after it |
| CaptureLosses.SteadyCaptureIsWhole | client/src/audio/audio_engine.cpp:150-168 | without a break and with room the actor gets every frame, in order and unflagged |
| CaptureQueue.CaptureRing.Store | client/src/audio/audio_engine.cpp:150-168 | a break or a full queue empties it and flags the new frame |
| CaptureQueue.CaptureRing.Fetch | client/src/audio/audio_engine.cpp:292-312 | the oldest frame |
| CaptureQueue.CaptureRing.ClearQueuedDecisions | client/src/audio/audio_engine.cpp:84-90 | no verdict survives in a queued frame, everything else does |
| CaptureTimeline.NoSilentGap | client/src/application/voice_client.cpp:194-214 | an unflagged frame in the actor's hand has the sequence it expects, in every run of capture thread, network and actor |
| CaptureTimeline.FrameMoves | client/src/application/voice_client.cpp:847-850 | every frame moves the expectation just behind it, whatever it triggers |
| CaptureTimeline.RunSteady | client/src/application/voice_client.cpp:847-886 | in every run the frames heard since the last gap have consecutive numbers, and the next one expected follows them |
| SessionActor.StreamIsOrdered | server/internal/session/session.go:185-393 | for any provider and any commands: epochs never go back, an epoch shows one response id, and nothing follows its terminal event, including the closed-stream error |
| SessionActor.CancelIsAFence | server/internal/session/session.go:270-325 | after the cancel of the active epoch is applied that epoch never comes out again, and nothing queued before it carries a later epoch |
| SessionActor.EventsCarryTheirEpoch | server/internal/session/session.go:331-354 | with a provider that keeps its contract every event carries the epoch whose commit caused it |
| SessionDelivery.AnsweredInFull | server/internal/session/session.go:185-354 | when the provider answers each commit with one response, an epoch whose done event came out has passed on everything the provider queued for it, in order and nothing else, whatever the interleaving of commands, cancels and the end of the actor |
| SessionCalls.ProviderCallsAreOrderly | server/internal/session/session.go:231-268 | the provider gets audio of one turn at a time in increasing epochs, at most one commit for each, never without audio before it, and nothing for a turn behind its commit |
| SessionProgress.NewEpochsAreTaken | server/internal/session/session.go:231-242 | in every run a turn is accepted if and only if the session is idle and its epoch is above all it ever took |
| SessionProgress.CancelIsTaken | server/internal/session/session.go:270-308 | in every run a cancel is accepted if and only if its epoch is not above the latest turn; the active turn ends, an earlier one changes nothing |
| SessionProgress.ProviderFaultIsReported | server/internal/session/session.go:331-393 | an ill-formed event or the end of the stream ends the active turn with an error that comes out |
| SessionProgress.TurnIsAnswered | server/internal/session/session.go:185-354 | from every state between turns: a turn with a new epoch is started, fed and committed, all of its answer comes out under that epoch in order, however queued, and the session is ready for the next |
| TurnActor.Actor.Apply | server/internal/session/session.go:231-310 | every command's new state and reply |
| TurnActor.Actor.Cancel | server/internal/session/session.go:270-308 | the fence is drained and the event in hand dropped only when the cancel succeeds |
| TurnActor.Actor.DrainProviderEvents | server/internal/session/session.go:314-325 | the loop empties the channel |
| TurnActor.Actor.Accept | server/internal/session/session.go:331-354 | what an event does to the turn, and what is passed on |
| TurnActor.Actor.TakeProviderEvent | server/internal/session/session.go:198-224 | an event is read only while nothing is in hand |
| CongestionFence.EveryMessageAccountedFor | server/internal/transport/connection.go:107-136 | while the connection is open the messages returned and still on their way are in socket order, and every missing one belongs to a turn that was reported |
| CongestionFence.CongestedTurnIsSilenced | server/internal/transport/connection.go:218-337 | when a message of a named turn overflows the queue: in every continuation its turn is reported before any other turn starts and none of its messages come out until then, if and only if the receiver has no other turn's turn.start in hand, nor stands at its select with one at the head of the queue |
| CongestionFence.StartInHandLiftsTheFence | server/internal/transport/connection.go:332-335 | for every such state with a turn.start in hand, the run in which it comes out before the report and lets the congested turn's messages through |
| CongestionFence.StartAtHandHappens | server/internal/transport/connection.go:107-136 | an open connection gets into that state: the start is taken off the queue, then 32 messages of another turn fill it |
| ReceiveProgress.ReaderDecides | server/internal/transport/connection.go:218-263 | what becomes of each message read: it joins the flow, is dropped with the turn being dropped, cuts its own turn off at a full queue, or ends the connection |
| ReceiveProgress.ReaderClosesOnlyWhenStuck | server/internal/transport/connection.go:218-317 | in every run the connection is closed if and only if it was closed from outside, or a message found the queue full and had no turn, or one that could not be reported |
| ReceiveProgress.NextStartGetsThrough | server/internal/transport/connection.go:237-249 | a turn.start of another turn read while one is being dropped never closes the connection: it becomes the last of the flow, and is queued, and the dropping ends, as soon as there is room |
| ReceiveProgress.EveryMessageComesOut | server/internal/transport/connection.go:107-136 | from every state of an open connection the receiver's passages return everything read but the messages of reported turns, and every report |
| Connection.Link.ReadPump | server/internal/transport/connection.go:218-263 | drop, wait, queue, cut off or close, in the cases ReceiveProgress.ReaderDecides separates |
| Connection.Link.SignalTurnCongestion | server/internal/transport/connection.go:297-317 | one report per congestion |
| Connection.Link.DiscardCongested | server/internal/transport/connection.go:322-337 | the congested turn's messages are discarded until another turn starts |
| Connection.Link.Receive | server/internal/transport/connection.go:107-136 | with the reader's work, or a closing connection, before each step of the receiver: a run of the model holding exactly the reader's steps given, in order, that ends in the answer; at its select it may take whatever is ready, and it comes back with nothing only when the caller gave up or neither a message nor a report was there |
| ServerUplink.CutAsYouGo | server/internal/app/device_handler.go:679-682 | cutting packet by packet is cutting the whole |
| ServerUplink.FramesHoldUtterance | server/internal/app/device_handler.go:734-742 | the frames are 640 bytes each, at least one for a non-empty utterance, and hold it followed by fewer than 640 zeros |
| UplinkProofs.UplinkNeverFaults | server/internal/app/device_handler.go:658-732 | whatever the device's transport lets through for an accepted turn passes every header, sequence, START, END and commit check while the turn is active, and a commit that went through gave the provider exactly the frames of the bytes sent |
| UplinkProofs.RunTracked | client/src/network/voice_transport.cpp:276-377 | everything the device's transport sends is in its place: START first, in sequence, nothing behind END or commit, one commit behind END |
| UplinkOrder.AcceptedFramesFormOneUtterance | server/internal/app/device_handler.go:658-732 | the converse, for any client: the frames accepted for a turn are one utterance, and a turn still active after its commit has it closed by END and has given the provider exactly its frames |
| UplinkProgress.WillingSessionHearsAll | server/internal/app/device_handler.go:583-732 | the turn the device opened stays active while nobody cancels it and the session takes what it is given; every byte is received, and the commit goes through with exactly their frames handed over |
| UplinkProgress.EndedTurnTakesNothing | server/internal/app/device_handler.go:583-732 | a turn that is cancelled, retired or refused by the session is over: whatever the client sends behind that, nothing more is received, handed over or committed |
| UplinkProgress.UtteranceGoesOut | client/src/network/voice_transport.cpp:276-377 | from every state in which a turn may start, the device's transport accepts and sends the start, the packets in order and the commit, and then waits for the answer |
| UplinkProgress.UtteranceReachesTheProvider | server/internal/app/device_handler.go:583-742 | what is so sent a willing session gets as exactly its 640-byte frames, and the turn is committed |
| UplinkProofs.FrameParses | server/internal/protocol/pcm.go:205-215 | such a frame survives the wire |
| UplinkProofs.ListeningTakesFrames | server/internal/session/session.go:244-268 | until the commit only the provider can refuse a frame, and a turn with a frame can be committed |
| UplinkHandler.ActiveTurn.HandlePcm | server/internal/app/device_handler.go:658-694 | checks, state and frames handed over, including a session that stops taking them |
| UplinkHandler.ActiveTurn.AdvanceFraming | server/internal/app/device_handler.go:696-719 | START first, nothing after END or commit, no discontinuity |
| UplinkHandler.ActiveTurn.AppendFrames | server/internal/app/device_handler.go:688-692 | the slicing loop hands over the whole frames in order |
| UplinkHandler.ActiveTurn.HandleCommit | server/internal/app/device_handler.go:583-601 | commit checks, padded rest, commit |
| DownlinkProofs.CompletedAnswersAreWhole | server/internal/app/device_handler.go:744-969 | for every interleaving: a completed answer has frames numbered from zero, START on the first, END on the last, 960 bytes in all others, spaced by 20 ms; one silent sample only behind a positive multiple of 960; the pacing buffer never overflows; and the latest answer's frames are spaced whether it was completed, cancelled or failed |
| DownlinkProofs.DeadlineBounds | server/internal/app/device_handler.go:971-985 | each deadline is 15 to 20 ms after the send and at least 20 ms after the last deadline |
| DownlinkProofs.BurstBound | server/internal/app/device_handler.go:776-797 | of frames so spaced, at most one more than 20 ms fit into it leaves within any time of the first |
| DownlinkProofs.CancelWhileWaitingEndsTheConnection | server/internal/app/device_handler.go:828-832 | a run in which a proper second answer is refused as a duplicate start |
| StalePacer.StartRefusedWithoutAPass | server/internal/app/device_handler.go:750-832 | after any run that leaves a retired turn's pacer behind, and whatever happens until the next answer's start is read: that start ends the connection if and only if the loop has not gone over its top since, or the start's own message cannot be sent |
| DownlinkSource.CompletedAnswersHoldTheirSource | server/internal/app/device_handler.go:837-879 | the bytes and the texts of a completed answer are those of the session's events of its epoch behind its start, all and in order and no others, and their done event was read |
| DownlinkSource.ReadIsProvided | server/internal/backend/backend.go:24-45 | what was read of a finished answer holds exactly the audio and the texts its provider queued for that commit |
| DownlinkProgress.ForwarderFailsOnlyForCause | server/internal/app/device_handler.go:744-1028 | in every run the forwarder ends the connection if and only if an event is out of place or a send fails while its turn is active |
| DownlinkProgress.AnswerIsCompleted | server/internal/app/device_handler.go:744-1028 | from every reachable state of an open turn: when the events come in place up to the done, every message is sent and nobody retires the turn, the answer is completed, at the latest after as many loop turns as frames are left, a frame time apart |
| DownlinkProgress.BackpressureResolves | server/internal/app/device_handler.go:801-807 | from every reachable state of an answer that still streams, once the frames above 6464 buffered bytes have left at their pace the next event is read |
| DownlinkProgress.ProviderFaultsAreTold | server/internal/app/device_handler.go:886-905 | in every run the device is told of exactly the provider failures read for the turn under way, and that turn is over |
| DownlinkHandler.Forwarder.Pass | server/internal/app/device_handler.go:750-799 | from the top of the loop to its select |
| DownlinkHandler.Forwarder.SendFrame | server/internal/app/device_handler.go:922-969 | sequence reserved, frame sent, pacer advanced or reset |
| DownlinkHandler.Forwarder.Finish | server/internal/app/device_handler.go:987-1028 | done is sent for the pacer's own turn, which it retires |
| DownlinkHandler.Forwarder.TakeEvent | server/internal/app/device_handler.go:801-907 | every provider event, and the backpressure gate before it; which messages that makes is DownlinkSource.CompletedAnswersHoldTheirSource |
| DownlinkHandler.Forwarder.OnAudio | server/internal/app/device_handler.go:844-879 | validation, announcement, buffering |
| EndToEnd.AnswerHeard | client/src/network/voice_transport.cpp:475-592 | a complete answer is accepted message by message by a device that waits for it, with pings and the actor's calls other than cancels between the messages |
| EndToEnd.SessionAnswerReachesTheDevice | server/internal/app/device_handler.go:744-1081 | for any provider: the texts and bytes the device gets for a completed answer are those of the session's events read for that epoch, the bytes followed by nothing or one silent sample |
| EndToEnd.ProviderAnswerReachesTheDevice | server/internal/app/device_handler.go:744-1081 | from a provider that answers each commit with one response, through session, forwarder, header and device: the texts and bytes delivered for a completed answer are all the provider queued for that commit, in order, the bytes followed by nothing or one silent sample |

## Left out

- Identities, epochs and sequence numbers do not wrap in the protocol models; the codec has the exact widths, and the end-to-end results ask that wire values fit.
- Time: deadlines of the device expire as an arbitrary input of each loop iteration; on the server only the pacing deadlines are computed. Results about what does happen name the steps that must be taken; that the schedulers take them, thread priorities and wake-ups are not modelled.
- JSON: a control message is its decoded fields plus one mark that its payload has exactly the expected members. String limits count characters, where the code counts bytes.
- TLS, key pinning, sockets, ping and pong, close handshakes, discovery, provisioning, configuration files and logging.
- The provider implementations; a provider is an arbitrary source of events, or one that keeps the contract of its interface where a result says so: a commit that fails produces no response, one that succeeds produces one, started once, under one id and silent after its terminal event or the cancel.
- The audio back end: capture, echo cancellation, wake word and voice detection give arbitrary frame verdicts; rendering, draining and preparing succeed or fail arbitrarily. Engine Open, Close and stop, and the capture command handshake with its timeout, are not modelled.
- The screen: subtitles, hints, volume and brightness; of the touch actions only wake and interrupt. Muting the answer while an interruption is being probed is not recorded.
- The two-stage send queue of the server: a send succeeds, is lost to the turn's retirement, or fails; where such messages land relative to the handler's own acknowledgement is not recorded.
- Hello, authentication, idle timeout, the payload checks of turn.start, and what the handler answers to messages that belong to no turn.
- The session actor's commands carry no audio bytes; the 640-byte check on a frame is met by every frame the handler cuts.
- ServerUplink.Serve: cancels whose identities do not match the turn are left alone; the code may end the session for them.
