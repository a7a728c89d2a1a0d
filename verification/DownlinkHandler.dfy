/** The event forwarder with its pacer and its part of the turn record, updated in place. */
module DownlinkHandler {
  import opened WireTypes
  import D = Downlink
  import S = SessionActor

  class Forwarder {
    // The shared turn record.
    var ids: WireIds
    var active: bool
    var outputSequence: nat
    var outputStarted: bool
    // The pacer.
    var epoch: nat
    var turnId: nat
    var responseId: string
    var pending: seq<byte>
    var providerDone: bool
    var nextFrameAt: Option<int>
    var wireFrames: nat
    // The loop.
    var selecting: bool
    var failed: bool
    var overflowed: bool
    ghost var current: D.Response
    ghost var completed: seq<D.Response>
    ghost var faults: seq<WireIds>

    ghost function TurnView(): D.Turn
      reads this`ids, this`active, this`outputSequence, this`outputStarted
    {
      D.Turn(ids, active, outputSequence, outputStarted)
    }

    ghost function PacerView(): D.Pacer
      reads this`epoch, this`turnId, this`responseId, this`pending, this`providerDone, this`nextFrameAt, this`wireFrames
    {
      D.Pacer(epoch, turnId, responseId, pending, providerDone, nextFrameAt, wireFrames)
    }

    ghost function View(): D.Forwarder
      reads this
    {
      D.Forwarder(TurnView(), PacerView(), selecting, failed, overflowed, current, completed, faults)
    }

    constructor (session: nat)
      ensures View() == D.Initial(session)
    {
      ids, active, outputSequence, outputStarted := WireIds(session, 0, 0, 1), false, 0, false;
      epoch, turnId, responseId, pending, providerDone, nextFrameAt, wireFrames := 0, 0, "", [], false, None, 0;
      selecting, failed, overflowed := false, false, false;
      current, completed, faults := D.Response(ZERO_IDS, [], [], false), [], [];
    }

    method StartTurn(turn: WireIds)
      modifies this`ids, this`active, this`outputSequence, this`outputStarted
      ensures View() == D.StartTurn(old(View()), turn)
    {
      if active || !ValidIds(turn) || turn.session != ids.session {
        return;
      }
      if ids.turn != 0 && turn.epoch <= ids.epoch {
        return;
      }
      ids, active, outputSequence, outputStarted := turn, true, 0, false;
    }

    method Retire()
      modifies this`active
      ensures View() == D.Retire(old(View()))
    {
      active := false;
    }

    method Belongs() returns (yes: bool)
      ensures yes == D.BelongsTo(PacerView(), TurnView())
    {
      yes := epoch != 0 && epoch == ids.epoch && turnId == ids.turn;
    }

    method Matches(id: string) returns (yes: bool)
      ensures yes == D.Matches(PacerView(), TurnView(), id)
    {
      yes := epoch != 0 && epoch == ids.epoch && turnId == ids.turn && responseId == id;
    }

    method SetOwner(e: nat, t: nat, id: string)
      modifies this`epoch, this`turnId, this`responseId
      ensures View() == old(View()).(pacer := old(View()).pacer.(epoch := e, turn := t, responseId := id))
    {
      epoch, turnId, responseId := e, t, id;
    }

    method ClearBuffer()
      modifies this`pending, this`providerDone, this`nextFrameAt, this`wireFrames
      ensures View() == old(View()).(pacer := old(View()).pacer.(pending := [], providerDone := false,
                                                                 nextFrameAt := None, wireFrames := 0))
    {
      pending := [];
      providerDone, nextFrameAt, wireFrames := false, None, 0;
    }

    method Reset()
      modifies this`epoch, this`turnId, this`responseId, this`pending, this`providerDone, this`nextFrameAt,
               this`wireFrames
      ensures View() == D.Reset(old(View()))
    {
      hide View;
      SetOwner(0, 0, "");
      ClearBuffer();
    }

    ghost method NoteBegin()
      modifies this`current
      ensures View() == old(View()).(current := D.Response(ids, [], [], false))
    {
      current := D.Response(ids, [], [], false);
    }

    ghost method Note(m: D.Wire)
      modifies this`current
      ensures View() == D.Log(old(View()), m)
    {
      current := current.(messages := current.messages + [m]);
    }

    method Fail()
      modifies this`failed
      ensures View() == D.Fail(old(View()))
    {
      failed := true;
    }

    method SendControl(ghost m: D.Wire, o: D.Outcome)
      modifies this`current, this`active, this`failed
      ensures View() == D.SendControl(old(View()), m, o)
    {
      hide View;
      match o {
        case Sent => Note(m);
        case Lost => Retire();
        case Broken => Fail();
      }
    }

    ghost method NoteCompleted()
      modifies this`completed
      ensures View() == old(View()).(completed := old(View()).completed + [old(View()).current])
    {
      completed := completed + [current];
    }

    ghost method NoteFault()
      modifies this`faults
      ensures View() == old(View()).(faults := old(View()).faults + [old(View()).turn.ids])
    {
      faults := faults + [ids];
    }

    /** finishPacedResponse and the reset behind it. */
    method Finish(o: D.Outcome)
      modifies this
      ensures View() == D.Finish(old(View()), o)
    {
      Parts();
      var belongs := Belongs();
      hide View, D.Log, D.Retire, D.Reset, D.BelongsTo;
      if !active || !belongs {
        Reset();
        return;
      }
      match o {
        case Sent =>
          Note(D.Done(responseId));
          NoteCompleted();
          Retire();
          Reset();
        case Lost =>
          Retire();
          Reset();
        case Broken => Fail();
      }
    }

    /** The view's components, for methods that branch on them. */
    lemma Parts()
      ensures View().turn == TurnView() && View().pacer == PacerView()
      ensures View().turn.active == active && View().turn.ids == ids && View().turn.outputStarted == outputStarted
      ensures View().pacer.responseId == responseId && View().pacer.pending == pending && View().pacer.epoch == epoch
      ensures View().pacer.providerDone == providerDone && View().pacer.wireFrames == wireFrames
      ensures View().failed == failed && View().selecting == selecting
    {
    }

    method Reserve() returns (sequence: nat)
      modifies this`outputSequence
      ensures View() == D.Reserve(old(View())) && sequence == old(outputSequence)
    {
      sequence := outputSequence;
      outputSequence := outputSequence + 1;
    }

    /** The pacer behind a queued frame. */
    method Advance(bytes: nat, at: int)
      requires bytes <= |pending|
      modifies this`pending, this`wireFrames, this`nextFrameAt
      ensures View() == old(View()).(pacer := old(View()).pacer.(pending := old(pending)[bytes..],
          wireFrames := old(wireFrames) + 1, nextFrameAt := Some(D.NextDeadline(old(nextFrameAt), at))))
    {
      pending := pending[bytes..];
      wireFrames := wireFrames + 1;
      nextFrameAt := Some(D.NextDeadline(nextFrameAt, at));
    }

    method SendFrame(at: int, o: D.Outcome, finish: D.Outcome)
      requires pending != []
      modifies this
      ensures View() == D.SendFrame(old(View()), at, o, finish)
    {
      Parts();
      var belongs := Belongs();
      hide View, D.Retire, D.Reset, D.Finish, D.BelongsTo, D.Log, D.NextDeadline;
      if !active || !belongs {
        Reset();
        return;
      }
      var bytes := if |pending| < OUTPUT_FRAME_BYTES then |pending| else OUTPUT_FRAME_BYTES;
      var final := providerDone && bytes == |pending|;
      ghost var f := View();
      match o {
        case Sent =>
          Queue(bytes, final, at);
          if final {
            Finish(finish);
          }
        case Lost =>
          var sequence := Reserve();
          Retire();
          Reset();
        case Broken =>
          var sequence := Reserve();
          Fail();
      }
    }

    /** Reserves the sequence, hands the frame to the connection and moves on. */
    method Queue(bytes: nat, final: bool, at: int)
      requires pending != [] && bytes == (if |pending| < OUTPUT_FRAME_BYTES then |pending| else OUTPUT_FRAME_BYTES)
      requires final == (providerDone && bytes == |pending|)
      modifies this`outputSequence, this`current, this`pending, this`wireFrames, this`nextFrameAt
      ensures View() == D.Queued(old(View()), at)
    {
      var sequence := Reserve();
      var frame := D.Frame(sequence, sequence == 0, final, pending[..bytes], at);
      Note(D.Audio(frame));
      Advance(bytes, at);
    }

    method DropStale()
      modifies this
      ensures View() == D.DropStale(old(View()))
    {
      Parts();
      var belongs := Belongs();
      hide View, D.Reset, D.BelongsTo;
      if epoch != 0 && (!active || !belongs) {
        Reset();
      }
    }

    method AddSilence()
      modifies this`pending, this`current
      ensures View() == D.AddSilence(old(View()))
    {
      if providerDone && pending == [] && wireFrames != 0 {
        pending := [0, 0];
        current := current.(silenced := true);
      }
    }

    method SetSelecting(on: bool)
      modifies this`selecting
      ensures View() == old(View()).(selecting := on)
    {
      selecting := on;
    }

    /** From the top of the loop to its select, or to its next turn. */
    method Pass(now: int, delay: nat, o: D.Outcome, finish: D.Outcome)
      modifies this
      ensures View() == D.Pass(old(View()), now, delay, o, finish)
    {
      Parts();
      hide View, D.DropStale, D.AddSilence, D.Finish, D.SendFrame;
      if selecting || failed {
        return;
      }
      DropStale();
      AddSilence();
      Parts();
      if providerDone && pending == [] {
        Finish(finish);
        return;
      }
      var ready := |pending| >= OUTPUT_FRAME_BYTES || (providerDone && pending != []);
      var due := nextFrameAt.None? || nextFrameAt.value <= now;
      if ready && due {
        SendFrame(now + delay, o, finish);
        return;
      }
      SetSelecting(true);
    }

    method OnStarted(raw: S.Raw, o: D.Outcome)
      modifies this
      ensures View() == D.OnStarted(old(View()), raw, o)
    {
      Parts();
      hide View, D.SendControl;
      if epoch != 0 {
        Fail();
        return;
      }
      BeginPacer(raw.responseId);
      SendControl(D.ResponseStart(raw.responseId), o);
    }

    method BeginPacer(id: string)
      modifies this`epoch, this`turnId, this`responseId, this`pending, this`providerDone, this`nextFrameAt,
               this`wireFrames,
               this`current
      ensures View() == old(View()).(pacer := D.IDLE_PACER.(epoch := ids.epoch, turn := ids.turn, responseId := id),
                                     current := D.Response(ids, [], [], false))
    {
      hide View;
      Reset();
      SetOwner(ids.epoch, ids.turn, id);
      NoteBegin();
    }

    method OnText(raw: S.Raw, o: D.Outcome)
      modifies this
      ensures View() == D.OnText(old(View()), raw, o)
    {
      Parts();
      var matches := Matches(raw.responseId);
      hide View, D.SendControl, D.Matches;
      if !matches {
        Fail();
      } else {
        SendControl(D.TextDelta(raw.responseId, raw.text), o);
      }
    }

    method Buffer(pcm: seq<byte>)
      modifies this`pending, this`current
      ensures View() == D.Buffer(old(View()), pcm)
    {
      if !failed {
        pending := pending + pcm;
        current := current.(provided := current.provided + pcm);
      }
    }

    method MarkOverflow()
      modifies this`overflowed, this`failed
      ensures View() == D.Fail(old(View()).(overflowed := true))
    {
      overflowed, failed := true, true;
    }

    method MarkOutputStarted()
      modifies this`outputStarted
      ensures View() == old(View()).(turn := old(View()).turn.(outputStarted := true))
    {
      outputStarted := true;
    }

    method OnAudio(raw: S.Raw, o: D.Outcome)
      modifies this
      ensures View() == D.OnAudio(old(View()), raw, o)
    {
      Parts();
      var matches := Matches(raw.responseId);
      hide View, D.SendControl, D.Matches, D.Buffer, D.Fail;
      if !D.ValidAudio(raw) || !matches {
        Fail();
        return;
      }
      if |pending| + |raw.pcm| > D.MAX_BUFFERED {
        MarkOverflow();
        return;
      }
      if !outputStarted {
        MarkOutputStarted();
        SendControl(D.AudioStart(raw.responseId, raw.rate), o);
      }
      Buffer(raw.pcm);
    }

    method OnDone(raw: S.Raw)
      modifies this`failed, this`providerDone
      ensures View() == D.OnDone(old(View()), raw)
    {
      var matches := Matches(raw.responseId);
      if !matches {
        Fail();
      } else {
        providerDone := true;
      }
    }

    method OnFailed(o: D.Outcome)
      modifies this
      ensures View() == D.OnFailed(old(View()), o)
    {
      hide View, D.Retire, D.Reset;
      if o == D.Broken {
        Retire();
        Fail();
      } else {
        NoteFault();
        Retire();
        Reset();
      }
    }

    /** One event at the select, unless the buffer is too full to read one. */
    method TakeEvent(e: S.Event, o: D.Outcome)
      modifies this
      ensures View() == D.TakeEvent(old(View()), e, o)
    {
      Parts();
      hide View, D.OnStarted, D.OnText, D.OnAudio, D.OnDone, D.OnFailed;
      if !selecting || failed {
        return;
      }
      if epoch != 0 && |pending| > D.READ_RESUME {
        return;
      }
      SetSelecting(false);
      if !active || e.epoch != ids.epoch {
        return;
      }
      match e.raw.kind {
        case Started => OnStarted(e.raw, o);
        case TextDelta => OnText(e.raw, o);
        case Audio => OnAudio(e.raw, o);
        case Done => OnDone(e.raw);
        case Failed => OnFailed(o);
        case Unknown =>
      }
    }
  }
}
