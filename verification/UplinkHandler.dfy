/** The handler's record of the active turn, as its microphone half is updated in place. */
module UplinkHandler {
  import opened WireTypes
  import Codec = PcmCodec
  import U = ServerUplink

  class ActiveTurn {
    var uuid: Codec.Uuid
    var session: nat
    var turn: nat
    var uplink: nat
    var downlink: nat
    var epoch: nat
    var expectedInput: nat
    var inputStarted: bool
    var inputEnded: bool
    var inputCommitted: bool
    var pendingPcm: seq<byte>
    var active: bool
    ghost var received: seq<byte>
    /** Frames given to the session actor. */
    var appended: seq<seq<byte>>
    ghost var faults: nat

    ghost function View(): U.Turn
      reads this
    {
      U.Turn(uuid, session, turn, uplink, downlink, epoch, expectedInput, inputStarted, inputEnded, inputCommitted,
             pendingPcm, active, received, appended, faults)
    }

    /** turn.start was accepted. */
    constructor (uuid: Codec.Uuid, ids: WireIds, downlink: nat)
      ensures View() == U.Started(uuid, ids, downlink)
    {
      this.uuid, this.downlink := uuid, downlink;
      session, turn, uplink, epoch := ids.session, ids.turn, ids.stream, ids.epoch;
      expectedInput, inputStarted, inputEnded, inputCommitted := 0, false, false, false;
      pendingPcm, active, received, appended, faults := [], true, [], [], 0;
    }

    ghost method Fault()
      modifies this`faults
      ensures View() == old(View()).(faults := old(View()).faults + 1)
    {
      faults := faults + 1;
    }

    /** validateAndAdvanceUplinkFraming. */
    method AdvanceFraming(flags: u16) returns (ok: bool)
      modifies this`inputStarted, this`inputEnded
      ensures ok == U.Framed(old(View()), flags)
      ensures View() == if ok then old(View()).(started := true, ended := EndFlag(flags)) else old(View())
    {
      if inputCommitted {
        return false;
      }
      if inputEnded {
        return false;
      }
      if DiscontinuityFlag(flags) {
        return false;
      }
      var start := StartFlag(flags);
      if !inputStarted {
        if !start {
          return false;
        }
        inputStarted := true;
      } else if start {
        return false;
      }
      if EndFlag(flags) {
        inputEnded := true;
      }
      return true;
    }

    /** Cuts the pending bytes; the whole frames come back in one piece. */
    method CutPending(pcm: seq<byte>) returns (complete: seq<byte>)
      modifies this`expectedInput, this`pendingPcm, this`received
      ensures var all := old(pendingPcm) + pcm;
              && View() == old(View()).(expected := old(View()).expected + 1, received := old(View()).received + pcm,
                                        pending := U.Rest(all))
              && INPUT_FRAME_BYTES * |U.Whole(all)| <= |all| && complete == all[..INPUT_FRAME_BYTES * |U.Whole(all)|]
    {
      expectedInput := expectedInput + 1;
      received := received + pcm;
      pendingPcm := pendingPcm + pcm;
      U.WholeAt(pendingPcm);
      var completeBytes := |pendingPcm| / INPUT_FRAME_BYTES * INPUT_FRAME_BYTES;
      complete := pendingPcm[..completeBytes];
      pendingPcm := pendingPcm[completeBytes..];
    }

    /** Hands the frames over one by one; the session actor takes the first `taken`. */
    method AppendFrames(complete: seq<byte>, taken: nat, ghost all: seq<byte>) returns (ok: bool)
      requires INPUT_FRAME_BYTES * |U.Whole(all)| <= |all| && complete == all[..INPUT_FRAME_BYTES * |U.Whole(all)|]
      modifies this`appended
      ensures var frames := U.Whole(all);
              && ok == (taken >= |frames|)
              && View() == old(View()).(appended := old(View()).appended + if ok then frames else frames[..taken])
    {
      U.WholeAt(all);
      ghost var frames := U.Whole(all);
      var offset, k := 0, 0;
      while offset < |complete|
        invariant 0 <= k <= |frames| && offset == INPUT_FRAME_BYTES * k && k <= taken
        invariant View() == old(View()).(appended := old(View()).appended + frames[..k])
      {
        if k == taken {
          return false;
        }
        assert frames[k] == complete[offset..offset + INPUT_FRAME_BYTES];
        assert frames[..k + 1] == frames[..k] + [frames[k]];
        appended := appended + [complete[offset..offset + INPUT_FRAME_BYTES]];
        offset := offset + INPUT_FRAME_BYTES;
        k := k + 1;
      }
      assert frames[..k] == frames;
      return true;
    }

    /** The header check against the active stream. */
    method ValidateHeader(h: Codec.Header) returns (ok: bool)
      ensures ok == U.InStream(View(), h)
    {
      if !Codec.Valid(h) {
        return false;
      }
      if uuid == Codec.NIL_UUID || epoch == 0 || session == 0 || turn == 0 || uplink == 0 {
        return false;
      }
      return h.kind == Codec.UPLINK && h.sampleRate == INPUT_RATE && h.uuid == uuid && h.epoch == epoch
             && h.session == session && h.turn == turn && h.stream == uplink && h.sequence == expectedInput;
    }

    method HandlePcm(h: Codec.Header, pcm: seq<byte>, taken: nat) returns (ok: bool)
      modifies this
      ensures (View(), ok) == U.HandlePcm(old(View()), h, pcm, taken)
    {
      hide U.Whole, U.Rest, U.InStream, U.Framed;
      var valid := ValidateHeader(h);
      if !active || !valid {
        Fault();
        return false;
      }
      ok := AdvanceFraming(h.flags);
      if !ok {
        Fault();
        return false;
      }
      ghost var all := pendingPcm + pcm;
      var complete := CutPending(pcm);
      U.WholeAt(all);
      ok := AppendFrames(complete, taken, all);
    }

    method CommitChecks() returns (ok: bool)
      ensures ok == U.Committable(View())
    {
      if inputCommitted {
        return false;
      }
      if !inputStarted {
        return false;
      }
      return inputEnded;
    }

    /** The commit; the session actor takes the padded rest or not, and the commit or not. */
    method HandleCommit(ids: WireIds, flushed: bool, accepted: bool) returns (ok: bool)
      modifies this
      ensures (View(), ok) == U.HandleCommit(old(View()), ids, flushed, accepted)
    {
      var ready := CommitChecks();
      if ids.session != session || !active || ids.turn != turn || ids.stream != uplink || ids.epoch != epoch || !ready {
        Fault();
        return false;
      }
      if pendingPcm != [] {
        if !flushed {
          return false;
        }
        appended := appended + [U.Padded(pendingPcm)];
        pendingPcm := [];
      }
      inputCommitted := true;
      return accepted;
    }

    method Retire()
      modifies this`active, this`pendingPcm
      ensures View() == U.Retire(old(View()))
    {
      active := false;
      pendingPcm := [];
    }
  }
}
