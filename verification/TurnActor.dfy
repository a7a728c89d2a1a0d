/** The turn actor as one object, updated in place by its run loop. */
module TurnActor {
  import opened WireTypes
  import S = SessionActor

  class Actor {
    var phase: S.Phase
    var latest: nat
    var epoch: nat
    var responseId: string
    var frames: nat
    var pending: Option<S.Event>
    /** The provider's channel and the channel to the device side. */
    var incoming: seq<S.Raw>
    var closed: bool
    var out: seq<S.Event>
    var stopped: bool

    ghost function View(): S.Session
      reads this
    {
      S.Session(phase, latest, epoch, responseId, frames, pending, incoming, closed, out, stopped)
    }

    constructor ()
      ensures View() == S.NEW_SESSION
    {
      phase, latest, epoch, responseId, frames, pending := S.Idle, 0, 0, "", 0, None;
      incoming, closed, out, stopped := [], false, [], false;
    }

    method Stale(e: nat) returns (yes: bool)
      ensures yes == S.Stale(View(), e)
    {
      yes := e < epoch || (phase == S.Idle && e <= latest);
    }

    method StartTurn(e: nat) returns (reply: S.Reply)
      modifies this`phase, this`latest, this`epoch, this`responseId, this`frames
      ensures (View(), reply) == S.ApplyStart(old(View()), e)
    {
      if phase != S.Idle {
        return S.InvalidTransition;
      }
      if e <= latest {
        return S.StaleEpoch;
      }
      phase, latest, epoch := S.Listening, e, e;
      responseId, frames := "", 0;
      return S.Accepted;
    }

    method AppendPcm(e: nat, provider: S.Provider) returns (reply: S.Reply)
      modifies this`frames
      ensures (View(), reply) == S.ApplyAppend(old(View()), e, provider)
    {
      var stale := Stale(e);
      if stale {
        return S.StaleEpoch;
      }
      if phase != S.Listening || e != epoch {
        return S.InvalidTransition;
      }
      if !provider.ok {
        return S.ProviderError;
      }
      frames := frames + 1;
      return S.Accepted;
    }

    method Commit(e: nat, provider: S.Provider) returns (reply: S.Reply)
      modifies this`phase
      ensures (View(), reply) == S.ApplyCommit(old(View()), e, provider)
    {
      var stale := Stale(e);
      if stale {
        return S.StaleEpoch;
      }
      if phase != S.Listening || e != epoch || frames == 0 {
        return S.InvalidTransition;
      }
      if !provider.ok {
        return S.ProviderError;
      }
      phase := S.Thinking;
      return S.Accepted;
    }

    /** Everything the fence left in the channel belongs to the retired turn. */
    method DrainProviderEvents()
      modifies this`incoming
      ensures View() == old(View()).(incoming := [])
    {
      while incoming != []
        invariant View() == old(View()).(incoming := incoming)
        decreases |incoming|
      {
        incoming := incoming[1..];
      }
    }

    method Retire()
      modifies this`phase, this`epoch, this`responseId, this`frames, this`pending, this`incoming
      ensures View() == S.Retire(old(View()))
    {
      DrainProviderEvents();
      if pending.Some? && pending.value.epoch == epoch {
        pending := None;
      }
      phase, epoch, responseId, frames := S.Idle, 0, "", 0;
    }

    method Cancel(e: nat, provider: S.Provider) returns (reply: S.Reply)
      modifies this`phase, this`epoch, this`responseId, this`frames, this`pending, this`incoming
      ensures (View(), reply) == S.ApplyCancel(old(View()), e, provider)
    {
      hide S.Retire;
      if phase == S.Idle {
        if e < latest {
          return S.Accepted;
        }
        if e != latest {
          return S.InvalidTransition;
        }
        if provider.discards && !provider.discardOk {
          return S.ProviderError;
        }
        return S.Accepted;
      }
      if e < epoch {
        return S.Accepted;
      }
      if e != epoch {
        return S.InvalidTransition;
      }
      var responseWasActive := phase == S.Thinking || phase == S.Speaking;
      if !provider.ok {
        return S.ProviderError;
      }
      if responseWasActive && provider.discards && !provider.discardOk {
        return S.ProviderError;
      }
      Retire();
      return S.Accepted;
    }

    method Apply(op: S.Operation, e: nat, provider: S.Provider) returns (reply: S.Reply)
      modifies this
      ensures (View(), reply) == S.Apply(old(View()), op, e, provider)
    {
      hide View, S.ApplyStart, S.ApplyAppend, S.ApplyCommit, S.ApplyCancel;
      match op {
        case StartTurn => reply := StartTurn(e);
        case AppendPcm => reply := AppendPcm(e, provider);
        case Commit => reply := Commit(e, provider);
        case CancelTurn => reply := Cancel(e, provider);
      }
    }

    method Accept(raw: S.Raw) returns (event: Option<S.Event>)
      modifies this`phase, this`responseId
      ensures (View(), event) == S.Accept(old(View()), raw)
    {
      if phase != S.Thinking && phase != S.Speaking {
        return None;
      }
      if !S.WellFormed(raw) {
        phase, responseId := S.Idle, "";
        return Some(S.SessionError(epoch));
      }
      if responseId == "" {
        responseId := raw.responseId;
      }
      if raw.responseId != "" && raw.responseId != responseId {
        return None;
      }
      event := Some(S.Event(epoch, raw));
      if raw.kind == S.Audio {
        phase := S.Speaking;
      }
      if raw.kind == S.Done || raw.kind == S.Failed {
        phase, responseId := S.Idle, "";
      }
    }

    method ReportClosedStream(room: bool)
      modifies this`out, this`stopped
      ensures View() == S.ReportClosed(old(View()), room)
    {
      if phase != S.Idle && room {
        out := out + [S.SessionError(epoch)];
      }
      stopped := true;
    }

    /** The provider's case of the select: taken only while nothing is in hand. */
    method TakeProviderEvent(room: bool)
      modifies this
      ensures View() == S.Step(old(View()), S.TakeEvent(room))
    {
      hide S.Accept, S.ReportClosed;
      if stopped || pending.Some? {
        return;
      }
      if incoming != [] {
        var raw := incoming[0];
        incoming := incoming[1..];
        pending := Accept(raw);
      } else if closed {
        ReportClosedStream(room);
      }
    }

    /** The output case of the select. */
    method Emit()
      modifies this`out, this`pending
      ensures View() == S.Step(old(View()), S.Emit)
    {
      if !stopped && pending.Some? {
        out, pending := out + [pending.value], None;
      }
    }
  }
}
