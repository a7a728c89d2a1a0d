/** The actor knows which response it is in: the one its transport opened, as far as it has been told. */
module ActorResponse {
  import opened WireTypes
  import opened ClientTransport
  import opened VoiceActor
  import opened ActorInvariant
  import P = TransportProofs

  // ---------------------------------------------------------------------
  // The actor, its queue and the transport's response
  // ---------------------------------------------------------------------

  /** The start of response `ids` is among the first `n` events. */
  ghost predicate Announced(items: seq<Inbound>, n: nat, ids: WireIds) {
    exists j :: 0 <= j < n <= |items| && items[j] == ResponseStart(ids)
  }

  ghost predicate TurnBroken(items: seq<Inbound>) { exists i :: 0 <= i < |items| && OfTurn(items[i]) }

  ghost predicate Finished(items: seq<Inbound>) { exists i :: 0 <= i < |items| && items[i].Done? }

  /** An audio start is among the first `n` events. */
  ghost predicate Sounds(items: seq<Inbound>, n: nat) { exists j :: 0 <= j < n <= |items| && items[j].AudioStart? }

  /** The actor has not begun to play. */
  predicate Unplayed(state: State) { state != PlayingResponse && state != DrainingPlayback }

  /** Makes sense only behind the start of its response. */
  predicate NeedsStart(e: Inbound) { e.TextDelta? || e.AudioStart? || e.Pcm? || e.Done? }

  predicate Knows(t: Transport, response: WireIds) { ValidIds(response) && response == t.response }

  /**
   * In its turn, outside a cancel: the actor has no response or the transport's;
   * a start it has not taken is queued, ahead of what needs it, or was lost, and
   * so is the start of its audio; and a turn that closed has its done or its error
   * queued, or lost, or the done taken.
   */
  ghost predicate Follows(t: Transport, q: Queue, response: WireIds, state: State) {
    && !t.cancelSent && (response == ZERO_IDS || Knows(t, response))
    && (ValidIds(t.response) && !Knows(t, response) ==> q.overflow || Announced(q.items, |q.items|, t.response))
    && (state == PlayingResponse || state == DrainingPlayback ==> Knows(t, response))
    && (!t.active && !t.responseDone ==> q.overflow || TurnBroken(q.items))
    && (t.responseDone && state != DrainingPlayback ==> q.overflow || Finished(q.items))
    && (forall i :: 0 <= i < q.good <= |q.items| && NeedsStart(q.items[i]) ==>
          Knows(t, response) || Announced(q.items, i, t.response))
    && (forall i :: 0 <= i < |q.items| && q.items[i].ResponseStart? ==> q.items[i].ids == t.response)
    && (!ValidIds(t.response) ==>
          forall i :: 0 <= i < |q.items| ==> !NeedsStart(q.items[i]) && !q.items[i].ResponseStart?)
    && (Unplayed(state) ==> Unheard(t, q))
  }

  /** Audio that was started and not played is queued behind its start. */
  ghost predicate Unheard(t: Transport, q: Queue) {
    && (t.audioStarted ==> q.overflow || Sounds(q.items, |q.items|))
    && (forall i :: 0 <= i < q.good <= |q.items| && q.items[i].Pcm? ==> Sounds(q.items, i))
  }

  ghost predicate Tracks(t: Transport, q: Queue, turn: WireIds, response: WireIds, state: State) {
    Within(t, q.items, turn, state) && state != CancelPending ==> Follows(t, q, response, state)
  }

  /** Nothing that concerns the response moved on the transport's side. */
  ghost predicate Quiet(t: Transport, t': Transport) {
    t'.response == t.response && t'.active == t.active && t'.responseDone == t.responseDone
    && t'.cancelSent == t.cancelSent && t'.audioStarted == t.audioStarted
  }

  lemma FollowsQuietly(t: Transport, t': Transport, q: Queue, response: WireIds, state: State, state': State)
    requires Follows(t, q, response, state) && Quiet(t, t')
    requires state' == PlayingResponse || state' == DrainingPlayback ==> Knows(t, response)
    requires state == DrainingPlayback ==> state' == DrainingPlayback
    requires Unplayed(state') ==> Unplayed(state)
    ensures Follows(t', q, response, state')
  {
  }

  lemma TracksQuietly(t: Transport, t': Transport, q: Queue, turn: WireIds, response: WireIds, state: State)
    requires Tracks(t, q, turn, response, state) && Quiet(t, t')
    requires t'.turn == t.turn && t'.committed == t.committed
    ensures Tracks(t', q, turn, response, state)
  {
    hide Announced, TurnBroken, Finished, Clean;
  }

  lemma AnnouncedMore(items: seq<Inbound>, e: Inbound, n: nat, ids: WireIds)
    requires Announced(items, n, ids)
    ensures Announced(items + [e], n, ids) && Announced(items + [e], |items| + 1, ids)
  {
    var j :| 0 <= j < n <= |items| && items[j] == ResponseStart(ids);
    assert (items + [e])[j] == items[j];
  }

  lemma ClosedMore(items: seq<Inbound>, e: Inbound)
    ensures TurnBroken(items) || OfTurn(e) ==> TurnBroken(items + [e])
    ensures Finished(items) || e.Done? ==> Finished(items + [e])
  {
    assert (items + [e])[|items|] == e;
    if TurnBroken(items) {
      var i :| 0 <= i < |items| && OfTurn(items[i]);
      assert (items + [e])[i] == items[i];
    }
    if Finished(items) {
      var i :| 0 <= i < |items| && items[i].Done?;
      assert (items + [e])[i] == items[i];
    }
  }

  lemma SoundsMore(items: seq<Inbound>, e: Inbound)
    ensures forall n: nat :: Sounds(items, n) ==> Sounds(items + [e], n) && Sounds(items + [e], |items| + 1)
    ensures e.AudioStart? ==> Sounds(items + [e], |items| + 1)
  {
    assert (items + [e])[|items|] == e;
    forall n: nat | Sounds(items, n) ensures Sounds(items + [e], n) && Sounds(items + [e], |items| + 1) {
      var j :| 0 <= j < n <= |items| && items[j].AudioStart?;
      assert (items + [e])[j] == items[j];
    }
  }

  lemma UnheardStored(t: Transport, t': Transport, q: Queue, e: Inbound)
    requires Unheard(t, q) && NetEffect(t, t', Some(e)) && q.good <= |q.items| && (!q.overflow ==> q.good == |q.items|)
    ensures Unheard(t', q.(items := q.items + [e], good := if q.overflow then q.good else q.good + 1))
  {
    var items := q.items + [e];
    SoundsMore(q.items, e);
    forall i | 0 <= i < (if q.overflow then q.good else q.good + 1) && items[i].Pcm? ensures Sounds(items, i) {
      if i < |q.items| { assert items[i] == q.items[i]; }
    }
    hide Sounds;
  }

  /** A network event that pushes nothing. */
  lemma FollowsNone(t: Transport, t': Transport, q: Queue, response: WireIds, state: State)
    requires Follows(t, q, response, state) && P.Sound(t) && NetEffect(t, t', None)
    ensures Follows(t', q, response, state)
  {
    assert t'.response == t.response && t'.active == t.active;
  }

  /** An event that finds the queue full is lost. */
  lemma FollowsLost(t: Transport, t': Transport, q: Queue, e: Inbound, response: WireIds, state: State)
    requires Follows(t, q, response, state) && P.Sound(t) && NetEffect(t, t', Some(e)) && q.good <= |q.items|
    ensures Follows(t', q.(overflow := true), response, state)
  {
    hide P.Sound, Announced, TurnBroken, Finished, IsData;
  }

  lemma FollowsStored(t: Transport, t': Transport, q: Queue, e: Inbound, response: WireIds, state: State)
    requires Follows(t, q, response, state) && P.Sound(t) && NetEffect(t, t', Some(e)) && q.good <= |q.items|
    requires !q.overflow ==> q.good == |q.items|
    ensures Follows(t', q.(items := q.items + [e], good := if q.overflow then q.good else q.good + 1), response, state)
  {
    var items := q.items + [e];
    if Unplayed(state) { UnheardStored(t, t', q, e); }
    ClosedMore(q.items, e);
    assert items[|q.items|] == e;
    assert ValidIds(t'.response) && !Knows(t', response) && !q.overflow ==> Announced(items, |items|, t'.response) by {
      if Announced(q.items, |q.items|, t.response) { AnnouncedMore(q.items, e, |q.items|, t.response); }
    }
    forall i | 0 <= i < (if q.overflow then q.good else q.good + 1) && NeedsStart(items[i])
      ensures Knows(t', response) || Announced(items, i, t'.response)
    {
      if i < |q.items| {
        assert items[i] == q.items[i];
        if Announced(q.items, i, t.response) { AnnouncedMore(q.items, e, i, t.response); }
      } else if !Knows(t', response) {
        if Announced(q.items, |q.items|, t.response) { AnnouncedMore(q.items, e, |q.items|, t.response); }
      }
    }
    forall i | 0 <= i < |items| && items[i].ResponseStart? ensures items[i].ids == t'.response {
      if i < |q.items| { assert items[i] == q.items[i]; }
    }
    hide Announced, TurnBroken, Finished, P.Sound, Unheard;
    if !ValidIds(t'.response) {
      forall i | 0 <= i < |items| ensures !NeedsStart(items[i]) && !items[i].ResponseStart? {
        if i < |q.items| { assert items[i] == q.items[i]; }
      }
    }
  }

  lemma TracksPush(t: Transport, t': Transport, q: Queue, e: Option<Inbound>, turn: WireIds, response: WireIds,
                   state: State, k: nat)
    requires Tracks(t, q, turn, response, state) && Core(t, q, turn, response, state, k) && NetEffect(t, t', e)
    ensures Tracks(t', Queued(q, e), turn, response, state)
  {
    hide Ordered, Greeted, Between;
    if Within(t', Queued(q, e).items, turn, state) && state != CancelPending {
      WithinBefore(t, t', q, e, turn, response, state, k);
      hide Within, P.Sound;
      if e.None? {
        FollowsNone(t, t', q, response, state);
      } else if |q.items| == EVENT_SLOTS {
        FollowsLost(t, t', q, e.value, response, state);
      } else {
        FollowsStored(t, t', q, e.value, response, state);
      }
    }
  }

  /** A network event does not bring the actor into a turn. */
  lemma WithinBefore(t: Transport, t': Transport, q: Queue, e: Option<Inbound>, turn: WireIds, response: WireIds,
                     state: State, k: nat)
    requires Core(t, q, turn, response, state, k) && NetEffect(t, t', e)
    requires Within(t', Queued(q, e).items, turn, state)
    ensures Within(t, q.items, turn, state)
  {
    hide Ordered, Greeted, Counted;
  }

  // ---------------------------------------------------------------------
  // Taking events
  // ---------------------------------------------------------------------

  lemma AnnouncedRest(items: seq<Inbound>, n: nat, ids: WireIds)
    requires Announced(items, n, ids) && !items[0].ResponseStart?
    ensures Announced(items[1..], n - 1, ids)
  {
    var j :| 0 <= j < n <= |items| && items[j] == ResponseStart(ids);
    assert items[1..][j - 1] == items[j];
  }

  lemma ClosedRest(items: seq<Inbound>)
    requires items != []
    ensures TurnBroken(items) && !OfTurn(items[0]) ==> TurnBroken(items[1..])
    ensures Finished(items) && !items[0].Done? ==> Finished(items[1..])
  {
    if TurnBroken(items) && !OfTurn(items[0]) {
      var i :| 0 <= i < |items| && OfTurn(items[i]);
      assert items[1..][i - 1] == items[i];
    }
    if Finished(items) && !items[0].Done? {
      var i :| 0 <= i < |items| && items[i].Done?;
      assert items[1..][i - 1] == items[i];
    }
  }

  lemma UnheardPop(t: Transport, q: Queue)
    requires Unheard(t, q) && q.items != [] && q.good <= |q.items| && !q.items[0].AudioStart?
    ensures Unheard(t, Pop(q))
    ensures q.good > 0 ==> !q.items[0].Pcm?
  {
    var rest := q.items[1..];
    forall n: nat | Sounds(q.items, n) ensures n > 0 && Sounds(rest, n - 1) {
      var j :| 0 <= j < n <= |q.items| && q.items[j].AudioStart?;
      assert rest[j - 1] == q.items[j];
    }
    forall i | 0 <= i < |rest| ensures rest[i] == q.items[i + 1] {
    }
    hide Sounds;
  }

  /** An event that is neither a start nor the end of the turn. */
  lemma FollowsPop(t: Transport, q: Queue, response: WireIds, state: State)
    requires Follows(t, q, response, state) && q.items != [] && q.good <= |q.items|
    requires !q.items[0].ResponseStart? && !q.items[0].Done? && !OfTurn(q.items[0])
    requires q.items[0].AudioStart? ==> !Unplayed(state)
    ensures Follows(t, Pop(q), response, state)
  {
    var items := q.items;
    if Unplayed(state) { UnheardPop(t, q); }
    ClosedRest(items);
    forall n: nat, ids | n > 0 && Announced(items, n, ids) ensures Announced(items[1..], n - 1, ids) {
      AnnouncedRest(items, n, ids);
    }
    forall i | 0 <= i < |items[1..]| ensures items[1..][i] == items[i + 1] {
    }
    hide Announced, TurnBroken, Finished, Unheard;
  }

  /** The start of the audio is taken, and the actor plays. */
  lemma FollowsAudio(t: Transport, q: Queue, response: WireIds, state: State)
    requires Follows(t, q, response, state) && q.items != [] && 1 <= q.good <= |q.items|
    requires q.items[0].AudioStart? && state != DrainingPlayback
    ensures Follows(t, Pop(q), response, PlayingResponse)
  {
    HeadKnows(t, q, response, state);
    FollowsQuietly(t, t, q, response, state, PlayingResponse);
    hide Follows;
    FollowsPop(t, q, response, PlayingResponse);
  }

  /** Audio in hand finds the actor playing. */
  lemma AudioFindsPlaying(t: Transport, q: Queue, response: WireIds, state: State)
    requires Follows(t, q, response, state) && q.items != [] && 1 <= q.good <= |q.items| && q.items[0].Pcm?
    ensures !Unplayed(state)
  {
    if Unplayed(state) { UnheardPop(t, q); }
  }

  /** The start is taken, and the actor takes over its identities. */
  lemma FollowsStart(t: Transport, q: Queue, response: WireIds, state: State)
    requires Follows(t, q, response, state) && q.items != [] && q.items[0].ResponseStart? && q.good <= |q.items|
    ensures Follows(t, Pop(q), q.items[0].ids, state) && Knows(t, q.items[0].ids)
  {
    ClosedRest(q.items);
    if Unplayed(state) { UnheardPop(t, q); }
    hide Unheard;
    forall i | 0 <= i < |q.items[1..]| ensures q.items[1..][i] == q.items[i + 1] {
    }
    hide TurnBroken, Finished;
  }

  /** The done is taken, and the answer plays out. */
  lemma FollowsDone(t: Transport, q: Queue, response: WireIds, state: State)
    requires Follows(t, q, response, state) && q.items != [] && q.items[0].Done? && 1 <= q.good <= |q.items|
    ensures Knows(t, response) && Follows(t, Pop(q), response, DrainingPlayback)
  {
    ClosedRest(q.items);
    HeadKnows(t, q, response, state);
    forall i | 0 <= i < |q.items[1..]| ensures q.items[1..][i] == q.items[i + 1] {
    }
    hide Announced, TurnBroken, Finished;
  }

  /** What needs its start has had it when it is taken. */
  lemma HeadKnows(t: Transport, q: Queue, response: WireIds, state: State)
    requires Follows(t, q, response, state) && q.items != [] && NeedsStart(q.items[0]) && 1 <= q.good <= |q.items|
    ensures Knows(t, response)
  {
  }

  /** A turn just opened. */
  lemma FollowsOpen(t: Transport, q: Queue, state: State)
    requires Clean(q.items) && state == CapturingSpeech
    requires !t.cancelSent && t.response == ZERO_IDS && t.active && !t.responseDone && !t.audioStarted
    ensures Follows(t, q, ZERO_IDS, state)
  {
    assert forall i :: 0 <= i < |q.items| ==> !Belongs(q.items[i]);
  }

  /** At rest the actor is between turns. */
  lemma RestingTracks(t: Transport, q: Queue, turn: WireIds, response: WireIds, state: State, k: nat)
    requires Core(t, q, turn, response, state, k) && Resting(state)
    ensures Tracks(t, q, turn, response, state)
  {
    hide Ordered, Greeted, Counted, Follows;
  }

  // ---------------------------------------------------------------------
  // The transport takes the actor's cancel
  // ---------------------------------------------------------------------

  /** The cancel the actor sends for its turn. */
  function CancelOf(turn: WireIds, response: WireIds): (ControlKind, WireIds) {
    if response.session != 0 then (ResponseCancel, response) else (TurnCancel, turn)
  }

  /** It is turned down only when the end of the turn is already on its way to the actor. */
  lemma CancelAllowed(t: Transport, q: Queue, turn: WireIds, response: WireIds, state: State, token: bool)
    requires P.Sound(t) && Within(t, q.items, turn, state) && Follows(t, q, response, state)
    requires state != CancelPending && ValidIds(turn)
    ensures var (kind, ids) := CancelOf(turn, response);
            Allowed(t, Control(kind, ids, token)) || q.overflow || TurnBroken(q.items)
            || (response == ZERO_IDS && Finished(q.items))
    ensures state == PlayingResponse || state == DrainingPlayback ==> response != ZERO_IDS
    ensures state == CapturingSpeech ==> response == ZERO_IDS
  {
    hide Announced, TurnBroken, Finished;
  }

  // ---------------------------------------------------------------------
  // The log and the response
  // ---------------------------------------------------------------------

  /** The response whose start was taken in turn `turn`, outside a cancel, since the session began. */
  function Recorded(acted: seq<Acted>, turn: WireIds): WireIds {
    if acted == [] then ZERO_IDS
    else
      var last := acted[|acted| - 1];
      if last.event.HelloAck? then ZERO_IDS
      else if last.event.ResponseStart? && last.turn == turn && last.state != CancelPending then last.event.ids
      else Recorded(acted[..|acted| - 1], turn)
  }

  lemma RecordedMore(acted: seq<Acted>, x: Acted, turn: WireIds)
    ensures Recorded(acted + [x], turn) ==
            if x.event.HelloAck? then ZERO_IDS
            else if x.event.ResponseStart? && x.turn == turn && x.state != CancelPending then x.event.ids
            else Recorded(acted, turn)
  {
    assert (acted + [x])[..|acted|] == acted;
  }

  /** Nothing since the session began was taken in a later turn. */
  ghost predicate UpTo(acted: seq<Acted>, epoch: nat) {
    acted == []
    || (var last := acted[|acted| - 1];
        last.event.HelloAck? || (last.turn.epoch <= epoch && UpTo(acted[..|acted| - 1], epoch)))
  }

  lemma UpToMore(acted: seq<Acted>, x: Acted, epoch: nat)
    ensures UpTo(acted + [x], epoch) <==> x.event.HelloAck? || (x.turn.epoch <= epoch && UpTo(acted, epoch))
  {
    assert (acted + [x])[..|acted|] == acted;
  }

  lemma {:induction false} NextTurnUnheard(acted: seq<Acted>, epoch: nat, next: WireIds)
    requires UpTo(acted, epoch) && next.epoch > epoch
    ensures Recorded(acted, next) == ZERO_IDS && UpTo(acted, next.epoch)
  {
    if acted != [] && !acted[|acted| - 1].event.HelloAck? {
      NextTurnUnheard(acted[..|acted| - 1], epoch, next);
    }
  }

  /** The actor is in the response the log says it was told of. */
  ghost predicate Answered(acted: seq<Acted>, turn: WireIds, response: WireIds) {
    turn.session != 0 ==> response == Recorded(acted, turn) && UpTo(acted, turn.epoch)
  }
}
