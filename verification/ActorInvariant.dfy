/** Safety of the actor and its transport together, over every interleaving of the two threads. */
module ActorInvariant {
  import opened WireTypes
  import opened ClientTransport
  import opened VoiceActor
  import P = TransportProofs

  // ---------------------------------------------------------------------
  // What one transport step can do
  // ---------------------------------------------------------------------

  /** An error that ends the open turn as seen by the actor. */
  ghost predicate TurnError(e: Inbound) {
    e.Error? && e.ids.turn != 0 && e.code != "transport" && e.code != "downlink_discontinuity"
  }

  /** An error that names a turn, whatever its code. */
  predicate OfTurn(e: Inbound) { e.Error? && e.ids.turn != 0 }

  /** Events after which the actor may move to the next turn. */
  ghost predicate Closing(e: Inbound) { e.Done? || e.Cancelled? || TurnError(e) }

  /** Events of one particular turn. */
  ghost predicate Belongs(e: Inbound) {
    IsData(e) || e.Done? || e.Cancelled? || (e.Error? && e.ids.turn != 0)
  }

  ghost predicate NetEffect(t: Transport, t': Transport, e: Option<Inbound>) {
    && t'.turn == t.turn && t'.sent == t.sent && t'.committed == t.committed && t'.upSeq == t.upSeq
    && t'.uplinkEnded == t.uplinkEnded
    && (t'.active ==> t.active) && (t'.cancelSent ==> t.cancelSent)
    && (t.cancelSent && !t'.cancelSent ==> e.Some? && e.value.Cancelled?)
    && (t'.responseDone ==> t.responseDone || (e.Some? && e.value.Done?))
    && (t.responseDone && !t'.responseDone ==> e.Some? && e.value.Cancelled?)
    && (t.active && !t'.active ==> e.Some? && (e.value.Done? || e.value.Cancelled? || OfTurn(e.value)))
    && (t'.response != t.response ==>
          !ValidIds(t.response) && ValidIds(t'.response) && (t.cancelSent || e == Some(ResponseStart(t'.response))))
    && (if e.Some? && e.value.HelloAck? then
          && t.session == 0 && t'.session == e.value.ids.session != 0
          && t'.sessionEpoch == e.value.ids.epoch != 0
        else t'.session == t.session && t'.sessionEpoch == t.sessionEpoch)
    && (t'.audioStarted ==> t.audioStarted || (e.Some? && e.value.AudioStart?))
    && (e.Some? ==>
        && (Belongs(e.value) ==> SameTurn(e.value.ids, t.turn))
        && (e.value.Pcm? ==> t.audioStarted)
        && (IsData(e.value) ==>
            t.active && t'.active && !t.cancelSent && t.committed)
        && (e.value.ResponseStart? ==> e.value.ids == t'.response && !ValidIds(t.response))
        && ((IsData(e.value) && !e.value.ResponseStart?) || e.value.Done? ==> ValidIds(t.response))
        && (e.value.Done? ==> t.active && !t'.active && t'.responseDone)
        && (e.value.Cancelled? ==>
            (t.active || t.responseDone) && t.cancelSent && !t'.active && !t'.responseDone && !t'.cancelSent)
        && (e.value.Error? && e.value.ids.turn != 0 ==> t.active)
        && (TurnError(e.value) ==> !t'.active && !t'.responseDone))
  }

  lemma StartEffect(t: Transport, m: TextMessage)
    requires P.Sound(t) && m.Envelope? && m.body.ResponseStartBody?
    ensures var r := Delivered(OnResponseStart(t, m)); NetEffect(t, r.0, r.1)
  {
  }

  lemma PartEffect(t: Transport, m: TextMessage)
    requires P.Sound(t) && m.Envelope?
    ensures var r := Delivered(OnResponsePart(t, m)); NetEffect(t, r.0, r.1)
  {
  }

  lemma HelloEffect(t: Transport, m: TextMessage)
    requires P.Sound(t) && m.Envelope? && m.body.HelloAckBody?
    ensures var r := Delivered(OnHelloAck(t, m)); NetEffect(t, r.0, r.1)
  {
  }

  lemma CancelledEffect(t: Transport, m: TextMessage)
    requires P.Sound(t) && m.Envelope? && m.body.CancelledBody?
    ensures var r := Delivered(OnCancelled(t, m)); NetEffect(t, r.0, r.1)
  {
  }

  lemma ErrorEffect(t: Transport, m: TextMessage)
    requires P.Sound(t) && m.Envelope? && m.body.ErrorBody?
    ensures var r := Delivered(OnError(t, m)); NetEffect(t, r.0, r.1)
  {
    hide IsStale, Sized;
    var u := OnError(t, m).0;
    if u != t { assert u == t.(active := false); }
  }

  lemma PcmEffect(t: Transport, i: WireIds, flags: u16, sequence: nat, audio: seq<byte>)
    requires P.Sound(t)
    ensures var r := Delivered(OnPcm(t, i, flags, sequence, audio)); NetEffect(t, r.0, r.1)
  {
  }

  lemma SettledEffect(t: Transport, r: (Transport, Verdict))
    requires NetEffect(t, Delivered(r).0, Delivered(r).1)
    ensures NetEffect(t, Delivered(Settle(r)).0, Delivered(Settle(r)).1)
  {
  }

  lemma TextEffect(t: Transport, m: TextMessage)
    requires P.Sound(t)
    ensures var r := Delivered(OnText(t, m)); NetEffect(t, r.0, r.1)
  {
    hide OnHelloAck, OnResponseStart, OnCancelled, OnError, OnResponsePart;
    if m.Malformed? || !m.deviceMatches {
      SettledEffect(t, (t, Violation));
    } else {
      hide NetEffect;
      match m.body
      case HelloAckBody(_, _, _) => HelloEffect(t, m); SettledEffect(t, OnHelloAck(t, m));
      case ResponseStartBody(_) => StartEffect(t, m); SettledEffect(t, OnResponseStart(t, m));
      case CancelledBody(_) => CancelledEffect(t, m); SettledEffect(t, OnCancelled(t, m));
      case ErrorBody(_, _) => ErrorEffect(t, m); SettledEffect(t, OnError(t, m));
      case _ => PartEffect(t, m); SettledEffect(t, OnResponsePart(t, m));
    }
  }

  lemma EventEffect(t: Transport, n: NetEvent)
    requires P.Sound(t)
    ensures NetEffect(t, OnNet(t, n).0, OnNet(t, n).1)
  {
    match n
    case Text(m) =>
      hide OnText, NetEffect;
      TextEffect(t, m);
    case Binary(b) =>
      hide OnPcm;
      if P.Codec.DeviceReads(b, t.uuid) {
        var i, flags, sequence, audio :=
          P.Codec.DeviceIds(b), P.Codec.U16(b[6..8]), P.Codec.U32(b[20..24]), b[64..];
        PcmEffect(t, i, flags, sequence, audio);
        SettledEffect(t, OnPcm(t, i, flags, sequence, audio));
      } else {
        SettledEffect(t, (t, Violation));
      }
    case _ =>
  }

  // ---------------------------------------------------------------------
  // The joint invariant
  // ---------------------------------------------------------------------

  ghost predicate Clean(items: seq<Inbound>) {
    forall i :: 0 <= i < |items| ==> !Belongs(items[i])
  }

  /** The queue never loses its count: `k` events were taken since overflow was last looked at. */
  ghost predicate Counted(q: Queue, k: nat) {
    && q.good <= |q.items| <= EVENT_SLOTS
    && (if q.overflow then q.good + k >= EVENT_SLOTS else q.good == |q.items|)
  }

  ghost predicate Greeted(t: Transport, items: seq<Inbound>, turn: WireIds, response: WireIds, state: State) {
    && (turn.session == 0 ==>
        turn == ZERO_IDS && t.turn == ZERO_IDS && response == ZERO_IDS && state == WaitingForWake)
    && (turn.session != 0 ==>
        && ValidIds(turn) && turn.session == t.session && turn.epoch >= t.sessionEpoch
        && forall i :: 0 <= i < |items| ==> !items[i].HelloAck?)
    && (forall i :: 0 <= i < |items| && items[i].HelloAck? ==>
          items[i].ids.session == t.session != 0 && items[i].ids.epoch == t.sessionEpoch != 0)
    && (forall i, j :: 0 <= i < j < |items| ==> !(items[i].HelloAck? && items[j].HelloAck?))
  }

  /** One queued event against the present state of the transport. */
  ghost predicate Fits(e: Inbound, t: Transport, state: State) {
    && (Belongs(e) ==> SameTurn(e.ids, t.turn))
    && (IsData(e) ==> t.committed)
    && (Closing(e) ==> !t.active)
    && (e.Cancelled? ==> !t.cancelSent && !t.responseDone && state == CancelPending)
    && (TurnError(e) ==> !t.responseDone)
    && (e.Done? ==> t.responseDone || state == CancelPending)
  }

  ghost predicate Ordered(items: seq<Inbound>, t: Transport, state: State) {
    && (forall i :: 0 <= i < |items| ==> Fits(items[i], t, state))
    && (forall i, j :: 0 <= i < j < |items| && Closing(items[i]) && Belongs(items[j]) ==>
          items[i].Done? && items[j].Cancelled?)
  }

  /** The actor stands before its next turn: the transport has nothing open and nothing to say about the last. */
  ghost predicate Between(t: Transport, items: seq<Inbound>, turn: WireIds, response: WireIds) {
    && !t.active && Clean(items) && !(t.responseDone && t.cancelSent) && response == ZERO_IDS
    && (t.turn == ZERO_IDS || (turn.session != 0 && turn.epoch > t.turn.epoch))
  }

  /** The actor and the transport are in the same turn. */
  ghost predicate Within(t: Transport, items: seq<Inbound>, turn: WireIds, state: State) {
    && turn == t.turn && turn.session != 0
    && (state == CapturingSpeech ==> !t.committed)
    && (state == DrainingPlayback ==> t.responseDone && !t.active && Clean(items))
  }

  predicate Resting(s: State) {
    s == WaitingForWake || s == WaitingForSpeech || s == WaitingForFollowUp
  }

  ghost predicate Core(t: Transport, q: Queue, turn: WireIds, response: WireIds, state: State, k: nat) {
    && P.Sound(t) && Counted(q, k)
    && Greeted(t, q.items, turn, response, state)
    && Ordered(q.items, t, state)
    && (t.cancelSent && (t.active || t.responseDone) ==> state == CancelPending)
    && (Between(t, q.items, turn, response) || Within(t, q.items, turn, state))
    && (Resting(state) ==> Between(t, q.items, turn, response))
    && (!Resting(state) && state != CancelPending ==> Within(t, q.items, turn, state))
  }

  function Queued(q: Queue, e: Option<Inbound>): Queue {
    if e.Some? then Push(q, e.value) else q
  }

  lemma CountedPush(q: Queue, e: Option<Inbound>, k: nat)
    requires Counted(q, k)
    ensures Counted(Queued(q, e), k)
    ensures Queued(q, e).items == q.items || (e.Some? && Queued(q, e).items == q.items + [e.value])
  {
  }

  lemma GreetedPush(t: Transport, t': Transport, items: seq<Inbound>, e: Inbound,
                    turn: WireIds, response: WireIds, state: State)
    requires Greeted(t, items, turn, response, state) && NetEffect(t, t', Some(e))
    ensures Greeted(t', items, turn, response, state)
    ensures Greeted(t', items + [e], turn, response, state)
  {
  }

  /** What may be appended, and what becomes of what is queued. */
  lemma FitsPush(t: Transport, t': Transport, items: seq<Inbound>, e: Option<Inbound>,
                 turn: WireIds, response: WireIds, state: State)
    requires P.Sound(t) && NetEffect(t, t', e)
    requires Ordered(items, t, state)
    requires t.cancelSent && (t.active || t.responseDone) ==> state == CancelPending
    ensures forall x :: x in items ==> Fits(x, t', state)
    ensures e.Some? ==> Fits(e.value, t', state)
  {
    forall x | x in items
      ensures Fits(x, t', state)
    {
      assert Fits(x, t, state);
    }
  }

  lemma OrderPush(t: Transport, t': Transport, items: seq<Inbound>, e: Inbound, state: State)
    requires P.Sound(t) && NetEffect(t, t', Some(e))
    requires Ordered(items, t, state)
    ensures forall i :: 0 <= i < |items| && Closing(items[i]) && Belongs(e) ==>
              items[i].Done? && e.Cancelled?
  {
    forall i | 0 <= i < |items| && Closing(items[i]) && Belongs(e)
      ensures items[i].Done? && e.Cancelled?
    {
      assert Fits(items[i], t, state);
    }
  }

  lemma OrderedPush(t: Transport, t': Transport, items: seq<Inbound>, e: Inbound,
                    turn: WireIds, response: WireIds, state: State)
    requires P.Sound(t) && NetEffect(t, t', Some(e))
    requires Ordered(items, t, state)
    requires t.cancelSent && (t.active || t.responseDone) ==> state == CancelPending
    ensures Ordered(items, t', state)
    ensures Ordered(items + [e], t', state)
  {
    FitsPush(t, t', items, Some(e), turn, response, state);
    OrderPush(t, t', items, e, state);
    hide NetEffect, Fits, P.Sound;
  }

  lemma PhasePush(t: Transport, t': Transport, items: seq<Inbound>, e: Inbound,
                  turn: WireIds, response: WireIds, state: State)
    requires P.Sound(t) && NetEffect(t, t', Some(e))
    requires t.cancelSent && (t.active || t.responseDone) ==> state == CancelPending
    ensures Between(t, items, turn, response) ==>
              Between(t', items, turn, response) && Between(t', items + [e], turn, response)
    ensures Within(t, items, turn, state) ==>
              Within(t', items, turn, state) && Within(t', items + [e], turn, state)
  {
  }

  lemma CoreQuiet(t: Transport, t': Transport, q: Queue,
                  turn: WireIds, response: WireIds, state: State, k: nat)
    requires Core(t, q, turn, response, state, k) && P.Sound(t') && NetEffect(t, t', None)
    ensures Core(t', q, turn, response, state, k)
    ensures Between(t, q.items, turn, response) ==> Between(t', q.items, turn, response)
    ensures Within(t, q.items, turn, state) ==> Within(t', q.items, turn, state)
  {
    FitsPush(t, t', q.items, None, turn, response, state);
    hide Fits, P.Sound, Closing, Belongs, Counted;
  }

  lemma CorePush(t: Transport, t': Transport, q: Queue, e: Option<Inbound>,
                 turn: WireIds, response: WireIds, state: State, k: nat)
    requires Core(t, q, turn, response, state, k) && P.Sound(t') && NetEffect(t, t', e)
    ensures var q' := Queued(q, e);
            && Core(t', q', turn, response, state, k)
            && (Between(t, q.items, turn, response) ==> Between(t', q'.items, turn, response))
            && (Within(t, q.items, turn, state) ==> Within(t', q'.items, turn, state))
  {
    if e.None? {
      CoreQuiet(t, t', q, turn, response, state, k);
    } else {
      CountedPush(q, e, k);
      GreetedPush(t, t', q.items, e.value, turn, response, state);
      OrderedPush(t, t', q.items, e.value, turn, response, state);
      PhasePush(t, t', q.items, e.value, turn, response, state);
      assert t'.cancelSent && (t'.active || t'.responseDone) ==> state == CancelPending;
      hide NetEffect, Counted, Greeted, Ordered, Between, Within, P.Sound;
    }
  }
}
