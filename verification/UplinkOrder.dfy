/** The converse: whatever a client sends, the server accepts only one well-formed utterance per turn. */
module UplinkOrder {
  import opened WireTypes
  import opened ServerUplink
  import Codec = PcmCodec

  /** What the handler may be given for a turn: any parsed frame, any commit. */
  datatype Input =
    | Packet(header: Codec.Header, pcm: seq<byte>, taken: nat)
    | CommitMessage(ids: WireIds, flushed: bool, accepted: bool)

  /** The turn with the headers and payloads accepted for it; a refused input retires it. */
  datatype Record = Record(turn: Turn, headers: seq<Codec.Header>, payloads: seq<seq<byte>>)

  function Step(r: Record, i: Input): Record {
    match i
    case Packet(h, pcm, taken) =>
      var (t, ok) := HandlePcm(r.turn, h, pcm, taken);
      if ok then Record(t, r.headers + [h], r.payloads + [pcm]) else r.(turn := Retire(t))
    case CommitMessage(ids, flushed, accepted) =>
      var (t, ok) := HandleCommit(r.turn, ids, flushed, accepted);
      if ok then r.(turn := t) else r.(turn := Retire(t))
  }

  function Run(r: Record, inputs: seq<Input>): Record
    decreases |inputs|
  {
    if inputs == [] then r else Run(Step(r, inputs[0]), inputs[1..])
  }

  /** Numbered from zero, START on the first only, END on the last at most, all of this stream. */
  ghost predicate OneUtterance(hs: seq<Codec.Header>, t: Turn) {
    && (forall k :: 0 <= k < |hs| ==> hs[k].sequence == k && StartFlag(hs[k].flags) == (k == 0))
    && (forall k :: 0 <= k < |hs| && EndFlag(hs[k].flags) ==> k == |hs| - 1)
    && (forall k :: 0 <= k < |hs| ==> !DiscontinuityFlag(hs[k].flags) && Codec.Valid(hs[k]) && OfTurn(hs[k], t))
  }

  predicate OfTurn(h: Codec.Header, t: Turn) {
    && h.kind == Codec.UPLINK && h.sampleRate == INPUT_RATE && h.uuid == t.uuid
    && h.session == t.session && h.turn == t.turn && h.stream == t.uplink && h.epoch == t.epoch
  }

  /** The marks of an active turn say what was accepted, and nothing of it is lost. */
  ghost predicate Kept(r: Record) {
    var t, hs := r.turn, r.headers;
    && OneUtterance(hs, t) && |r.payloads| == |hs|
    && (t.active ==>
          && t.expected == |hs| && t.started == (hs != [])
          && t.ended == (hs != [] && EndFlag(hs[|hs| - 1].flags)) && (t.committed ==> t.started && t.ended)
          && t.received == Flatten(r.payloads)
          && (if t.committed then t.appended == FramesOf(t.received)
              else t.appended == Whole(t.received) && t.pending == Rest(t.received)))
  }

  lemma PacketKeeps(r: Record, h: Codec.Header, pcm: seq<byte>, taken: nat)
    requires Kept(r)
    ensures Kept(Step(r, Packet(h, pcm, taken)))
  {
    var (t, ok) := HandlePcm(r.turn, h, pcm, taken);
    if ok {
      FlattenAppend(r.payloads, pcm);
      CutAsYouGo(r.turn.received, pcm);
      hide Flatten, Whole, Rest, FramesOf, StartFlag, EndFlag, DiscontinuityFlag;
      var hs := r.headers + [h];
      assert OneUtterance(hs, t);
    }
  }

  lemma CommitKeeps(r: Record, ids: WireIds, flushed: bool, accepted: bool)
    requires Kept(r)
    ensures Kept(Step(r, CommitMessage(ids, flushed, accepted)))
  {
    hide Flatten, Whole, Rest, OneUtterance, EndFlag;
    UtteranceSame(r.headers, r.turn, Step(r, CommitMessage(ids, flushed, accepted)).turn);
  }

  lemma UtteranceSame(hs: seq<Codec.Header>, t: Turn, u: Turn)
    requires OneUtterance(hs, t)
    ensures u.uuid == t.uuid && u.session == t.session && u.turn == t.turn && u.uplink == t.uplink && u.epoch == t.epoch
            ==> OneUtterance(hs, u)
  {
    hide Codec.Valid;
  }

  lemma {:induction false} RunKeeps(r: Record, inputs: seq<Input>)
    requires Kept(r)
    ensures Kept(Run(r, inputs))
    decreases |inputs|
  {
    hide Kept, Step;
    if inputs != [] {
      match inputs[0] {
        case Packet(h, pcm, taken) => PacketKeeps(r, h, pcm, taken);
        case CommitMessage(ids, flushed, accepted) => CommitKeeps(r, ids, flushed, accepted);
      }
      RunKeeps(Step(r, inputs[0]), inputs[1..]);
    }
  }

  /**
   * For any client: the frames accepted for a turn form one utterance, and a
   * turn that is still active after its commit has that utterance, closed by
   * END, and has given the provider exactly its frames.
   */
  lemma AcceptedFramesFormOneUtterance(uuid: Codec.Uuid, ids: WireIds, downlink: nat, inputs: seq<Input>)
    ensures var r := Run(Record(Started(uuid, ids, downlink), [], []), inputs);
            && OneUtterance(r.headers, r.turn)
            && (r.turn.active && r.turn.committed ==>
                  && r.headers != [] && EndFlag(r.headers[|r.headers| - 1].flags)
                  && r.turn.appended == FramesOf(Flatten(r.payloads)))
  {
    RunKeeps(Record(Started(uuid, ids, downlink), [], []), inputs);
    hide Run, OneUtterance;
  }
}
