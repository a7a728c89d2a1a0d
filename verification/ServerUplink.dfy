/**
 * The server's side of the microphone: the checks a frame and a commit must
 * pass, and the cutting of arbitrary packets into 640-byte provider frames.
 */
module ServerUplink {
  import opened WireTypes
  import Codec = PcmCodec
  import T = ClientTransport

  /** The logs: bytes received, frames given to the provider session, checks failed. */
  datatype Turn = Turn(
    uuid: Codec.Uuid, session: nat, turn: nat, uplink: nat, downlink: nat, epoch: nat,
    expected: nat, started: bool, ended: bool, committed: bool, pending: seq<byte>, active: bool,
    received: seq<byte>, appended: seq<seq<byte>>, faults: nat)

  // ---------------------------------------------------------------------
  // Cutting into frames
  // ---------------------------------------------------------------------

  function Zeros(n: nat): (z: seq<byte>)
    ensures |z| == n && forall i :: 0 <= i < n ==> z[i] == 0
  {
    if n == 0 then [] else [0] + Zeros(n - 1)
  }

  /** All whole frames at the front of `bytes`. */
  function Whole(bytes: seq<byte>): (frames: seq<seq<byte>>)
    decreases |bytes|
  {
    if |bytes| < INPUT_FRAME_BYTES then []
    else [bytes[..INPUT_FRAME_BYTES]] + Whole(bytes[INPUT_FRAME_BYTES..])
  }

  function Rest(bytes: seq<byte>): (rest: seq<byte>)
    decreases |bytes|
  {
    if |bytes| < INPUT_FRAME_BYTES then bytes else Rest(bytes[INPUT_FRAME_BYTES..])
  }

  /** The last frame: the bytes copied into a zeroed frame. */
  function Padded(bytes: seq<byte>): (frame: seq<byte>)
    ensures |frame| == INPUT_FRAME_BYTES
    ensures |bytes| <= INPUT_FRAME_BYTES ==> bytes <= frame
  {
    if |bytes| > INPUT_FRAME_BYTES then bytes[..INPUT_FRAME_BYTES]
    else bytes + Zeros(INPUT_FRAME_BYTES - |bytes|)
  }

  /** What the provider must get for a whole utterance, however it was packed. */
  function FramesOf(bytes: seq<byte>): seq<seq<byte>> {
    Whole(bytes) + if Rest(bytes) == [] then [] else [Padded(Rest(bytes))]
  }

  lemma {:induction false} RestShort(bytes: seq<byte>)
    ensures |Rest(bytes)| < INPUT_FRAME_BYTES
    ensures Flatten(Whole(bytes)) + Rest(bytes) == bytes
    ensures forall i :: 0 <= i < |Whole(bytes)| ==> |Whole(bytes)[i]| == INPUT_FRAME_BYTES
    decreases |bytes|
  {
    if |bytes| >= INPUT_FRAME_BYTES {
      RestShort(bytes[INPUT_FRAME_BYTES..]);
      var tail := bytes[INPUT_FRAME_BYTES..];
      assert Flatten(Whole(bytes)) == bytes[..INPUT_FRAME_BYTES] + Flatten(Whole(tail));
    }
  }

  lemma SliceOfTail(bytes: seq<byte>, k: nat)
    requires 0 < k && INPUT_FRAME_BYTES * k + INPUT_FRAME_BYTES <= |bytes|
    ensures var tail, at := bytes[INPUT_FRAME_BYTES..], INPUT_FRAME_BYTES * (k - 1);
            bytes[INPUT_FRAME_BYTES * k..INPUT_FRAME_BYTES * k + INPUT_FRAME_BYTES]
            == tail[at..at + INPUT_FRAME_BYTES]
  {
  }

  /** The frames and the rest by position, as the handler slices them. */
  lemma {:induction false} WholeAt(bytes: seq<byte>)
    ensures |Whole(bytes)| == |bytes| / INPUT_FRAME_BYTES
    ensures Rest(bytes) == bytes[INPUT_FRAME_BYTES * |Whole(bytes)|..]
    ensures forall k :: 0 <= k < |Whole(bytes)| ==>
              Whole(bytes)[k] == bytes[INPUT_FRAME_BYTES * k..INPUT_FRAME_BYTES * k + INPUT_FRAME_BYTES]
    decreases |bytes|
  {
    if |bytes| >= INPUT_FRAME_BYTES {
      var tail := bytes[INPUT_FRAME_BYTES..];
      WholeAt(tail);
      assert Whole(bytes) == [bytes[..INPUT_FRAME_BYTES]] + Whole(tail) && Rest(bytes) == Rest(tail);
      hide Whole, Rest;
      forall k | 0 <= k < |Whole(bytes)|
        ensures Whole(bytes)[k] == bytes[INPUT_FRAME_BYTES * k..INPUT_FRAME_BYTES * k + INPUT_FRAME_BYTES]
      {
        if k > 0 {
          SliceOfTail(bytes, k);
        }
      }
    }
  }

  /** Cutting as packets arrive is cutting the whole: packet boundaries do not matter. */
  lemma {:induction false} CutAsYouGo(before: seq<byte>, packet: seq<byte>)
    ensures Whole(before + packet) == Whole(before) + Whole(Rest(before) + packet)
    ensures Rest(before + packet) == Rest(Rest(before) + packet)
    decreases |before|
  {
    if |before| < INPUT_FRAME_BYTES {
      assert Whole(before) == [];
    } else {
      var tail := before[INPUT_FRAME_BYTES..];
      CutAsYouGo(tail, packet);
      assert (before + packet)[INPUT_FRAME_BYTES..] == tail + packet;
      assert (before + packet)[..INPUT_FRAME_BYTES] == before[..INPUT_FRAME_BYTES];
    }
  }

  /** The provider's frames are 640 bytes each and hold the utterance, then fewer than 640 zeros. */
  lemma FramesHoldUtterance(bytes: seq<byte>)
    ensures var frames := FramesOf(bytes);
            && (forall i :: 0 <= i < |frames| ==> |frames[i]| == INPUT_FRAME_BYTES)
            && (frames != [] <==> bytes != [])
            && |Flatten(frames)| - |bytes| < INPUT_FRAME_BYTES
            && |bytes| <= |Flatten(frames)| && Flatten(frames) == bytes + Zeros(|Flatten(frames)| - |bytes|)
  {
    RestShort(bytes);
    var rest := Rest(bytes);
    if rest != [] {
      FlattenAppend(Whole(bytes), Padded(rest));
      assert Flatten(FramesOf(bytes)) == Flatten(Whole(bytes)) + (rest + Zeros(INPUT_FRAME_BYTES - |rest|));
      assert Flatten(FramesOf(bytes)) == bytes + Zeros(INPUT_FRAME_BYTES - |rest|);
    } else {
      assert FramesOf(bytes) == Whole(bytes);
      assert Flatten(FramesOf(bytes)) == bytes + Zeros(0);
    }
  }

  // ---------------------------------------------------------------------
  // Checks
  // ---------------------------------------------------------------------

  /** The header is valid and belongs to the active uplink stream, in sequence. */
  predicate InStream(t: Turn, h: Codec.Header) {
    && Codec.Valid(h)
    && t.uuid != Codec.NIL_UUID && t.epoch != 0 && t.session != 0 && t.turn != 0 && t.uplink != 0
    && h.kind == Codec.UPLINK && h.sampleRate == INPUT_RATE && h.uuid == t.uuid
    && h.epoch == t.epoch && h.session == t.session && h.turn == t.turn && h.stream == t.uplink
    && h.sequence == t.expected
  }

  /** START on the first frame only, nothing after END or commit, no discontinuity. */
  predicate Framed(t: Turn, flags: u16) {
    !t.committed && !t.ended && !DiscontinuityFlag(flags) && t.started == !StartFlag(flags)
  }

  predicate Committable(t: Turn) { !t.committed && t.started && t.ended }

  /** handlePCM; the provider session takes the first `taken` frames cut from this packet. */
  function HandlePcm(t: Turn, h: Codec.Header, pcm: seq<byte>, taken: nat): (r: (Turn, bool)) {
    if !t.active || !InStream(t, h) || !Framed(t, h.flags) then (t.(faults := t.faults + 1), false)
    else
      var frames := Whole(t.pending + pcm);
      var t1 := t.(started := true, ended := EndFlag(h.flags), expected := t.expected + 1,
                   received := t.received + pcm, pending := Rest(t.pending + pcm));
      if taken < |frames| then (t1.(appended := t.appended + frames[..taken]), false)
      else (t1.(appended := t.appended + frames), true)
  }

  /** The envelope names the active turn and its uplink stream. */
  predicate NamesTurn(t: Turn, ids: WireIds) {
    t.active && ids.turn == t.turn && ids.stream == t.uplink && ids.epoch == t.epoch
  }

  /** The commit branch of handleControl; the session may refuse the padded frame or the commit. */
  function HandleCommit(t: Turn, ids: WireIds, flushed: bool, accepted: bool): (r: (Turn, bool)) {
    if ids.session != t.session || !NamesTurn(t, ids) || !Committable(t) then (t.(faults := t.faults + 1), false)
    else if t.pending == [] then (t.(committed := true), accepted)
    else if !flushed then (t, false)
    else (t.(committed := true, pending := [], appended := t.appended + [Padded(t.pending)]), accepted)
  }

  function Retire(t: Turn): Turn { t.(active := false, pending := []) }

  // ---------------------------------------------------------------------
  // One client message through the handler's loop
  // ---------------------------------------------------------------------

  /**
   * What happens around one message: the event forwarder may retire the turn
   * first; the provider session takes so many frames, the flush, the commit.
   */
  datatype Answer = Answer(retired: bool, timestamp: u64, taken: nat, flushed: bool, accepted: bool)

  predicate OnWire(m: T.Uplink) {
    match m
    case Ctl(_, ids) => Fits32(ids)
    case Audio(ids, _, sequence, pcm) => Fits32(ids) && sequence < 0x1_0000_0000 && |pcm| <= INPUT_FRAME_BYTES
  }

  /** The frame after ParsePCMFrame; a frame that does not parse ends the connection instead. */
  function Header(m: T.Uplink, uuid: Codec.Uuid, timestamp: u64): Codec.Header
    requires m.Audio? && OnWire(m)
  {
    Codec.UplinkHeader(m.flags, |m.pcm|, m.sequence, timestamp, m.ids, uuid)
  }

  predicate OfRetired(t: Turn, ids: WireIds) {
    !t.active && ids == WireIds(t.session, t.turn, t.uplink, t.epoch)
  }

  function ServePcm(t: Turn, m: T.Uplink, uuid: Codec.Uuid, a: Answer): Turn
    requires m.Audio? && OnWire(m)
  {
    if OfRetired(t, m.ids) then t
    else
      var (t1, ok) := HandlePcm(t, Header(m, uuid, a.timestamp), m.pcm, a.taken);
      if ok then t1 else Retire(t1)
  }

  function ServeCommit(t: Turn, ids: WireIds, a: Answer): Turn {
    if OfRetired(t, ids) then t
    else
      var (t1, ok) := HandleCommit(t, ids, a.flushed, a.accepted);
      if ok then t1 else Retire(t1)
  }

  function Serve(t: Turn, m: T.Uplink, uuid: Codec.Uuid, a: Answer): Turn
    requires OnWire(m)
  {
    var u := if a.retired then Retire(t) else t;
    match m
    case Audio(_, _, _, _) => ServePcm(u, m, uuid, a)
    case Ctl(kind, ids) =>
      if kind == T.TurnCommit then ServeCommit(u, ids, a)
      else if T.IsCancel(kind) && ids.turn == u.turn && ids.epoch == u.epoch then Retire(u)
      else u
  }

  function ServeAll(t: Turn, ms: seq<T.Uplink>, uuid: Codec.Uuid, answers: seq<Answer>): Turn
    requires |answers| == |ms| && forall i :: 0 <= i < |ms| ==> OnWire(ms[i])
    decreases |ms|
  {
    if ms == [] then t else ServeAll(Serve(t, ms[0], uuid, answers[0]), ms[1..], uuid, answers[1..])
  }

  /** The handler accepted this turn.start. */
  function Started(uuid: Codec.Uuid, ids: WireIds, downlink: nat): Turn {
    Turn(uuid, ids.session, ids.turn, ids.stream, downlink, ids.epoch, 0, false, false, false, [], true, [], [], 0)
  }
}
