/** Identities, integer widths and frame flags shared by the device and the server. */
module WireTypes {
  type byte = x: int | 0 <= x < 0x100
  type u16 = x: int | 0 <= x < 0x1_0000
  type u32 = x: int | 0 <= x < 0x1_0000_0000
  type u64 = x: int | 0 <= x < 0x1_0000_0000_0000_0000

  const U32_MAX: u32 := 0xFFFF_FFFF

  const BYTES_PER_SAMPLE: nat := 2
  const OUTPUT_RATE: nat := 24000
  const INPUT_RATE: nat := 16000
  /** Bytes of one 20 ms frame, uplink (16 kHz) and downlink (24 kHz). */
  const INPUT_FRAME_BYTES: nat := 640
  const OUTPUT_FRAME_BYTES: nat := 960

  datatype Option<+T> = None | Some(value: T)

  datatype Result<+T> = Success(value: T) | Failure

  /** The four numbers that say which turn and stream a message belongs to. */
  datatype WireIds = WireIds(session: nat, turn: nat, stream: nat, epoch: nat)

  const ZERO_IDS := WireIds(0, 0, 0, 0)

  predicate ValidIds(i: WireIds) {
    i.session != 0 && i.turn != 0 && i.stream != 0 && i.epoch != 0
  }

  predicate SameTurn(a: WireIds, b: WireIds) {
    a.session == b.session && a.turn == b.turn && a.epoch == b.epoch
  }

  /** The numbers fit the header's 32-bit fields. */
  predicate Fits32(i: WireIds) {
    i.session < 0x1_0000_0000 && i.turn < 0x1_0000_0000 && i.stream < 0x1_0000_0000 && i.epoch < 0x1_0000_0000
  }

  /** Bits of the PCM flags word. */
  predicate StartFlag(flags: nat) { flags % 2 == 1 }

  predicate EndFlag(flags: nat) { flags / 2 % 2 == 1 }

  predicate DiscontinuityFlag(flags: nat) { flags / 4 % 2 == 1 }

  /** The word has a bit outside START, END and DISCONTINUITY. */
  predicate ReservedFlags(flags: nat) { flags / 8 != 0 }

  function Flags(start: bool, end: bool): (f: u16)
    ensures StartFlag(f) == start && EndFlag(f) == end
    ensures !DiscontinuityFlag(f) && !ReservedFlags(f)
  {
    (if start then 1 else 0) + (if end then 2 else 0)
  }

  function Flatten<T>(parts: seq<seq<T>>): seq<T> {
    if parts == [] then [] else parts[0] + Flatten(parts[1..])
  }

  lemma {:induction false} FlattenAppend<T>(parts: seq<seq<T>>, last: seq<T>)
    ensures Flatten(parts + [last]) == Flatten(parts) + last
  {
    if parts == [] {
      assert parts + [last] == [last];
      assert Flatten([last]) == last + Flatten([]) == last;
    } else {
      assert (parts + [last])[1..] == parts[1..] + [last];
      FlattenAppend(parts[1..], last);
    }
  }
}
