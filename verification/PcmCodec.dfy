/**
 * The 64-byte BPV1 header.  The server writes and reads it in Go; the device
 * writes the uplink form and reads the downlink form with its own byte loops.
 */
module PcmCodec {
  import opened WireTypes

  const HEADER_BYTES: nat := 64
  const MAX_PAYLOAD: nat := 64 * 1024
  const UPLINK: byte := 1
  const DOWNLINK: byte := 2
  const MAGIC: seq<byte> := [66, 80, 86, 49]

  type Uuid = s: seq<byte> | |s| == 16 witness [0, 0, 0, 0, 0, 0, 0, 0, 0, 0, 0, 0, 0, 0, 0, 0]

  const NIL_UUID: Uuid := [0, 0, 0, 0, 0, 0, 0, 0, 0, 0, 0, 0, 0, 0, 0, 0]

  datatype Header = Header(
    version: byte, kind: byte, flags: u16, audioFormat: byte, channels: byte,
    sampleRate: u32, payloadLen: u32, sequence: u32, timestamp: u64,
    epoch: u32, uuid: Uuid, session: u32, turn: u32, stream: u32)

  // ---------------------------------------------------------------------
  // Big-endian integers
  // ---------------------------------------------------------------------

  function Pow256(n: nat): (p: nat)
    ensures p >= 1
  {
    if n == 0 then 1 else 256 * Pow256(n - 1)
  }

  function BigEndian(v: nat, n: nat): (s: seq<byte>)
    ensures |s| == n
  {
    if n == 0 then [] else BigEndian(v / 256, n - 1) + [v % 256]
  }

  function FromBigEndian(s: seq<byte>): nat {
    if s == [] then 0 else FromBigEndian(s[..|s| - 1]) * 256 + s[|s| - 1]
  }

  lemma {:induction false} ReadWritten(v: nat, n: nat)
    requires v < Pow256(n)
    ensures FromBigEndian(BigEndian(v, n)) == v
  {
    if n > 0 {
      ReadWritten(v / 256, n - 1);
      assert BigEndian(v, n)[..n - 1] == BigEndian(v / 256, n - 1);
    }
  }

  lemma {:induction false} WriteRead(s: seq<byte>)
    ensures FromBigEndian(s) < Pow256(|s|)
    ensures BigEndian(FromBigEndian(s), |s|) == s
  {
    if s != [] {
      var front := s[..|s| - 1];
      WriteRead(front);
      assert s == front + [s[|s| - 1]];
    }
  }

  lemma Widths()
    ensures Pow256(2) == 0x1_0000
    ensures Pow256(4) == 0x1_0000_0000
    ensures Pow256(8) == 0x1_0000_0000_0000_0000
  {
    assert Pow256(1) == 256 && Pow256(3) == 0x100_0000 && Pow256(5) == 0x100_0000_0000;
    assert Pow256(6) == 0x1_0000_0000_0000 && Pow256(7) == 0x100_0000_0000_0000;
  }

  /** The device's Put16/Put32/Put64: low byte last, shifting the value right. */
  method Put(v: nat, p: array<byte>, at: nat, n: nat)
    requires at + n <= p.Length
    modifies p
    ensures p[at..at + n] == BigEndian(v, n)
    ensures forall i :: 0 <= i < p.Length && !(at <= i < at + n) ==> p[i] == old(p[i])
  {
    var rest, i := v, n;
    while i > 0
      invariant 0 <= i <= n
      invariant BigEndian(v, n) == BigEndian(rest, i) + p[at + i..at + n]
      invariant forall k :: 0 <= k < p.Length && !(at <= k < at + n) ==> p[k] == old(p[k])
    {
      ghost var tail := p[at + i..at + n];
      p[at + i - 1] := rest % 256;
      assert p[at + i - 1..at + n] == [rest % 256] + tail;
      rest, i := rest / 256, i - 1;
    }
  }

  /** The device's Get16/Get32/Get64. */
  method Get(p: seq<byte>) returns (v: nat)
    ensures v == FromBigEndian(p)
  {
    v := 0;
    for i := 0 to |p|
      invariant v == FromBigEndian(p[..i])
    {
      assert p[..i + 1][..i] == p[..i];
      v := v * 256 + p[i];
    }
    assert p[..|p|] == p;
  }

  // ---------------------------------------------------------------------
  // The layout
  // ---------------------------------------------------------------------

  /** `data` holds `h` at the byte positions of the v1 layout. */
  predicate LaidOut(h: Header, data: seq<byte>)
    requires |data| == HEADER_BYTES
  {
    && data[0..4] == MAGIC
    && data[4] == h.version && data[5] == h.kind
    && data[6..8] == BigEndian(h.flags, 2)
    && data[8..10] == BigEndian(HEADER_BYTES, 2)
    && data[10] == h.audioFormat && data[11] == h.channels
    && data[12..16] == BigEndian(h.sampleRate, 4)
    && data[16..20] == BigEndian(h.payloadLen, 4)
    && data[20..24] == BigEndian(h.sequence, 4)
    && data[24..32] == BigEndian(h.timestamp, 8)
    && data[32..36] == BigEndian(h.epoch, 4)
    && data[36..52] == h.uuid
    && data[52..56] == BigEndian(h.session, 4)
    && data[56..60] == BigEndian(h.turn, 4)
    && data[60..64] == BigEndian(h.stream, 4)
  }

  predicate Valid(h: Header) {
    && h.version == 1
    && (h.kind == UPLINK || h.kind == DOWNLINK)
    && h.audioFormat == 1
    && !ReservedFlags(h.flags)
    && h.channels == 1
    && 8000 <= h.sampleRate <= 96000
    && 0 < h.payloadLen <= MAX_PAYLOAD
    && h.payloadLen % (h.channels * 2) == 0
    && h.epoch != 0 && h.session != 0 && h.turn != 0 && h.stream != 0
    && h.uuid != NIL_UUID
  }

  /** The server's encoder. */
  method MarshalBinary(h: Header) returns (r: Result<seq<byte>>)
    ensures r.Success? <==> Valid(h)
    ensures r.Success? ==> |r.value| == HEADER_BYTES && LaidOut(h, r.value)
  {
    if !Valid(h) {
      return Failure;
    }
    var buffer := new byte[64](_ => 0);
    WriteHeader(h, buffer);
    r := Success(buffer[..64]);
  }

  lemma HeadSlice(s: seq<byte>, i: nat, j: nat)
    requires i <= j <= HEADER_BYTES <= |s|
    ensures s[..HEADER_BYTES][i..j] == s[i..j]
  {
  }

  /** Writes every field in place, front to back. */
  method WriteHeader(h: Header, p: array<byte>)
    requires p.Length >= HEADER_BYTES
    modifies p
    ensures LaidOut(h, p[..64])
    ensures p[64..] == old(p[64..])
  {
    WriteFront(h, p);
    label front:
    WriteBack(h, p);
    forall i, j | 0 <= i <= j <= 64
      ensures p[..64][i..j] == p[i..j]
    {
      HeadSlice(p[..], i, j);
      assert p[..][..64] == p[..64] && p[..][i..j] == p[i..j];
    }
    assert p[0..4] == old@front(p[0..4]) && p[6..8] == old@front(p[6..8]);
    assert p[8..10] == old@front(p[8..10]) && p[12..16] == old@front(p[12..16]);
    assert p[16..20] == old@front(p[16..20]) && p[20..24] == old@front(p[20..24]);
    assert p[64..] == old@front(p[64..]);
  }

  method WriteFront(h: Header, p: array<byte>)
    requires p.Length >= HEADER_BYTES
    modifies p
    ensures p[0..4] == MAGIC && p[4] == h.version && p[5] == h.kind
    ensures p[6..8] == BigEndian(h.flags, 2) && p[8..10] == BigEndian(HEADER_BYTES, 2)
    ensures p[10] == h.audioFormat && p[11] == h.channels
    ensures p[12..16] == BigEndian(h.sampleRate, 4)
    ensures p[16..20] == BigEndian(h.payloadLen, 4)
    ensures p[20..24] == BigEndian(h.sequence, 4)
    ensures forall i :: 24 <= i < p.Length ==> p[i] == old(p[i])
  {
    WriteTags(h, p);
    label tags:
    Put(h.sampleRate, p, 12, 4);
    label rate:
    Put(h.payloadLen, p, 16, 4);
    label length:
    Put(h.sequence, p, 20, 4);
    assert p[12..16] == old@rate(p[12..16]) && p[16..20] == old@length(p[16..20]);
    assert p[0..4] == old@tags(p[0..4]);
    assert p[6..8] == old@tags(p[6..8]) && p[8..10] == old@tags(p[8..10]);
  }

  method WriteTags(h: Header, p: array<byte>)
    requires p.Length >= HEADER_BYTES
    modifies p
    ensures p[0..4] == MAGIC && p[4] == h.version && p[5] == h.kind
    ensures p[6..8] == BigEndian(h.flags, 2) && p[8..10] == BigEndian(HEADER_BYTES, 2)
    ensures p[10] == h.audioFormat && p[11] == h.channels
    ensures forall i :: 12 <= i < p.Length ==> p[i] == old(p[i])
  {
    p[0], p[1], p[2], p[3] := MAGIC[0], MAGIC[1], MAGIC[2], MAGIC[3];
    p[4], p[5] := h.version, h.kind;
    p[10], p[11] := h.audioFormat, h.channels;
    Put(h.flags, p, 6, 2);
    label flags:
    Put(HEADER_BYTES, p, 8, 2);
    assert p[6..8] == old@flags(p[6..8]);
  }

  method WriteBack(h: Header, p: array<byte>)
    requires p.Length >= HEADER_BYTES
    modifies p
    ensures p[24..32] == BigEndian(h.timestamp, 8) && p[32..36] == BigEndian(h.epoch, 4)
    ensures p[36..52] == h.uuid
    ensures p[52..56] == BigEndian(h.session, 4)
    ensures p[56..60] == BigEndian(h.turn, 4)
    ensures p[60..64] == BigEndian(h.stream, 4)
    ensures forall i :: 0 <= i < p.Length && !(24 <= i < 64) ==> p[i] == old(p[i])
  {
    Put(h.timestamp, p, 24, 8);
    label l1:
    Put(h.epoch, p, 32, 4);
    assert p[24..32] == old@l1(p[24..32]);
    label l2:
    forall i | 0 <= i < 16 {
      p[36 + i] := h.uuid[i];
    }
    Put(h.session, p, 52, 4);
    label l3:
    Put(h.turn, p, 56, 4);
    assert p[52..56] == old@l3(p[52..56]);
    label l4:
    Put(h.stream, p, 60, 4);
    assert p[52..56] == old@l4(p[52..56]) && p[56..60] == old@l4(p[56..60]);
    assert p[24..32] == old@l2(p[24..32]) && p[32..36] == old@l2(p[32..36]);
    assert p[36..52] == h.uuid;
  }

  // ---------------------------------------------------------------------
  // Reading
  // ---------------------------------------------------------------------

  function U16(s: seq<byte>): (v: u16)
    requires |s| == 2
  {
    Widths();
    WriteRead(s);
    FromBigEndian(s)
  }

  function U32(s: seq<byte>): (v: u32)
    requires |s| == 4
  {
    Widths();
    WriteRead(s);
    FromBigEndian(s)
  }

  function U64(s: seq<byte>): (v: u64)
    requires |s| == 8
  {
    Widths();
    WriteRead(s);
    FromBigEndian(s)
  }

  /** The fields found at the layout's positions, whatever they are. */
  function FieldsOf(data: seq<byte>): Header
    requires |data| >= HEADER_BYTES
  {
    Header(data[4], data[5], U16(data[6..8]), data[10], data[11],
           U32(data[12..16]), U32(data[16..20]), U32(data[20..24]), U64(data[24..32]),
           U32(data[32..36]), data[36..52],
           U32(data[52..56]), U32(data[56..60]), U32(data[60..64]))
  }

  function ParsePCMHeader(data: seq<byte>): Result<Header> {
    if |data| < HEADER_BYTES then Failure
    else if data[0..4] != MAGIC then Failure
    else if U16(data[8..10]) != HEADER_BYTES then Failure
    else
      var h := FieldsOf(data);
      if Valid(h) then Success(h) else Failure
  }

  function ParsePCMFrame(frame: seq<byte>): Result<(Header, seq<byte>)> {
    match ParsePCMHeader(frame)
    case Failure => Failure
    case Success(h) =>
      if |frame| != HEADER_BYTES + h.payloadLen then Failure
      else Success((h, frame[HEADER_BYTES..]))
  }

  /** Laying the fields out and picking them up again are inverse. */
  lemma FieldsLaidOut(h: Header, data: seq<byte>)
    requires |data| >= HEADER_BYTES
    ensures LaidOut(h, data[..64]) <==>
            data[0..4] == MAGIC && U16(data[8..10]) == HEADER_BYTES && FieldsOf(data) == h
  {
    Widths();
    var d := data[..64];
    assert d[0..4] == data[0..4] && d[6..8] == data[6..8] && d[8..10] == data[8..10];
    assert d[12..16] == data[12..16] && d[16..20] == data[16..20] && d[20..24] == data[20..24];
    assert d[24..32] == data[24..32] && d[32..36] == data[32..36] && d[36..52] == data[36..52];
    assert d[52..56] == data[52..56] && d[56..60] == data[56..60] && d[60..64] == data[60..64];
    Matches(h.flags, data[6..8], 2);
    Matches(HEADER_BYTES, data[8..10], 2);
    Matches(h.sampleRate, data[12..16], 4);
    Matches(h.payloadLen, data[16..20], 4);
    Matches(h.sequence, data[20..24], 4);
    Matches(h.timestamp, data[24..32], 8);
    Matches(h.epoch, data[32..36], 4);
    Matches(h.session, data[52..56], 4);
    Matches(h.turn, data[56..60], 4);
    Matches(h.stream, data[60..64], 4);
  }

  lemma Matches(v: nat, s: seq<byte>, n: nat)
    requires |s| == n && v < Pow256(n)
    ensures s == BigEndian(v, n) <==> FromBigEndian(s) == v
  {
    ReadWritten(v, n);
    WriteRead(s);
  }

  /**
   * Valid headers and accepted 64-byte prefixes are in bijection: parsing gives
   * `h` exactly on the bytes that lay `h` out, for every valid `h` and no other.
   */
  lemma ParseIffLaidOut(h: Header, data: seq<byte>)
    ensures ParsePCMHeader(data) == Success(h) <==>
            Valid(h) && |data| >= HEADER_BYTES && LaidOut(h, data[..64])
  {
    if |data| >= HEADER_BYTES {
      FieldsLaidOut(h, data);
    }
  }

  /** Two layouts of one header are the same 64 bytes. */
  lemma LayoutUnique(h: Header, a: seq<byte>, b: seq<byte>)
    requires |a| == |b| == HEADER_BYTES
    requires LaidOut(h, a) && LaidOut(h, b)
    ensures a == b
  {
    forall i | 0 <= i < 64
      ensures a[i] == b[i]
    {
      if i < 4 { assert a[0..4][i] == b[0..4][i]; }
      else if 6 <= i < 8 { assert a[6..8][i - 6] == b[6..8][i - 6]; }
      else if 8 <= i < 10 { assert a[8..10][i - 8] == b[8..10][i - 8]; }
      else if 12 <= i < 16 { assert a[12..16][i - 12] == b[12..16][i - 12]; }
      else if 16 <= i < 20 { assert a[16..20][i - 16] == b[16..20][i - 16]; }
      else if 20 <= i < 24 { assert a[20..24][i - 20] == b[20..24][i - 20]; }
      else if 24 <= i < 32 { assert a[24..32][i - 24] == b[24..32][i - 24]; }
      else if 32 <= i < 36 { assert a[32..36][i - 32] == b[32..36][i - 32]; }
      else if 36 <= i < 52 { assert a[36..52][i - 36] == b[36..52][i - 36]; }
      else if 52 <= i < 56 { assert a[52..56][i - 52] == b[52..56][i - 52]; }
      else if 56 <= i < 60 { assert a[56..60][i - 56] == b[56..60][i - 56]; }
      else if 60 <= i { assert a[60..64][i - 60] == b[60..64][i - 60]; }
    }
  }

  /** Encoding what was parsed gives back the same 64 bytes, and never fails. */
  method Reencode(data: seq<byte>) returns (r: Result<seq<byte>>)
    ensures r.Success? <==> ParsePCMHeader(data).Success?
    ensures r.Success? ==> r.value == data[..64]
  {
    var parsed := ParsePCMHeader(data);
    if parsed.Failure? {
      return Failure;
    }
    ParseIffLaidOut(parsed.value, data);
    r := MarshalBinary(parsed.value);
    LayoutUnique(parsed.value, r.value, data[..64]);
  }

  // ---------------------------------------------------------------------
  // The device's side of the layout
  // ---------------------------------------------------------------------

  function UplinkHeader(flags: u16, bytes: u32, sequence: u32, timestamp: u64,
                        ids: WireIds, uuid: Uuid): Header
    requires Fits32(ids)
  {
    Header(1, UPLINK, flags, 1, 1, INPUT_RATE, bytes, sequence, timestamp,
           ids.epoch, uuid, ids.session, ids.turn, ids.stream)
  }

  /** The device's uplink frame: its own literals and offsets, then the samples. */
  method WriteUplinkFrame(flags: u16, sequence: u32, timestamp: u64, ids: WireIds,
                          uuid: Uuid, pcm: seq<byte>)
    returns (frame: seq<byte>)
    requires |pcm| <= INPUT_FRAME_BYTES
    requires Fits32(ids)
    ensures |frame| == HEADER_BYTES + |pcm|
    ensures LaidOut(UplinkHeader(flags, |pcm|, sequence, timestamp, ids, uuid), frame[..64])
    ensures frame[64..] == pcm
  {
    var p := new byte[64 + |pcm|](_ => 0);
    ghost var h := UplinkHeader(flags, |pcm|, sequence, timestamp, ids, uuid);
    PutFront(flags, |pcm|, sequence, p);
    label front:
    PutBack(timestamp, ids, uuid, p);
    label header:
    assert p[0..4] == old@front(p[0..4]) && p[6..8] == old@front(p[6..8]) && p[8..10] == old@front(p[8..10]);
    assert p[12..16] == old@front(p[12..16]) && p[16..20] == old@front(p[16..20]);
    assert p[20..24] == old@front(p[20..24]);
    Assembled(h, p[..]);
    forall i | 0 <= i < |pcm| {
      p[64 + i] := pcm[i];
    }
    assert p[..64] == old@header(p[..64]);
    frame := p[..];
    assert frame[..64] == p[..64];
  }

  /** The device's bytes 0 to 23: its literals, the flags, the length and the sequence. */
  method PutFront(flags: u16, bytes: u32, sequence: u32, p: array<byte>)
    requires p.Length >= HEADER_BYTES
    modifies p
    ensures p[0..4] == [66, 80, 86, 49] && p[4] == 1 && p[5] == 1
    ensures p[6..8] == BigEndian(flags, 2) && p[8..10] == BigEndian(64, 2)
    ensures p[10] == 1 && p[11] == 1
    ensures p[12..16] == BigEndian(16000, 4) && p[16..20] == BigEndian(bytes, 4)
    ensures p[20..24] == BigEndian(sequence, 4)
  {
    p[0], p[1], p[2], p[3] := 66, 80, 86, 49;
    p[4] := 1;
    p[5] := 1;
    Put(flags, p, 6, 2);
    label flags:
    Put(64, p, 8, 2);
    p[10] := 1;
    p[11] := 1;
    label tags:
    Put(16000, p, 12, 4);
    label rate:
    Put(bytes, p, 16, 4);
    label length:
    Put(sequence, p, 20, 4);
    assert p[6..8] == old@flags(p[6..8]) && p[8..10] == old@tags(p[8..10]);
    assert p[12..16] == old@rate(p[12..16]) && p[16..20] == old@length(p[16..20]);
  }

  /** The device's bytes 24 to 63: timestamp, epoch, its uuid and the other identities. */
  method PutBack(timestamp: u64, ids: WireIds, uuid: Uuid, p: array<byte>)
    requires p.Length >= HEADER_BYTES
    modifies p
    ensures p[24..32] == BigEndian(timestamp, 8) && p[32..36] == BigEndian(ids.epoch, 4)
    ensures p[36..52] == uuid
    ensures p[52..56] == BigEndian(ids.session, 4)
    ensures p[56..60] == BigEndian(ids.turn, 4)
    ensures p[60..64] == BigEndian(ids.stream, 4)
    ensures forall i :: 0 <= i < p.Length && !(24 <= i < 64) ==> p[i] == old(p[i])
  {
    Put(timestamp, p, 24, 8);
    label time:
    Put(ids.epoch, p, 32, 4);
    label epoch:
    forall i | 0 <= i < 16 {
      p[36 + i] := uuid[i];
    }
    label uuid:
    Put(ids.session, p, 52, 4);
    label session:
    Put(ids.turn, p, 56, 4);
    label turn:
    Put(ids.stream, p, 60, 4);
    assert p[24..32] == old@time(p[24..32]) && p[32..36] == old@epoch(p[32..36]);
    assert p[36..52] == old@uuid(p[36..52]);
    assert p[52..56] == old@session(p[52..56]) && p[56..60] == old@turn(p[56..60]);
  }

  /** Fields found in place one by one are the layout. */
  lemma Assembled(h: Header, p: seq<byte>)
    requires |p| >= HEADER_BYTES
    requires p[0..4] == MAGIC && p[4] == h.version && p[5] == h.kind
    requires p[6..8] == BigEndian(h.flags, 2) && p[8..10] == BigEndian(HEADER_BYTES, 2)
    requires p[10] == h.audioFormat && p[11] == h.channels
    requires p[12..16] == BigEndian(h.sampleRate, 4) && p[16..20] == BigEndian(h.payloadLen, 4)
    requires p[20..24] == BigEndian(h.sequence, 4) && p[24..32] == BigEndian(h.timestamp, 8)
    requires p[32..36] == BigEndian(h.epoch, 4) && p[36..52] == h.uuid
    requires p[52..56] == BigEndian(h.session, 4) && p[56..60] == BigEndian(h.turn, 4)
    requires p[60..64] == BigEndian(h.stream, 4)
    ensures LaidOut(h, p[..64])
  {
    forall i, j | 0 <= i <= j <= 64 ensures p[..64][i..j] == p[i..j] {
    }
  }

  /** What the server makes of an uplink frame the device wrote. */
  lemma ServerReadsUplink(flags: u16, sequence: u32, timestamp: u64, ids: WireIds,
                          uuid: Uuid, pcm: seq<byte>, frame: seq<byte>)
    requires |pcm| <= INPUT_FRAME_BYTES
    requires Fits32(ids)
    requires |frame| == HEADER_BYTES + |pcm| && frame[64..] == pcm
    requires LaidOut(UplinkHeader(flags, |pcm|, sequence, timestamp, ids, uuid), frame[..64])
    ensures ParsePCMFrame(frame) ==
            if pcm != [] && |pcm| % 2 == 0 && !ReservedFlags(flags) && ValidIds(ids) && uuid != NIL_UUID
            then Success((UplinkHeader(flags, |pcm|, sequence, timestamp, ids, uuid), pcm))
            else Failure
  {
    var h := UplinkHeader(flags, |pcm|, sequence, timestamp, ids, uuid);
    ParseIffLaidOut(h, frame);
    FieldsLaidOut(h, frame);
  }

  /** The device's downlink checks, in the order of the code. */
  predicate DeviceReads(bytes: seq<byte>, uuid: Uuid) {
    && |bytes| >= HEADER_BYTES
    && bytes[0..4] == MAGIC && bytes[4] == 1 && bytes[5] == DOWNLINK
    && U16(bytes[8..10]) == HEADER_BYTES && bytes[10] == 1 && bytes[11] == 1
    && var payload, flags := U32(bytes[16..20]), U16(bytes[6..8]);
    && !(payload == 0 || payload > OUTPUT_FRAME_BYTES || payload % 2 != 0)
    && |bytes| == HEADER_BYTES + payload
    && !ReservedFlags(flags)
    && U32(bytes[12..16]) == OUTPUT_RATE
    && bytes[36..52] == uuid
  }

  /** Where the device's reader finds the four identities: session, turn, stream, epoch. */
  function DeviceIds(bytes: seq<byte>): WireIds
    requires |bytes| >= HEADER_BYTES
  {
    WireIds(U32(bytes[52..56]), U32(bytes[56..60]), U32(bytes[60..64]), U32(bytes[32..36]))
  }

  /**
   * The device and the server read the same downlink frames: the device takes
   * exactly the frames the server's parser takes that carry 24 kHz downlink
   * audio of at most 20 ms for this device.  The server also wants nonzero
   * identities, which the device leaves to its turn checks.
   */
  lemma DeviceAgreesWithServer(bytes: seq<byte>, uuid: Uuid)
    requires uuid != NIL_UUID
    ensures DeviceReads(bytes, uuid) && ValidIds(DeviceIds(bytes)) <==>
            (match ParsePCMFrame(bytes)
             case Failure => false
             case Success((h, payload)) =>
               && h.kind == DOWNLINK && h.sampleRate == OUTPUT_RATE
               && h.payloadLen <= OUTPUT_FRAME_BYTES && h.uuid == uuid)
  {
    if |bytes| >= HEADER_BYTES {
      var h := FieldsOf(bytes);
      if DeviceReads(bytes, uuid) && ValidIds(DeviceIds(bytes)) {
        assert Valid(h);
      }
    }
  }

  /** A server frame put on the wire is read by the device with every field intact. */
  lemma DeviceReadsServerFrame(h: Header, bytes: seq<byte>)
    requires Valid(h) && h.kind == DOWNLINK && h.sampleRate == OUTPUT_RATE
    requires h.payloadLen <= OUTPUT_FRAME_BYTES
    requires |bytes| == HEADER_BYTES + h.payloadLen && LaidOut(h, bytes[..64])
    ensures DeviceReads(bytes, h.uuid)
    ensures DeviceIds(bytes) == WireIds(h.session, h.turn, h.stream, h.epoch)
    ensures U16(bytes[6..8]) == h.flags && U32(bytes[20..24]) == h.sequence
    ensures U64(bytes[24..32]) == h.timestamp && U32(bytes[16..20]) == h.payloadLen
  {
    FieldsLaidOut(h, bytes);
  }
}
