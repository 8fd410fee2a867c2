/**
 * The wire format of the Fortress "total wifi" panel protocol: the fixed frame
 * literals, command frames, and the decoding of inbound status frames.
 * Everything here is a pure computation on byte sequences.
 */
module FortressFrames {

  import opened Wrappers

  type byte = b: int | 0 <= b < 256

  const STATUS_LEN: nat := 182
  const HEARTBEAT_LEN: nat := 8
  const COMMAND_PADDING: nat := 78
  const COMMAND_LEN: nat := 92

  /** Offsets inside a 182-byte status frame. */
  const ARM_OFFSET: nat := 10
  const ZONE_OFFSET: nat := 89
  const ALARM_OFFSET: nat := 181

  const HANDSHAKE: seq<byte> :=
    [0x00, 0x00, 0x00, 0x03, 0x0f, 0x00, 0x00, 0x08, 0x00, 0x0a,
     0x4a, 0x51, 0x45, 0x42, 0x53, 0x53, 0x42, 0x4f, 0x4c, 0x41]
  const BIND_ME: seq<byte> := [0x00, 0x00, 0x00, 0x03, 0x04, 0x00, 0x00, 0x90, 0x02]
  const CONNECTION_IS_BOUND: seq<byte> := [0x00, 0x00, 0x00, 0x03, 0x04, 0x00, 0x00, 0x09, 0x00]
  const HEARTBEAT: seq<byte> := [0x00, 0x00, 0x00, 0x03, 0x03, 0x00, 0x00, 0x15]
  const HEARTBEAT_ACK: seq<byte> := [0x00, 0x00, 0x00, 0x03, 0x03, 0x00, 0x00, 0x16]
  const COMMAND: seq<byte> := [0x00, 0x00, 0x00, 0x03, 0x57, 0x00, 0x00, 0x90, 0x01, 0x00, 0x10, 0x00, 0x00]

  const ALARMING: seq<byte> := [0x01]

  /** Command codes, which are also the byte encodings of the decoded arm status. */
  const DISARM: seq<byte> := [0x10]
  const ARM: seq<byte> := [0x00]
  const STAY_ARM: seq<byte> := [0x20]

  function Zeros(n: nat): (r: seq<byte>)
    ensures |r| == n && forall i :: 0 <= i < n ==> r[i] == 0
  {
    seq(n, _ => 0)
  }

  // ---------------------------------------------------------------------------
  // Outbound command frames

  /** The frame `sendCommand` transmits: the COMMAND header, the code, 78 zero bytes. */
  function EncodeCommand(code: seq<byte>): (r: seq<byte>)
    ensures |r| == |COMMAND| + |code| + COMMAND_PADDING
    ensures |code| == 1 ==> |r| == COMMAND_LEN
    ensures r[..|COMMAND|] == COMMAND
    ensures r[|COMMAND|..|COMMAND| + |code|] == code
    ensures forall i :: |COMMAND| + |code| <= i < |r| ==> r[i] == 0
  {
    COMMAND + code + Zeros(COMMAND_PADDING)
  }

  /**
   * Reads back the one-byte code of a well-formed command frame: the inverse of
   * EncodeCommand on one-byte codes, used to state that encoding loses nothing.
   */
  function CommandCode(frame: seq<byte>): Option<byte>
  {
    if |frame| == COMMAND_LEN && frame[..|COMMAND|] == COMMAND
       && frame[|COMMAND| + 1..] == Zeros(COMMAND_PADDING)
    then Some(frame[|COMMAND|])
    else None
  }

  lemma CommandRoundTrip(code: byte)
    ensures CommandCode(EncodeCommand([code])) == Some(code)
  {
    var f := EncodeCommand([code]);
    assert f[|COMMAND| + 1..] == Zeros(COMMAND_PADDING);
  }

  /** A frame is accepted by CommandCode exactly when it is the encoding of that code. */
  lemma CommandCodeExact(frame: seq<byte>, code: byte)
    ensures CommandCode(frame) == Some(code) <==> frame == EncodeCommand([code])
  {
    if CommandCode(frame) == Some(code) {
      assert frame == frame[..|COMMAND|] + [code] + frame[|COMMAND| + 1..];
    } else if frame == EncodeCommand([code]) {
      CommandRoundTrip(code);
    }
  }

  // ---------------------------------------------------------------------------
  // Python's `bytes(chr(b), 'utf-8')` and `int.from_bytes(bs, 'big')`

  /** `_to_bin_char`: the UTF-8 encoding of the code point `b` (one or two bytes). */
  function ToBinChar(b: byte): (r: seq<byte>)
    ensures 1 <= |r| <= 2
    ensures |r| == 1 <==> b < 0x80
  {
    if b < 0x80 then [b] else [0xC0 + b / 64, 0x80 + b % 64]
  }

  /** Decodes a one- or two-byte UTF-8 sequence whose code point fits in a byte. */
  function FromBinChar(r: seq<byte>): Option<byte>
  {
    if |r| == 1 && r[0] < 0x80 then Some(r[0])
    else if |r| == 2 && 0xC2 <= r[0] <= 0xC3 && 0x80 <= r[1] < 0xC0
    then Some((r[0] - 0xC0) * 64 + (r[1] - 0x80))
    else None
  }

  lemma ToBinCharRoundTrip(b: byte)
    ensures FromBinChar(ToBinChar(b)) == Some(b)
  {
  }

  /** `_to_bin_char` is injective, so comparing its results compares the code points. */
  lemma ToBinCharInjective(a: byte, b: byte)
    ensures ToBinChar(a) == ToBinChar(b) <==> a == b
  {
    if ToBinChar(a) == ToBinChar(b) {
      ToBinCharRoundTrip(a);
      ToBinCharRoundTrip(b);
    }
  }

  function Pow256(n: nat): (p: nat)
    ensures p >= 1
  {
    if n == 0 then 1 else 256 * Pow256(n - 1)
  }

  /** `int.from_bytes(bs, byteorder='big')`. */
  function FromBytesBigEndian(bs: seq<byte>): (n: nat)
    ensures n < Pow256(|bs|)
    decreases |bs|
  {
    if bs == [] then 0
    else
      var hi := FromBytesBigEndian(bs[..|bs| - 1]);
      assert hi * 256 <= (Pow256(|bs| - 1) - 1) * 256;
      hi * 256 + bs[|bs| - 1]
  }

  // ---------------------------------------------------------------------------
  // Inbound frames

  /** `data` holds `pat` at offset `j`. */
  predicate OccursAt(data: seq<byte>, pat: seq<byte>, j: nat)
  {
    j + |pat| <= |data| && data[j..j + |pat|] == pat
  }

  /** `bytes.find`: the first offset at which `pat` occurs in `data`, or -1. */
  function Find(data: seq<byte>, pat: seq<byte>): (r: int)
    ensures -1 <= r <= |data|
    ensures r >= 0 ==> OccursAt(data, pat, r)
    ensures r >= 0 ==> forall j: nat :: j < r ==> !OccursAt(data, pat, j)
    ensures r == -1 ==> forall j: nat :: !OccursAt(data, pat, j)
    decreases |data|
  {
    if |data| < |pat| then -1
    else if data[..|pat|] == pat then 0
    else
      var k := Find(data[1..], pat);
      assert !OccursAt(data, pat, 0);
      assert forall j: nat :: 1 <= j ==> (OccursAt(data, pat, j) <==> OccursAt(data[1..], pat, j - 1)) by {
        forall j: nat | 1 <= j ensures OccursAt(data, pat, j) <==> OccursAt(data[1..], pat, j - 1) {
          if j + |pat| <= |data| {
            assert data[1..][j - 1..j - 1 + |pat|] == data[j..j + |pat|];
          }
        }
      }
      if k == -1 then -1 else k + 1
  }

  /** `data.find(pat) != -1`: `pat` is a contiguous run of bytes somewhere in `data`. */
  function ContainsSubseq(data: seq<byte>, pat: seq<byte>): (r: bool)
    ensures r <==> exists j: nat :: OccursAt(data, pat, j)
  {
    Find(data, pat) != -1
  }

  /**
   * The length and content test at the head of `_process_update`: data is
   * accepted when it is non-empty and is 182 bytes, 8 bytes, or exactly the
   * bind acknowledgement.
   */
  function IsValidInbound(data: seq<byte>): (r: bool)
    ensures data == [] ==> !r
    ensures r <==> |data| == STATUS_LEN || |data| == HEARTBEAT_LEN || data == CONNECTION_IS_BOUND
  {
    !(data == [] || (|data| != STATUS_LEN && |data| != HEARTBEAT_LEN && data != CONNECTION_IS_BOUND))
  }

  /** The 24-bit big-endian field at offsets 10..12 of a status frame. */
  function StatusAndOutlets(d: seq<byte>): (v: nat)
    requires |d| == STATUS_LEN
    ensures v == d[10] as int * 0x1_0000 + d[11] as int * 0x100 + d[12] as int
    ensures v < 0x100_0000
  {
    var f := d[ARM_OFFSET..ARM_OFFSET + 3];
    assert f == [d[10], d[11], d[12]];
    assert f[..2] == [d[10], d[11]] && f[..2][..1] == [d[10]] && f[..2][..1][..0] == [];
    assert FromBytesBigEndian(f[..2][..1]) == d[10];
    assert FromBytesBigEndian(f[..2]) == d[10] as int * 0x100 + d[11] as int;
    FromBytesBigEndian(f)
  }

  /**
   * `status_and_outlets >> 20 << 4`: the top nibble of the 24-bit field, moved
   * back into the high nibble of a byte. It is `d[10] & 0xF0`; bytes 11 and 12
   * (the outlet bits) play no part.
   */
  function ArmNibble(d: seq<byte>): (r: byte)
    requires |d| == STATUS_LEN
    ensures r == d[10] as int - d[10] as int % 16
    ensures r % 16 == 0
  {
    var v := StatusAndOutlets(d);
    var q: int := d[10] as int / 16;
    var rest: int := d[10] as int % 16 * 0x1_0000 + d[11] as int * 0x100 + d[12] as int;
    assert v == q * 0x10_0000 + rest && 0 <= rest < 0x10_0000;
    assert v / 0x10_0000 == q;
    v / 0x10_0000 * 0x10
  }

  /** `latest_arm_status`: the bytes the source compares with ARM, DISARM and STAY_ARM. */
  function DecodeArm(d: seq<byte>): (r: seq<byte>)
    requires |d| == STATUS_LEN
    ensures r == DISARM <==> d[10] / 16 == 1
    ensures r == ARM <==> d[10] / 16 == 0
    ensures r == STAY_ARM <==> d[10] / 16 == 2
  {
    ToBinChar(ArmNibble(d))
  }

  /** `now_alarming`: the byte at offset 181 encodes exactly the ALARMING literal. */
  function DecodeAlarming(d: seq<byte>): (r: bool)
    requires |d| == STATUS_LEN
    ensures r <==> d[ALARM_OFFSET] == 0x01
  {
    ToBinChar(d[ALARM_OFFSET]) == ALARMING
  }

  /**
   * The zone number the alarm callback receives for zone byte `b`:
   * `int.from_bytes(_to_bin_char(b), 'big')`, which is the byte itself only
   * below 0x80.
   */
  function DecodeZone(b: byte): (z: nat)
    ensures b < 0x80 ==> z == b
    ensures 0x80 <= b < 0xC0 ==> z == 0xC200 + b
    ensures 0xC0 <= b ==> z == 0xC300 + (b - 0x40)
  {
    var r := ToBinChar(b);
    if |r| == 2 then
      assert r[..1] == [r[0]] && [r[0]][..0] == [];
      assert FromBytesBigEndian(r[..1]) == r[0];
      assert r[0] == 0xC0 + b / 64 && r[1] == 0x80 + b % 64;
      FromBytesBigEndian(r)
    else
      assert r[..0] == [];
      FromBytesBigEndian(r)
  }

  /** Two status frames that agree on byte 10 decode to the same arm status, whatever their outlet bits. */
  lemma ArmIgnoresOutletBits(d: seq<byte>, e: seq<byte>)
    requires |d| == STATUS_LEN && |e| == STATUS_LEN && d[10] == e[10]
    ensures DecodeArm(d) == DecodeArm(e)
  {
  }
}
