/** Transfer descriptors: the bytes of a token packet, optionally followed by a data packet. */
module Transfer {
  import opened BitSeq
  import opened UsbCrc
  import opened CrcRoutines

  const PID_OUT: bv8 := 0xE1
  const PID_IN: bv8 := 0x69
  const PID_SOF: bv8 := 0xA5
  const PID_SETUP: bv8 := 0x2D
  const PID_DATA0: bv8 := 0xC3
  const PID_DATA1: bv8 := 0x4B
  const PID_ACK: bv8 := 0xD2
  const PID_NAK: bv8 := 0x5A
  const PID_STALL: bv8 := 0x1E

  const MAX_DATA: nat := 73
  const NO_DATA_STAGE: nat := 255

  const FRAME_INTERVAL: nat := 12000
  const MIN_TIME_LEFT: nat := 800

  const TWO16: nat := 0x1_0000
  const TWO32: nat := 0x1_0000_0000

  /** Unsigned 32-bit subtraction. */
  function Sub32(a: nat, b: nat): (r: nat)
    requires a < TWO32 && b < TWO32
    ensures r < TWO32 && r == if a >= b then a - b else a + TWO32 - b
  {
    (a - b) % TWO32
  }

  /** What a descriptor says: its first num_bytes bytes and the offset of the data PID. */
  datatype Desc = Desc(bytes: seq<bv8>, dataStart: nat)

  /** A descriptor the driver may be given: not empty, within the buffer, and a data stage, if
      there is one, holds at least its PID. */
  predicate Sendable(d: Desc) {
    1 <= |d.bytes| <= MAX_DATA && d.dataStart != |d.bytes|
  }

  predicate TwoPackets(d: Desc) {
    0 < d.dataStart < |d.bytes|
  }

  /** The upper nibble of a PID is the complement of the lower one. */
  predicate ValidPid(pid: bv8) {
    Bit(pid, 4) != Bit(pid, 0) && Bit(pid, 5) != Bit(pid, 1) && Bit(pid, 6) != Bit(pid, 2) && Bit(pid, 7) != Bit(pid, 3)
  }

  function ToggleAdvance(pid: bv8): bv8 {
    if pid == PID_DATA1 then PID_DATA0 else PID_DATA1
  }

  // ---- Token packets -----------------------------------------------------------------------

  /** The eleven bits of a token: seven of address, four of endpoint. */
  function TokenField(device: bv8, endpoint: bv8): (r: Bits)
    ensures |r| == 11
  {
    ByteBits(device)[..7] + ByteBits(endpoint)[..4]
  }

  /** The CRC5 of the field as the number that is shifted into the last byte. */
  function Crc5Byte(field: Bits): (r: bv8)
    ensures ByteBits(r)[..5] == Crc5Of(field) && forall i :: 5 <= i < 8 ==> !Bit(r, i)
  {
    var r := FromBits(Crc5Of(field) + [false, false, false]);
    assert forall i :: 0 <= i < 8 ==> ByteBits(r)[i] == Bit(r, i);
    r
  }

  function TokenBytes(pid: bv8, device: bv8, endpoint: bv8): (r: seq<bv8>)
    ensures |r| == 3
  {
    [pid, device | (endpoint << 7), (endpoint >> 1) | (Crc5Byte(TokenField(device, endpoint)) << 3)]
  }

  /** transfer_frame_start: the frame number stands where address and endpoint do. */
  function SofDesc(frame: nat): (x: Desc)
    ensures Sendable(x)
  {
    Desc(TokenBytes(PID_SOF, (frame % 128) as bv8, ((frame / 128) % 16) as bv8), NO_DATA_STAGE)
  }

  lemma FieldByte(device: bv8, endpoint: bv8)
    requires !Bit(device, 7)
    ensures ByteBits(device | (endpoint << 7)) == ByteBits(device)[..7] + [Bit(endpoint, 0)]
  {
    var want := ByteBits(device)[..7] + [Bit(endpoint, 0)];
    forall i | 0 <= i < 8
      ensures Bit(device | (endpoint << 7), i) == want[i]
    {
      OrBit(device, endpoint << 7, i);
      ShiftLeft7Bit(endpoint, i);
    }
  }

  lemma CrcByte(endpoint: bv8, crc: bv8)
    requires !Bit(endpoint, 4) && !Bit(endpoint, 5) && !Bit(endpoint, 6) && !Bit(endpoint, 7)
    ensures ByteBits((endpoint >> 1) | (crc << 3)) == ByteBits(endpoint)[1..4] + ByteBits(crc)[..5]
  {
    var want := ByteBits(endpoint)[1..4] + ByteBits(crc)[..5];
    forall i | 0 <= i < 8
      ensures Bit((endpoint >> 1) | (crc << 3), i) == want[i]
    {
      OrBit(endpoint >> 1, crc << 3, i);
      ShiftRightBit(endpoint, i);
      ShiftLeft3Bit(crc, i);
    }
  }

  lemma SmallBits(device: bv8, endpoint: bv8)
    requires device < 0x80 && endpoint < 0x10
    ensures !Bit(device, 7)
    ensures !Bit(endpoint, 4) && !Bit(endpoint, 5) && !Bit(endpoint, 6) && !Bit(endpoint, 7)
  {}

  /** A token on the wire: PID, address, endpoint, then the CRC5 low bit first. */
  lemma TokenBits(pid: bv8, device: bv8, endpoint: bv8)
    requires device < 0x80 && endpoint < 0x10
    ensures BytesBits(TokenBytes(pid, device, endpoint))
         == ByteBits(pid) + TokenField(device, endpoint) + Crc5Of(TokenField(device, endpoint))
  {
    var field := TokenField(device, endpoint);
    var crc := Crc5Byte(field);
    SmallBits(device, endpoint);
    FieldByte(device, endpoint);
    CrcByte(endpoint, crc);
    BytesBitsThree(pid, device | (endpoint << 7), (endpoint >> 1) | (crc << 3));
    JoinField(ByteBits(pid), ByteBits(device)[..7], ByteBits(endpoint), Crc5Of(field));
  }

  lemma JoinField(p: Bits, d: Bits, e: Bits, c: Bits)
    requires |e| == 8
    ensures p + ((d + [e[0]]) + (e[1..4] + c)) == p + (d + e[..4]) + c
  {}

  lemma BytesBitsThree(a: bv8, b: bv8, c: bv8)
    ensures BytesBits([a, b, c]) == ByteBits(a) + (ByteBits(b) + ByteBits(c))
  {
    assert [a, b, c] == [a] + ([b] + [c]);
    BytesBitsConcat([a], [b] + [c]);
    BytesBitsConcat([b], [c]);
    BytesBitsOne(a);
    BytesBitsOne(b);
    BytesBitsOne(c);
  }

  /** A data packet: PID, data field, CRC16 low byte first. */
  function DataBytes(pid: bv8, data: seq<bv8>): (r: seq<bv8>)
    ensures |r| == |data| + 3
  {
    [pid] + data + Crc16Bytes(data)
  }

  lemma DataBits(pid: bv8, data: seq<bv8>)
    ensures BytesBits(DataBytes(pid, data)) == ByteBits(pid) + BytesBits(data) + Crc16Of(data)
  {
    BytesBitsConcat([pid] + data, Crc16Bytes(data));
    BytesBitsConcat([pid], data);
    BytesBitsOne(pid);
  }
}
