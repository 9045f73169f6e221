/** Machine words as their bits, low bit first, so that width and shifts are explicit. */
module Words {
  import opened BitSeq
  import opened UsbCrc

  type Uint32 = w: Bits | |w| == 32 witness Fill(false, 32)

  function ShrBy(w: Uint32, k: nat): (r: Uint32)
    ensures forall i :: 0 <= i < 32 ==> r[i] == (i + k < 32 && w[i + k])
  {
    seq(32, i requires 0 <= i < 32 => i + k < 32 && w[i + k])
  }

  function ShlBy(w: Uint32, k: nat): (r: Uint32)
    ensures forall i :: 0 <= i < 32 ==> r[i] == (i >= k && w[i - k])
  {
    seq(32, i requires 0 <= i < 32 => i >= k && w[i - k])
  }

  function Extend(c: Bits): (r: Uint32)
    requires |c| <= 32
    ensures forall i :: 0 <= i < 32 ==> r[i] == (i < |c| && c[i])
  {
    seq(32, i requires 0 <= i < 32 => i < |c| && c[i])
  }

  /** A register held in the top bits of a word. */
  function TopAligned(c: Bits): (r: Uint32)
    requires |c| <= 32
    ensures forall i :: 0 <= i < 32 ==> r[i] == (i + |c| >= 32 && c[i + |c| - 32])
  {
    seq(32, i requires 0 <= i < 32 => i + |c| >= 32 && c[i + |c| - 32])
  }

  /** A 16-bit constant from its two bytes. */
  function Word16(hi: bv8, lo: bv8): (r: Bits)
    ensures |r| == 16
  {
    ByteBits(lo) + ByteBits(hi)
  }

  // ---- A word as a history of bits, newest bit lowest ---------------------------------------

  function Push(w: Uint32, b: bool): Uint32 {
    [b] + w[..31]
  }

  /** Exactly `ones` ones were pushed last (six stands for six or more). */
  predicate Trailing(w: Uint32, ones: nat) {
    ones <= 6 && (forall i :: 0 <= i < ones ==> w[i]) && (ones < 6 ==> !w[ones])
  }

  lemma TrailingPush(w: Uint32, ones: nat, b: bool)
    requires Trailing(w, ones) && (ones < 6 || !b)
    ensures Trailing(Push(w, b), if b then ones + 1 else 0)
  {}
}
