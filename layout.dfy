/** The packed 12-bit grayscale layout of a chain of TLC5940 chips.

    A chain of `n` chips carries 16 channels of 12 bits each per chip, packed
    into 24 bytes per chip. The buffer is laid out in the order the bytes are
    shifted out: the chip farthest down the chain comes first, and inside a
    chip channel 15 comes first. A channel is therefore addressed through its
    reversed index `Index8`, and two reversed indices `2k` and `2k + 1` share
    the three bytes `3k`, `3k + 1`, `3k + 2`, the middle byte holding one
    nibble of each. */
module GrayscaleLayout {

  type byte = bv8
  /** The source's `uint16_t`, used for grayscale values. */
  type word = bv16

  const ChannelsPerChip: nat := 16
  const BytesPerChip: nat := 24
  /** The largest grayscale value the chip accepts (12 bits). */
  const MaxValue: word := 4095

  /** The reversed channel index: the channel's position in shift-out order. */
  function Index8(n: nat, channel: nat): (i: nat)
    requires channel < n * ChannelsPerChip
    ensures i < n * ChannelsPerChip
    ensures channel + i == n * ChannelsPerChip - 1
  {
    (n * ChannelsPerChip - 1) - channel
  }

  /** True when the channel's 12 bits start in the middle of a byte. */
  predicate StartsInMiddle(n: nat, channel: nat)
    requires channel < n * ChannelsPerChip
  {
    Index8(n, channel) % 2 == 1
  }

  /** Byte offset of the first of the two bytes holding a channel:
      `(index8 * 3) >> 1`. Both bytes lie inside the buffer, and the offset
      is the middle byte of the index's triple when the index is odd and the
      first byte of that triple when it is even. */
  function Offset(n: nat, channel: nat): (off: nat)
    requires channel < n * ChannelsPerChip
    ensures off + 1 < n * BytesPerChip
    ensures off == 3 * (Index8(n, channel) / 2) + Index8(n, channel) % 2
  {
    (Index8(n, channel) * 3) / 2
  }

  /** The value held by two bytes, as read back by `get`. */
  function Unpack(odd: bool, first: byte, second: byte): (v: word)
    ensures v <= MaxValue
  {
    if odd then
      (((first & 0x0F) as word) << 8) | (second as word)
    else
      ((first as word) << 4) | (((second & 0xF0) >> 4) as word)
  }

  /** The new first byte written by `set`. In the odd case `value >> 8` is
      ORed in without a mask, as the source does. */
  function PackFirst(odd: bool, first: byte, value: word): byte
  {
    if odd then (first & 0xF0) | ((value >> 8) as byte)
    else ((value >> 4) & 0xFF) as byte
  }

  /** The new second byte written by `set`. */
  function PackSecond(odd: bool, second: byte, value: word): byte
  {
    if odd then (value & 0xFF) as byte
    else (((value << 4) & 0xFF) as byte) | (second & 0x0F)
  }

  /** A buffer of the right length for a chain of `n` chips. */
  predicate IsBuffer(data: seq<byte>, n: nat)
  {
    |data| == n * BytesPerChip
  }

  /** The grayscale value of `channel` held by `data`. */
  function ChannelValue(data: seq<byte>, n: nat, channel: nat): (v: word)
    requires IsBuffer(data, n) && channel < n * ChannelsPerChip
    ensures v <= MaxValue
  {
    var off := Offset(n, channel);
    Unpack(StartsInMiddle(n, channel), data[off], data[off + 1])
  }

  /** The buffer after `set(channel, value)`: the two addressed bytes are
      rewritten, every other byte is left as it was. */
  function WithChannel(data: seq<byte>, n: nat, channel: nat, value: word): (r: seq<byte>)
    requires IsBuffer(data, n) && channel < n * ChannelsPerChip
    ensures IsBuffer(r, n)
    ensures forall i :: 0 <= i < |data| && i != Offset(n, channel) && i != Offset(n, channel) + 1 ==>
      r[i] == data[i]
  {
    var off := Offset(n, channel);
    var odd := StartsInMiddle(n, channel);
    data[off := PackFirst(odd, data[off], value)][off + 1 := PackSecond(odd, data[off + 1], value)]
  }

  /** The three bytes `setAll(value)` repeats over the buffer. */
  function Pattern(value: word): (p: seq<byte>)
    ensures |p| == 3
  {
    [ ((value >> 4) & 0xFF) as byte,
      (((value << 4) | (value >> 8)) & 0xFF) as byte,
      (value & 0xFF) as byte ]
  }

  /** The buffer after `setAll(value)`. */
  function Filled(n: nat, value: word): (r: seq<byte>)
    ensures IsBuffer(r, n)
  {
    seq(n * BytesPerChip, i requires 0 <= i < n * BytesPerChip => Pattern(value)[i % 3])
  }

  // ---------------------------------------------------------------------
  // Unpacking after packing, at the level of one byte pair

  /** Unpacking the bytes just packed gives the value back. */
  lemma PackUnpack(odd: bool, first: byte, second: byte, value: word)
    requires value <= MaxValue
    ensures Unpack(odd, PackFirst(odd, first, value), PackSecond(odd, second, value)) == value
  {
  }

  /** Packing a value into an odd channel keeps the high nibble of its first
      byte, which belongs to the even channel before it. */
  lemma PackFirstKeepsHighNibble(first: byte, value: word)
    requires value <= MaxValue
    ensures PackFirst(true, first, value) & 0xF0 == first & 0xF0
  {
  }

  /** Packing a value into an even channel keeps the low nibble of its second
      byte, which belongs to the odd channel after it. */
  lemma PackSecondKeepsLowNibble(second: byte, value: word)
    ensures PackSecond(false, second, value) & 0x0F == second & 0x0F
  {
  }

  // ---------------------------------------------------------------------
  // Addressing

  /** Two distinct channels either use disjoint byte pairs or are the two
      halves of one triple (reversed indices `2k` and `2k + 1`), in which
      case the even one's second byte is the odd one's first byte. */
  lemma OffsetsOverlap(n: nat, c: nat, d: nat)
    requires c < n * ChannelsPerChip && d < n * ChannelsPerChip && c != d
    ensures Index8(n, c) / 2 != Index8(n, d) / 2 ==>
      Offset(n, d) != Offset(n, c) && Offset(n, d) != Offset(n, c) + 1 &&
      Offset(n, d) + 1 != Offset(n, c) && Offset(n, d) + 1 != Offset(n, c) + 1
    ensures Index8(n, c) / 2 == Index8(n, d) / 2 ==>
      StartsInMiddle(n, c) != StartsInMiddle(n, d) &&
      (StartsInMiddle(n, c) ==> Offset(n, d) + 1 == Offset(n, c)) &&
      (StartsInMiddle(n, d) ==> Offset(n, c) + 1 == Offset(n, d))
  {
    var i, j := Index8(n, c), Index8(n, d);
    assert Offset(n, c) == 3 * (i / 2) + i % 2;
    assert Offset(n, d) == 3 * (j / 2) + j % 2;
  }

  /** Channel `ch` of chip `chip` (chip 0 is the first in the chain) lives in
      the chip's own 24-byte block, and the blocks are stored farthest chip
      first; inside the block it sits where it would for a single chip. */
  lemma ChipBlock(n: nat, chip: nat, ch: nat)
    requires chip < n && ch < ChannelsPerChip
    ensures chip * ChannelsPerChip + ch < n * ChannelsPerChip
    ensures Offset(n, chip * ChannelsPerChip + ch) == (n - 1 - chip) * BytesPerChip + Offset(1, ch)
    ensures StartsInMiddle(n, chip * ChannelsPerChip + ch) == StartsInMiddle(1, ch)
  {
    var i := Index8(n, chip * ChannelsPerChip + ch);
    assert i == (n - 1 - chip) * ChannelsPerChip + (15 - ch);
    assert i / 2 == (n - 1 - chip) * 8 + (15 - ch) / 2;
  }

  /** Byte 0 holds the upper 8 bits of the last chip's channel 15, and the
      final byte holds the lower 8 bits of the first chip's channel 0. */
  lemma LayoutEnds(data: seq<byte>, n: nat)
    requires IsBuffer(data, n) && n >= 1
    ensures Offset(n, n * ChannelsPerChip - 1) == 0 && !StartsInMiddle(n, n * ChannelsPerChip - 1)
    ensures ChannelValue(data, n, n * ChannelsPerChip - 1) >> 4 == data[0] as word
    ensures Offset(n, 0) + 1 == n * BytesPerChip - 1 && StartsInMiddle(n, 0)
    ensures ChannelValue(data, n, 0) & 0xFF == data[n * BytesPerChip - 1] as word
  {
  }

  // ---------------------------------------------------------------------
  // Properties of `set`

  /** What `set` does to the two bytes it addresses, byte by byte and nibble
      by nibble. */
  lemma WithChannelBytes(data: seq<byte>, n: nat, channel: nat, value: word)
    requires IsBuffer(data, n) && channel < n * ChannelsPerChip && value <= MaxValue
    ensures var r, off := WithChannel(data, n, channel, value), Offset(n, channel);
      if StartsInMiddle(n, channel) then
        r[off] & 0xF0 == data[off] & 0xF0 &&
        (r[off] & 0x0F) as word == value >> 8 &&
        r[off + 1] as word == value & 0xFF
      else
        r[off] as word == value >> 4 &&
        ((r[off + 1] & 0xF0) >> 4) as word == value & 0x0F &&
        r[off + 1] & 0x0F == data[off + 1] & 0x0F
  {
  }

  /** Reading a channel back after `set` gives the value written. */
  lemma SetThenGet(data: seq<byte>, n: nat, channel: nat, value: word)
    requires IsBuffer(data, n) && channel < n * ChannelsPerChip && value <= MaxValue
    ensures ChannelValue(WithChannel(data, n, channel, value), n, channel) == value
  {
    var off, odd := Offset(n, channel), StartsInMiddle(n, channel);
    PackUnpack(odd, data[off], data[off + 1], value);
  }

  /** `set` leaves every other channel's value as it was, including the
      neighbour that shares a byte with the channel written. */
  lemma SetKeepsOthers(data: seq<byte>, n: nat, channel: nat, other: nat, value: word)
    requires IsBuffer(data, n) && channel < n * ChannelsPerChip && other < n * ChannelsPerChip
    requires other != channel && value <= MaxValue
    ensures ChannelValue(WithChannel(data, n, channel, value), n, other) == ChannelValue(data, n, other)
  {
    var r := WithChannel(data, n, channel, value);
    var off, odd := Offset(n, channel), StartsInMiddle(n, channel);
    var o := Offset(n, other);
    OffsetsOverlap(n, channel, other);
    if Index8(n, channel) / 2 != Index8(n, other) / 2 {
      assert r[o] == data[o] && r[o + 1] == data[o + 1];
    } else if odd {
      // `other` is the even channel whose second byte is our first byte
      assert o + 1 == off && r[o] == data[o];
      PackFirstKeepsHighNibble(data[off], value);
    } else {
      // `other` is the odd channel whose first byte is our second byte
      assert o == off + 1 && r[o + 1] == data[o + 1];
      PackSecondKeepsLowNibble(data[off + 1], value);
    }
  }

  /** The documented range matters: a value above 4095 written to channel 0
      of a single chip (an odd reversed index) changes channel 1, which shares
      its first byte. */
  lemma OutOfRangeCorruptsNeighbour()
    ensures var zero := Filled(1, 0);
      ChannelValue(zero, 1, 1) == 0 &&
      ChannelValue(WithChannel(zero, 1, 0, 0x1000), 1, 1) == 1
  {
    FilledAt(1, 0, 7, 0);
    FilledAt(1, 0, 7, 1);
    FilledAt(1, 0, 7, 2);
  }

  // ---------------------------------------------------------------------
  // Properties of `setAll` and `clear`

  /** The repeated triple is that of the three bytes a pair of equal channels
      packs to: the high 8 bits, the low 4 bits next to the high 4 bits, and
      the low 8 bits. */
  lemma PatternBytes(value: word)
    requires value <= MaxValue
    ensures Pattern(value)[0] as word == value >> 4
    ensures (Pattern(value)[1] >> 4) as word == value & 0x0F
    ensures (Pattern(value)[1] & 0x0F) as word == value >> 8
    ensures Pattern(value)[2] as word == value & 0xFF
  {
  }

  /** Byte `3q + r` of a filled buffer is byte `r` of the pattern. */
  lemma FilledAt(n: nat, value: word, q: nat, r: nat)
    requires r < 3 && 3 * q + r < n * BytesPerChip
    ensures Filled(n, value)[3 * q + r] == Pattern(value)[r]
  {
    assert (3 * q + r) % 3 == r;
  }

  /** Both channels of a triple filled with the pattern read `value`. */
  lemma PatternUnpacks(value: word)
    requires value <= MaxValue
    ensures Unpack(false, Pattern(value)[0], Pattern(value)[1]) == value
    ensures Unpack(true, Pattern(value)[1], Pattern(value)[2]) == value
  {
  }

  /** After `setAll(value)` every channel reads `value`. */
  lemma FilledUniform(n: nat, value: word, channel: nat)
    requires value <= MaxValue && channel < n * ChannelsPerChip
    ensures ChannelValue(Filled(n, value), n, channel) == value
  {
    var i := Index8(n, channel);
    var q, r := i / 2, i % 2;
    var data, off := Filled(n, value), Offset(n, channel);
    assert off == 3 * q + r;
    FilledAt(n, value, q, r);
    FilledAt(n, value, q, r + 1);
    assert ChannelValue(data, n, channel) == Unpack(r == 1, Pattern(value)[r], Pattern(value)[r + 1]);
    PatternUnpacks(value);
  }

  /** After `clear()` every byte is zero, and so every channel reads zero. */
  lemma ClearedIsZero(n: nat)
    ensures forall i :: 0 <= i < n * BytesPerChip ==> Filled(n, 0)[i] == 0
    ensures forall c :: 0 <= c < n * ChannelsPerChip ==> ChannelValue(Filled(n, 0), n, c) == 0
  {
    assert Pattern(0) == [0, 0, 0];
    forall c | 0 <= c < n * ChannelsPerChip
      ensures ChannelValue(Filled(n, 0), n, c) == 0
    {
      FilledUniform(n, 0, c);
    }
  }
}
