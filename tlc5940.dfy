/** The TLC5940 driver object: the packed grayscale buffer `tlc_GSData`, the
    operations that read and write it by channel, and the shift-out of the
    whole buffer over the serial port. */
module Tlc5940Driver {
  import opened GrayscaleLayout

  class Tlc5940 {
    /** The number of daisy-chained chips (`NUM_TLCS`). */
    const numTlcs: nat
    /** The packed grayscale data `tlc_GSData`, 24 bytes per chip. */
    const gsData: array<byte>
    /** Every byte handed to the serial port so far, oldest first. */
    ghost var output: seq<byte>

    ghost predicate Valid()
    {
      numTlcs >= 1 && gsData.Length == numTlcs * BytesPerChip
    }

    /** The driver for a chain of `chips` chips, before `init`: the buffer has
        static storage and so starts out zero, and nothing has been sent. */
    constructor (chips: nat)
      requires chips >= 1
      ensures Valid() && numTlcs == chips && fresh(gsData)
      ensures gsData[..] == Filled(chips, 0) && output == []
    {
      numTlcs := chips;
      gsData := new byte[chips * BytesPerChip](_ => 0);
      output := [];
      new;
      ClearedIsZero(chips);
    }

    /** `get`: the current value of `channel`; it is always at most 4095. */
    function Get(channel: nat): (v: word)
      reads gsData
      requires Valid() && channel < numTlcs * ChannelsPerChip
      ensures v <= MaxValue
      ensures v == ChannelValue(gsData[..], numTlcs, channel)
    {
      var off := Offset(numTlcs, channel);
      Unpack(StartsInMiddle(numTlcs, channel), gsData[off], gsData[off + 1])
    }

    /** `set`: a read-modify-write of the two bytes that hold `channel`. The
        channel then reads `value`, only the two addressed bytes change, and
        every other channel keeps its value. */
    method Set(channel: nat, value: word)
      requires Valid() && channel < numTlcs * ChannelsPerChip && value <= MaxValue
      modifies gsData
      ensures gsData[..] == WithChannel(old(gsData[..]), numTlcs, channel, value)
      ensures forall i :: 0 <= i < gsData.Length && i != Offset(numTlcs, channel) && i != Offset(numTlcs, channel) + 1 ==>
        gsData[i] == old(gsData[i])
      ensures Get(channel) == value
      ensures forall c :: 0 <= c < numTlcs * ChannelsPerChip && c != channel ==> Get(c) == old(Get(c))
    {
      ghost var before := gsData[..];
      var odd := StartsInMiddle(numTlcs, channel);
      var p := Offset(numTlcs, channel);
      gsData[p] := PackFirst(odd, gsData[p], value);
      p := p + 1;
      gsData[p] := PackSecond(odd, gsData[p], value);
      assert gsData[..] == WithChannel(before, numTlcs, channel, value);
      SetThenGet(before, numTlcs, channel, value);
      forall c | 0 <= c < numTlcs * ChannelsPerChip && c != channel
        ensures ChannelValue(gsData[..], numTlcs, c) == ChannelValue(before, numTlcs, c)
      {
        SetKeepsOthers(before, numTlcs, channel, c, value);
      }
    }

    /** `setAll`: writes the three-byte pattern of `value` over the whole
        buffer, after which every channel reads `value`. */
    method SetAll(value: word)
      requires Valid() && value <= MaxValue
      modifies gsData
      ensures gsData[..] == Filled(numTlcs, value)
      ensures forall c :: 0 <= c < numTlcs * ChannelsPerChip ==> Get(c) == value
    {
      var firstByte := ((value >> 4) & 0xFF) as byte;
      var secondByte := (((value << 4) | (value >> 8)) & 0xFF) as byte;
      var p := 0;
      while p < gsData.Length
        invariant p <= gsData.Length && p % 3 == 0
        invariant forall i :: 0 <= i < p ==> gsData[i] == Pattern(value)[i % 3]
      {
        gsData[p] := firstByte;
        gsData[p + 1] := secondByte;
        gsData[p + 2] := (value & 0xFF) as byte;
        p := p + 3;
      }
      assert gsData[..] == Filled(numTlcs, value);
      forall c | 0 <= c < numTlcs * ChannelsPerChip
        ensures ChannelValue(gsData[..], numTlcs, c) == value
      {
        FilledUniform(numTlcs, value, c);
      }
    }

    /** `clear`: `setAll(0)`; every byte and every channel is then zero. */
    method Clear()
      requires Valid()
      modifies gsData
      ensures gsData[..] == Filled(numTlcs, 0)
      ensures forall i :: 0 <= i < gsData.Length ==> gsData[i] == 0
      ensures forall c :: 0 <= c < numTlcs * ChannelsPerChip ==> Get(c) == 0
    {
      SetAll(0);
      ClearedIsZero(numTlcs);
    }

    /** `tlc_shift8`: hands one byte to the serial port. */
    method Shift8(b: byte)
      modifies this`output
      ensures output == old(output) + [b]
    {
      output := output + [b];
    }

    /** `update`: shifts every byte of the buffer out, in buffer order, and
        reports that no data is pending. The buffer is not changed, so two
        calls in a row send the same bytes. */
    method Update() returns (pending: byte)
      requires Valid()
      modifies this`output
      ensures pending == 0
      ensures gsData[..] == old(gsData[..])
      ensures output == old(output) + gsData[..]
    {
      var p := 0;
      while p < gsData.Length
        invariant p <= gsData.Length && p % 3 == 0
        invariant output == old(output) + gsData[..p]
      {
        Shift8(gsData[p]);
        Shift8(gsData[p + 1]);
        Shift8(gsData[p + 2]);
        assert gsData[..p + 3] == gsData[..p] + [gsData[p], gsData[p + 1], gsData[p + 2]];
        p := p + 3;
      }
      assert gsData[..p] == gsData[..];
      pending := 0;
    }

    /** The buffer and serial effect of `init`: `setAll(initialValue)` and
        two calls of `update`, so every channel reads `initialValue` and the
        whole buffer has been sent twice. */
    method Init(initialValue: word)
      requires Valid() && initialValue <= MaxValue
      modifies gsData, this`output
      ensures gsData[..] == Filled(numTlcs, initialValue)
      ensures forall c :: 0 <= c < numTlcs * ChannelsPerChip ==> Get(c) == initialValue
      ensures output == old(output) + gsData[..] + gsData[..]
    {
      SetAll(initialValue);
      var first := Update();
      var second := Update();
    }
  }

  /** A caller's view: one chip, `init(0)`, `set(5, 4095)` and `update`
      send 24 bytes that are all zero except the two that hold channel 5
      (reversed index 10, bytes 15 and 16). */
  method SingleChipScenario()
  {
    var tlc := new Tlc5940(1);
    ClearedIsZero(1);
    tlc.Init(0);
    assert forall c :: 0 <= c < 16 ==> tlc.Get(c) == 0;
    tlc.Set(5, 4095);
    ghost var sent := |tlc.output|;
    var pending := tlc.Update();
    assert pending == 0 && |tlc.output| == sent + 24;
    ghost var frame := tlc.output[sent..];
    assert frame[15] == 0xFF && frame[16] == 0xF0;
    assert forall i :: 0 <= i < 24 && i != 15 && i != 16 ==> frame[i] == 0;
  }
}
