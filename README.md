# TLC5940 grayscale buffer, modelled in Dafny

This project models the core of the Arduino TLC5940 LED-driver library: the
packed 12-bit grayscale buffer `tlc_GSData` (24 bytes per chip, chips farthest
down the chain first), the channel addressing of `set` and `get`, the
three-byte fill of `setAll` and `clear`, and the shift-out of the whole buffer
by `update` and `init`.

- `layout.dfy`, module `GrayscaleLayout`: the layout as pure functions on
  `seq<bv8>` (reversed index, byte offset, pack and unpack of a byte pair, the
  buffer after `set` and after `setAll`) and the lemmas about them.
- `tlc5940.dfy`, module `Tlc5940Driver`: class `Tlc5940`, holding the chip
  count `numTlcs` (`NUM_TLCS`, at least 1, a constant of the object), the byte
  array `gsData` (`tlc_GSData`) and a ghost log `output` of every byte handed
  to the serial port. `Get` is a function of the array; `Set`, `SetAll`,
  `Clear`, `Update`, `Init` and `Shift8` are methods that change the array or
  the log in place, each proved against the functions of `GrayscaleLayout`.

Grayscale values are `bv16` (the source's `uint16_t`), buffer bytes `bv8`.
Channel indices and byte offsets are unbounded naturals.

Where the two disagree, the model follows the code:
- The code does not truncate a value to 12 bits. In the odd case of `set`
  (line 131) and in `setAll` (line 165) `value >> 8` is ORed into a byte
  unmasked, so a value above 4095 changes the neighbouring channel
  (`OutOfRangeCorruptsNeighbour`). `Set`, `SetAll` and `Init` therefore
  require `value <= 4095`, the range the code documents.
- `update` sends no latch pulse and always returns 0 (line 117), although its
  comment (lines 98-106) describes a "data pending" result of 1.

## Model

| member | source | states |
|---|---|---|
| GrayscaleLayout.Index8 | libraries/Tlc5940/Tlc5940.cpp:127 | the reversed index of an in-range channel is in range and is its complement within `NUM_TLCS*16` |
| GrayscaleLayout.Offset | libraries/Tlc5940/Tlc5940.cpp:127-128 | both bytes at `(index8*3)>>1` and the next lie inside the `NUM_TLCS*24` buffer; the offset is `3*(index8/2) + index8%2` |
| GrayscaleLayout.Unpack | libraries/Tlc5940/Tlc5940.cpp:151-156 | the value unpacked from any two bytes is at most 4095 |
| GrayscaleLayout.ChannelValue | libraries/Tlc5940/Tlc5940.cpp:147-158 | the value `get` reads, for any buffer contents, is at most 4095 |
| GrayscaleLayout.WithChannel | libraries/Tlc5940/Tlc5940.cpp:125-140 | the buffer after `set` has the same length and differs only at the two addressed bytes |
| GrayscaleLayout.Filled | libraries/Tlc5940/Tlc5940.cpp:162-172 | the buffer after `setAll` keeps the length `NUM_TLCS*24` |
| GrayscaleLayout.PackUnpack | libraries/Tlc5940/Tlc5940.cpp:129-156 | for a value up to 4095, unpacking the two bytes `set` writes gives the value back, in both parities |
| GrayscaleLayout.PackFirstKeepsHighNibble | libraries/Tlc5940/Tlc5940.cpp:130-131 | in the odd case the first byte's high nibble is preserved when the value is at most 4095 |
| GrayscaleLayout.PackSecondKeepsLowNibble | libraries/Tlc5940/Tlc5940.cpp:137-138 | in the even case the second byte's low nibble is preserved |
| GrayscaleLayout.OffsetsOverlap | libraries/Tlc5940/Tlc5940.cpp:127-128 | two distinct channels use disjoint byte pairs unless they are reversed indices `2k` and `2k+1`, which share exactly one byte: the even one's second and the odd one's first |
| GrayscaleLayout.ChipBlock | libraries/Tlc5940/Tlc5940.cpp:36-47 | channel `ch` of chip `j` lies in the 24-byte block `NUM_TLCS-1-j`, at the position it has for a single chip |
| GrayscaleLayout.LayoutEnds | libraries/Tlc5940/Tlc5940.cpp:36-47 | byte 0 holds the upper 8 bits of the last chip's channel 15; the final byte holds the lower 8 bits of the first chip's channel 0 |
| GrayscaleLayout.WithChannelBytes | libraries/Tlc5940/Tlc5940.cpp:129-139 | nibble by nibble what `set` writes: odd index keeps the first byte's high nibble, writes the top 4 bits into its low nibble and the low 8 bits into the next byte; even index writes the top 8 bits, then the low 4 bits into the next byte's high nibble, keeping its low nibble |
| GrayscaleLayout.SetThenGet | libraries/Tlc5940/Tlc5940.cpp:125-158 | `get(c)` after `set(c, v)` returns `v` for every in-range channel and every `v <= 4095` |
| GrayscaleLayout.SetKeepsOthers | libraries/Tlc5940/Tlc5940.cpp:127-139 | `set(c, v)` with `v <= 4095` leaves `get(d)` unchanged for every other channel `d`, including the neighbour sharing a byte |
| GrayscaleLayout.OutOfRangeCorruptsNeighbour | libraries/Tlc5940/Tlc5940.cpp:131 | on one zeroed chip, `set(0, 0x1000)` makes channel 1 read 1 instead of 0 |
| GrayscaleLayout.PatternBytes | libraries/Tlc5940/Tlc5940.cpp:164-170 | the `setAll` triple is `(v>>4, (v&0xF)<<4 with v>>8 in the low nibble, v&0xFF)` for `v <= 4095` |
| GrayscaleLayout.PatternUnpacks | libraries/Tlc5940/Tlc5940.cpp:164-170 | both channels of a triple holding the pattern read `v` |
| GrayscaleLayout.FilledAt | libraries/Tlc5940/Tlc5940.cpp:167-171 | byte `3q+r` of the filled buffer is byte `r` of the triple |
| GrayscaleLayout.FilledUniform | libraries/Tlc5940/Tlc5940.cpp:162-172 | after `setAll(v)` with `v <= 4095` every channel reads `v` |
| GrayscaleLayout.ClearedIsZero | libraries/Tlc5940/Tlc5940.cpp:93-96 | after `setAll(0)` every byte is zero and every channel reads zero |
| Tlc5940Driver.Tlc5940.constructor | libraries/Tlc5940/Tlc5940.cpp:52 | the buffer has `NUM_TLCS*24` bytes, all zero, and nothing has been sent |
| Tlc5940Driver.Tlc5940.Get | libraries/Tlc5940/Tlc5940.cpp:147-158 | `get` returns at most 4095 and is the layout's value of the channel; it changes nothing |
| Tlc5940Driver.Tlc5940.Set | libraries/Tlc5940/Tlc5940.cpp:125-140 | the new buffer is the layout's `set`; only the two addressed bytes change; the channel reads the value and every other channel keeps its value |
| Tlc5940Driver.Tlc5940.SetAll | libraries/Tlc5940/Tlc5940.cpp:162-172 | the loop fills the buffer with the repeated triple, and every channel then reads the value |
| Tlc5940Driver.Tlc5940.Clear | libraries/Tlc5940/Tlc5940.cpp:93-96 | every byte and every channel is zero afterwards |
| Tlc5940Driver.Tlc5940.Shift8 | libraries/Tlc5940/Tlc5940.cpp:188-194 | the byte is appended to the serial output |
| Tlc5940Driver.Tlc5940.Update | libraries/Tlc5940/Tlc5940.cpp:107-118 | exactly the buffer's bytes are appended to the output in index order, the buffer is unchanged, and the result is 0 |
| Tlc5940Driver.Tlc5940.Init | libraries/Tlc5940/Tlc5940.cpp:62-88 | afterwards every channel reads the initial value and the output holds the buffer twice |

## Left out

- Pin setup (`XLAT_DDR`, `BLANK_DDR`, `GSCLK_DDR`, `BLANK_PORT`, lines 65-68) and `tlc_shift8_init` (lines 175-186): register writes with no logic to model.
- The Timer 2 grayscale clock (lines 76-84) and any interaction between that hardware clock and buffer changes: real concurrency with hardware.
- Shift8: the busy-wait on `SPIF` (lines 191-193) is left out; a byte is handed over atomically.
- Update: the `SCLK` pulse at line 109 is not recorded in the output log; only shifted bytes are.
- No latch (`XLAT`) pulse is modelled, because the code issues none.
- Set, SetAll, Init: values above 4095 are excluded by a precondition, because the code then corrupts a neighbouring channel; `OutOfRangeCorruptsNeighbour` shows it.
- Channels outside `[0, NUM_TLCS*16-1]` are excluded by a precondition; the code does not check them.
- The integer width of `TLC_CHANNEL_TYPE` (set in `tlc_config.h`, which is not part of this model) and 16-bit wrap-around of `index8 * 3` are not modelled; channel arithmetic is on unbounded naturals. This agrees with the code whenever every channel index fits `TLC_CHANNEL_TYPE` and `index8 * 3` fits 16 bits (up to 1365 chips).
- The global instance `Tlc` (line 197) and the documentation and extended functions after line 199.
