# fnirsi capture decoder, modelled in Dafny

`fnirsi` reads the binary capture files a FNIRSI handheld oscilloscope saves
and prints them either raw or as a "parsed" record. A capture is a fixed
10000-byte layout of little-endian 16-bit words:

- a header with the channel settings, the timebase and trigger settings, the
  zero levels and the display settings;
- two 48-byte measurement blocks, at byte 208 and byte 256;
- four runs of samples from byte 1000 on: 1500 coarse samples per channel,
  then 750 fine samples per channel.

The parsed record resolves each stored code. Time and voltage scales are
looked up in two closed tables, and each enum code is mapped to its variant.
Either kind of lookup fails on an unknown code. The record also scales the
amplitude statistics, joins the two frequency halves, and turns each
channel's samples into (time, voltage) points on a 50-unit screen grid.

The project proves that decoding and resolution do what the layout and the
tables say, that they fail exactly when they should, and what the resolved
record holds. It is organised by module:

- `Wrappers` (`wrappers.dfy`): `Result` and `Option`.
- `Primitives` (`primitives.dfy`):
  - the `u8`, `u16` and `u32` newtypes;
  - the little-endian word `LeU16` and word runs `Words`;
  - the conversion error `ConversionError(name, number)`, which carries the
    target type's name and the rejected code, as `TryFromPrimitiveError` does.
- `Scales` (`scales.dfy`): `Scale` (an exact real mantissa, an exponent and a
  unit), `get_scale`, both tables, and their fail-closed lookup.
- `Enums` (`enums.dfy`): the seven `#[repr(u16)]` enums with their
  `TryFromPrimitive` decode and their code.
- `Layout` (`layout.dfy`): the layout stated declaratively, as the field each
  byte offset holds (`FileAt`, `HeaderAt`, `MeasurementsAt`).
- `Decoder` (`decoder.dfy`): the reads the `BinRead` derives perform on a
  byte buffer.
  - A cursor position is passed to each read method and returned advanced.
  - `pad_before` is a skip and `seek_before` is a jump.
  - `#[br(count = n)]` is a counted loop.
  - A read past the end returns `Truncated`.
  - The header's reads run field by field, as the derive does. They are grouped
    into a few methods (channel settings, timebase and trigger, offsets and
    display, measurement runs) so that each proof stays small.
  - Each method is proved to return what `Layout` describes.
- `Fixture` (`fixture.dfy`): a writer for the layout. Decoding what it writes
  for a well-formed file gives back that file.
- `Parsed` (`parsed.dfy`):
  - `parse_frequency`, `process_voltage_measurement` and `generate_points`;
  - the parsed branch of `main`, with each `try_into().unwrap()` as a
    failing `Result` taken in `main`'s evaluation order.

The attenuation code is decoded but not applied to the voltage, as in the
source. `scroll_speed` is decoded into the raw header but never resolved by
`main`.

## Model

| member | source | states |
|---|---|---|
| Decoder.ReadU16 | src/main.rs:229-230 | a `pad_before` skip followed by one u16 read succeeds exactly when the word fits; it then yields the little-endian word after the gap and advances past it, and otherwise reports the byte it needed |
| Decoder.ReadU16s | src/main.rs:217-224 | a `count`-word run succeeds exactly when all its words fit, yields word i from byte pos+2i, and otherwise stops at the first word that ran past the end: a word boundary of the run up to which every earlier word fitted |
| Decoder.ReadAmplitudes | src/main.rs:260-271 | `vmax` to `vp`, each after a 2-byte gap, are the words at offsets 2, 6, 10, 14, 18 and 22 of the block; the run fails exactly when the 24 bytes are not all present |
| Decoder.ReadDurations | src/main.rs:274-283 | `cycle_ns` to `duty_minus_percentage` are the words at offsets 2, 6, 10, 14 and 18 of their 20-byte run |
| Decoder.ReadMeasurements | src/main.rs:257-284 | a measurement block read at a base succeeds exactly when the 48 bytes from the base exist, and then equals the block the layout places there |
| Decoder.ReadChannelSettings | src/main.rs:229-238 | a channel's scale (after its gap), coupling (2 bytes on) and probe codes are the words at gap+0, gap+4 and gap+6 |
| Decoder.ReadTimebaseAndTrigger | src/main.rs:239-243 | `time_scale`, `scroll_speed`, `trigger_type`, `trigger_edge` and `trigger_channel` are five consecutive words |
| Decoder.ReadOffsetsAndDisplay | src/main.rs:244-250 | the zero levels come after a 52-byte gap; the brightness codes and `trigger_50` come after a further 32-byte gap |
| Decoder.ReadHeader | src/main.rs:227-255 | the header read succeeds exactly when its forward fields and both measurement blocks fit; it then equals the header the layout places at the start and leaves the cursor at 304 |
| Decoder.DecodeFile | src/main.rs:213-225 | decoding succeeds exactly when the buffer holds at least 10000 bytes and then yields the layout's capture; a shorter buffer gives a truncation error that needed at most 10000 bytes, and never a partial capture |
| Layout.SampleOffsets | src/main.rs:217-224 | `channel11[i]` is the word at 1000+2i, `channel21[i]` at 4000+2i, `channel12[i]` at 7000+2i and `channel22[i]` at 8500+2i; the runs hold 1500, 1500, 750 and 750 words |
| Layout.MeasurementsBlockIsLocal | src/main.rs:257-284 | a measurement block is read from exactly the 48 bytes at its base |
| Layout.MeasurementsDependOnlyOnFieldBytes | src/main.rs:257-284 | two buffers that agree on a block's field bytes decode that block equally |
| Layout.MeasurementsFieldBytes | src/main.rs:251-254 | agreement on the header's field bytes includes agreement on the field bytes of both blocks |
| Layout.HeaderDependsOnlyOnFieldBytes | src/main.rs:227-255 | two buffers that agree on the header's field bytes decode the same header |
| Layout.WordsDependOnlyOnTheirBytes | src/main.rs:217-224 | a sample run depends on the bytes it covers and on nothing else |
| Layout.FileDependsOnlyOnFieldBytes | src/main.rs:213-284 | two buffers of at least 10000 bytes that agree on every field byte decode the same capture |
| Layout.PaddingIsIgnored | src/main.rs:213-284 | overwriting any padding byte leaves the decoded capture unchanged |
| Layout.TrailingBytesAreIgnored | src/main.rs:213-225 | bytes after byte 10000 are ignored |
| Layout.HeaderGapIsPadding | src/main.rs:244-255 | bytes 0-3, 32-83, 88-119, 126-207 and 304-999 are padding |
| Fixture.Encode | src/main.rs:213-284 | the writer emits exactly 10000 bytes |
| Fixture.WordRoundTrip | src/main.rs:213-214 | a word written little-endian at an offset is read back from that offset |
| Fixture.MeasurementsRoundTrip | src/main.rs:257-284 | a written measurement block is read back |
| Fixture.HeaderRoundTrip | src/main.rs:227-255 | a written header is read back |
| Fixture.SampleWordAt | src/main.rs:217-224 | sample i of each run is written at that run's start plus 2i |
| Fixture.RunRoundTrip | src/main.rs:217-224 | each written sample run is read back |
| Fixture.DecodeEncode | src/main.rs:213-284 | the layout loses nothing: decoding the bytes written for a well-formed capture gives back that capture |
| Scales.Pow10 | src/main.rs:347 | ten to any integer power is positive |
| Scales.Pow10Step | src/main.rs:347 | dividing by ten lowers the exponent by one |
| Scales.TimeScalesClosedForm | src/main.rs:18-52 | the time table follows the 50-20-10 progression, one decade per triple, from 50 s to 1 ns |
| Scales.TimeScaleLookup | src/main.rs:386-393 | a time code resolves exactly when it is below 33; it then gives its table entry, in seconds, with an exponent in {0,-3,-6,-9} and the closed-form coefficient; otherwise the error carries the code |
| Scales.VoltScaleLookup | src/main.rs:369-376 | a voltage code resolves exactly when it is below 7; it then gives its entry in volts, with coefficients 5, 2.5, 1, 0.5, 0.2, 0.1 and 0.05 V; otherwise the error carries the code |
| Scales.UnitScales | src/main.rs:18-65 | time code 5 is 1 s and voltage code 2 is 1 V |
| Scales.TablePrefixesDefined | src/main.rs:351-360 | no table entry reaches the formatter's `unreachable!` branch |
| Scales.TimeClosedFormStep | src/main.rs:18-52 | each step of the time progression is strictly finer |
| Scales.TimeClosedFormDecreasing | src/main.rs:18-52 | the time progression strictly decreases |
| Scales.TimeScalesDecreasing | src/main.rs:18-52 | the time table is strictly ordered from coarsest to finest |
| Scales.ProbeScalesDecreasing | src/main.rs:57-65 | the voltage table is strictly ordered from coarsest to finest |
| Enums.CouplingCodec | src/main.rs:403-407 | a code decodes exactly when it is below 2, to the variant declared at that position; otherwise the error carries the code; decode and code are inverse |
| Enums.AttenuationCodec | src/main.rs:409-415 | the same, for 3 variants |
| Enums.ScrollSpeedCodec | src/main.rs:417-421 | the same, for 2 variants |
| Enums.TriggerTypeCodec | src/main.rs:423-427 | the same, for 3 variants |
| Enums.TriggerEdgeCodec | src/main.rs:429-433 | the same, for 2 variants |
| Enums.TriggerChannelCodec | src/main.rs:435-439 | the same, for 2 variants |
| Enums.Trigger50Codec | src/main.rs:441-445 | the same, for 2 variants |
| Parsed.ParseFrequency | src/main.rs:167-169 | the 32-bit shift drops no bit and the add cannot overflow: the result is high·65536 + low |
| Parsed.FrequencyHalvesRecovered | src/main.rs:167-169 | joining is injective: high is f / 65536 and low is f % 65536 |
| Parsed.FrequencyJoinOfSplit | src/main.rs:167-169 | every 32-bit value is the join of its halves |
| Parsed.FrequencyExamples | src/main.rs:167-169 | (1, 2) gives 65538 and (0xFFFF, 0xFFFF) gives 2³²−1 |
| Parsed.ProcessVoltageMeasurement | src/main.rs:203-205 | the processed amplitude times 1024 is the raw code, and it lies in [0, 64) |
| Parsed.ProcessMeasurementsInvertible | src/main.rs:124-137 | processing a block loses nothing: every raw statistic can be recovered from the processed one |
| Parsed.PointsFollowSamples | src/main.rs:196-201 | there is one point per sample, the first at time 0, and the i-th point depends only on i and the i-th sample |
| Parsed.TimeIncreases | src/main.rs:196-201 | with a positive time scale, time strictly increases along the points |
| Parsed.VoltageIsAffine | src/main.rs:196-201 | voltage is affine in the sample with slope scale/50; with a nonzero scale it is 0 exactly when the sample equals the offset |
| Parsed.PointsScenario | src/main.rs:196-201 | at 1 s/div and 1 V/div with zero level 512, samples 512 and 1024 are drawn at (0 s, 0 V) and (0.02 s, 10.24 V) |
| Parsed.FirstUnresolvedAt | src/main.rs:106-143 | scanning resolved codes from a position reports that code if it is out of range, and otherwise continues |
| Parsed.FirstUnresolvedAppend | src/main.rs:106-143 | the first failure of consecutive groups of resolutions lies in the earliest group that has one |
| Parsed.ResolveScalesFailsClosed | src/main.rs:106-108 | the three scale codes resolve exactly when all are in range; otherwise the first failure, in order, is reported |
| Parsed.ResolveTriggerFailsClosed | src/main.rs:113-118 | the trigger resolves exactly when its four codes are in range, and then holds their variants; otherwise the first failing code in field order is reported |
| Parsed.ResolveChannelFailsClosed | src/main.rs:120-123 | a channel resolves exactly when its coupling and probe codes are in range, and then holds their variants and the processed measurements; otherwise coupling failures come first |
| Parsed.AssembleFailsClosed | src/main.rs:105-160 | the parsed record is built exactly when all eleven codes `main` resolves are in range; otherwise the error belongs to the first out-of-range code in `main`'s evaluation order |
| Parsed.AssembleContents | src/main.rs:105-160 | a built record holds every code's table entry or variant, both processed measurement blocks, and each channel's points drawn against that channel's scale and zero level and the shared time scale |
| Parsed.ParseIgnoresChannel21 | src/main.rs:109-110 | as written, the record does not depend on `channel21`, on the fine traces, on the scroll speed or on the brightness settings |
| Parsed.Channel2DrawnFromChannel1 | src/main.rs:110 | as written, a capture exists whose channel 2 is reported flat at 0 V although its own samples sit one code (0.1 V) above their zero level |
| Parsed.ParseCorrectedUsesOwnTraces | src/main.rs:109-110 | corrected, each channel's points are drawn from that channel's own coarse trace |
| Parsed.ParseCorrectedReads | src/main.rs:105-160 | corrected, the record depends only on the header's read words and the two coarse traces |
| Parsed.DecodedCapturePointsAsWritten | src/main.rs:105-110 | as written, from raw bytes: each channel has 1500 points; point i of both channels comes from the word at 1000+2i, against channel 1's zero level at 84 and voltage code at 4, or channel 2's at 86 and 14 respectively, with the time code at 22 |
| Parsed.DecodedCapturePoints | src/main.rs:105-110 | corrected, from raw bytes: each channel has 1500 points; point i of channel 1 comes from the word at 1000+2i, with the zero level at 84, the voltage code at 4 and the time code at 22; for channel 2 those are 4000+2i, 86, 14 and 22 |

## Left out

- Command-line parsing and output selection (`Args`, `Output`, its `FromStr`, src/main.rs:68-97) is argument plumbing and is not modelled.
- Opening the capture file and reading it from a stream (src/main.rs:101) is I/O. The decoder reads an in-memory, immutable byte sequence instead, and seeks become positions in it.
- JSON output, the custom `Serialize` impls and the `Display`/`Debug` formatting (src/main.rs:104, 162, 309-367) are serialisation. Only the exponent-to-prefix choice of `Display for Scale` is modelled, as `Scales.SiPrefix`.
- Scales.GetScale: computes over exact reals, not f32 with `powi`, so no f32 rounding is modelled.
- Parsed.ProcessVoltageMeasurement: divides exactly, not in f32.
- Parsed.GeneratePoints: computes time and voltage over exact reals, not f32. No bit-exact f32 result is claimed anywhere.
- The `unwrap` panics in `main` are modelled as `Err` results: `ConversionError` for a code that does not resolve, and `Decoder.DecodeError` for a short buffer. Process exit is not modelled.
- Decoder.DecodeFile: its `Truncated(needed, available)` error carries byte counts. The library's end-of-input error reports no offset, and its other error kinds (seek failures, I/O errors) are not modelled.
- Only the single little-endian layout this source defines is modelled. No other field widths or byte orders exist in it.
- Parsed.Parse: reproduces the code as written, channel-2 defect included. The other results about the parsed record are stated for `Assemble` with any channel-2 samples, or for `ParseCorrected`.

## Findings

| source | as written | input that shows it | evidently intended | confidence | as-written member | corrected member |
|---|---|---|---|---|---|---|
| src/main.rs:110 | channel 2's points are generated from `file.channel11`, channel 1's samples | a capture with all codes 0 (5 V/div), every `channel11` sample 0, every `channel21` sample 1, and both zero levels 0: channel 2 is reported at 0 V instead of 0.1 V | channel 2's points are generated from `file.channel21` | not executed; high, by reading line 110 | Parsed.Channel2DrawnFromChannel1 | Parsed.ParseCorrectedUsesOwnTraces |
