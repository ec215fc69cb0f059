/** The reader the `BinRead` derives of `File`, `Header` and `Measurements`
    drive: a forward cursor over the capture's bytes that skips `pad_before`
    gaps, jumps for `seek_before` and reads little-endian u16 words one at a
    time. The cursor is the buffer `data` with a position `pos` that every read
    method takes and hands back advanced. Each read method is proved to return
    what `Layout` says is there. */
module Decoder {
  import opened Wrappers
  import opened Primitives
  import opened Layout

  /** A read needed the buffer to reach byte `needed` but it holds only `available` bytes. */
  datatype DecodeError = Truncated(needed: nat, available: nat)

  /** `e` reports a word at `pos` that ran past the end of `data`. */
  predicate StuckAt(data: seq<u8>, pos: nat, e: DecodeError) {
    e.available == |data| < e.needed && pos + 2 == e.needed
  }

  /** One little-endian u16 after skipping `pad` bytes (`pad_before = pad`;
      skipping past the end is not an error, reading past it is). */
  method ReadU16(data: seq<u8>, pos: nat, pad: nat) returns (r: Result<u16, DecodeError>, next: nat)
    ensures r.Ok? <==> pos + pad + 2 <= |data|
    ensures r.Ok? ==> r.value == LeU16(data, pos + pad) && next == pos + pad + 2
    ensures r.Err? ==> r.error == Truncated(pos + pad + 2, |data|) && next == pos + pad
  {
    next := pos + pad;
    if next + 2 > |data| {
      return Err(Truncated(next + 2, |data|)), next;
    }
    r := Ok(LeU16(data, next));
    next := next + 2;
  }

  /** `#[br(count = n)] Vec<u16>`: `count` words in a row, or the error of the first that does not fit. */
  method ReadU16s(data: seq<u8>, pos: nat, count: nat) returns (r: Result<seq<u16>, DecodeError>, next: nat)
    ensures r.Ok? <==> count == 0 || pos + 2 * count <= |data|
    ensures r.Ok? ==> r.value == Words(data, pos, count) && next == pos + 2 * count
    ensures r.Err? ==> StuckAt(data, next, r.error) && r.error.needed <= pos + 2 * count
    ensures r.Err? ==>
      pos <= next && (next - pos) % 2 == 0 && (next == pos || next <= |data|)
  {
    var words: seq<u16> := [];
    var i := 0;
    next := pos;
    while i < count
      invariant i <= count && next == pos + 2 * i && |words| == i
      invariant forall j :: 0 <= j < i ==> pos + 2 * j + 2 <= |data| && words[j] == LeU16(data, pos + 2 * j)
      invariant i > 0 ==> next <= |data|
    {
      var w;
      w, next := ReadU16(data, next, 0);
      if w.Err? {
        return Err(w.error), next;
      }
      words := words + [w.value];
      i := i + 1;
    }
    assert count > 0 ==> pos + 2 * (count - 1) + 2 <= |data|;
    assert words == Words(data, pos, count);
    return Ok(words), next;
  }

  /** The six amplitude statistics of a measurement block (`vmax` to `vp`),
      each after a 2-byte gap. */
  method ReadAmplitudes(data: seq<u8>, pos: nat) returns (r: Result<(u16, u16, u16, u16, u16, u16), DecodeError>, next: nat)
    ensures r.Ok? <==> pos + 24 <= |data|
    ensures r.Ok? ==>
      next == pos + 24 && r.value ==
        (LeU16(data, pos + 2), LeU16(data, pos + 6), LeU16(data, pos + 10),
         LeU16(data, pos + 14), LeU16(data, pos + 18), LeU16(data, pos + 22))
    ensures r.Err? ==> StuckAt(data, next, r.error) && r.error.needed <= pos + 24
  {
    var vmax, vmin, vavg, vrms, vpp, vp: u16;
    vmax, next :- ReadU16(data, pos, 2);
    vmin, next :- ReadU16(data, next, 2);
    vavg, next :- ReadU16(data, next, 2);
    vrms, next :- ReadU16(data, next, 2);
    vpp, next :- ReadU16(data, next, 2);
    vp, next :- ReadU16(data, next, 2);
    r := Ok((vmax, vmin, vavg, vrms, vpp, vp));
  }

  /** The five duration and duty statistics of a measurement block (`cycle_ns`
      to `duty_minus_percentage`), each after a 2-byte gap. */
  method ReadDurations(data: seq<u8>, pos: nat) returns (r: Result<(u16, u16, u16, u16, u16), DecodeError>, next: nat)
    ensures r.Ok? <==> pos + 20 <= |data|
    ensures r.Ok? ==>
      next == pos + 20 && r.value ==
        (LeU16(data, pos + 2), LeU16(data, pos + 6), LeU16(data, pos + 10),
         LeU16(data, pos + 14), LeU16(data, pos + 18))
    ensures r.Err? ==> StuckAt(data, next, r.error) && r.error.needed <= pos + 20
  {
    var cycleNs, timePlusNs, timeMinusNs, dutyPlusPercentage, dutyMinusPercentage: u16;
    cycleNs, next :- ReadU16(data, pos, 2);
    timePlusNs, next :- ReadU16(data, next, 2);
    timeMinusNs, next :- ReadU16(data, next, 2);
    dutyPlusPercentage, next :- ReadU16(data, next, 2);
    dutyMinusPercentage, next :- ReadU16(data, next, 2);
    r := Ok((cycleNs, timePlusNs, timeMinusNs, dutyPlusPercentage, dutyMinusPercentage));
  }

  /** `Measurements::read_options`: the 48-byte block at `pos`. The reads are
      those of the derive, field by field, grouped into the amplitude run, the
      two frequency halves and the duration run. */
  method ReadMeasurements(data: seq<u8>, pos: nat) returns (r: Result<Measurements, DecodeError>, next: nat)
    ensures r.Ok? <==> pos + MeasurementsSize <= |data|
    ensures r.Ok? ==> r.value == MeasurementsAt(data, pos) && next == pos + MeasurementsSize
    ensures r.Err? ==> StuckAt(data, next, r.error) && r.error.needed <= pos + MeasurementsSize
  {
    var amplitudes, frequencyHigh, frequencyLow, durations;
    amplitudes, next :- ReadAmplitudes(data, pos);
    frequencyHigh, next :- ReadU16(data, next, 0);
    frequencyLow, next :- ReadU16(data, next, 0);
    durations, next :- ReadDurations(data, next);
    var (vmax, vmin, vavg, vrms, vpp, vp) := amplitudes;
    var (cycleNs, timePlusNs, timeMinusNs, dutyPlusPercentage, dutyMinusPercentage) := durations;
    r := Ok(Measurements(vmax, vmin, vavg, vrms, vpp, vp, frequencyHigh, frequencyLow,
                         cycleNs, timePlusNs, timeMinusNs, dutyPlusPercentage, dutyMinusPercentage));
  }

  /** The scale, coupling and probe codes of one channel, the scale after `pad` bytes. */
  method ReadChannelSettings(data: seq<u8>, pos: nat, pad: nat) returns (r: Result<(u16, u16, u16), DecodeError>, next: nat)
    ensures r.Ok? <==> pos + pad + 8 <= |data|
    ensures r.Ok? ==>
      next == pos + pad + 8 && r.value ==
        (LeU16(data, pos + pad), LeU16(data, pos + pad + 4), LeU16(data, pos + pad + 6))
    ensures r.Err? ==> StuckAt(data, next, r.error) && r.error.needed <= pos + pad + 8
  {
    var scale, coupling, probe: u16;
    scale, next :- ReadU16(data, pos, pad);
    coupling, next :- ReadU16(data, next, 2);
    probe, next :- ReadU16(data, next, 0);
    r := Ok((scale, coupling, probe));
  }

  /** The five consecutive timebase and trigger codes (`time_scale` to `trigger_channel`). */
  method ReadTimebaseAndTrigger(data: seq<u8>, pos: nat) returns (r: Result<(u16, u16, u16, u16, u16), DecodeError>, next: nat)
    ensures r.Ok? <==> pos + 10 <= |data|
    ensures r.Ok? ==>
      next == pos + 10 && r.value ==
        (LeU16(data, pos), LeU16(data, pos + 2), LeU16(data, pos + 4), LeU16(data, pos + 6), LeU16(data, pos + 8))
    ensures r.Err? ==> StuckAt(data, next, r.error) && r.error.needed <= pos + 10
  {
    var timeScale, scrollSpeed, triggerType, triggerEdge, triggerChannel: u16;
    timeScale, next :- ReadU16(data, pos, 0);
    scrollSpeed, next :- ReadU16(data, next, 0);
    triggerType, next :- ReadU16(data, next, 0);
    triggerEdge, next :- ReadU16(data, next, 0);
    triggerChannel, next :- ReadU16(data, next, 0);
    r := Ok((timeScale, scrollSpeed, triggerType, triggerEdge, triggerChannel));
  }

  /** The two zero-level offsets (after a 52-byte gap), the two brightness
      codes (after a 32-byte gap) and `trigger_50`. */
  method ReadOffsetsAndDisplay(data: seq<u8>, pos: nat) returns (r: Result<(u16, u16, u16, u16, u16), DecodeError>, next: nat)
    ensures r.Ok? <==> pos + 94 <= |data|
    ensures r.Ok? ==>
      next == pos + 94 && r.value ==
        (LeU16(data, pos + 52), LeU16(data, pos + 54), LeU16(data, pos + 88), LeU16(data, pos + 90), LeU16(data, pos + 92))
    ensures r.Err? ==> StuckAt(data, next, r.error) && r.error.needed <= pos + 94
  {
    var channel1Offset, channel2Offset, screenBrightness, gridBrightness, trigger50: u16;
    channel1Offset, next :- ReadU16(data, pos, 52);
    channel2Offset, next :- ReadU16(data, next, 0);
    screenBrightness, next :- ReadU16(data, next, 32);
    gridBrightness, next :- ReadU16(data, next, 0);
    trigger50, next :- ReadU16(data, next, 0);
    r := Ok((channel1Offset, channel2Offset, screenBrightness, gridBrightness, trigger50));
  }

  /** `Header::read_options` from `pos`: the forward fields, then the two
      measurement blocks at 208 and 256; reading ends at 304. The reads are
      those of the derive, field by field, grouped per channel, timebase and
      trigger, offsets and display. */
  method ReadHeader(data: seq<u8>, pos: nat) returns (r: Result<Header, DecodeError>, next: nat)
    ensures r.Ok? <==> HeaderFits(pos, |data|)
    ensures r.Ok? ==> r.value == HeaderAt(data, pos) && next == HeaderEnd
    ensures r.Err? ==> StuckAt(data, next, r.error) && r.error.needed <= pos + HeaderEnd
  {
    var channel1, channel2, timebase, display;
    var channel1Measurements, channel2Measurements;
    channel1, next :- ReadChannelSettings(data, pos, 4);
    channel2, next :- ReadChannelSettings(data, next, 2);
    timebase, next :- ReadTimebaseAndTrigger(data, next);
    display, next :- ReadOffsetsAndDisplay(data, next);
    channel1Measurements, next :- ReadMeasurements(data, Channel1MeasurementsOffset);
    channel2Measurements, next :- ReadMeasurements(data, Channel2MeasurementsOffset);
    var (channel1Scale, channel1Coupling, channel1Probe) := channel1;
    var (channel2Scale, channel2Coupling, channel2Probe) := channel2;
    var (timeScale, scrollSpeed, triggerType, triggerEdge, triggerChannel) := timebase;
    var (channel1Offset, channel2Offset, screenBrightness, gridBrightness, trigger50) := display;
    r := Ok(Header(channel1Scale, channel1Coupling, channel1Probe,
                   channel2Scale, channel2Coupling, channel2Probe,
                   timeScale, scrollSpeed, triggerType, triggerEdge, triggerChannel,
                   channel1Offset, channel2Offset, screenBrightness, gridBrightness, trigger50,
                   channel1Measurements, channel2Measurements));
  }

  /** `read_le::<File>()` over an in-memory capture: succeeds exactly when the
      buffer reaches the end of `channel22`, and then yields the capture the
      layout describes; otherwise it reports a word that ran past the end,
      and never a partial capture. */
  method DecodeFile(data: seq<u8>) returns (r: Result<File, DecodeError>)
    ensures r.Ok? <==> FileSize <= |data|
    ensures r.Ok? ==> r.value == FileAt(data)
    ensures r.Err? ==> r.error.available == |data| < r.error.needed <= FileSize
  {
    var header, channel11, channel21, channel12, channel22;
    var pos: nat;
    header, pos :- ReadHeader(data, 0);
    channel11, pos :- ReadU16s(data, SamplesOffset, CoarseCount);
    channel21, pos :- ReadU16s(data, pos, CoarseCount);
    channel12, pos :- ReadU16s(data, pos, FineCount);
    channel22, pos :- ReadU16s(data, pos, FineCount);
    r := Ok(File(header, channel11, channel21, channel12, channel22));
  }
}
