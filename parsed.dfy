/** The `parsed` view built in `main`: scale and enum codes resolved
    fail-closed, amplitude statistics scaled, the frequency halves joined and
    each channel's samples turned into (time, voltage) points. Numbers are
    exact reals where the source computes in f32. */
module Parsed {
  import opened Wrappers
  import opened Primitives
  import opened Scales
  import opened Enums
  import opened Layout

  /** `DIVISION_POINTS`: the screen's grid units per axis. */
  const DivisionPoints: real := 50.0
  /** `VOLTAGE_MEASUREMENT_DIVISOR`: the device's full-scale amplitude code. */
  const VoltageMeasurementDivisor: real := 1024.0

  /** `parse_frequency`: `(high as u32) << 16` (a 32-bit shift, which would
      drop bits pushed past bit 31) plus `low as u32` (a checked add). The
      result is the exact 32-bit value `high * 65536 + low`: the shift loses
      nothing and the add cannot overflow. */
  function ParseFrequency(high: u16, low: u16): (f: u32)
    ensures f as int == high as int * 0x1_0000 + low as int
  {
    var shifted := (high as int * 0x1_0000) % 0x1_0000_0000;
    (shifted + low as int) as u32
  }

  /** The two halves a 32-bit frequency is stored as. */
  function SplitFrequency(f: u32): (u16, u16) {
    ((f / 0x1_0000) as u16, (f % 0x1_0000) as u16)
  }

  /** Joining is injective: the halves are recovered from the joined value. */
  lemma FrequencyHalvesRecovered(high: u16, low: u16)
    ensures SplitFrequency(ParseFrequency(high, low)) == (high, low)
  {
    var f := ParseFrequency(high, low) as int;
    assert f == high as int * 0x1_0000 + low as int;
    assert f / 0x1_0000 == high as int;
    assert f % 0x1_0000 == low as int;
  }

  /** Every 32-bit value is the join of its halves, so the join is onto. */
  lemma FrequencyJoinOfSplit(f: u32)
    ensures ParseFrequency(SplitFrequency(f).0, SplitFrequency(f).1) == f
  {
  }

  lemma FrequencyExamples()
    ensures ParseFrequency(1, 2) == 65538
    ensures ParseFrequency(0xFFFF, 0xFFFF) == 0xFFFF_FFFF
  {
  }

  /** `process_voltage_measurement`: the raw code over 1024, in volts. */
  function ProcessVoltageMeasurement(measurement: u16): (v: real)
    ensures v * VoltageMeasurementDivisor == measurement as real
    ensures 0.0 <= v < 64.0
  {
    measurement as real / VoltageMeasurementDivisor
  }

  datatype ProcessedMeasurements = ProcessedMeasurements(
    vmax: real, vmin: real, vavg: real, vrms: real, vpp: real, vp: real,
    frequency: u32,
    cycleNs: u16, timePlusNs: u16, timeMinusNs: u16,
    dutyPlusPercentage: u16, dutyMinusPercentage: u16)

  /** The `ProcessedMeasurements` literal `main` builds for each channel. */
  function ProcessMeasurements(m: Measurements): ProcessedMeasurements {
    ProcessedMeasurements(
      ProcessVoltageMeasurement(m.vmax), ProcessVoltageMeasurement(m.vmin),
      ProcessVoltageMeasurement(m.vavg), ProcessVoltageMeasurement(m.vrms),
      ProcessVoltageMeasurement(m.vpp), ProcessVoltageMeasurement(m.vp),
      ParseFrequency(m.frequencyHigh, m.frequencyLow),
      m.cycleNs, m.timePlusNs, m.timeMinusNs, m.dutyPlusPercentage, m.dutyMinusPercentage)
  }

  /** Processing loses nothing: the raw block is recovered from the processed one. */
  lemma ProcessMeasurementsInvertible(m: Measurements)
    ensures var p := ProcessMeasurements(m);
      p.vmax * 1024.0 == m.vmax as real && p.vmin * 1024.0 == m.vmin as real
      && p.vavg * 1024.0 == m.vavg as real && p.vrms * 1024.0 == m.vrms as real
      && p.vpp * 1024.0 == m.vpp as real && p.vp * 1024.0 == m.vp as real
      && SplitFrequency(p.frequency) == (m.frequencyHigh, m.frequencyLow)
      && p.cycleNs == m.cycleNs && p.timePlusNs == m.timePlusNs && p.timeMinusNs == m.timeMinusNs
      && p.dutyPlusPercentage == m.dutyPlusPercentage && p.dutyMinusPercentage == m.dutyMinusPercentage
  {
    FrequencyHalvesRecovered(m.frequencyHigh, m.frequencyLow);
  }

  datatype Point = Point(time: real, voltage: real)

  /** Where `generate_points` draws the `i`-th sample: at `i` time divisions
      over 50, and at its distance from the zero-level `offset` in voltage
      divisions over 50. */
  function SamplePoint(i: nat, sample: u16, voltageScale: Scale, timeScale: Scale, offset: u16): Point {
    Point(i as real * GetScale(timeScale) / DivisionPoints,
          (sample as real - offset as real) * GetScale(voltageScale) / DivisionPoints)
  }

  /** `generate_points`: every sample drawn, in order. */
  function GeneratePoints(values: seq<u16>, voltageScale: Scale, timeScale: Scale, offset: u16): seq<Point> {
    seq(|values|, i requires 0 <= i < |values| => SamplePoint(i, values[i], voltageScale, timeScale, offset))
  }

  /** One point per sample, in order; the first at time 0; and the `i`-th
      point depends on nothing but `i` and the `i`-th sample. */
  lemma PointsFollowSamples(values: seq<u16>, other: seq<u16>, voltageScale: Scale, timeScale: Scale, offset: u16, i: nat)
    ensures |GeneratePoints(values, voltageScale, timeScale, offset)| == |values|
    ensures |values| > 0 ==> GeneratePoints(values, voltageScale, timeScale, offset)[0].time == 0.0
    ensures i < |values| && i < |other| && values[i] == other[i] ==>
      GeneratePoints(values, voltageScale, timeScale, offset)[i] == GeneratePoints(other, voltageScale, timeScale, offset)[i]
  {
  }

  /** With a positive time scale, as every table entry has, time strictly increases. */
  lemma TimeIncreases(values: seq<u16>, voltageScale: Scale, timeScale: Scale, offset: u16, i: nat, j: nat)
    requires GetScale(timeScale) > 0.0 && i < j < |values|
    ensures GeneratePoints(values, voltageScale, timeScale, offset)[i].time
          < GeneratePoints(values, voltageScale, timeScale, offset)[j].time
  {
    var c := GetScale(timeScale);
    assert (j as real - i as real) * c > 0.0;
    assert j as real * c - i as real * c == (j as real - i as real) * c;
  }

  /** Voltage is an affine function of the sample, with slope scale / 50, and
      with a nonzero scale it is zero exactly at the zero-level offset. */
  lemma VoltageIsAffine(values: seq<u16>, voltageScale: Scale, timeScale: Scale, offset: u16, i: nat, j: nat)
    requires i < |values| && j < |values|
    ensures var p := GeneratePoints(values, voltageScale, timeScale, offset);
      p[i].voltage - p[j].voltage == (values[i] as real - values[j] as real) * (GetScale(voltageScale) / DivisionPoints)
    ensures GetScale(voltageScale) != 0.0 ==>
      (GeneratePoints(values, voltageScale, timeScale, offset)[i].voltage == 0.0 <==> values[i] == offset)
  {
    var c := GetScale(voltageScale);
    var x := values[i] as real - offset as real;
    var y := values[j] as real - offset as real;
    assert x * c / 50.0 - y * c / 50.0 == (x - y) * (c / 50.0);
    if c != 0.0 && x * c / 50.0 == 0.0 {
      assert x * c == 0.0;
    }
  }

  /** At 1 s/div and 1 V/div (time code 5 and voltage code 2, by
      `Scales.UnitScales`) with zero level 512, the samples 512 and 1024 are
      drawn at (0 s, 0 V) and (0.02 s, 10.24 V). */
  lemma PointsScenario()
    ensures GeneratePoints([512, 1024], Scale(1.0, 0, Volt), Scale(1.0, 0, Second), 512)
         == [Point(0.0, 0.0), Point(0.02, 10.24)]
  {
    var t := Scale(1.0, 0, Second);
    var p := GeneratePoints([512, 1024], Scale(1.0, 0, Volt), t, 512);
    var c, d := GetScale(t), GetScale(Scale(1.0, 0, Volt));
    assert c == 1.0 == d;
    assert p[1] == SamplePoint(1, 1024, Scale(1.0, 0, Volt), t, 512);
    assert p[1].time == 1 as real * c / DivisionPoints;
    assert p[1].time == 0.02;
    assert p[1].voltage == (1024 as real - 512 as real) * d / DivisionPoints;
    assert p[1].voltage == 10.24;
    assert p[0] == Point(0.0, 0.0);
  }

  datatype Trigger = Trigger(triggerType: TriggerType, edge: TriggerEdge, channel: TriggerChannel, trigger50: Trigger50)

  datatype Channel = Channel(
    scale: Scale, coupling: Coupling, attenuation: Attenuation,
    measurements: ProcessedMeasurements, points: seq<Point>)

  datatype Data = Data(trigger: Trigger, timeScale: Scale, channel1: Channel, channel2: Channel)

  /** The `Trigger` literal in `main`: its four codes resolved in field order. */
  function ResolveTrigger(h: Header): Result<Trigger, ConversionError> {
    var triggerType :- TriggerTypeFrom(h.triggerType);
    var edge :- TriggerEdgeFrom(h.triggerEdge);
    var channel :- TriggerChannelFrom(h.triggerChannel);
    var trigger50 :- Trigger50From(h.trigger50);
    Ok(Trigger(triggerType, edge, channel, trigger50))
  }

  /** A `Channel` literal in `main`: coupling, then attenuation, resolved. */
  function ResolveChannel(scale: Scale, coupling: u16, probe: u16, m: Measurements, points: seq<Point>): Result<Channel, ConversionError> {
    var c :- CouplingFrom(coupling);
    var a :- AttenuationFrom(probe);
    Ok(Channel(scale, c, a, ProcessMeasurements(m), points))
  }

  /** The body of `main`'s parsed branch, with channel 2's points drawn from
      `channel2Samples`. Every `try_into().unwrap()` is a `:-`, in the order
      `main` evaluates them, so the first code that does not resolve is the
      error and no partial record is built. */
  function Assemble(file: File, channel2Samples: seq<u16>): Result<Data, ConversionError> {
    var h := file.header;
    var timeScale :- TimeScaleFrom(h.timeScale);
    var channel1Scale :- VoltScaleFrom(h.channel1Scale);
    var channel2Scale :- VoltScaleFrom(h.channel2Scale);
    var channel1Points := GeneratePoints(file.channel11, channel1Scale, timeScale, h.channel1Offset);
    var channel2Points := GeneratePoints(channel2Samples, channel2Scale, timeScale, h.channel2Offset);
    var trigger :- ResolveTrigger(h);
    var channel1 :- ResolveChannel(channel1Scale, h.channel1Coupling, h.channel1Probe, h.channel1Measurements, channel1Points);
    var channel2 :- ResolveChannel(channel2Scale, h.channel2Coupling, h.channel2Probe, h.channel2Measurements, channel2Points);
    Ok(Data(trigger, timeScale, channel1, channel2))
  }

  /** `main` as written: channel 2's points come from `channel11`. */
  function Parse(file: File): Result<Data, ConversionError> {
    Assemble(file, file.channel11)
  }

  /** `main` as evidently intended: channel 2's points come from `channel21`. */
  function ParseCorrected(file: File): Result<Data, ConversionError> {
    Assemble(file, file.channel21)
  }

  type Code = (string, u16, nat)

  /** A code with the name of its target type and that type's number of values. */
  function ScaleCodes(h: Header): seq<Code> {
    [("Scale<Second>", h.timeScale, 33), ("Scale<Volt>", h.channel1Scale, 7), ("Scale<Volt>", h.channel2Scale, 7)]
  }

  function TriggerCodes(h: Header): seq<Code> {
    [("TriggerType", h.triggerType, 3), ("TriggerEdge", h.triggerEdge, 2),
     ("TriggerChannel", h.triggerChannel, 2), ("Trigger50", h.trigger50, 2)]
  }

  function ChannelCodes(coupling: u16, probe: u16): seq<Code> {
    [("Coupling", coupling, 2), ("Attenuation", probe, 3)]
  }

  /** The codes `main` resolves, in the order it resolves them. The scroll
      speed is not among them. */
  function ResolvedCodes(h: Header): seq<Code> {
    ScaleCodes(h) + TriggerCodes(h)
      + ChannelCodes(h.channel1Coupling, h.channel1Probe)
      + ChannelCodes(h.channel2Coupling, h.channel2Probe)
  }

  /** The error for the first code that is not below its type's count. */
  function FirstUnresolved(codes: seq<Code>): Option<ConversionError> {
    if codes == [] then None
    else if codes[0].1 as int >= codes[0].2 then Some(ConversionError(codes[0].0, codes[0].1))
    else FirstUnresolved(codes[1..])
  }

  /** Scanning from position `k`: the code there, or failing that the rest. */
  lemma FirstUnresolvedAt(codes: seq<Code>, k: nat)
    requires k < |codes|
    ensures FirstUnresolved(codes[k..]) ==
      if codes[k].1 as int >= codes[k].2 then Some(ConversionError(codes[k].0, codes[k].1))
      else FirstUnresolved(codes[k + 1..])
  {
    assert codes[k..][1..] == codes[k + 1..];
  }

  /** The first failure of a concatenation is in its first part if there is one there. */
  lemma {:induction false} FirstUnresolvedAppend(a: seq<Code>, b: seq<Code>)
    ensures FirstUnresolved(a + b) == if FirstUnresolved(a).Some? then FirstUnresolved(a) else FirstUnresolved(b)
    decreases |a|
  {
    if a != [] {
      assert (a + b)[1..] == a[1..] + b;
      FirstUnresolvedAppend(a[1..], b);
    } else {
      assert a + b == b;
    }
  }

  lemma ResolveTriggerFailsClosed(h: Header)
    ensures ResolveTrigger(h).Err? <==> FirstUnresolved(TriggerCodes(h)).Some?
    ensures ResolveTrigger(h).Err? ==> ResolveTrigger(h).error == FirstUnresolved(TriggerCodes(h)).value
    ensures ResolveTrigger(h).Ok? ==> ResolveTrigger(h).value == Trigger(
      TriggerTypeVariants[h.triggerType], TriggerEdgeVariants[h.triggerEdge],
      TriggerChannelVariants[h.triggerChannel], Trigger50Variants[h.trigger50])
  {
    var t := TriggerCodes(h);
    assert t[0..] == t && t[4..] == [];
    FirstUnresolvedAt(t, 0);
    FirstUnresolvedAt(t, 1);
    FirstUnresolvedAt(t, 2);
    FirstUnresolvedAt(t, 3);
    TriggerTypeCodec(h.triggerType, Auto);
    TriggerEdgeCodec(h.triggerEdge, Rising);
    TriggerChannelCodec(h.triggerChannel, Channel1);
    Trigger50Codec(h.trigger50, On);
  }

  lemma ResolveChannelFailsClosed(scale: Scale, coupling: u16, probe: u16, m: Measurements, points: seq<Point>)
    ensures ResolveChannel(scale, coupling, probe, m, points).Err? <==> FirstUnresolved(ChannelCodes(coupling, probe)).Some?
    ensures ResolveChannel(scale, coupling, probe, m, points).Err? ==>
      ResolveChannel(scale, coupling, probe, m, points).error == FirstUnresolved(ChannelCodes(coupling, probe)).value
    ensures ResolveChannel(scale, coupling, probe, m, points).Ok? ==>
      ResolveChannel(scale, coupling, probe, m, points).value ==
        Channel(scale, CouplingVariants[coupling], AttenuationVariants[probe], ProcessMeasurements(m), points)
  {
    CouplingCodec(coupling, DC);
    AttenuationCodec(probe, OneX);
  }

  lemma ResolveScalesFailsClosed(h: Header)
    ensures FirstUnresolved(ScaleCodes(h)).None? <==>
      TimeScaleFrom(h.timeScale).Ok? && VoltScaleFrom(h.channel1Scale).Ok? && VoltScaleFrom(h.channel2Scale).Ok?
    ensures FirstUnresolved(ScaleCodes(h)).Some? ==>
      FirstUnresolved(ScaleCodes(h)).value ==
      if TimeScaleFrom(h.timeScale).Err? then TimeScaleFrom(h.timeScale).error
      else if VoltScaleFrom(h.channel1Scale).Err? then VoltScaleFrom(h.channel1Scale).error
      else VoltScaleFrom(h.channel2Scale).error
  {
    var s := ScaleCodes(h);
    assert s[0..] == s && s[3..] == [];
    FirstUnresolvedAt(s, 0);
    FirstUnresolvedAt(s, 1);
    FirstUnresolvedAt(s, 2);
    TimeScaleLookup(h.timeScale);
    VoltScaleLookup(h.channel1Scale);
    VoltScaleLookup(h.channel2Scale);
  }

  /** Fail-closed resolution: `main` produces a record exactly when every code
      it resolves is in range, and otherwise fails with the conversion error of
      the first code, in evaluation order, that is not. */
  lemma AssembleFailsClosed(file: File, channel2Samples: seq<u16>)
    ensures Assemble(file, channel2Samples).Err? <==> FirstUnresolved(ResolvedCodes(file.header)).Some?
    ensures Assemble(file, channel2Samples).Err? ==>
      Assemble(file, channel2Samples).error == FirstUnresolved(ResolvedCodes(file.header)).value
  {
    var h := file.header;
    var s, t := ScaleCodes(h), TriggerCodes(h);
    var c1, c2 := ChannelCodes(h.channel1Coupling, h.channel1Probe), ChannelCodes(h.channel2Coupling, h.channel2Probe);
    FirstUnresolvedAppend(s + t + c1, c2);
    FirstUnresolvedAppend(s + t, c1);
    FirstUnresolvedAppend(s, t);
    ResolveScalesFailsClosed(h);
    ResolveTriggerFailsClosed(h);
    ResolveChannelFailsClosed(Scale(0.0, 0, Volt), h.channel1Coupling, h.channel1Probe, h.channel1Measurements, []);
    ResolveChannelFailsClosed(Scale(0.0, 0, Volt), h.channel2Coupling, h.channel2Probe, h.channel2Measurements, []);
  }

  /** What a resolved record holds: every code looked up in its table, the
      statistics processed, and each channel's points drawn from its samples
      against its own voltage scale and zero level and the shared time scale. */
  lemma AssembleContents(file: File, channel2Samples: seq<u16>)
    ensures Assemble(file, channel2Samples).Ok? ==>
      var h := file.header;
      var timeScale := TimeScales[h.timeScale];
      var channel1Scale := ProbeScales[h.channel1Scale];
      var channel2Scale := ProbeScales[h.channel2Scale];
      Assemble(file, channel2Samples).value == Data(
        Trigger(TriggerTypeVariants[h.triggerType], TriggerEdgeVariants[h.triggerEdge],
                TriggerChannelVariants[h.triggerChannel], Trigger50Variants[h.trigger50]),
        timeScale,
        Channel(channel1Scale, CouplingVariants[h.channel1Coupling], AttenuationVariants[h.channel1Probe],
                ProcessMeasurements(h.channel1Measurements),
                GeneratePoints(file.channel11, channel1Scale, timeScale, h.channel1Offset)),
        Channel(channel2Scale, CouplingVariants[h.channel2Coupling], AttenuationVariants[h.channel2Probe],
                ProcessMeasurements(h.channel2Measurements),
                GeneratePoints(channel2Samples, channel2Scale, timeScale, h.channel2Offset)))
  {
    var h := file.header;
    TimeScaleLookup(h.timeScale);
    VoltScaleLookup(h.channel1Scale);
    VoltScaleLookup(h.channel2Scale);
    ResolveTriggerFailsClosed(h);
    if Assemble(file, channel2Samples).Ok? {
      var timeScale := TimeScales[h.timeScale];
      var channel1Scale := ProbeScales[h.channel1Scale];
      var channel2Scale := ProbeScales[h.channel2Scale];
      ResolveChannelFailsClosed(channel1Scale, h.channel1Coupling, h.channel1Probe, h.channel1Measurements,
        GeneratePoints(file.channel11, channel1Scale, timeScale, h.channel1Offset));
      ResolveChannelFailsClosed(channel2Scale, h.channel2Coupling, h.channel2Probe, h.channel2Measurements,
        GeneratePoints(channel2Samples, channel2Scale, timeScale, h.channel2Offset));
    }
  }

  /** The header with the words `main` never reads blanked out: the scroll
      speed and the two brightness settings. */
  function ReadHeaderWords(h: Header): Header {
    h.(scrollSpeed := 0, screenBrightness := 0, gridBrightness := 0)
  }

  /** As written, the record depends on the header's read words and on
      `channel11` alone: `channel21` (like the fine traces and the scroll
      speed) has no effect on it. */
  lemma ParseIgnoresChannel21(f: File, g: File)
    requires ReadHeaderWords(f.header) == ReadHeaderWords(g.header) && f.channel11 == g.channel11
    ensures Parse(f) == Parse(g)
  {
    assert f.header.timeScale == g.header.timeScale;
  }

  /** Corrected, the record depends on the header's read words and on the two
      coarse traces, and on nothing else. */
  lemma ParseCorrectedReads(f: File, g: File)
    requires ReadHeaderWords(f.header) == ReadHeaderWords(g.header)
    requires f.channel11 == g.channel11 && f.channel21 == g.channel21
    ensures ParseCorrected(f) == ParseCorrected(g)
  {
    assert f.header.timeScale == g.header.timeScale;
  }

  /** As written, a capture whose channel 1 is flat at its zero level and
      whose channel 2 sits one code above its own is reported with channel 2
      flat at 0 V as well: its points are drawn from channel 1's samples. */
  lemma Channel2DrawnFromChannel1()
    ensures exists f: File ::
      && WellFormed(f) && Parse(f).Ok? && ParseCorrected(f).Ok?
      && Parse(f).value.channel2.points[0].voltage == 0.0
      && ParseCorrected(f).value.channel2.points[0].voltage == 0.1
  {
    var m := Measurements(0, 0, 0, 0, 0, 0, 0, 0, 0, 0, 0, 0, 0);
    var h := Header(0, 0, 0, 0, 0, 0, 0, 0, 0, 0, 0, 0, 0, 0, 0, 0, m, m);
    var f := File(h, seq(1500, _ => 0), seq(1500, _ => 1), seq(750, _ => 0), seq(750, _ => 0));
    VoltScaleLookup(0);
    AssembleContents(f, f.channel11);
    AssembleContents(f, f.channel21);
    var c := GetScale(ProbeScales[0]);
    assert c == 5.0;
    assert Parse(f).value.channel2.points[0].voltage == (0 as real - 0 as real) * c / DivisionPoints;
    assert ParseCorrected(f).value.channel2.points[0].voltage == (1 as real - 0 as real) * c / DivisionPoints;
  }

  /** Corrected, each channel's points are drawn from that channel's own coarse trace. */
  lemma ParseCorrectedUsesOwnTraces(f: File)
    ensures ParseCorrected(f).Ok? ==>
      var d := ParseCorrected(f).value;
      d.channel1.points == GeneratePoints(f.channel11, d.channel1.scale, d.timeScale, f.header.channel1Offset)
      && d.channel2.points == GeneratePoints(f.channel21, d.channel2.scale, d.timeScale, f.header.channel2Offset)
  {
    AssembleContents(f, f.channel21);
  }

  /** From a decoded capture to the screen, as written: channel 2's `i`-th
      point is drawn from channel 1's sample word at byte 1000 + 2i, against
      channel 2's own zero level (byte 86) and voltage code (byte 14). */
  lemma DecodedCapturePointsAsWritten(b: seq<u8>, i: nat)
    requires FileSize <= |b| && Parse(FileAt(b)).Ok? && i < CoarseCount
    ensures var d := Parse(FileAt(b)).value;
      |d.channel1.points| == CoarseCount == |d.channel2.points|
      && d.channel1.points[i] == SamplePoint(i, LeU16(b, 1000 + 2 * i),
           ProbeScales[LeU16(b, 4)], TimeScales[LeU16(b, 22)], LeU16(b, 84))
      && d.channel2.points[i] == SamplePoint(i, LeU16(b, 1000 + 2 * i),
           ProbeScales[LeU16(b, 14)], TimeScales[LeU16(b, 22)], LeU16(b, 86))
  {
    var f := FileAt(b);
    assert f.header == HeaderAt(b, 0);
    SampleOffsets(b, i);
    AssembleContents(f, f.channel11);
  }

  /** From a decoded capture to the screen, corrected: each channel holds 1500 points,
      the `i`-th drawn from the sample word at byte 1000 + 2i (channel 1) or
      4000 + 2i (channel 2), against the zero level at byte 84 or 86, the
      voltage code at byte 4 or 14 and the time code at byte 22. */
  lemma DecodedCapturePoints(b: seq<u8>, i: nat)
    requires FileSize <= |b| && ParseCorrected(FileAt(b)).Ok? && i < CoarseCount
    ensures var d := ParseCorrected(FileAt(b)).value;
      |d.channel1.points| == CoarseCount == |d.channel2.points|
      && d.channel1.points[i] == SamplePoint(i, LeU16(b, 1000 + 2 * i),
           ProbeScales[LeU16(b, 4)], TimeScales[LeU16(b, 22)], LeU16(b, 84))
      && d.channel2.points[i] == SamplePoint(i, LeU16(b, 4000 + 2 * i),
           ProbeScales[LeU16(b, 14)], TimeScales[LeU16(b, 22)], LeU16(b, 86))
  {
    var f := FileAt(b);
    var h := f.header;
    assert h == HeaderAt(b, 0);
    SampleOffsets(b, i);
    AssembleContents(f, f.channel21);
  }
}
