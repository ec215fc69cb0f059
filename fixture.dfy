/** A writer for the capture layout: the bytes a device would save for a
    given `File`, with every padding byte zero. It exists to state that the
    layout loses nothing: decoding what it writes gives back the file. */
module Fixture {
  import opened Wrappers
  import opened Primitives
  import opened Layout

  /** The word a measurement block holds at byte `r` of the block, if any. */
  function MeasurementsWordAt(m: Measurements, r: int): Option<u16> {
    if r == 2 then Some(m.vmax)
    else if r == 6 then Some(m.vmin)
    else if r == 10 then Some(m.vavg)
    else if r == 14 then Some(m.vrms)
    else if r == 18 then Some(m.vpp)
    else if r == 22 then Some(m.vp)
    else if r == 24 then Some(m.frequencyHigh)
    else if r == 26 then Some(m.frequencyLow)
    else if r == 30 then Some(m.cycleNs)
    else if r == 34 then Some(m.timePlusNs)
    else if r == 38 then Some(m.timeMinusNs)
    else if r == 42 then Some(m.dutyPlusPercentage)
    else if r == 46 then Some(m.dutyMinusPercentage)
    else None
  }

  /** The word the header holds at byte `k` of the file, if any. */
  function HeaderWordAt(h: Header, k: int): Option<u16> {
    if k == 4 then Some(h.channel1Scale)
    else if k == 8 then Some(h.channel1Coupling)
    else if k == 10 then Some(h.channel1Probe)
    else if k == 14 then Some(h.channel2Scale)
    else if k == 18 then Some(h.channel2Coupling)
    else if k == 20 then Some(h.channel2Probe)
    else if k == 22 then Some(h.timeScale)
    else if k == 24 then Some(h.scrollSpeed)
    else if k == 26 then Some(h.triggerType)
    else if k == 28 then Some(h.triggerEdge)
    else if k == 30 then Some(h.triggerChannel)
    else if k == 84 then Some(h.channel1Offset)
    else if k == 86 then Some(h.channel2Offset)
    else if k == 120 then Some(h.screenBrightness)
    else if k == 122 then Some(h.gridBrightness)
    else if k == 124 then Some(h.trigger50)
    else if Channel1MeasurementsOffset <= k < Channel2MeasurementsOffset then
      MeasurementsWordAt(h.channel1Measurements, k - Channel1MeasurementsOffset)
    else if Channel2MeasurementsOffset <= k < HeaderEnd then
      MeasurementsWordAt(h.channel2Measurements, k - Channel2MeasurementsOffset)
    else None
  }

  /** The `i`-th word of a run, if the run has one. */
  function RunWord(run: seq<u16>, i: int): Option<u16> {
    if 0 <= i < |run| then Some(run[i]) else None
  }

  /** The word that starts at byte `k` of the file, if any. Every word starts
      at an even offset. */
  function WordAt(f: File, k: int): Option<u16> {
    if k < 0 || k % 2 != 0 then None
    else if k < SamplesOffset then HeaderWordAt(f.header, k)
    else if k < 4000 then RunWord(f.channel11, (k - SamplesOffset) / 2)
    else if k < 7000 then RunWord(f.channel21, (k - 4000) / 2)
    else if k < 8500 then RunWord(f.channel12, (k - 7000) / 2)
    else RunWord(f.channel22, (k - 8500) / 2)
  }

  /** Byte `k`: the low byte of the word starting there, the high byte of the
      word starting just before, or zero padding. */
  function ByteAt(f: File, k: int): u8 {
    match WordAt(f, k)
    case Some(w) => LowByte(w)
    case None =>
      match WordAt(f, k - 1)
      case Some(w) => HighByte(w)
      case None => 0
  }

  function Encode(f: File): (b: seq<u8>)
    ensures |b| == FileSize
  {
    seq(FileSize, k requires 0 <= k < FileSize => ByteAt(f, k))
  }

  /** Every word written is read back from where it was written. */
  lemma WordRoundTrip(f: File, k: nat)
    requires k + 2 <= FileSize && WordAt(f, k).Some?
    ensures LeU16(Encode(f), k) == WordAt(f, k).value
  {
    var w := WordAt(f, k).value;
    var b := Encode(f);
    assert WordAt(f, k + 1).None?;
    assert b[k] == LowByte(w) && b[k + 1] == HighByte(w);
    LeU16OfLeBytes(w);
  }

  lemma MeasurementsRoundTrip(f: File, base: nat, m: Measurements)
    requires base == Channel1MeasurementsOffset || base == Channel2MeasurementsOffset
    requires m == (if base == Channel1MeasurementsOffset then f.header.channel1Measurements else f.header.channel2Measurements)
    ensures MeasurementsAt(Encode(f), base) == m
  {
    WordRoundTrip(f, base + 2);
    WordRoundTrip(f, base + 6);
    WordRoundTrip(f, base + 10);
    WordRoundTrip(f, base + 14);
    WordRoundTrip(f, base + 18);
    WordRoundTrip(f, base + 22);
    WordRoundTrip(f, base + 24);
    WordRoundTrip(f, base + 26);
    WordRoundTrip(f, base + 30);
    WordRoundTrip(f, base + 34);
    WordRoundTrip(f, base + 38);
    WordRoundTrip(f, base + 42);
    WordRoundTrip(f, base + 46);
  }

  lemma HeaderRoundTrip(f: File)
    ensures HeaderAt(Encode(f), 0) == f.header
  {
    WordRoundTrip(f, 4);
    WordRoundTrip(f, 8);
    WordRoundTrip(f, 10);
    WordRoundTrip(f, 14);
    WordRoundTrip(f, 18);
    WordRoundTrip(f, 20);
    WordRoundTrip(f, 22);
    WordRoundTrip(f, 24);
    WordRoundTrip(f, 26);
    WordRoundTrip(f, 28);
    WordRoundTrip(f, 30);
    WordRoundTrip(f, 84);
    WordRoundTrip(f, 86);
    WordRoundTrip(f, 120);
    WordRoundTrip(f, 122);
    WordRoundTrip(f, 124);
    MeasurementsRoundTrip(f, Channel1MeasurementsOffset, f.header.channel1Measurements);
    MeasurementsRoundTrip(f, Channel2MeasurementsOffset, f.header.channel2Measurements);
  }

  /** The run `main` reads from byte `start`, if a run starts there. */
  function RunFrom(f: File, start: nat): seq<u16> {
    if start == SamplesOffset then f.channel11
    else if start == 4000 then f.channel21
    else if start == 7000 then f.channel12
    else f.channel22
  }

  lemma SampleWordAt(f: File, start: nat, i: nat)
    requires start in {SamplesOffset, 4000, 7000, 8500} && WellFormed(f)
    requires i < (if start < 7000 then CoarseCount else FineCount)
    ensures i < |RunFrom(f, start)| && WordAt(f, start + 2 * i) == Some(RunFrom(f, start)[i])
  {
    var k := start + 2 * i;
    assert k % 2 == 0 && (k - start) / 2 == i;
  }

  lemma RunRoundTrip(f: File, start: nat)
    requires start in {SamplesOffset, 4000, 7000, 8500} && WellFormed(f)
    ensures Words(Encode(f), start, |RunFrom(f, start)|) == RunFrom(f, start)
  {
    var run := RunFrom(f, start);
    forall i | 0 <= i < |run|
      ensures Words(Encode(f), start, |run|)[i] == run[i]
    {
      SampleWordAt(f, start, i);
      WordRoundTrip(f, start + 2 * i);
    }
  }

  /** The layout loses nothing: reading the fields of the bytes written for a
      well-formed file gives back that file, so `Decoder.DecodeFile` returns it. */
  lemma DecodeEncode(f: File)
    requires WellFormed(f)
    ensures FileAt(Encode(f)) == f
  {
    HeaderRoundTrip(f);
    RunRoundTrip(f, SamplesOffset);
    RunRoundTrip(f, 4000);
    RunRoundTrip(f, 7000);
    RunRoundTrip(f, 8500);
  }
}
