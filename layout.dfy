/** The one on-disk layout of a capture: every field is a little-endian u16 at
    a fixed byte offset. This module states the layout declaratively, as the
    field each offset holds; `Decoder` reaches the same fields with a cursor. */
module Layout {
  import opened Primitives

  /** Summary statistics of one channel, raw device codes. */
  datatype Measurements = Measurements(
    vmax: u16, vmin: u16, vavg: u16, vrms: u16, vpp: u16, vp: u16,
    frequencyHigh: u16, frequencyLow: u16,
    cycleNs: u16, timePlusNs: u16, timeMinusNs: u16,
    dutyPlusPercentage: u16, dutyMinusPercentage: u16)

  /** Channel and trigger settings as raw codes, with both measurement blocks. */
  datatype Header = Header(
    channel1Scale: u16, channel1Coupling: u16, channel1Probe: u16,
    channel2Scale: u16, channel2Coupling: u16, channel2Probe: u16,
    timeScale: u16, scrollSpeed: u16,
    triggerType: u16, triggerEdge: u16, triggerChannel: u16,
    channel1Offset: u16, channel2Offset: u16,
    screenBrightness: u16, gridBrightness: u16, trigger50: u16,
    channel1Measurements: Measurements, channel2Measurements: Measurements)

  /** A decoded capture: the header and four runs of raw sample codes
      (channel 1 and 2 coarse, 1500 each; channel 1 and 2 fine, 750 each). */
  datatype File = File(
    header: Header,
    channel11: seq<u16>, channel21: seq<u16>, channel12: seq<u16>, channel22: seq<u16>)

  /** Bytes from the start of a Header to the end of its last forward field, `trigger_50`. */
  const HeaderFieldsSize: nat := 126
  const Channel1MeasurementsOffset: nat := 208
  const Channel2MeasurementsOffset: nat := 256
  const MeasurementsSize: nat := 48
  /** Where the header's reads end: the end of the channel 2 measurement block. */
  const HeaderEnd: nat := Channel2MeasurementsOffset + MeasurementsSize
  const SamplesOffset: nat := 1000
  const CoarseCount: nat := 1500
  const FineCount: nat := 750
  /** Where `channel22`, the last read, ends: 1000 + 2 * (1500 + 1500 + 750 + 750). */
  const FileSize: nat := SamplesOffset + 2 * (CoarseCount + CoarseCount + FineCount + FineCount)

  /** The measurement block whose first byte is `base`. */
  function MeasurementsAt(b: seq<u8>, base: nat): Measurements
    requires base + MeasurementsSize <= |b|
  {
    Measurements(
      vmax := LeU16(b, base + 2),
      vmin := LeU16(b, base + 6),
      vavg := LeU16(b, base + 10),
      vrms := LeU16(b, base + 14),
      vpp := LeU16(b, base + 18),
      vp := LeU16(b, base + 22),
      frequencyHigh := LeU16(b, base + 24),
      frequencyLow := LeU16(b, base + 26),
      cycleNs := LeU16(b, base + 30),
      timePlusNs := LeU16(b, base + 34),
      timeMinusNs := LeU16(b, base + 38),
      dutyPlusPercentage := LeU16(b, base + 42),
      dutyMinusPercentage := LeU16(b, base + 46))
  }

  predicate HeaderFits(start: nat, size: nat) {
    start + HeaderFieldsSize <= size && HeaderEnd <= size
  }

  /** The header read from byte `start`: its forward fields are relative to
      `start`, its measurement blocks at absolute offsets 208 and 256. */
  function HeaderAt(b: seq<u8>, start: nat): Header
    requires HeaderFits(start, |b|)
  {
    Header(
      channel1Scale := LeU16(b, start + 4),
      channel1Coupling := LeU16(b, start + 8),
      channel1Probe := LeU16(b, start + 10),
      channel2Scale := LeU16(b, start + 14),
      channel2Coupling := LeU16(b, start + 18),
      channel2Probe := LeU16(b, start + 20),
      timeScale := LeU16(b, start + 22),
      scrollSpeed := LeU16(b, start + 24),
      triggerType := LeU16(b, start + 26),
      triggerEdge := LeU16(b, start + 28),
      triggerChannel := LeU16(b, start + 30),
      channel1Offset := LeU16(b, start + 84),
      channel2Offset := LeU16(b, start + 86),
      screenBrightness := LeU16(b, start + 120),
      gridBrightness := LeU16(b, start + 122),
      trigger50 := LeU16(b, start + 124),
      channel1Measurements := MeasurementsAt(b, Channel1MeasurementsOffset),
      channel2Measurements := MeasurementsAt(b, Channel2MeasurementsOffset))
  }

  /** The capture a buffer of at least `FileSize` bytes holds. */
  function FileAt(b: seq<u8>): File
    requires FileSize <= |b|
  {
    File(
      HeaderAt(b, 0),
      channel11 := Words(b, SamplesOffset, CoarseCount),
      channel21 := Words(b, SamplesOffset + 2 * CoarseCount, CoarseCount),
      channel12 := Words(b, SamplesOffset + 4 * CoarseCount, FineCount),
      channel22 := Words(b, SamplesOffset + 4 * CoarseCount + 2 * FineCount, FineCount))
  }

  /** The run lengths every decoded capture has. */
  predicate WellFormed(f: File) {
    |f.channel11| == CoarseCount && |f.channel21| == CoarseCount
    && |f.channel12| == FineCount && |f.channel22| == FineCount
  }

  /** Offsets of the header's words from the header start, and of a measurement
      block's words from the block start. */
  const HeaderWordOffsets: set<int> := {4, 8, 10, 14, 18, 20, 22, 24, 26, 28, 30, 84, 86, 120, 122, 124}
  const MeasurementsWordOffsets: set<int> := {2, 6, 10, 14, 18, 22, 24, 26, 30, 34, 38, 42, 46}

  predicate InWord(offsets: set<int>, k: int) {
    k in offsets || k - 1 in offsets
  }

  /** Byte `k` of a capture is part of some decoded field; every other byte
      below `FileSize` is padding that the decoder skips or seeks over. */
  predicate IsFieldByte(k: int) {
    InWord(HeaderWordOffsets, k)
    || InWord(MeasurementsWordOffsets, k - Channel1MeasurementsOffset)
    || InWord(MeasurementsWordOffsets, k - Channel2MeasurementsOffset)
    || SamplesOffset <= k < FileSize
  }

  /** Where each sample run lives: `channel11[i]` at 1000 + 2i, `channel21[i]`
      at 4000 + 2i, `channel12[i]` at 7000 + 2i, `channel22[i]` at 8500 + 2i. */
  lemma SampleOffsets(b: seq<u8>, i: nat)
    requires FileSize <= |b|
    ensures FileSize == 10000 && WellFormed(FileAt(b))
    ensures i < 1500 ==> FileAt(b).channel11[i] == LeU16(b, 1000 + 2 * i)
    ensures i < 1500 ==> FileAt(b).channel21[i] == LeU16(b, 4000 + 2 * i)
    ensures i < 750 ==> FileAt(b).channel12[i] == LeU16(b, 7000 + 2 * i)
    ensures i < 750 ==> FileAt(b).channel22[i] == LeU16(b, 8500 + 2 * i)
  {
  }

  /** A measurement block is exactly the 48 bytes from its base: its value is
      the one decoded from those bytes alone. */
  lemma MeasurementsBlockIsLocal(b: seq<u8>, base: nat)
    requires base + MeasurementsSize <= |b|
    ensures MeasurementsAt(b, base) == MeasurementsAt(b[base..base + MeasurementsSize], 0)
  {
  }

  lemma MeasurementsDependOnlyOnFieldBytes(b1: seq<u8>, b2: seq<u8>, base: nat)
    requires base + MeasurementsSize <= |b1| && base + MeasurementsSize <= |b2|
    requires forall j :: 0 <= j < MeasurementsSize && InWord(MeasurementsWordOffsets, j) ==> b1[base + j] == b2[base + j]
    ensures MeasurementsAt(b1, base) == MeasurementsAt(b2, base)
  {
    forall j | j in MeasurementsWordOffsets
      ensures LeU16(b1, base + j) == LeU16(b2, base + j)
    {
      assert InWord(MeasurementsWordOffsets, j) && InWord(MeasurementsWordOffsets, j + 1);
    }
  }

  lemma HeaderDependsOnlyOnFieldBytes(b1: seq<u8>, b2: seq<u8>)
    requires HeaderFits(0, |b1|) && HeaderFits(0, |b2|)
    requires forall k :: 0 <= k < HeaderEnd && IsFieldByte(k) ==> b1[k] == b2[k]
    ensures HeaderAt(b1, 0) == HeaderAt(b2, 0)
  {
    forall k | 0 <= k < HeaderFieldsSize && InWord(HeaderWordOffsets, k)
      ensures b1[k] == b2[k]
    {
      assert IsFieldByte(k);
    }
    MeasurementsFieldBytes(b1, b2, Channel1MeasurementsOffset);
    MeasurementsFieldBytes(b1, b2, Channel2MeasurementsOffset);
    MeasurementsDependOnlyOnFieldBytes(b1, b2, Channel1MeasurementsOffset);
    MeasurementsDependOnlyOnFieldBytes(b1, b2, Channel2MeasurementsOffset);
    forall k | k in HeaderWordOffsets
      ensures LeU16(b1, k) == LeU16(b2, k)
    {
      assert InWord(HeaderWordOffsets, k) && InWord(HeaderWordOffsets, k + 1);
    }
  }

  lemma MeasurementsFieldBytes(b1: seq<u8>, b2: seq<u8>, base: nat)
    requires base == Channel1MeasurementsOffset || base == Channel2MeasurementsOffset
    requires HeaderEnd <= |b1| && HeaderEnd <= |b2|
    requires forall k :: 0 <= k < HeaderEnd && IsFieldByte(k) ==> b1[k] == b2[k]
    ensures forall j :: 0 <= j < MeasurementsSize && InWord(MeasurementsWordOffsets, j) ==> b1[base + j] == b2[base + j]
  {
    forall j | 0 <= j < MeasurementsSize && InWord(MeasurementsWordOffsets, j)
      ensures b1[base + j] == b2[base + j]
    {
      assert IsFieldByte(base + j);
    }
  }

  lemma WordsDependOnlyOnTheirBytes(b1: seq<u8>, b2: seq<u8>, start: nat, count: nat)
    requires start + 2 * count <= |b1| && start + 2 * count <= |b2|
    requires forall k :: start <= k < start + 2 * count ==> b1[k] == b2[k]
    ensures Words(b1, start, count) == Words(b2, start, count)
  {
  }

  /** Only field bytes matter: two buffers that agree on every field byte
      decode to the same capture, whatever their padding and trailing bytes. */
  lemma FileDependsOnlyOnFieldBytes(b1: seq<u8>, b2: seq<u8>)
    requires FileSize <= |b1| && FileSize <= |b2|
    requires forall k :: 0 <= k < FileSize && IsFieldByte(k) ==> b1[k] == b2[k]
    ensures FileAt(b1) == FileAt(b2)
  {
    HeaderDependsOnlyOnFieldBytes(b1, b2);
    WordsDependOnlyOnTheirBytes(b1, b2, SamplesOffset, CoarseCount);
    WordsDependOnlyOnTheirBytes(b1, b2, SamplesOffset + 2 * CoarseCount, CoarseCount);
    WordsDependOnlyOnTheirBytes(b1, b2, SamplesOffset + 4 * CoarseCount, FineCount);
    WordsDependOnlyOnTheirBytes(b1, b2, SamplesOffset + 4 * CoarseCount + 2 * FineCount, FineCount);
  }

  /** Overwriting a padding byte leaves the decoded capture unchanged. */
  lemma PaddingIsIgnored(b: seq<u8>, k: nat, v: u8)
    requires FileSize <= |b| && k < |b| && !IsFieldByte(k)
    ensures FileAt(b[k := v]) == FileAt(b)
  {
    FileDependsOnlyOnFieldBytes(b[k := v], b);
  }

  /** Bytes past `FileSize` are ignored. */
  lemma TrailingBytesAreIgnored(b: seq<u8>, t: seq<u8>)
    requires FileSize <= |b|
    ensures FileAt(b + t) == FileAt(b)
  {
    FileDependsOnlyOnFieldBytes(b + t, b);
  }

  /** Bytes 126 to 207, between `trigger_50` and the first measurement block,
      are never decoded; neither are the pad bytes of any block. */
  lemma HeaderGapIsPadding(k: int)
    ensures HeaderFieldsSize <= k < Channel1MeasurementsOffset ==> !IsFieldByte(k)
    ensures HeaderEnd <= k < SamplesOffset ==> !IsFieldByte(k)
    ensures 0 <= k < 4 || 32 <= k < 84 || 88 <= k < 120 ==> !IsFieldByte(k)
  {
  }
}
