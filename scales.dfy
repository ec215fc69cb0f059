/** The two closed scale tables (time per division, voltage per division) and
    their fail-closed lookup by the raw code stored in a capture. */
module Scales {
  import opened Wrappers
  import opened Primitives

  datatype Unit = Volt | Second

  /** A calibrated coefficient `value * 10^scale` in `unit`; `value` is exact. */
  datatype Scale = Scale(value: real, scale: int, unit: Unit)

  /** Ten to the (possibly negative) power `e`. */
  function Pow10(e: int): (r: real)
    ensures r > 0.0
    decreases if e < 0 then -e else e
  {
    if e == 0 then 1.0
    else if e > 0 then 10.0 * Pow10(e - 1)
    else Pow10(e + 1) / 10.0
  }

  /** `Scale::get_scale`, over exact reals instead of f32 and `powi`. */
  function GetScale(s: Scale): real {
    s.value * Pow10(s.scale)
  }

  /** `TIME_SCALES`: seconds per division, 50 s down to 1 ns. */
  const TimeScales: seq<Scale> := [
    Scale(50.0, 0, Second), Scale(20.0, 0, Second), Scale(10.0, 0, Second),
    Scale(5.0, 0, Second), Scale(2.0, 0, Second), Scale(1.0, 0, Second),
    Scale(500.0, -3, Second), Scale(200.0, -3, Second), Scale(100.0, -3, Second),
    Scale(50.0, -3, Second), Scale(20.0, -3, Second), Scale(10.0, -3, Second),
    Scale(5.0, -3, Second), Scale(2.0, -3, Second), Scale(1.0, -3, Second),
    Scale(500.0, -6, Second), Scale(200.0, -6, Second), Scale(100.0, -6, Second),
    Scale(50.0, -6, Second), Scale(20.0, -6, Second), Scale(10.0, -6, Second),
    Scale(5.0, -6, Second), Scale(2.0, -6, Second), Scale(1.0, -6, Second),
    Scale(500.0, -9, Second), Scale(200.0, -9, Second), Scale(100.0, -9, Second),
    Scale(50.0, -9, Second), Scale(20.0, -9, Second), Scale(10.0, -9, Second),
    Scale(5.0, -9, Second), Scale(2.0, -9, Second), Scale(1.0, -9, Second)
  ]

  /** `PROBE_SCALES`: volts per division, 5 V down to 50 mV. */
  const ProbeScales: seq<Scale> := [
    Scale(5.0, 0, Volt), Scale(2.5, 0, Volt), Scale(1.0, 0, Volt),
    Scale(500.0, -3, Volt), Scale(200.0, -3, Volt), Scale(100.0, -3, Volt),
    Scale(50.0, -3, Volt)
  ]

  /** `Scale<Second>::try_from_primitive`: the table entry, or an error carrying the code. */
  function TimeScaleFrom(number: u16): Result<Scale, ConversionError> {
    if number as int < |TimeScales| then Ok(TimeScales[number])
    else Err(ConversionError("Scale<Second>", number))
  }

  /** `Scale<Volt>::try_from_primitive`: the table entry, or an error carrying the code. */
  function VoltScaleFrom(number: u16): Result<Scale, ConversionError> {
    if number as int < |ProbeScales| then Ok(ProbeScales[number])
    else Err(ConversionError("Scale<Volt>", number))
  }

  /** The SI prefix `Display for Scale` prints for an exponent; `None` where it
      would hit `unreachable!`. */
  function SiPrefix(scale: int): Option<string> {
    if scale == 0 then Some("")
    else if scale == -3 then Some("m")
    else if scale == -6 then Some("u")
    else if scale == -9 then Some("n")
    else None
  }

  /** The 1-2-5 progression the time table follows: 50, 20, 10 times 10^-k for the k-th triple. */
  function TimeClosedForm(i: nat): real {
    [50.0, 20.0, 10.0][i % 3] * Pow10(-(i / 3))
  }

  lemma {:induction false} Pow10Step(e: int)
    ensures Pow10(e - 1) * 10.0 == Pow10(e)
    decreases if e < 0 then -e else e
  {
    if e > 1 {
      Pow10Step(e - 1);
    } else if e < 0 {
      Pow10Step(e + 1);
    }
  }

  /** Every entry of the time table has the documented closed-form coefficient. */
  lemma TimeScalesClosedForm()
    ensures forall i :: 0 <= i < |TimeScales| ==> GetScale(TimeScales[i]) == TimeClosedForm(i)
  {
    assert Pow10(-1) == 0.1;
    assert Pow10(-2) == 0.01;
    assert Pow10(-3) == 0.001;
    assert Pow10(-4) == 0.0001;
    assert Pow10(-5) == 0.00001;
    assert Pow10(-6) == 0.000001;
    assert Pow10(-7) == 0.0000001;
    assert Pow10(-8) == 0.00000001;
    assert Pow10(-9) == 0.000000001;
    assert Pow10(-10) == 0.0000000001;
  }

  /** A time code below 33 resolves to its table entry, a Second scale with the
      closed-form coefficient and a printable exponent; any other code is an
      error carrying the code, never a default. */
  lemma TimeScaleLookup(number: u16)
    ensures TimeScaleFrom(number).Ok? <==> number < 33
    ensures number < 33 ==>
      var s := TimeScaleFrom(number).value;
      s == TimeScales[number] && s.unit == Second && s.scale in {0, -3, -6, -9}
      && GetScale(s) == TimeClosedForm(number as nat)
    ensures number >= 33 ==> TimeScaleFrom(number) == Err(ConversionError("Scale<Second>", number))
  {
    TimeScalesClosedForm();
  }

  /** A voltage code below 7 resolves to its table entry, a Volt scale whose
      coefficient is the documented volts per division; any other code is an error. */
  lemma VoltScaleLookup(number: u16)
    ensures VoltScaleFrom(number).Ok? <==> number < 7
    ensures number < 7 ==>
      var s := VoltScaleFrom(number).value;
      s == ProbeScales[number] && s.unit == Volt && s.scale in {0, -3, -6, -9}
      && GetScale(s) == [5.0, 2.5, 1.0, 0.5, 0.2, 0.1, 0.05][number]
    ensures number >= 7 ==> VoltScaleFrom(number) == Err(ConversionError("Scale<Volt>", number))
  {
    assert Pow10(-3) == 0.001;
  }

  /** Index 5 of the time table is one second per division; index 2 of the
      voltage table is one volt per division. */
  lemma UnitScales()
    ensures TimeScaleFrom(5) == Ok(Scale(1.0, 0, Second)) && GetScale(TimeScaleFrom(5).value) == 1.0
    ensures VoltScaleFrom(2) == Ok(Scale(1.0, 0, Volt)) && GetScale(VoltScaleFrom(2).value) == 1.0
  {
  }

  /** `Display for Scale` never reaches `unreachable!` on a table entry. */
  lemma TablePrefixesDefined()
    ensures forall i :: 0 <= i < |TimeScales| ==> SiPrefix(TimeScales[i].scale).Some?
    ensures forall i :: 0 <= i < |ProbeScales| ==> SiPrefix(ProbeScales[i].scale).Some?
  {
  }

  lemma TimeClosedFormStep(i: nat)
    ensures TimeClosedForm(i + 1) < TimeClosedForm(i)
  {
    var k := i / 3;
    var p := Pow10(-k);
    if i % 3 == 2 {
      Pow10Step(-k);
      assert (i + 1) / 3 == k + 1 && (i + 1) % 3 == 0;
      assert TimeClosedForm(i) == 10.0 * p;
      assert TimeClosedForm(i + 1) == 50.0 * Pow10(-k - 1);
      assert 10.0 * p == 100.0 * Pow10(-k - 1);
    } else {
      assert (i + 1) / 3 == k;
    }
  }

  lemma {:induction false} TimeClosedFormDecreasing(i: nat, j: nat)
    requires i < j
    ensures TimeClosedForm(j) < TimeClosedForm(i)
    decreases j - i
  {
    TimeClosedFormStep(j - 1);
    if i < j - 1 {
      TimeClosedFormDecreasing(i, j - 1);
    }
  }

  /** The time table is ordered from the coarsest to the finest scale, strictly. */
  lemma TimeScalesDecreasing()
    ensures forall i, j :: 0 <= i < j < |TimeScales| ==> GetScale(TimeScales[j]) < GetScale(TimeScales[i])
  {
    TimeScalesClosedForm();
    forall i, j | 0 <= i < j < |TimeScales|
      ensures GetScale(TimeScales[j]) < GetScale(TimeScales[i])
    {
      TimeClosedFormDecreasing(i, j);
    }
  }

  /** The voltage table is ordered from the coarsest to the finest scale, strictly. */
  lemma ProbeScalesDecreasing()
    ensures forall i, j :: 0 <= i < j < |ProbeScales| ==> GetScale(ProbeScales[j]) < GetScale(ProbeScales[i])
  {
    assert Pow10(-3) == 0.001;
  }
}
