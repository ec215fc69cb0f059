/** The seven closed device-setting enums, each a `#[repr(u16)]` enum whose
    discriminants count up from 0 in declaration order, decoded fail-closed by
    `TryFromPrimitive`. For each: the variants in declaration order, the
    decoder, the discriminant (`as u16`), and a lemma that the two are inverse. */
module Enums {
  import opened Wrappers
  import opened Primitives

  datatype Coupling = DC | AC
  const CouplingVariants: seq<Coupling> := [DC, AC]

  function CouplingFrom(number: u16): Result<Coupling, ConversionError> {
    if number == 0 then Ok(DC)
    else if number == 1 then Ok(AC)
    else Err(ConversionError("Coupling", number))
  }

  function CouplingCode(c: Coupling): u16 {
    match c
    case DC => 0
    case AC => 1
  }

  lemma CouplingCodec(number: u16, c: Coupling)
    ensures CouplingFrom(number).Ok? <==> number as int < |CouplingVariants| == 2
    ensures number as int < |CouplingVariants| ==> CouplingFrom(number) == Ok(CouplingVariants[number])
    ensures number >= 2 ==> CouplingFrom(number) == Err(ConversionError("Coupling", number))
    ensures CouplingFrom(number) == Ok(c) <==> number == CouplingCode(c)
  {
  }

  datatype Attenuation = OneX | TenX | OneHundredX
  const AttenuationVariants: seq<Attenuation> := [OneX, TenX, OneHundredX]

  function AttenuationFrom(number: u16): Result<Attenuation, ConversionError> {
    if number == 0 then Ok(OneX)
    else if number == 1 then Ok(TenX)
    else if number == 2 then Ok(OneHundredX)
    else Err(ConversionError("Attenuation", number))
  }

  function AttenuationCode(a: Attenuation): u16 {
    match a
    case OneX => 0
    case TenX => 1
    case OneHundredX => 2
  }

  lemma AttenuationCodec(number: u16, a: Attenuation)
    ensures AttenuationFrom(number).Ok? <==> number as int < |AttenuationVariants| == 3
    ensures number as int < |AttenuationVariants| ==> AttenuationFrom(number) == Ok(AttenuationVariants[number])
    ensures number >= 3 ==> AttenuationFrom(number) == Err(ConversionError("Attenuation", number))
    ensures AttenuationFrom(number) == Ok(a) <==> number == AttenuationCode(a)
  {
  }

  datatype ScrollSpeed = Fast | Slow
  const ScrollSpeedVariants: seq<ScrollSpeed> := [Fast, Slow]

  function ScrollSpeedFrom(number: u16): Result<ScrollSpeed, ConversionError> {
    if number == 0 then Ok(Fast)
    else if number == 1 then Ok(Slow)
    else Err(ConversionError("ScrollSpeed", number))
  }

  function ScrollSpeedCode(s: ScrollSpeed): u16 {
    match s
    case Fast => 0
    case Slow => 1
  }

  lemma ScrollSpeedCodec(number: u16, s: ScrollSpeed)
    ensures ScrollSpeedFrom(number).Ok? <==> number as int < |ScrollSpeedVariants| == 2
    ensures number as int < |ScrollSpeedVariants| ==> ScrollSpeedFrom(number) == Ok(ScrollSpeedVariants[number])
    ensures number >= 2 ==> ScrollSpeedFrom(number) == Err(ConversionError("ScrollSpeed", number))
    ensures ScrollSpeedFrom(number) == Ok(s) <==> number == ScrollSpeedCode(s)
  {
  }

  datatype TriggerType = Auto | Single | Normal
  const TriggerTypeVariants: seq<TriggerType> := [Auto, Single, Normal]

  function TriggerTypeFrom(number: u16): Result<TriggerType, ConversionError> {
    if number == 0 then Ok(Auto)
    else if number == 1 then Ok(Single)
    else if number == 2 then Ok(Normal)
    else Err(ConversionError("TriggerType", number))
  }

  function TriggerTypeCode(t: TriggerType): u16 {
    match t
    case Auto => 0
    case Single => 1
    case Normal => 2
  }

  lemma TriggerTypeCodec(number: u16, t: TriggerType)
    ensures TriggerTypeFrom(number).Ok? <==> number as int < |TriggerTypeVariants| == 3
    ensures number as int < |TriggerTypeVariants| ==> TriggerTypeFrom(number) == Ok(TriggerTypeVariants[number])
    ensures number >= 3 ==> TriggerTypeFrom(number) == Err(ConversionError("TriggerType", number))
    ensures TriggerTypeFrom(number) == Ok(t) <==> number == TriggerTypeCode(t)
  {
  }

  datatype TriggerEdge = Rising | Falling
  const TriggerEdgeVariants: seq<TriggerEdge> := [Rising, Falling]

  function TriggerEdgeFrom(number: u16): Result<TriggerEdge, ConversionError> {
    if number == 0 then Ok(Rising)
    else if number == 1 then Ok(Falling)
    else Err(ConversionError("TriggerEdge", number))
  }

  function TriggerEdgeCode(e: TriggerEdge): u16 {
    match e
    case Rising => 0
    case Falling => 1
  }

  lemma TriggerEdgeCodec(number: u16, e: TriggerEdge)
    ensures TriggerEdgeFrom(number).Ok? <==> number as int < |TriggerEdgeVariants| == 2
    ensures number as int < |TriggerEdgeVariants| ==> TriggerEdgeFrom(number) == Ok(TriggerEdgeVariants[number])
    ensures number >= 2 ==> TriggerEdgeFrom(number) == Err(ConversionError("TriggerEdge", number))
    ensures TriggerEdgeFrom(number) == Ok(e) <==> number == TriggerEdgeCode(e)
  {
  }

  datatype TriggerChannel = Channel1 | Channel2
  const TriggerChannelVariants: seq<TriggerChannel> := [Channel1, Channel2]

  function TriggerChannelFrom(number: u16): Result<TriggerChannel, ConversionError> {
    if number == 0 then Ok(Channel1)
    else if number == 1 then Ok(Channel2)
    else Err(ConversionError("TriggerChannel", number))
  }

  function TriggerChannelCode(c: TriggerChannel): u16 {
    match c
    case Channel1 => 0
    case Channel2 => 1
  }

  lemma TriggerChannelCodec(number: u16, c: TriggerChannel)
    ensures TriggerChannelFrom(number).Ok? <==> number as int < |TriggerChannelVariants| == 2
    ensures number as int < |TriggerChannelVariants| ==> TriggerChannelFrom(number) == Ok(TriggerChannelVariants[number])
    ensures number >= 2 ==> TriggerChannelFrom(number) == Err(ConversionError("TriggerChannel", number))
    ensures TriggerChannelFrom(number) == Ok(c) <==> number == TriggerChannelCode(c)
  {
  }

  datatype Trigger50 = On | Off
  const Trigger50Variants: seq<Trigger50> := [On, Off]

  function Trigger50From(number: u16): Result<Trigger50, ConversionError> {
    if number == 0 then Ok(On)
    else if number == 1 then Ok(Off)
    else Err(ConversionError("Trigger50", number))
  }

  function Trigger50Code(t: Trigger50): u16 {
    match t
    case On => 0
    case Off => 1
  }

  lemma Trigger50Codec(number: u16, t: Trigger50)
    ensures Trigger50From(number).Ok? <==> number as int < |Trigger50Variants| == 2
    ensures number as int < |Trigger50Variants| ==> Trigger50From(number) == Ok(Trigger50Variants[number])
    ensures number >= 2 ==> Trigger50From(number) == Err(ConversionError("Trigger50", number))
    ensures Trigger50From(number) == Ok(t) <==> number == Trigger50Code(t)
  {
  }
}
