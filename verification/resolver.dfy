/**
 Feature and PWM-channel resolution for a (pin, function) pair.

 `GetFeature` and `PwmChannel` follow the controller source as written:
 the channel is an 8-bit value and "no channel" is the 8-bit image of -1,
 i.e. 255. `ResolveFeature` and `ResolveChannel` are the corrected,
 table-driven resolvers: they classify exactly the header table's pairs as
 PWM and return the channel as an `Option`. The two pairs of resolvers
 agree everywhere except on (gpio12, alt0).
 */
module Resolver {
  import opened GpioTypes
  import opened PwmTable

  /** The "no channel" value as the source computes it: -1 stored in a
      `std::uint8_t`. */
  const NoChannel: Byte := ToU8(-1)

  /** Feature classification as written: digital I/O for input/output on a
      named pin, PWM for three hard-coded (pin, alternate function) pairs. */
  function GetFeature(name: PinName, func: PinFunction): (f: Feature)
    ensures f == Io <==> name != PinUnknown && (func == Input || func == Output)
    ensures f == Pwm ==> InTable(name, func)
  {
    if (name != PinUnknown && func == Input) || (name != PinUnknown && func == Output) then
      Io
    else if (name == Gpio13 && func == Alt0) || (name == Gpio19 && func == Alt5) || (name == Gpio18 && func == Alt5) then
      assert Create(Pwm1Gpio13).name == Gpio13 && Create(Pwm1Gpio19).name == Gpio19 && Create(Pwm0Gpio18).name == Gpio18;
      Pwm
    else
      FeatureUnknown
  }

  /** Channel resolution as written. The sentinel comes back exactly when the
      pair is not PWM; otherwise the channel is the header table's channel
      for the same pair. */
  function PwmChannel(name: PinName, func: PinFunction): (c: Byte)
    ensures c == NoChannel <==> GetFeature(name, func) != Pwm
    ensures c != NoChannel ==> c <= 1 && Lookup(name, func) == Some(PwmItem(name, func, c))
  {
    if GetFeature(name, func) != Pwm then
      NoChannel
    else if (name == Gpio13 && func == Alt0) || (name == Gpio19 && func == Alt5) then
      EntriesAgree(name, func);
      1
    else if name == Gpio18 && func == Alt5 then
      EntriesAgree(name, func);
      0
    else
      // the three PWM pairs are covered above
      assert false; NoChannel
  }

  /** The table entry found for a pair is the unique one with that pair. */
  lemma EntriesAgree(name: PinName, func: PinFunction)
    requires InTable(name, func)
    ensures exists p :: Create(p).name == name && Create(p).func == func && Lookup(name, func) == Some(Create(p))
  {
    var p :| Create(p).name == name && Create(p).func == func;
    var r := Lookup(name, func);
    assert r.Some? && r.value.name == name && r.value.func == func;
    var q :| Create(q) == r.value;
    EntriesAreDistinct(p, q);
  }

  /** Cross-file discrepancy: the as-written classifier recognises every
      header table pair as PWM except (gpio12, alt0). */
  lemma GetFeatureVersusTable(name: PinName, func: PinFunction)
    ensures GetFeature(name, func) == Pwm <==> InTable(name, func) && !(name == Gpio12 && func == Alt0)
  {
    if InTable(name, func) {
      var p :| Create(p).name == name && Create(p).func == func;
    }
  }

  /** Corrected classifier: a pair is PWM exactly when the header table
      lists it. */
  function ResolveFeature(name: PinName, func: PinFunction): (f: Feature)
    ensures f == Io <==> name != PinUnknown && (func == Input || func == Output)
    ensures f == Pwm <==> InTable(name, func)
  {
    if name != PinUnknown && (func == Input || func == Output) then Io
    else if Lookup(name, func).Some? then Pwm
    else FeatureUnknown
  }

  /** Corrected channel resolver: a channel exactly for PWM pairs, and it is
      the header table's channel for that pair. */
  function ResolveChannel(name: PinName, func: PinFunction): (c: Option<Byte>)
    ensures c.Some? <==> ResolveFeature(name, func) == Pwm
    ensures c.Some? ==> c.value <= 1 && Lookup(name, func) == Some(PwmItem(name, func, c.value))
  {
    match Lookup(name, func)
    case Some(item) => Some(item.channel)
    case None => None
  }

  /** The as-written and the corrected resolvers agree on every pair but
      (gpio12, alt0); in particular the 255 sentinel corresponds to `None`. */
  lemma ResolversAgree(name: PinName, func: PinFunction)
    requires !(name == Gpio12 && func == Alt0)
    ensures ResolveFeature(name, func) == GetFeature(name, func)
    ensures ResolveChannel(name, func) == (if PwmChannel(name, func) == NoChannel then None else Some(PwmChannel(name, func)))
  {
    GetFeatureVersusTable(name, func);
  }

  /** The one pair on which they disagree. */
  lemma Gpio12Disagreement()
    ensures GetFeature(Gpio12, Alt0) == FeatureUnknown
    ensures PwmChannel(Gpio12, Alt0) == NoChannel
    ensures ResolveFeature(Gpio12, Alt0) == Pwm
    ensures ResolveChannel(Gpio12, Alt0) == Some(0)
  {
    assert Create(Pwm0Gpio12).name == Gpio12 && Create(Pwm0Gpio12).func == Alt0;
  }

  /** Classifications of individual pairs, including the aliased channel 1. */
  lemma ResolverExamples()
    ensures GetFeature(Gpio4, Input) == Io
    ensures GetFeature(Gpio4, Alt0) == FeatureUnknown
    ensures GetFeature(PinUnknown, Input) == FeatureUnknown
    ensures PwmChannel(Gpio13, Alt0) == 1 && PwmChannel(Gpio19, Alt5) == 1
    ensures PwmChannel(Gpio18, Alt5) == 0
  {
  }
}
