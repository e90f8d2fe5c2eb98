/**
 The pin controller: configuring a pin, reading a list of pins, writing one
 pin, and the "pins currently pressed" query. Every driver call is emitted
 into a trace; levels read come from an `Oracle`.

 `SetupPin` and `Write` follow the source as written. `SetupPinIntended`
 and `WriteIntended` are the corrected operations: they use the
 table-driven resolvers, an `Option` channel, and the untruncated range.
 */
module Controller {
  import opened GpioTypes
  import opened DriverTrace
  import opened PwmTable
  import opened Resolver
  import opened PinShapes

  // ---------------------------------------------------------------------
  // What a configuration trace must look like
  // ---------------------------------------------------------------------

  /** `c` is a call configuring `pin` may make, given the channel and the
      range value the configuration passes to the driver. */
  predicate Fits(c: DriverCall, pin: Pin, channel: Option<Byte>, range: int)
  {
    match c
    case Fsel(p, f) => p == pin.name && f == pin.func
    case SetPud(p, u) => p == pin.name && u == pin.pullUp
    case PwmSetMode(ch, m) => channel == Some(ch) && m == pin.pwmMode
    case PwmSetRange(ch, r) => channel == Some(ch) && r == range
    case _ => false
  }

  ghost predicate AllFit(t: seq<DriverCall>, pin: Pin, channel: Option<Byte>, range: int)
  {
    forall i :: 0 <= i < |t| ==> Fits(t[i], pin, channel, range)
  }

  lemma AllFitConcat(a: seq<DriverCall>, b: seq<DriverCall>, pin: Pin, channel: Option<Byte>, range: int)
    requires AllFit(a, pin, channel, range) && AllFit(b, pin, channel, range)
    ensures AllFit(a + b, pin, channel, range)
  {
    forall i | 0 <= i < |a + b|
      ensures Fits((a + b)[i], pin, channel, range)
    {
      if i >= |a| {
        assert (a + b)[i] == b[i - |a|];
      }
    }
  }

  /** Every PWM mode call of `t` comes before every PWM range call. */
  ghost predicate ModeBeforeRange(t: seq<DriverCall>)
  {
    forall i, j :: 0 <= i < |t| && 0 <= j < |t| && t[i].PwmSetMode? && t[j].PwmSetRange? ==> i < j
  }

  /** Trace `t` configures `pin` of class `feature` on `channel` with
      `range`: nothing at all for an unnamed pin; one function select for a
      digital pin; for a PWM pin with a channel, a mode call when a mode is
      given and a range call when the range is positive, mode first; one
      pull-up call, last, when a pull-up is given; and no other call. */
  ghost predicate ConfiguresAs(pin: Pin, t: seq<DriverCall>, feature: Feature, channel: Option<Byte>, range: int)
  {
    var named := pin.name != PinUnknown;
    var pwm := named && feature == Pwm && channel.Some?;
    && (!named ==> t == [])
    && Count(t, FselCall) == (if named && feature == Io then 1 else 0)
    && Count(t, PwmSetModeCall) == (if pwm && pin.pwmMode != ModeUnknown then 1 else 0)
    && Count(t, PwmSetRangeCall) == (if pwm && range > 0 then 1 else 0)
    && Count(t, SetPudCall) == (if named && pin.pullUp != PudNone then 1 else 0)
    && AllFit(t, pin, channel, range)
    && ModeBeforeRange(t)
    && (named && pin.pullUp != PudNone ==> |t| > 0 && t[|t| - 1] == SetPud(pin.name, pin.pullUp))
  }

  // ---------------------------------------------------------------------
  // setup_pin
  // ---------------------------------------------------------------------

  /** The PWM calls of `setup_pin` on `channel`: a mode call when `setMode`,
      a range call when `setRange`. */
  function PwmCalls(pin: Pin, channel: Byte, setMode: bool, range: U32, setRange: bool): (t: seq<DriverCall>)
    ensures Count(t, FselCall) == 0 && Count(t, SetPudCall) == 0
    ensures Count(t, PwmSetModeCall) == (if setMode then 1 else 0)
    ensures Count(t, PwmSetRangeCall) == (if setRange then 1 else 0)
    ensures AllFit(t, pin, Some(channel), range)
    ensures ModeBeforeRange(t)
  {
    var m := Optional(setMode, PwmSetMode(channel, pin.pwmMode));
    var r := Optional(setRange, PwmSetRange(channel, range));
    ConcatCounts(m, r);
    AllFitConcat(m, r, pin, Some(channel), range);
    assert forall k :: |m| <= k < |m + r| ==> (m + r)[k] == r[k - |m|];
    m + r
  }

  /** The function-select part of `setup_pin`, as written: the channel is an
      8-bit value, so both `channel >= 0` guards always hold, and the range
      is cut to 8 bits before the `> 0` test. */
  function FunctionCalls(pin: Pin): (t: seq<DriverCall>)
    ensures |t| <= 2
  {
    var feature := GetFeature(pin.name, pin.func);
    if feature == Io then
      Optional(true, Fsel(pin.name, pin.func))
    else if feature == Pwm then
      var channel := PwmChannel(pin.name, pin.func);
      var range := ToU8(pin.pwmRange);
      PwmCalls(pin, channel, channel >= 0 && pin.pwmMode != ModeUnknown, range, channel >= 0 && range > 0)
    else
      []
  }

  /** The pull-up part of `setup_pin`: only a given pull-up is applied. */
  function PullUpCalls(pin: Pin): (t: seq<DriverCall>)
    ensures |t| <= 1
  {
    Optional(pin.pullUp != PudNone, SetPud(pin.name, pin.pullUp))
  }

  /** `setup_pin` as written. An unnamed pin is rejected before any driver
      call; a PWM call never targets a channel other than 0 or 1, although
      the guards meant to ensure that are constant. */
  function SetupPin(pin: Pin): (t: seq<DriverCall>)
    ensures pin.name == PinUnknown ==> t == []
    ensures forall i :: 0 <= i < |t| && (t[i].PwmSetMode? || t[i].PwmSetRange?) ==> t[i].channel <= 1
  {
    if pin.name != PinUnknown then FunctionCalls(pin) + PullUpCalls(pin) else []
  }

  /** A named pin's configuration trace `a + PullUpCalls(pin)` has the
      shape `ConfiguresAs` describes when the function-select part `a` has
      it. */
  lemma WithPullUp(pin: Pin, a: seq<DriverCall>, feature: Feature, channel: Option<Byte>, range: int)
    requires pin.name != PinUnknown
    requires Count(a, SetPudCall) == 0
    requires Count(a, FselCall) == (if feature == Io then 1 else 0)
    requires Count(a, PwmSetModeCall) == (if feature == Pwm && channel.Some? && pin.pwmMode != ModeUnknown then 1 else 0)
    requires Count(a, PwmSetRangeCall) == (if feature == Pwm && channel.Some? && range > 0 then 1 else 0)
    requires AllFit(a, pin, channel, range)
    requires ModeBeforeRange(a)
    ensures ConfiguresAs(pin, a + PullUpCalls(pin), feature, channel, range)
  {
    var b := PullUpCalls(pin);
    ConcatCounts(a, b);
    AllFitConcat(a, b, pin, channel, range);
    assert forall k :: |a| <= k < |a + b| ==> (a + b)[k] == b[k - |a|];
    assert forall k :: 0 <= k < |a| ==> (a + b)[k] == a[k];
    if pin.pullUp != PudNone {
      assert (a + b)[|a + b| - 1] == b[0];
    }
  }

  /** The calls `setup_pin` makes: one `Fsel` for a digital pin, the PWM mode
      and range calls (on the resolved channel, range cut to 8 bits) for a
      PWM pin, a final `SetPud` exactly when a pull-up is given, and nothing
      for an unnamed pin. */
  lemma SetupPinConfigures(pin: Pin)
    ensures ConfiguresAs(pin, SetupPin(pin), GetFeature(pin.name, pin.func),
                         Some(PwmChannel(pin.name, pin.func)), ToU8(pin.pwmRange))
  {
    if pin.name != PinUnknown {
      WithPullUp(pin, FunctionCalls(pin), GetFeature(pin.name, pin.func),
                 Some(PwmChannel(pin.name, pin.func)), ToU8(pin.pwmRange));
    }
  }

  /** The function-select part of the corrected `setup_pin`. */
  function FunctionCallsIntended(pin: Pin): (t: seq<DriverCall>)
    ensures |t| <= 2
  {
    match ResolveFeature(pin.name, pin.func)
    case Io => Optional(true, Fsel(pin.name, pin.func))
    case Pwm =>
      (match ResolveChannel(pin.name, pin.func)
       case Some(channel) =>
         PwmCalls(pin, channel, pin.pwmMode != ModeUnknown, pin.pwmRange, pin.pwmRange > 0)
       case None => [])
    case FeatureUnknown => []
  }

  /** The corrected `setup_pin`: table-driven classification and the full
      32-bit range. */
  function SetupPinIntended(pin: Pin): (t: seq<DriverCall>)
    ensures pin.name == PinUnknown ==> t == []
  {
    if pin.name != PinUnknown then FunctionCallsIntended(pin) + PullUpCalls(pin) else []
  }

  /** The calls the corrected `setup_pin` makes, in the same shape as above,
      with the header table's channel and the range as given. */
  lemma SetupPinIntendedConfigures(pin: Pin)
    ensures ConfiguresAs(pin, SetupPinIntended(pin), ResolveFeature(pin.name, pin.func),
                         ResolveChannel(pin.name, pin.func), pin.pwmRange)
  {
    if pin.name != PinUnknown {
      WithPullUp(pin, FunctionCallsIntended(pin), ResolveFeature(pin.name, pin.func),
                 ResolveChannel(pin.name, pin.func), pin.pwmRange);
    }
  }

  /** Away from (gpio12, alt0) and for ranges that fit in 8 bits, the
      as-written `setup_pin` makes exactly the corrected calls: the constant
      `channel >= 0` guards never let a sentinel channel through. */
  lemma SetupPinMatchesIntended(pin: Pin)
    requires !(pin.name == Gpio12 && pin.func == Alt0)
    requires pin.pwmRange < 256
    ensures SetupPin(pin) == SetupPinIntended(pin)
  {
    ResolversAgree(pin.name, pin.func);
  }

  /** Counterexample: gpio12 in alt0 is a PWM pin of the header table, but
      the as-written `setup_pin` configures nothing for it. */
  lemma Gpio12SetupFinding()
    ensures SetupPin(Pin(Gpio12, Alt0, PudNone, Balanced, 255, 0)) == []
    ensures SetupPinIntended(Pin(Gpio12, Alt0, PudNone, Balanced, 255, 0))
            == [PwmSetMode(0, Balanced), PwmSetRange(0, 255)]
  {
    Gpio12Disagreement();
  }

  /** Counterexample: a range of 256 is cut to 0, so no range is set at all;
      a range of 300 is sent as 44. */
  lemma RangeTruncationFinding()
    ensures SetupPin(Pin(Gpio18, Alt5, PudNone, ModeUnknown, 256, 0)) == []
    ensures SetupPinIntended(Pin(Gpio18, Alt5, PudNone, ModeUnknown, 256, 0)) == [PwmSetRange(0, 256)]
    ensures SetupPin(Pin(Gpio18, Alt5, PudNone, ModeUnknown, 300, 0)) == [PwmSetRange(0, 44)]
  {
    assert GetFeature(Gpio18, Alt5) == Pwm && PwmChannel(Gpio18, Alt5) == 0;
    assert ToU8(256) == 0 && ToU8(300) == 44;
    ResolversAgree(Gpio18, Alt5);
    var p := Pin(Gpio18, Alt5, PudNone, ModeUnknown, 256, 0);
    assert FunctionCalls(p) == [];
    assert FunctionCallsIntended(p) == [PwmSetRange(0, 256)];
    assert FunctionCalls(p.(pwmRange := 300)) == [PwmSetRange(0, 44)];
  }

  /** A digital pin built from a name only configures nothing: its function
      and pull-up are unset. */
  lemma FreshPinIOSetup(name: PinName)
    ensures SetupPin(NewPinIO(name).ToPin()) == []
    ensures SetupPinIntended(NewPinIO(name).ToPin()) == []
  {
  }

  /** A PWM pin built from a table entry only sets the default range 255 on
      the entry's channel (its mode is unknown) -- except that, as written,
      the gpio12 entry configures nothing. */
  lemma FreshPwmSetup(p: PwmName)
    ensures SetupPinIntended(NewPwm(Create(p)).ToPin()) == [PwmSetRange(Create(p).channel, 255)]
    ensures SetupPin(NewPwm(Create(p)).ToPin())
            == if p == Pwm0Gpio12 then [] else [PwmSetRange(Create(p).channel, 255)]
  {
    var item := Create(p);
    assert InTable(item.name, item.func);
    EntriesAgree(item.name, item.func);
    if p == Pwm0Gpio12 {
      Gpio12Disagreement();
    } else {
      ResolversAgree(item.name, item.func);
    }
  }

  // ---------------------------------------------------------------------
  // write
  // ---------------------------------------------------------------------

  /** `write` as written. The channel is unsigned, so `channel < 0` never
      holds: every write goes to the PWM data register, and a write to a
      pin that is not PWM goes to channel 255. The pin keeps the value. */
  function Write(pin: Pin, val: Byte): (r: (Pin, seq<DriverCall>))
    ensures r.0 == pin.(value := val)
    ensures r.1 == [PwmSetData(PwmChannel(pin.name, pin.func), val)]
    ensures GetFeature(pin.name, pin.func) != Pwm ==> r.1 == [PwmSetData(NoChannel, val)]
  {
    var channel := PwmChannel(pin.name, pin.func);
    var calls := if channel < 0 then [GpioWrite(pin.name, val)] else [PwmSetData(channel, val)];
    (pin.(value := val), calls)
  }

  /** The corrected `write`: PWM data on the table's channel exactly for a
      PWM pin, a digital write otherwise; the pin keeps the value. */
  function WriteIntended(pin: Pin, val: Byte): (r: (Pin, seq<DriverCall>))
    ensures r.0 == pin.(value := val)
    ensures |r.1| == 1
    ensures r.1[0].PwmSetData? <==> ResolveFeature(pin.name, pin.func) == Pwm
    ensures r.1[0].PwmSetData? ==>
      r.1[0].data == val && Lookup(pin.name, pin.func) == Some(PwmItem(pin.name, pin.func, r.1[0].channel))
    ensures !r.1[0].PwmSetData? ==> r.1[0] == GpioWrite(pin.name, val)
  {
    var calls :=
      match ResolveChannel(pin.name, pin.func)
      case Some(channel) => [PwmSetData(channel, val)]
      case None => [GpioWrite(pin.name, val)];
    (pin.(value := val), calls)
  }

  /** On the pins the as-written classifier calls PWM, `write` does what was
      intended. */
  lemma WriteAgreesOnPwmPins(pin: Pin, val: Byte)
    requires GetFeature(pin.name, pin.func) == Pwm
    ensures Write(pin, val) == WriteIntended(pin, val)
  {
    GetFeatureVersusTable(pin.name, pin.func);
    ResolversAgree(pin.name, pin.func);
  }

  /** Counterexample: writing 1 to a digital output pin drives PWM channel
      255 instead of the pin. */
  lemma WriteDigitalPinFinding()
    ensures Write(Pin(Gpio4, Output, PudNone, ModeUnknown, 0, 0), 1).1 == [PwmSetData(255, 1)]
    ensures WriteIntended(Pin(Gpio4, Output, PudNone, ModeUnknown, 0, 0), 1).1 == [GpioWrite(Gpio4, 1)]
  {
  }

  // ---------------------------------------------------------------------
  // read and get_pins_up
  // ---------------------------------------------------------------------

  /** `read`: one level read per pin, in list order; each pin's value
      becomes the level read and nothing else about it changes. */
  method Read(pins: seq<Pin>, level: Oracle) returns (observed: seq<Pin>, trace: seq<DriverCall>)
    ensures |observed| == |pins| && |trace| == |pins|
    ensures forall i :: 0 <= i < |pins| ==> observed[i] == pins[i].(value := level(i, pins[i].name))
    ensures forall i :: 0 <= i < |pins| ==> trace[i] == Lev(pins[i].name)
  {
    observed, trace := [], [];
    var i := 0;
    while i < |pins|
      invariant 0 <= i <= |pins|
      invariant |observed| == i && |trace| == i
      invariant forall j :: 0 <= j < i ==> observed[j] == pins[j].(value := level(j, pins[j].name))
      invariant forall j :: 0 <= j < i ==> trace[j] == Lev(pins[j].name)
    {
      var v := level(i, pins[i].name);
      trace := trace + [Lev(pins[i].name)];
      observed := observed + [pins[i].(value := v)];
      i := i + 1;
    }
  }

  /** A switch on `p` is pressed: a pulled-up input is active low, any
      other input is active high. */
  predicate Pressed(p: Pin)
  {
    (p.value == 0 && p.pullUp == PudUp) || (p.value != 0 && p.pullUp != PudUp)
  }

  /** The pressed pins of `s`, in order. */
  function Asserted(s: seq<Pin>): (r: seq<Pin>)
    ensures |r| <= |s|
    ensures forall q :: q in r ==> q in s && Pressed(q)
    ensures forall i :: 0 <= i < |s| && Pressed(s[i]) ==> s[i] in r
  {
    if |s| == 0 then []
    else
      var init := s[..|s| - 1];
      assert forall i :: 0 <= i < |init| ==> init[i] == s[i];
      Asserted(init) + (if Pressed(s[|s| - 1]) then [s[|s| - 1]] else [])
  }

  /** `r` is the subsequence of `s` at the strictly increasing positions
      `idx`, and those positions are exactly the ones holding a pressed
      pin. */
  ghost predicate OrderedSelection(r: seq<Pin>, s: seq<Pin>, idx: seq<int>)
  {
    && |idx| == |r|
    && (forall k :: 0 <= k < |idx| ==> 0 <= idx[k] < |s| && r[k] == s[idx[k]])
    && (forall k, l :: 0 <= k < l < |idx| ==> idx[k] < idx[l])
    && (forall i :: 0 <= i < |s| ==> (Pressed(s[i]) <==> i in idx))
  }

  /** Extending `s` by one pin extends an ordered selection of its pressed
      pins by that pin exactly when it is pressed. */
  lemma SelectionExtend(r: seq<Pin>, s: seq<Pin>, idx: seq<int>, x: Pin)
    requires OrderedSelection(r, s, idx)
    ensures OrderedSelection(r + (if Pressed(x) then [x] else []), s + [x],
                             idx + (if Pressed(x) then [|s|] else []))
  {
    var r', s' := r + (if Pressed(x) then [x] else []), s + [x];
    var idx' := idx + (if Pressed(x) then [|s|] else []);
    assert |s| !in idx;
    forall k | 0 <= k < |idx'|
      ensures 0 <= idx'[k] < |s'| && r'[k] == s'[idx'[k]]
    {
      if k < |idx| {
        assert idx'[k] == idx[k] && r'[k] == r[k] && s'[idx[k]] == s[idx[k]];
      }
    }
    forall i | 0 <= i < |s'|
      ensures Pressed(s'[i]) <==> i in idx'
    {
      if i < |s| {
        assert s'[i] == s[i];
      }
    }
  }

  /** `Asserted` keeps exactly the pressed pins and keeps their order. */
  lemma {:induction false} AssertedIsOrderedSelection(s: seq<Pin>)
    ensures exists idx :: OrderedSelection(Asserted(s), s, idx)
  {
    if |s| == 0 {
      assert Asserted(s) == [];
      assert OrderedSelection(Asserted(s), s, []);
    } else {
      var n := |s| - 1;
      var init := s[..n];
      AssertedIsOrderedSelection(init);
      var idx0 :| OrderedSelection(Asserted(init), init, idx0);
      SelectionExtend(Asserted(init), init, idx0, s[n]);
      assert init + [s[n]] == s;
      var idx := idx0 + (if Pressed(s[n]) then [n] else []);
      assert OrderedSelection(Asserted(s), s, idx);
    }
  }

  /** `get_pins_up`: an empty list reads nothing and yields nothing;
      otherwise every pin is read in list order (each value replaced by the
      level read), and the result is the pressed pins among the updated
      ones, in list order. */
  method PinsUp(pins: seq<Pin>, level: Oracle) returns (up: seq<Pin>, observed: seq<Pin>, trace: seq<DriverCall>)
    ensures |pins| == 0 ==> up == [] && observed == [] && trace == []
    ensures |observed| == |pins| && |trace| == |pins|
    ensures forall i :: 0 <= i < |pins| ==> observed[i] == pins[i].(value := level(i, pins[i].name))
    ensures forall i :: 0 <= i < |pins| ==> trace[i] == Lev(pins[i].name)
    ensures up == Asserted(observed)
    ensures exists idx :: OrderedSelection(up, observed, idx)
  {
    up := [];
    if |pins| == 0 {
      observed, trace := [], [];
      assert OrderedSelection(up, observed, []);
      return;
    }
    observed, trace := Read(pins, level);
    var i := 0;
    while i < |observed|
      invariant 0 <= i <= |observed|
      invariant up == Asserted(observed[..i])
    {
      assert observed[..i + 1][..i] == observed[..i];
      if Pressed(observed[i]) {
        up := up + [observed[i]];
      }
      i := i + 1;
    }
    assert observed[..|observed|] == observed;
    AssertedIsOrderedSelection(observed);
  }

  /** A worked example: a pulled-up pin at 0 and a non-pulled pin at 1
      are pressed, a pulled-up pin at 1 is not; order is kept. */
  lemma AssertedExample()
    ensures
      var a := Pin(Gpio4, Input, PudUp, ModeUnknown, 0, 0);
      var b := Pin(Gpio10, Input, PudUp, ModeUnknown, 0, 1);
      var c := Pin(Gpio22, Input, PudOff, ModeUnknown, 0, 1);
      Asserted([a, b, c]) == [a, c]
  {
    var a := Pin(Gpio4, Input, PudUp, ModeUnknown, 0, 0);
    var b := Pin(Gpio10, Input, PudUp, ModeUnknown, 0, 1);
    var c := Pin(Gpio22, Input, PudOff, ModeUnknown, 0, 1);
    assert [a, b, c][..2] == [a, b] && [a, b][..1] == [a] && [a][..0] == [];
    assert Asserted([a]) == [a];
    assert Asserted([a, b]) == [a];
  }
}
