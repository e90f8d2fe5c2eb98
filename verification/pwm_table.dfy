/**
 The fixed PWM table of the header: each PWM name stands for one
 (pin, alternate function) pair and the hardware PWM channel it drives.
 */
module PwmTable {
  import opened GpioTypes

  /** The PWM names, `pwm<channel>_gpio<pin>`. */
  datatype PwmName = Pwm1Gpio19 | Pwm0Gpio18 | Pwm1Gpio13 | Pwm0Gpio12

  /** What a PWM name resolves to. */
  datatype PwmItem = PwmItem(name: PinName, func: PinFunction, channel: Byte)

  /** Every PWM name, in declaration order. */
  const Names: seq<PwmName> := [Pwm1Gpio19, Pwm0Gpio18, Pwm1Gpio13, Pwm0Gpio12]

  /** Position of a PWM name in `Names`: the list names every PWM name. */
  function Index(p: PwmName): (k: nat)
    ensures k < |Names| && Names[k] == p
  {
    match p
    case Pwm1Gpio19 => 0
    case Pwm0Gpio18 => 1
    case Pwm1Gpio13 => 2
    case Pwm0Gpio12 => 3
  }

  /** The table entry of one PWM name. Every entry uses one of the two
      hardware channels and an alternate function, never plain I/O. */
  function Create(p: PwmName): (item: PwmItem)
    ensures item.channel == 0 || item.channel == 1
    ensures item.func == Alt0 || item.func == Alt5
    ensures item.name != PinUnknown
  {
    match p
    case Pwm1Gpio19 => PwmItem(Gpio19, Alt5, 1)
    case Pwm0Gpio18 => PwmItem(Gpio18, Alt5, 0)
    case Pwm1Gpio13 => PwmItem(Gpio13, Alt0, 1)
    case Pwm0Gpio12 => PwmItem(Gpio12, Alt0, 0)
  }

  /** A (pin, function) pair appears in the table. */
  ghost predicate InTable(name: PinName, func: PinFunction)
  {
    exists p :: Create(p).name == name && Create(p).func == func
  }

  /** Linear search of `names` for the entry of (name, func). */
  function Find(names: seq<PwmName>, name: PinName, func: PinFunction): (r: Option<PwmItem>)
    ensures r.Some? ==> r.value.name == name && r.value.func == func
    ensures r.Some? ==> exists k :: 0 <= k < |names| && Create(names[k]) == r.value
    ensures r.None? ==>
      forall k :: 0 <= k < |names| ==> !(Create(names[k]).name == name && Create(names[k]).func == func)
  {
    if |names| == 0 then None
    else if Create(names[0]).name == name && Create(names[0]).func == func then Some(Create(names[0]))
    else
      var r := Find(names[1..], name, func);
      assert r.Some? ==> Create(names[1..][0]) == r.value || exists k :: 1 <= k < |names| && Create(names[k]) == r.value;
      r
  }

  /** The table looked up by (pin, function). */
  function Lookup(name: PinName, func: PinFunction): (r: Option<PwmItem>)
    ensures r.Some? <==> InTable(name, func)
    ensures r.Some? ==> r.value.name == name && r.value.func == func
    ensures r.Some? ==> exists p :: Create(p) == r.value
  {
    var r := Find(Names, name, func);
    assert forall p :: Names[Index(p)] == p;
    r
  }

  /** Distinct PWM names denote distinct (pin, function) pairs, so a lookup
      by pair is unambiguous. */
  lemma EntriesAreDistinct(p: PwmName, q: PwmName)
    requires Create(p).name == Create(q).name && Create(p).func == Create(q).func
    ensures p == q
  {
  }

  /** The PWM names whose entry drives channel `c`. */
  function OnChannel(c: Byte): (s: set<PwmName>)
    ensures forall p :: p in s <==> Create(p).channel == c
  {
    var s := set k | 0 <= k < |Names| && Create(Names[k]).channel == c :: Names[k];
    assert forall p :: Create(p).channel == c ==> Names[Index(p)] in s;
    s
  }

  /** Channel aliasing: each of the two hardware channels is driven by
      exactly two table entries, on different pins; no other channel is
      used at all. */
  lemma ChannelAliasing(c: Byte)
    ensures c <= 1 ==> |OnChannel(c)| == 2
    ensures c > 1 ==> OnChannel(c) == {}
    ensures forall p, q :: p in OnChannel(c) && q in OnChannel(c) && p != q ==> Create(p).name != Create(q).name
  {
    if c == 0 {
      assert OnChannel(c) == {Pwm0Gpio18, Pwm0Gpio12};
    } else if c == 1 {
      assert OnChannel(c) == {Pwm1Gpio19, Pwm1Gpio13};
    } else {
      assert forall p :: p !in OnChannel(c);
    }
  }
}
