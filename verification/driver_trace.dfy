/**
 The hardware driver as seen by the controller: every call the controller
 makes is recorded as one `DriverCall` in an emitted trace, and the levels
 the driver reports back come from an oracle.
 */
module DriverTrace {
  import opened GpioTypes

  /** One call into the driver, with the arguments the controller passes.
      `PwmSetMode` leaves out the enable flag of the driver's mode call:
      the controller always passes 1 (enable). */
  datatype DriverCall =
    | Fsel(pin: PinName, func: PinFunction)
    | SetPud(pin: PinName, pud: PullUp)
    | PwmSetMode(channel: Byte, mode: PwmMode)
    | PwmSetRange(channel: Byte, range: U32)
    | PwmSetData(channel: Byte, data: Byte)
    | GpioWrite(pin: PinName, level: Byte)
    | Lev(pin: PinName)

  /** The level the driver reports for the `k`-th level read of an
      operation, on pin `pin`. */
  type Oracle = (nat, PinName) -> Byte

  datatype CallKind =
    | FselCall | SetPudCall | PwmSetModeCall | PwmSetRangeCall
    | PwmSetDataCall | GpioWriteCall | LevCall

  function KindOf(c: DriverCall): CallKind
  {
    match c
    case Fsel(_, _) => FselCall
    case SetPud(_, _) => SetPudCall
    case PwmSetMode(_, _) => PwmSetModeCall
    case PwmSetRange(_, _) => PwmSetRangeCall
    case PwmSetData(_, _) => PwmSetDataCall
    case GpioWrite(_, _) => GpioWriteCall
    case Lev(_) => LevCall
  }

  /** Number of calls of kind `k` in trace `t`. */
  function Count(t: seq<DriverCall>, k: CallKind): (n: nat)
    ensures n <= |t|
    ensures n == 0 <==> forall i :: 0 <= i < |t| ==> KindOf(t[i]) != k
  {
    if |t| == 0 then 0
    else (if KindOf(t[0]) == k then 1 else 0) + Count(t[1..], k)
  }

  /** The one-call trace `[c]` when `present` holds, the empty trace otherwise. */
  function Optional(present: bool, c: DriverCall): (t: seq<DriverCall>)
    ensures forall k :: Count(t, k) == (if present && KindOf(c) == k then 1 else 0)
    ensures forall i :: 0 <= i < |t| ==> t[i] == c
    ensures |t| > 0 <==> present
  {
    if present then
      assert [c][1..] == [];
      [c]
    else []
  }

  lemma {:induction false} CountConcat(a: seq<DriverCall>, b: seq<DriverCall>, k: CallKind)
    ensures Count(a + b, k) == Count(a, k) + Count(b, k)
  {
    if |a| > 0 {
      assert (a + b)[1..] == a[1..] + b;
      CountConcat(a[1..], b, k);
    } else {
      assert a + b == b;
    }
  }

  lemma {:induction false} ConcatCounts(a: seq<DriverCall>, b: seq<DriverCall>)
    ensures forall k :: Count(a + b, k) == Count(a, k) + Count(b, k)
  {
    forall k ensures Count(a + b, k) == Count(a, k) + Count(b, k) {
      CountConcat(a, b, k);
    }
  }
}
