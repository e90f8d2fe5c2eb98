/**
 The value types of the GPIO layer: fixed-width integers, the closed
 enumerations of pin names, pin functions, pull-up modes and PWM modes,
 the derived feature class, and the single pin record the controller
 configures, reads and writes.
 */
module GpioTypes {

  /** An unsigned 8-bit value, `std::uint8_t`. */
  type Byte = x: int | 0 <= x < 256

  /** An unsigned 32-bit value, `std::uint32_t`. */
  type U32 = x: int | 0 <= x < 0x1_0000_0000

  /** Conversion of any integer to `std::uint8_t`: reduction modulo 2^8.
      Dafny's `%` is Euclidean, which is exactly the C conversion rule for
      unsigned targets, so `ToU8(-1) == 255`. */
  function ToU8(x: int): (b: Byte)
    ensures (b - x) % 256 == 0
    ensures 0 <= x < 256 ==> b == x
  {
    x % 256
  }

  datatype Option<+T> = None | Some(value: T)

  /** The pin names of the board; `PinUnknown` is the "not initialised"
      sentinel (0xff in the source). The numeric header-pin codes of the
      driver are not part of this model, so the names are abstract. */
  datatype PinName =
    | PinUnknown
    | Gpio27 | Gpio22 | Gpio10 | Gpio19 | Gpio18 | Gpio13 | Gpio12 | Gpio4

  /** The function-select code of a pin: input, output, one of the six
      alternate functions, or the "not set" sentinel. */
  datatype PinFunction =
    | FnUnknown | Input | Output
    | Alt0 | Alt1 | Alt2 | Alt3 | Alt4 | Alt5

  /** Pull-up/down resistor setting. `PudNone` means "leave the hardware
      setting as it is", which is distinct from `PudOff`. */
  datatype PullUp = PudNone | PudOff | PudUp | PudDown

  datatype PwmMode = ModeUnknown | Balanced | MarkSpace

  /** What a (pin, function) pair can be used for; derived, never stored. */
  datatype Feature = FeatureUnknown | Io | Pwm

  /** One logical pin as the controller sees it. `value` holds the last level
      read or the last value written. */
  datatype Pin = Pin(
    name: PinName,
    func: PinFunction,
    pullUp: PullUp,
    pwmMode: PwmMode,
    pwmRange: U32,
    value: U32
  )
}
