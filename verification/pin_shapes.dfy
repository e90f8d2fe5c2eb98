/**
 The two pin classes of the header, with their constructor defaults: a
 digital pin (`GpioPinIO`) and a PWM pin built from a table entry
 (`GpioPwm`). Both are mapped onto the single `Pin` record that the
 controller operations take.
 */
module PinShapes {
  import opened GpioTypes
  import opened PwmTable

  datatype PinIO = PinIO(name: PinName, value: bool, func: PinFunction, pullUp: PullUp)
  {
    /** The controller's view of this pin; a digital level is stored as 0/1. */
    function ToPin(): (p: Pin)
      ensures p.name == name && p.func == func && p.pullUp == pullUp
      ensures p.value != 0 <==> value
    {
      Pin(name, func, pullUp, ModeUnknown, 0, if value then 1 else 0)
    }
  }

  datatype PwmPin = PwmPin(item: PwmItem, value: U32, mode: PwmMode, range: U32)
  {
    /** The controller's view of this pin: the table entry gives the pin and
        its alternate function; the pull-up is left untouched. */
    function ToPin(): (p: Pin)
      ensures p.name == item.name && p.func == item.func && p.pullUp == PudNone
      ensures p.pwmMode == mode && p.pwmRange == range && p.value == value
    {
      Pin(item.name, item.func, PudNone, mode, range, value)
    }
  }

  /** A digital pin; function and pull-up are optional, the value starts
      low. */
  function NewPinIO(name: PinName, func: PinFunction := FnUnknown, pullUp: PullUp := PudNone): (p: PinIO)
    ensures p.name == name && p.func == func && p.pullUp == pullUp
    ensures !p.value
  {
    PinIO(name, false, func, pullUp)
  }

  /** A PWM pin; range defaults to 0xff and mode to unknown, the value starts
      at 0. */
  function NewPwm(item: PwmItem, range: U32 := 0xff, mode: PwmMode := ModeUnknown): (p: PwmPin)
    ensures p.item == item && p.range == range && p.mode == mode
    ensures p.value == 0
  {
    PwmPin(item, 0, mode, range)
  }

  /** The defaults of the two constructors when given only a name or item. */
  lemma ConstructorDefaults(name: PinName, item: PwmItem)
    ensures NewPinIO(name) == PinIO(name, false, FnUnknown, PudNone)
    ensures NewPwm(item) == PwmPin(item, 0, ModeUnknown, 255)
  {
  }
}
