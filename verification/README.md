# Raspberry Pi GPIO controller — Dafny model

This project models the decision logic of a small C++ GPIO layer built on
the bcm2835 driver library. The logic covers:

- which feature a (pin name, pin function) pair resolves to: digital I/O, PWM or unknown;
- which hardware PWM channel such a pair drives;
- the fixed PWM table of the header;
- the driver calls made by `setup_pin`, `read`, `get_pins_up` and `write`.

The driver is not modelled. Each call into it is recorded as one
`DriverCall` in an emitted trace. The levels the driver reports come from an
oracle `(k, pin) -> byte`, the level returned by the k-th level read of the
operation.

Modules:

- `GpioTypes` (`gpio_types.dfy`) holds the 8- and 32-bit integer types, the
  enumerations of `Gpio.h`, and the single `Pin` record. `Pin` stands in for
  the `GpioPin` type that `Gpio.cpp` uses but `Gpio.h` never declares. Its
  fields are name, function, pull-up, PWM mode, PWM range and value.
- `DriverTrace` (`driver_trace.dfy`) holds the driver calls, the level
  oracle and the counting of calls in a trace.
- `PwmTable` (`pwm_table.dfy`) holds `GpioPwmItem::create` as a table from
  PWM name to (pin, function, channel), with lookup by pair.
- `PinShapes` (`pin_shapes.dfy`) holds the header classes `GpioPinIO` and
  `GpioPwm` with their constructor defaults.
- `Resolver` (`resolver.dfy`) holds `getFeature` and `get_pwm_channel` as
  written. It also holds the corrected, table-driven resolvers.
- `Controller` (`controller.dfy`) holds `setup_pin`, `write`, `read` and
  `get_pins_up`, plus the corrected `setup_pin` and `write`.

**Channel representation.** The source stores the channel in a
`std::uint8_t` initialised to `-1`. The as-written model keeps it as an 8-bit
value with sentinel 255 (`Resolver.NoChannel == ToU8(-1)`). As a result,
`channel >= 0` is always true and `channel < 0` is always false. The
corrected operations use `Option<Byte>` instead.

**In three places the code departs from the header or from its evident
intent, and the model follows the code:**

- The code does not classify (gpio12, alt0) as PWM, although the header
  table lists it.
- `write` never makes a digital write.
- The range is cut to 8 bits.

Each is logged under Findings, with a corrected version beside it.

## Model

| member | source | states |
|---|---|---|
| GpioTypes.ToU8 | Gpio.cpp:129 | Storing an integer in a `uint8_t` keeps it modulo 256, so -1 becomes 255 and values already in 0..255 are unchanged |
| PwmTable.Create | Gpio.h:77-97 | Every PWM table entry names a real pin, uses alt0 or alt5, and drives channel 0 or 1 |
| PwmTable.EntriesAreDistinct | Gpio.h:80-94 | No two PWM names share a (pin, function) pair, so the table can be looked up by pair |
| PwmTable.ChannelAliasing | Gpio.h:80-94 | Channels 0 and 1 are each driven by exactly two entries, on different pins; no other channel appears |
| PinShapes.NewPinIO | Gpio.h:142-162 | A digital pin keeps the name, function and pull-up it is given and starts with value false |
| PinShapes.NewPwm | Gpio.h:169-189 | A PWM pin keeps its table item, range and mode and starts with value 0 |
| PinShapes.ConstructorDefaults | Gpio.h:154-189 | Given only a name, a digital pin has function unknown, pull-up none and value false; given only an item, a PWM pin has range 0xff, mode unknown and value 0 |
| Resolver.GetFeature | Gpio.cpp:145-160 | The result is io exactly when the pin is named and the function is input or output; a pwm result is always a pair of the header table |
| Resolver.PwmChannel | Gpio.cpp:128-143 | The channel is the sentinel 255 exactly when the pair is not pwm; otherwise it is 0 or 1 and equals the header table's channel for that pair, so the two resolvers never disagree |
| Resolver.GetFeatureVersusTable | Gpio.cpp:153-155 | A pair is classified pwm exactly when it is in the header table and is not (gpio12, alt0) |
| Resolver.ResolveFeature | Gpio.h:77-97 | Corrected classifier: io as before, pwm exactly for the header table's pairs |
| Resolver.ResolveChannel | Gpio.h:77-97 | Corrected channel resolver: a channel exactly for pwm pairs, equal to the table's channel, otherwise none |
| Resolver.ResolversAgree | Gpio.cpp:128-160 | Away from (gpio12, alt0), the corrected resolvers equal the as-written ones, with sentinel 255 corresponding to none |
| Resolver.Gpio12Disagreement | Gpio.cpp:153-155 | (gpio12, alt0) is unknown with channel 255 as written, but pwm on channel 0 in the header table |
| Resolver.ResolverExamples | Gpio.cpp:135-156 | (gpio4, input) is io; (gpio4, alt0) and (unknown, input) are unknown; (gpio13, alt0) and (gpio19, alt5) use channel 1; (gpio18, alt5) uses channel 0 |
| Controller.SetupPin | Gpio.cpp:51-86 | An unnamed pin causes no driver call; every PWM mode or range call targets channel 0 or 1 |
| Controller.SetupPinConfigures | Gpio.cpp:58-82 | Trace shape for a named pin: one Fsel for an io pin; for a pwm pin, PwmSetMode if a mode is given and PwmSetRange if the 8-bit range is positive, mode before range; neither for an unknown-feature pin; SetPud iff a pull-up is given, always last; no other call. An unnamed pin gets the empty trace |
| Controller.SetupPinIntended | Gpio.cpp:51-86 | The corrected setup also issues no driver call for an unnamed pin |
| Controller.SetupPinIntendedConfigures | Gpio.cpp:58-82 | The corrected setup has the same trace shape, on the table's channel and with the full 32-bit range |
| Controller.SetupPinMatchesIntended | Gpio.cpp:60-74 | Away from (gpio12, alt0), and for ranges below 256, the as-written and corrected setups emit identical traces |
| Controller.Gpio12SetupFinding | Gpio.cpp:62-73 | A gpio12/alt0 pin with mode and range gets no calls as written, but mode and range calls on channel 0 when corrected |
| Controller.RangeTruncationFinding | Gpio.cpp:65-73 | Range 256 sets no range at all and range 300 sets 44, where the corrected setup passes the range unchanged |
| Controller.FreshPinIOSetup | Gpio.h:154-162 | Configuring a digital pin built from a name alone issues no driver call |
| Controller.FreshPwmSetup | Gpio.h:181-189 | Configuring a PWM pin built from a table item alone sets range 255 on the item's channel and no mode, except that the as-written setup does nothing for gpio12 |
| Controller.Write | Gpio.cpp:112-126 | The pin keeps the written value; the only call is PwmSetData on the resolved channel, so a non-pwm pin is written to channel 255 |
| Controller.WriteIntended | Gpio.cpp:112-126 | The pin keeps the written value; exactly one call: PwmSetData on the table's channel iff the pin is pwm, otherwise GpioWrite of the value to the pin |
| Controller.WriteAgreesOnPwmPins | Gpio.cpp:115-123 | For pins the as-written classifier calls pwm, the as-written and corrected writes coincide |
| Controller.WriteDigitalPinFinding | Gpio.cpp:117-121 | Writing 1 to output pin gpio4 drives PWM channel 255 as written, and makes a digital write when corrected |
| Controller.Read | Gpio.cpp:88-94 | One level read per pin, in list order; each pin's value becomes the level read, and nothing else about the pin changes |
| Controller.Asserted | Gpio.cpp:101-106 | The result contains only pressed pins of the input, contains every pressed pin, and is no longer than the input |
| Controller.AssertedIsOrderedSelection | Gpio.cpp:101-106 | The result is the input at strictly increasing positions, and those positions are exactly the positions of pressed pins |
| Controller.PinsUp | Gpio.cpp:96-110 | Empty input gives no reads and no result. Otherwise every pin is read in order, and the result is the order-preserving selection of pressed pins among the updated pins. Pressed means level 0 under pull-up, or level non-zero otherwise |
| Controller.AssertedExample | Gpio.cpp:103-104 | From [pull-up at 0, pull-up at 1, pull-off at 1], exactly the first and third are kept, in that order |

## Findings

| source | as written | input that shows it | evidently intended | confidence | as-written member | corrected member |
|---|---|---|---|---|---|---|
| Gpio.cpp:117 | `channel < 0` on a `std::uint8_t` never holds, so `write` always calls PWM set-data | writing 1 to pin gpio4 with function output emits PwmSetData(255, 1) | a digital write when the pin has no PWM channel | not executed; high | Controller.WriteDigitalPinFinding | Controller.WriteIntended |
| Gpio.cpp:153-155 | `getFeature` lists only three of the four PWM pairs in the header table; (gpio12, alt0) is missing | setting up pin gpio12, alt0, mode balanced, range 255 emits no call | classify exactly the header table's pairs as PWM (gpio12/alt0 is PWM0) | not executed; medium | Resolver.Gpio12Disagreement | Resolver.ResolveFeature |
| Gpio.cpp:65 | the PWM range is stored in a `std::uint8_t` before the `> 0` test and the driver call | range 256 gives no range call; range 300 sends 44 | pass the 32-bit range unchanged (the header keeps it as `std::uint32_t`) | not executed; medium | Controller.RangeTruncationFinding | Controller.SetupPinIntendedConfigures |

## Left out

- Lifecycle is not modelled because it is only driver calls followed by process exit. This covers the constructor and destructor and `init_gpio`, `init_spi` and `close_gpio` (Gpio.cpp:3-43). As written, the destructor never ends SPI and the `enable_spi` member is never set.
- `setup_pwm` (Gpio.cpp:45-49) is left out: it passes the clock divider straight to the driver.
- The `GpioPwmClock` values (Gpio.h:116-129) are left out: they are driver constants with no logic.
- The numeric values from the bcm2835 header are left out, because they are not visible. These are the pin codes, function-select codes and pull-up codes. Pins, functions and pull-ups are abstract enumeration values.
- `LOG` and the `cerr` diagnostics are left out: they are output only.
- The per-class overloads that `Gpio.h:197-206` declares are left out. The model follows the single-record operations that `Gpio.cpp` defines. `PinIO.ToPin` and `PwmPin.ToPin` map the header classes onto that record.
- Lists of raw pointers and in-place mutation are not modelled. `read` and `get_pins_up` return the updated pins as new values, in the same order.
- Controller.PinsUp: does not model pointer aliasing. In the source, a pin listed twice is one object: it is read twice, and the filter then sees the second level in both positions. The model gives each position its own level. For example, take one pin with pull-up off, listed twice, read as 0 and then 1. The source returns that pin twice; `PinsUp` returns it once.
- The enable argument of the PWM mode call is not recorded in the `PwmSetMode` event, because the controller always passes 1 (enable).
- The driver's actual levels are not modelled: a read returns whatever the oracle says.
- Idempotence of `setup_pin` has no lemma of its own. `SetupPin` is a function of the pin record, so repeating the call gives the same trace by construction.
