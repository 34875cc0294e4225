/** Pin and channel assignments of the irrigation controller (an ESP32-S3 board
    with a 16-channel analog multiplexer in front of its one sampled input).
    Pins are Arduino GPIO numbers; channels are multiplexer input numbers. */
module Pins {

  /** Enable input of the multiplexer; driven LOW at start-up and never again. */
  const MUX_ENABLE: int := 1
  /** The shared analog line on which the selected multiplexer channel appears. */
  const MUX_OUTPUT: int := 2
  /** Address lines of the multiplexer, least significant bit first. */
  const MUX0: int := 7
  const MUX1: int := 6
  const MUX2: int := 5
  const MUX3: int := 4

  /** Multiplexer channels of the four soil-moisture probes. */
  const MOIST1: nat := 0
  const MOIST2: nat := 1
  const MOIST3: nat := 2
  const MOIST4: nat := 3

  /** Multiplexer channels of the four flow sensors. No control decision reads them. */
  const FLOW1: nat := 15
  const FLOW2: nat := 14
  const FLOW3: nat := 13
  const FLOW4: nat := 12

  /** Output pins of the four zone valves (HIGH = open). */
  const VALVE1: int := 38
  const VALVE2: int := 37
  const VALVE3: int := 36
  const VALVE4: int := 35

  /** Pin numbers 0..48 of the ESP32-S3; every pin above lies in this range. */
  const GPIO_COUNT: nat := 49

  /** digitalWrite takes its pin as an 8-bit unsigned number, so a pin
      argument is taken modulo 256. */
  const PIN_MODULUS: nat := 256

  /** Address line i carries bit i of the selected channel. */
  predicate IsAddressPin(pin: int)
  {
    pin == MUX0 || pin == MUX1 || pin == MUX2 || pin == MUX3
  }

  predicate IsValvePin(pin: int)
  {
    pin == VALVE1 || pin == VALVE2 || pin == VALVE3 || pin == VALVE4
  }

  /** Every pin the controller configures as an output. */
  predicate IsOutputPin(pin: int)
  {
    pin == MUX_ENABLE || IsAddressPin(pin) || IsValvePin(pin)
  }

  /** Number of irrigation zones. */
  const ZONES: nat := 4

  /** Zone z (0-based) pairs moisture channel MoistureChannel(z) with valve
      ValvePin(z): MOIST1 with VALVE1, ..., MOIST4 with VALVE4. */
  function MoistureChannel(zone: nat): nat
    requires zone < ZONES
  {
    if zone == 0 then MOIST1 else if zone == 1 then MOIST2 else if zone == 2 then MOIST3 else MOIST4
  }

  function ValvePin(zone: nat): int
    requires zone < ZONES
  {
    if zone == 0 then VALVE1 else if zone == 1 then VALVE2 else if zone == 2 then VALVE3 else VALVE4
  }

  /** Digital levels: HIGH is true, LOW is false. */
  const HIGH: bool := true
  const LOW: bool := false
}
