/** The sensing-and-valve control path of the irrigation controller: selecting a
    multiplexer channel and sampling it, the dry-soil threshold that drives one
    valve, the start-up pin initialisation and the control tick over four zones.

    The board's outputs are the levels of its pin numbers 0..48, each holding the
    level last written to it; the analog converter is an oracle giving the raw
    sample of whichever multiplexer channel the address lines currently select. */
module Irrigation {
  import opened Pins
  import opened Mux

  /** Level of every pin number 0..48 (true = HIGH). */
  type Levels = seq<bool>

  /** analogRead(MUX_OUTPUT) while the multiplexer connects channel k: an opaque
      raw sample in converter units. */
  type Sampler = nat -> int

  /** A zone's soil counts as dry, and its valve is opened, strictly below this raw sample. */
  const DRY_THRESHOLD: int := 2000

  predicate SoilDry(sample: int)
  {
    sample < DRY_THRESHOLD
  }

  /** One level per pin number of the board. */
  predicate WellFormed(levels: Levels)
  {
    |levels| == GPIO_COUNT
  }

  /** The pin digitalWrite drives for an int argument: its conversion to an
      8-bit unsigned number. */
  function PinOf(pin: int): nat
  {
    pin % PIN_MODULUS
  }

  /** digitalWrite(pin, level): the pin number, taken modulo 256, now holds the
      level; a converted number beyond the last pin changes nothing. */
  function Write(levels: Levels, pin: int, level: bool): (r: Levels)
    ensures |r| == |levels|
    ensures PinOf(pin) < |levels| ==> r[PinOf(pin)] == level
    ensures forall p :: 0 <= p < |levels| && p != PinOf(pin) ==> r[p] == levels[p]
  {
    if PinOf(pin) < |levels| then levels[PinOf(pin) := level] else levels
  }

  /** Levels of MUX0..MUX3, least significant line first. */
  function AddressLevels(levels: Levels): seq<bool>
    requires WellFormed(levels)
  {
    [levels[MUX0], levels[MUX1], levels[MUX2], levels[MUX3]]
  }

  /** The multiplexer channel connected to MUX_OUTPUT. */
  function SelectedChannel(levels: Levels): nat
    requires WellFormed(levels)
  {
    Decode(AddressLevels(levels))
  }

  /** What analogRead(MUX_OUTPUT) returns in the given pin state. */
  function Sample(levels: Levels, adc: Sampler): int
    requires WellFormed(levels)
  {
    adc(SelectedChannel(levels))
  }

  /** Whatever the address lines hold, they select one of the 16 channels, and
      those levels are the ones written to select it. */
  lemma SelectedChannelAddress(levels: Levels)
    requires WellFormed(levels)
    ensures SelectedChannel(levels) < CHANNELS
    ensures Address(SelectedChannel(levels)) == AddressLevels(levels)
  {
    AddressDecode(AddressLevels(levels));
    assert Pow2(WIDTH) == CHANNELS;
  }

  /** Pin levels after readFromInput(channel) has written bit i of the channel
      onto address line i. */
  function SelectChannel(levels: Levels, channel: int): (r: Levels)
    requires WellFormed(levels)
    ensures WellFormed(r)
    ensures forall p :: 0 <= p < GPIO_COUNT && !IsAddressPin(p) ==> r[p] == levels[p]
  {
    Write(Write(Write(Write(levels, MUX0, BitRead(channel, 0)), MUX1, BitRead(channel, 1)),
                MUX2, BitRead(channel, 2)), MUX3, BitRead(channel, 3))
  }

  /** The written lines select the channel modulo 16, so readFromInput(channel)
      samples exactly that multiplexer input. */
  lemma SelectChannelSelects(levels: Levels, channel: int, adc: Sampler)
    requires WellFormed(levels)
    ensures AddressLevels(SelectChannel(levels, channel)) == Address(channel)
    ensures SelectedChannel(SelectChannel(levels, channel)) == channel % CHANNELS
    ensures Sample(SelectChannel(levels, channel), adc) == adc(channel % CHANNELS)
  {
    DecodeAddress(channel);
  }

  /** Only the low four bits of the channel reach the address lines. */
  lemma SelectChannelModulo(levels: Levels, channel: int)
    requires WellFormed(levels)
    ensures SelectChannel(levels, channel) == SelectChannel(levels, channel % CHANNELS)
  {
    AddressModulo(channel);
    var a, b := Address(channel), Address(channel % CHANNELS);
    assert a[0] == b[0] && a[1] == b[1] && a[2] == b[2] && a[3] == b[3];
  }

  /** Pin levels after openValveIfSoilDry(sensor, valve): the sensor's channel is
      selected and sampled, then the valve is driven HIGH iff the sample is dry. */
  function Decide(levels: Levels, sensor: int, valve: int, adc: Sampler): (r: Levels)
    requires WellFormed(levels)
    ensures WellFormed(r)
    ensures forall p :: 0 <= p < GPIO_COUNT && !IsAddressPin(p) && p != PinOf(valve) ==> r[p] == levels[p]
  {
    var selected := SelectChannel(levels, sensor);
    Write(selected, valve, SoilDry(Sample(selected, adc)))
  }

  /** The valve ends HIGH exactly when the sensor's channel samples below the
      threshold, and LOW at the threshold or above. */
  lemma DecideOpensIffDry(levels: Levels, sensor: int, valve: int, adc: Sampler)
    requires WellFormed(levels) && PinOf(valve) < GPIO_COUNT
    ensures Decide(levels, sensor, valve, adc)[PinOf(valve)] <==> adc(sensor % CHANNELS) < DRY_THRESHOLD
  {
    SelectChannelSelects(levels, sensor, adc);
  }

  /** digitalWrite sees the valve number as an 8-bit unsigned pin, so valve v
      and v modulo 256 drive the same pin (valve 294 drives VALVE1). */
  lemma DecideValveModulo(levels: Levels, sensor: int, valve: int, adc: Sampler)
    requires WellFormed(levels)
    ensures Decide(levels, sensor, valve, adc) == Decide(levels, sensor, valve % PIN_MODULUS, adc)
    ensures PinOf(valve) == VALVE1 ==> (Decide(levels, sensor, valve, adc)[VALVE1] <==> adc(sensor % CHANNELS) < DRY_THRESHOLD)
  {
    assert PinOf(valve % PIN_MODULUS) == PinOf(valve);
    if PinOf(valve) == VALVE1 {
      DecideOpensIffDry(levels, sensor, valve, adc);
    }
  }

  /** Unless the valve is itself an address line, the decision leaves the
      sensor's channel selected. */
  lemma DecideSelects(levels: Levels, sensor: int, valve: int, adc: Sampler)
    requires WellFormed(levels) && !IsAddressPin(PinOf(valve))
    ensures AddressLevels(Decide(levels, sensor, valve, adc)) == Address(sensor)
    ensures SelectedChannel(Decide(levels, sensor, valve, adc)) == sensor % CHANNELS
  {
    var selected := SelectChannel(levels, sensor);
    assert AddressLevels(Decide(levels, sensor, valve, adc)) == AddressLevels(selected);
    SelectChannelSelects(levels, sensor, adc);
  }

  /** Re-running a valve decision on the same samples changes nothing. */
  lemma DecideIdempotent(levels: Levels, sensor: int, valve: int, adc: Sampler)
    requires WellFormed(levels)
    ensures Decide(Decide(levels, sensor, valve, adc), sensor, valve, adc) == Decide(levels, sensor, valve, adc)
  {
    var once := Decide(levels, sensor, valve, adc);
    var twice := Decide(once, sensor, valve, adc);
    SelectChannelSelects(levels, sensor, adc);
    SelectChannelSelects(once, sensor, adc);
    forall p | 0 <= p < GPIO_COUNT
      ensures twice[p] == once[p]
    {
    }
  }

  /** Pin levels after setup() has driven every output LOW. */
  function Initialised(levels: Levels): (r: Levels)
    requires WellFormed(levels)
    ensures WellFormed(r)
    ensures forall p :: 0 <= p < GPIO_COUNT ==> r[p] == if IsOutputPin(p) then LOW else levels[p]
  {
    var enabled := Write(levels, MUX_ENABLE, LOW);
    var addressed := Write(Write(Write(Write(enabled, MUX0, LOW), MUX1, LOW), MUX2, LOW), MUX3, LOW);
    Write(Write(Write(Write(addressed, VALVE1, LOW), VALVE2, LOW), VALVE3, LOW), VALVE4, LOW)
  }

  /** After setup() the multiplexer is enabled on channel 0 and every valve is closed. */
  lemma InitialisedState(levels: Levels, adc: Sampler)
    requires WellFormed(levels)
    ensures Initialised(levels)[MUX_ENABLE] == LOW
    ensures SelectedChannel(Initialised(levels)) == 0
    ensures Sample(Initialised(levels), adc) == adc(MOIST1)
    ensures forall k :: 0 <= k < ZONES ==> Initialised(levels)[ValvePin(k)] == LOW
  {
    var r := Initialised(levels);
    assert AddressLevels(r) == Address(0);
    DecodeAddress(0);
  }

  /** Pin levels after one loop(): the four zones decided in order 1, 2, 3, 4. */
  function TickLevels(levels: Levels, adc: Sampler): (r: Levels)
    requires WellFormed(levels)
    ensures WellFormed(r)
  {
    var zone1 := Decide(levels, MOIST1, VALVE1, adc);
    var zone2 := Decide(zone1, MOIST2, VALVE2, adc);
    var zone3 := Decide(zone2, MOIST3, VALVE3, adc);
    Decide(zone3, MOIST4, VALVE4, adc)
  }

  /** The level a tick leaves on pin p: the last zone's channel on the address
      lines, each valve set from its own zone's sample, every other pin as it was. */
  function TickPin(levels: Levels, adc: Sampler, p: nat): bool
    requires p < |levels|
  {
    if p == MUX0 then BitRead(MOIST4, 0)
    else if p == MUX1 then BitRead(MOIST4, 1)
    else if p == MUX2 then BitRead(MOIST4, 2)
    else if p == MUX3 then BitRead(MOIST4, 3)
    else if p == VALVE1 then SoilDry(adc(MOIST1))
    else if p == VALVE2 then SoilDry(adc(MOIST2))
    else if p == VALVE3 then SoilDry(adc(MOIST3))
    else if p == VALVE4 then SoilDry(adc(MOIST4))
    else levels[p]
  }

  /** A tick ends with the multiplexer on the last zone's channel. */
  lemma TickSelectsLastZone(levels: Levels, adc: Sampler)
    requires WellFormed(levels)
    ensures AddressLevels(TickLevels(levels, adc)) == Address(MOIST4)
    ensures SelectedChannel(TickLevels(levels, adc)) == MOIST4
  {
    var zone1 := Decide(levels, MOIST1, VALVE1, adc);
    var zone2 := Decide(zone1, MOIST2, VALVE2, adc);
    var zone3 := Decide(zone2, MOIST3, VALVE3, adc);
    DecideSelects(zone3, MOIST4, VALVE4, adc);
  }

  /** Each zone's valve is decided on its own channel, and no later zone writes it. */
  lemma TickValves(levels: Levels, adc: Sampler)
    requires WellFormed(levels)
    ensures TickLevels(levels, adc)[VALVE1] == SoilDry(adc(MOIST1))
    ensures TickLevels(levels, adc)[VALVE2] == SoilDry(adc(MOIST2))
    ensures TickLevels(levels, adc)[VALVE3] == SoilDry(adc(MOIST3))
    ensures TickLevels(levels, adc)[VALVE4] == SoilDry(adc(MOIST4))
  {
    var zone1 := Decide(levels, MOIST1, VALVE1, adc);
    var zone2 := Decide(zone1, MOIST2, VALVE2, adc);
    var zone3 := Decide(zone2, MOIST3, VALVE3, adc);
    DecideOpensIffDry(levels, MOIST1, VALVE1, adc);
    DecideOpensIffDry(zone1, MOIST2, VALVE2, adc);
    DecideOpensIffDry(zone2, MOIST3, VALVE3, adc);
    DecideOpensIffDry(zone3, MOIST4, VALVE4, adc);
  }

  /** Pin by pin, one tick overwrites the address lines and the four valves and
      leaves every other pin as it was. */
  lemma TickOverride(levels: Levels, adc: Sampler)
    requires WellFormed(levels)
    ensures forall p :: 0 <= p < GPIO_COUNT ==> TickLevels(levels, adc)[p] == TickPin(levels, adc, p)
  {
    var r := TickLevels(levels, adc);
    TickSelectsLastZone(levels, adc);
    TickValves(levels, adc);
    assert r[MUX0] == AddressLevels(r)[0] && r[MUX1] == AddressLevels(r)[1];
    assert r[MUX2] == AddressLevels(r)[2] && r[MUX3] == AddressLevels(r)[3];
  }

  /** Every zone's valve is open exactly when its moisture channel samples dry. */
  predicate ValvesFollow(levels: Levels, adc: Sampler)
  {
    WellFormed(levels) &&
    forall k :: 0 <= k < ZONES ==> (levels[ValvePin(k)] <==> SoilDry(adc(MoistureChannel(k))))
  }

  /** After a tick, valve k is open exactly when moisture channel k sampled dry. */
  lemma TickOpensDryZones(levels: Levels, adc: Sampler)
    requires WellFormed(levels)
    ensures ValvesFollow(TickLevels(levels, adc), adc)
  {
    TickValves(levels, adc);
  }

  /** Re-running a whole tick on the same samples changes nothing. */
  lemma TickIdempotent(levels: Levels, adc: Sampler)
    requires WellFormed(levels)
    ensures TickLevels(TickLevels(levels, adc), adc) == TickLevels(levels, adc)
  {
    var once := TickLevels(levels, adc);
    var twice := TickLevels(once, adc);
    TickOverride(levels, adc);
    TickOverride(once, adc);
    forall p | 0 <= p < GPIO_COUNT
      ensures twice[p] == once[p]
    {
    }
  }

  /** Pin levels after loop() has run once per sampler, in order; the last
      sampler is that of the latest tick. */
  function Run(levels: Levels, samples: seq<Sampler>): (r: Levels)
    requires WellFormed(levels)
    ensures WellFormed(r)
    decreases |samples|
  {
    if samples == [] then levels
    else TickLevels(Run(levels, samples[..|samples| - 1]), samples[|samples| - 1])
  }

  /** The multiplexer stays enabled: no tick writes MUX_ENABLE. */
  lemma {:induction false} RunKeepsEnabled(levels: Levels, samples: seq<Sampler>)
    requires WellFormed(levels) && levels[MUX_ENABLE] == LOW
    ensures Run(levels, samples)[MUX_ENABLE] == LOW
    decreases |samples|
  {
    if samples != [] {
      var before := samples[..|samples| - 1];
      RunKeepsEnabled(levels, before);
      TickOverride(Run(levels, before), samples[|samples| - 1]);
    }
  }

  /** However many ticks have run, each valve reflects only its zone's latest
      sample: a valve that missed its target earlier is corrected by the next tick. */
  lemma RunOpensDryZones(levels: Levels, samples: seq<Sampler>)
    requires WellFormed(levels) && |samples| > 0
    ensures ValvesFollow(Run(levels, samples), samples[|samples| - 1])
  {
    TickOpensDryZones(Run(levels, samples[..|samples| - 1]), samples[|samples| - 1]);
  }

  /** The board's output register, one level per pin number, updated in place by
      digitalWrite. */
  class Board {
    const pins: array<bool>

    predicate Valid()
      reads this
    {
      pins.Length == GPIO_COUNT
    }

    /** Power-on: the pins hold whatever levels they come up with. */
    constructor (initial: Levels)
      requires WellFormed(initial)
      ensures Valid() && pins[..] == initial
      ensures fresh(pins)
    {
      pins := new bool[GPIO_COUNT](p requires 0 <= p < GPIO_COUNT => initial[p]);
    }

    /** digitalWrite(pin, level). */
    method DigitalWrite(pin: int, level: bool)
      requires Valid()
      modifies pins
      ensures pins[..] == Write(old(pins[..]), pin, level)
    {
      if PinOf(pin) < pins.Length {
        pins[PinOf(pin)] := level;
      }
    }

    /** readFromInput(input): drive bit i of `input` onto address line i, let the
        multiplexer settle, and sample the shared analog line. */
    method ReadFromInput(input: int, adc: Sampler) returns (sample: int)
      requires Valid()
      modifies pins
      ensures pins[..] == SelectChannel(old(pins[..]), input)
      ensures sample == adc(input % CHANNELS)
    {
      DigitalWrite(MUX0, BitRead(input, 0));
      DigitalWrite(MUX1, BitRead(input, 1));
      DigitalWrite(MUX2, BitRead(input, 2));
      DigitalWrite(MUX3, BitRead(input, 3));
      // The 5 ms settle delay changes no pin.
      sample := Sample(pins[..], adc);
      SelectChannelSelects(old(pins[..]), input, adc);
    }

    /** openValveIfSoilDry(sensor, valve). */
    method OpenValveIfSoilDry(sensor: int, valve: int, adc: Sampler)
      requires Valid()
      modifies pins
      ensures pins[..] == Decide(old(pins[..]), sensor, valve, adc)
    {
      var sample := ReadFromInput(sensor, adc);
      SelectChannelSelects(old(pins[..]), sensor, adc);
      if sample < DRY_THRESHOLD {
        DigitalWrite(valve, HIGH);
      } else {
        DigitalWrite(valve, LOW);
      }
    }

    /** The pin-initialising part of setup(). */
    method Setup()
      requires Valid()
      modifies pins
      ensures pins[..] == Initialised(old(pins[..]))
    {
      DigitalWrite(MUX_ENABLE, LOW);
      DigitalWrite(MUX0, LOW);
      DigitalWrite(MUX1, LOW);
      DigitalWrite(MUX2, LOW);
      DigitalWrite(MUX3, LOW);

      DigitalWrite(VALVE1, LOW);
      DigitalWrite(VALVE2, LOW);
      DigitalWrite(VALVE3, LOW);
      DigitalWrite(VALVE4, LOW);
    }

    /** One pass of loop(): the four zones in order; the 10 ms pacing delay changes no pin. */
    method Tick(adc: Sampler)
      requires Valid()
      modifies pins
      ensures pins[..] == TickLevels(old(pins[..]), adc)
    {
      OpenValveIfSoilDry(MOIST1, VALVE1, adc);
      OpenValveIfSoilDry(MOIST2, VALVE2, adc);
      OpenValveIfSoilDry(MOIST3, VALVE3, adc);
      OpenValveIfSoilDry(MOIST4, VALVE4, adc);
    }
  }
}
