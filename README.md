# Irrigation controller: sensing and valve control

This project models the control path of a small irrigation controller sketch
for an ESP32-S3 board. The board has four soil-moisture probes and four flow
sensors behind a 16-channel analog multiplexer, plus four zone valves.

- `readFromInput(channel)` drives bit i of the channel number onto address line i
  (GPIO 7, 6, 5, 4 for bits 0..3). It waits for the multiplexer to settle, then
  samples the shared analog line (GPIO 2).
- `openValveIfSoilDry(sensor, valve)` samples the sensor's channel. It drives
  the valve HIGH (open) when the raw sample is below 2000, and LOW otherwise.
- `setup()` drives the multiplexer enable line (GPIO 1), the four address lines
  and the four valves (GPIO 38, 37, 36, 35) LOW.
- `loop()` decides the four zones in fixed order. Moisture channel 0 drives
  valve 38, channel 1 drives 37, channel 2 drives 36 and channel 3 drives 35.

The model has three modules:

- `Pins` (`pins.dfy`): the pin and channel constants, the zone pairing and the
  number of GPIO pins.
- `Mux` (`mux.dfy`): how a channel number becomes four address-line levels
  (Arduino `bitRead`) and how the multiplexer decodes them.
  - `bitRead(v, b)` is `(v >> b) & 1`. On a signed `int` that shift rounds
    down, which is exactly Dafny's Euclidean `/` by a power of two.
  - So the model is exact for every `int` channel number, negative ones
    included, and no 32-bit width needs modelling.
- `Irrigation` (`irrigation.dfy`): the pin state and the operations on it.
  - The board's outputs are a vector of 49 levels, one per pin number 0..48,
    each the level last written to it. `digitalWrite` takes its pin as an 8-bit
    unsigned number, so an `int` pin argument is taken modulo 256 (valve 294
    drives pin 38). A converted number above 48 changes nothing.
  - `analogRead` is an oracle `Sampler` from the selected multiplexer channel
    to a raw sample.
  - Each source operation has a pure specification function on the levels
    (`SelectChannel`, `Decide`, `Initialised`, `TickLevels`, and `Run` for a
    sequence of ticks). Lemmas prove the source's promises about each one.
  - Class `Board` holds the GPIO output register as an array. Its methods
    (`DigitalWrite`, `ReadFromInput`, `OpenValveIfSoilDry`, `Setup`, `Tick`) update
    it in place. Each method is proved to leave exactly the levels its
    specification function computes from the old levels.

This model follows the code, not the design description. The repository's
design describes moisture calibration to a percentage, a percentage threshold,
interrupt-driven flow metering and telemetry. The code has none of these:

- its valve decision compares the raw sample with the constant 2000;
- the flow channels (15, 14, 13, 12) are only printed by a diagnostic routine
  that is never called;
- the design says actuation goes on without a network, but `setup()` ends with
  the WiFi bring-up, which exits the program when the connection fails, so
  `loop()` then never runs.

## Model

| member | source | states |
|---|---|---|
| `Mux.DecodeAddress` | src/main.cpp:53-57 | The address written for any channel number decodes to that number modulo 16, so channels 0..15 are selected exactly. |
| `Mux.AddressDecode` | src/main.cpp:53-57 | Every setting of the four address lines is the address written for the channel it decodes to. Together with `DecodeAddress` this makes writing and decoding inverse on 0..15. |
| `Mux.SameAddress` | src/main.cpp:53-57 | Two channel numbers put the same levels on the address lines if and only if they agree modulo 16. |
| `Mux.AddressModulo` | src/main.cpp:53-57 | A channel number and its residue modulo 16 drive the same address. |
| `Irrigation.SelectedChannelAddress` | src/main.cpp:53-59 | Whatever the address lines hold, the selected channel is below 16, and writing it back gives the same line levels. |
| `Irrigation.SelectChannel` | src/main.cpp:53-57 | Selecting a channel keeps one level per GPIO pin and changes no pin other than the four address lines. |
| `Irrigation.SelectChannelSelects` | src/main.cpp:53-59 | After selecting a channel, line i holds bit i of the channel. The multiplexer connects the channel modulo 16, and the sample is the converter's value for that channel. |
| `Irrigation.SelectChannelModulo` | src/main.cpp:53-57 | Selecting c leaves the same pin state as selecting c modulo 16; only the low four bits reach the lines. |
| `Irrigation.Decide` | src/main.cpp:62-67 | A valve decision changes no pin other than the address lines and the valve itself. |
| `Irrigation.DecideOpensIffDry` | src/main.cpp:62-67 | After a decision the valve is HIGH if and only if the sensor's channel (modulo 16) samples below 2000. At 2000 and above it is LOW. |
| `Irrigation.DecideValveModulo` | src/main.cpp:62-67 | The valve number reaches digitalWrite as an 8-bit unsigned pin: valve v and v modulo 256 give the same pin state, and a valve number that converts to pin 38 opens that valve exactly when the sample is dry. |
| `Irrigation.DecideSelects` | src/main.cpp:53-63 | When the valve is not an address line, the decision leaves the sensor's channel selected. |
| `Irrigation.DecideIdempotent` | src/main.cpp:62-67 | Repeating a decision with the same samples leaves the pin state unchanged. |
| `Irrigation.Initialised` | src/main.cpp:106-115 | Start-up drives every output pin (enable, four address lines, four valves) LOW and leaves every other pin as it was. |
| `Irrigation.InitialisedState` | src/main.cpp:106-115 | After start-up the multiplexer is enabled on channel 0. The sample is moisture channel 1's, and all four valves are closed. |
| `Irrigation.TickSelectsLastZone` | src/main.cpp:125-128 | The zones are decided in order, so a tick ends with the multiplexer on moisture channel 4. |
| `Irrigation.TickValves` | src/main.cpp:125-128 | After a tick, valve 1..4 is HIGH exactly when moisture channel 1..4 sampled dry. Each valve is decided on its own channel and no later zone overwrites it. |
| `Irrigation.TickOverride` | src/main.cpp:120-129 | Pin by pin, a tick overwrites only the address lines (with moisture channel 4's address) and the four valves (each from its own zone's sample). Every other pin keeps its level. |
| `Irrigation.TickOpensDryZones` | src/main.cpp:125-128 | After a tick every zone's valve follows its own moisture sample, with zones paired in the fixed order. |
| `Irrigation.TickIdempotent` | src/main.cpp:120-129 | A second tick on the same samples changes nothing. |
| `Irrigation.RunKeepsEnabled` | src/main.cpp:106-129 | If the enable line is LOW, it stays LOW through any number of ticks. |
| `Irrigation.RunOpensDryZones` | src/main.cpp:120-129 | However many ticks have run, each valve reflects only its zone's sample in the latest tick, whatever earlier ticks left. |
| `Irrigation.Board.DigitalWrite` | src/main.cpp:54 | Writing sets exactly the level of the pin number modulo 256, and changes nothing when that number is above 48. |
| `Irrigation.Board.ReadFromInput` | src/main.cpp:53-60 | The new pin state is `SelectChannel` of the old one, and the returned sample is the converter's value for the channel modulo 16. |
| `Irrigation.Board.OpenValveIfSoilDry` | src/main.cpp:62-68 | The new pin state is `Decide` of the old one. |
| `Irrigation.Board.Setup` | src/main.cpp:106-115 | The new pin state is `Initialised` of the old one. |
| `Irrigation.Board.Tick` | src/main.cpp:120-129 | The new pin state is `TickLevels` of the old one: the four decisions in order. |

## Left out

- `startServer` (WiFi bring-up, the HTTP routes): network I/O. When the connection fails it calls `exit(1)` at the end of `setup()`, so no control tick ever runs; the model's ticks describe the run in which the connection succeeded.
- `printSensorStats`: it only prints samples over the serial port, and `loop` does not call it. It reads moisture channel 1 twice and never channel 4, which affects only the printed text.
- `delay(5)` in `readFromInput` and `delay(10)` in `loop`: timing only; no pin changes during them.
- `pinMode` and serial initialisation in `setup`: pin direction is not modelled. Every GPIO pin holds the level last written to it.
- `Sample` ignores the multiplexer enable line: the model reads the selected channel even if `MUX_ENABLE` were HIGH, when the multiplexer is disconnected. The sketch never reads in that state: `InitialisedState` shows setup leaves the line LOW and `RunKeepsEnabled` that no tick writes it.
- Hardware behaviour of `analogRead` (converter resolution, settling): each sample is an opaque value supplied by the `Sampler` oracle. One oracle serves a whole tick, because each channel is read once per tick; `Run` takes one oracle per tick.
- Calibration to a moisture percentage, flow-pulse counting, flow-rate estimation and telemetry publishing: the code has none of these.
- The 32-bit width of the channel argument: not needed, since `bitRead` equals the model's division for every integer.
